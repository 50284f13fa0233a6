/** The availability dialog: a table of all rooms, one toggle button per
    row, the `setRoomAvailability` request and the lifecycle flags. */
module Availability {
  import opened JsString
  import opened JsNumber
  import opened Types
  import Utils

  const SetFunction: string := "setRoomAvailability"

  /** `getCategoryString`, the dialog's own copy of the category switch. */
  function CategoryString(category: int): (r: string)
    ensures r == Utils.CategoryLabel(category)
  {
    match category
    case 0 => "Presidential"
    case 1 => "Deluxe"
    case 2 => "Suite"
    case _ => "Unknown"
  }

  /** `formatPrice`: `Number(value).toString()`, which reads back as the
      same integer. */
  function FormatPrice(value: int): (r: string)
    ensures ParseInt(r) == Some(value)
  {
    IntToDecimalRoundTrip(value);
    IntToDecimal(value)
  }

  function StatusText(isAvailable: bool): string {
    if isAvailable then "Available" else "Unavailable"
  }

  /** The request a row's button issues: always the negation of the flag
      the row shows. */
  function ToggleRequest(room: Room): (r: WriteRequest)
    ensures r.functionName == SetFunction && |r.args| == 2
    ensures r.args[0] == Big(room.id) && r.args[1] == Flag(!room.isAvailable)
  {
    WriteRequest(SetFunction, [Big(room.id), Flag(!room.isAvailable)])
  }

  predicate RowDisabled(isLoading: bool, isConfirming: bool) {
    isLoading || isConfirming
  }

  /** The idle label "Set to ...", naming the state opposite to the status. */
  function IdleAction(isAvailable: bool): (r: string)
    ensures r == "Set to " + StatusText(!isAvailable)
    ensures r != "Set to " + StatusText(isAvailable)
  {
    "Set to " + (if isAvailable then "Unavailable" else "Available")
  }

  /** The row label as written: progress is shown on the row whose id equals
      `Number(hash)`. For the ids a table holds (below 2^53) that equality
      holds exactly when the hash, read as a number, is the id itself. */
  function ActionLabelAsWritten(room: Room, isLoading: bool, isConfirming: bool, hash: Option<nat>): (r: string)
    ensures hash == Some(room.id) && isConfirming ==> r == "Confirming..."
    ensures hash == Some(room.id) && isLoading && !isConfirming ==> r == "Updating..."
    ensures hash != Some(room.id) ==> r == IdleAction(room.isAvailable)
  {
    var onThisRow := hash.Some? && room.id == hash.value;
    if isConfirming && onThisRow then "Confirming..."
    else if isLoading && onThisRow then "Updating..."
    else IdleAction(room.isAvailable)
  }

  /** A transaction hash is a 256-bit value; unless it happens to be smaller
      than every room id, no row ever shows "Confirming..." or "Updating...". */
  lemma AsWrittenNeverShowsProgress(room: Room, isLoading: bool, isConfirming: bool, hash: nat)
    requires room.id < hash
    ensures ActionLabelAsWritten(room, isLoading, isConfirming, Some(hash)) == IdleAction(room.isAvailable)
  {
  }

  /** The concrete case: room 3 was clicked and its transaction is being
      confirmed, but its button still reads "Set to Unavailable". */
  lemma AsWrittenCounterexample()
    ensures
      var room := Room(3, 1, 100, true, None);
      var hash: nat := 0x5c504ed432cb51138bcf09aa5e8a410dd4a1e204ef84bfed1be16dfba1b22060;
      ActionLabelAsWritten(room, true, true, Some(hash)) == "Set to Unavailable"
  {
  }

  /** The intended label: progress is shown on the row that was clicked,
      which the dialog remembers as `pendingRow`. */
  function ActionLabel(room: Room, isLoading: bool, isConfirming: bool, pendingRow: Option<nat>): (r: string)
    ensures pendingRow == Some(room.id) && isConfirming ==> r == "Confirming..."
    ensures pendingRow == Some(room.id) && isLoading && !isConfirming ==> r == "Updating..."
    ensures pendingRow != Some(room.id) || !(isLoading || isConfirming) ==> r == IdleAction(room.isAvailable)
  {
    var onThisRow := pendingRow == Some(room.id);
    if isConfirming && onThisRow then "Confirming..."
    else if isLoading && onThisRow then "Updating..."
    else IdleAction(room.isAvailable)
  }

  /** One table row: number, category, price, status and the action button. */
  datatype RowView = RowView(number: string, category: string, price: string,
                             status: string, action: string, disabled: bool)

  /** A row as the dialog renders it, its label chosen by the write's
      `hash`. */
  function Row(room: Room, isLoading: bool, isConfirming: bool, hash: Option<nat>): (r: RowView)
    ensures ParseInt(r.number) == Some(room.id) && ParseInt(r.price) == Some(room.pricePerNight)
    ensures r.category == Utils.CategoryLabel(room.category)
    ensures r.status == StatusText(room.isAvailable)
    ensures r.action == ActionLabelAsWritten(room, isLoading, isConfirming, hash)
    ensures r.disabled <==> isLoading || isConfirming
  {
    IntToDecimalRoundTrip(room.id);
    RowView(IntToDecimal(room.id), CategoryString(room.category), FormatPrice(room.pricePerNight),
            StatusText(room.isAvailable), ActionLabelAsWritten(room, isLoading, isConfirming, hash),
            RowDisabled(isLoading, isConfirming))
  }

  /** `allRooms?.map(...)`: one row per room, in order; none before the
      read returns. */
  function Rows(allRooms: Option<seq<Room>>, isLoading: bool, isConfirming: bool, hash: Option<nat>): (r: seq<RowView>)
    ensures allRooms.None? ==> r == []
    ensures allRooms.Some? ==> |r| == |allRooms.value|
    ensures allRooms.Some? ==> forall i :: 0 <= i < |r| ==> r[i] == Row(allRooms.value[i], isLoading, isConfirming, hash)
  {
    if allRooms.None? then []
    else seq(|allRooms.value|, i requires 0 <= i < |allRooms.value| => Row(allRooms.value[i], isLoading, isConfirming, hash))
  }

  /** As rendered, a table whose room ids are all below the hash shows
      no progress on any row, whatever the lifecycle flags. */
  lemma TableNeverShowsProgress(rooms: seq<Room>, isLoading: bool, isConfirming: bool, hash: nat)
    requires forall i :: 0 <= i < |rooms| ==> rooms[i].id < hash
    ensures forall i :: 0 <= i < |rooms| ==>
      Rows(Some(rooms), isLoading, isConfirming, Some(hash))[i].action == IdleAction(rooms[i].isAvailable)
  {
  }

  /** The intended row: the same columns, with the label of the row that
      was clicked, `pendingRow`. */
  function RowIntended(room: Room, isLoading: bool, isConfirming: bool, pendingRow: Option<nat>): (r: RowView)
    ensures r.action == ActionLabel(room, isLoading, isConfirming, pendingRow)
    ensures forall hash: Option<nat> ::
      r.(action := "") == Row(room, isLoading, isConfirming, hash).(action := "")
  {
    Row(room, isLoading, isConfirming, None).(action := ActionLabel(room, isLoading, isConfirming, pendingRow))
  }

  function RowsIntended(rooms: seq<Room>, isLoading: bool, isConfirming: bool, pendingRow: Option<nat>): (r: seq<RowView>)
    ensures |r| == |rooms|
    ensures forall i :: 0 <= i < |r| ==> r[i] == RowIntended(rooms[i], isLoading, isConfirming, pendingRow)
  {
    seq(|rooms|, i requires 0 <= i < |rooms| => RowIntended(rooms[i], isLoading, isConfirming, pendingRow))
  }

  /** The dialog's state. The table's rooms come from its own read, counted
      by `refetches`; `hash` is the write hook's `data`, the hash of the last
      write that went out. The confirmation state is a parameter. */
  class SetAvailabilityModal {
    var isLoading: bool
    var open: bool
    var hash: Option<nat>
    var requests: seq<WriteRequest>
    var successCalls: nat
    var refetches: nat

    ghost predicate Valid()
      reads this
    {
      && (isLoading ==> requests != [])
      && (hash.Some? ==> requests != [])
      && forall i :: 0 <= i < |requests| ==> requests[i].functionName == SetFunction
    }

    constructor ()
      ensures Valid() && !isLoading && !open && hash.None?
      ensures requests == [] && successCalls == 0 && refetches == 0
    {
      isLoading := false;
      open := false;
      hash := None;
      requests := [];
      successCalls := 0;
      refetches := 0;
    }

    /** The table as rendered. */
    function Table(allRooms: Option<seq<Room>>, isConfirming: bool): (r: seq<RowView>)
      reads this
      ensures |r| == if allRooms.Some? then |allRooms.value| else 0
      ensures forall i :: 0 <= i < |r| ==>
        r[i].action == ActionLabelAsWritten(allRooms.value[i], isLoading, isConfirming, hash)
    {
      Rows(allRooms, isLoading, isConfirming, hash)
    }

    /** Pressing the button of the row showing `room`: disabled while loading
        or confirming; otherwise `handleSetAvailability(room.id,
        !room.isAvailable)`, whose caught error clears `isLoading`. A write
        that goes out makes `txHash`, the hash the wallet returns, the hook's
        `hash`. */
    method ClickRow(room: Room, isConfirming: bool, writeThrows: bool, txHash: nat)
      requires Valid() && open
      modifies this
      ensures Valid()
      ensures open == old(open) && successCalls == old(successCalls) && refetches == old(refetches)
      ensures
        if RowDisabled(old(isLoading), isConfirming) || writeThrows then
          hash == old(hash) && requests == old(requests)
          && isLoading == (old(isLoading) && RowDisabled(old(isLoading), isConfirming))
        else
          isLoading && hash == Some(txHash) && requests == old(requests) + [ToggleRequest(room)]
    {
      if RowDisabled(isLoading, isConfirming) {
        return;
      }
      isLoading := true;
      if writeThrows {
        isLoading := false;
      } else {
        requests := requests + [ToggleRequest(room)];
        hash := Some(txHash);
      }
    }

    /** The success effect: refetch the table, call `onSuccess`, clear
        `isLoading`. Unlike the other dialogs it stays open. */
    method Confirm()
      requires Valid()
      modifies this
      ensures Valid()
      ensures !isLoading && open == old(open) && hash == old(hash) && requests == old(requests)
      ensures refetches == old(refetches) + 1 && successCalls == old(successCalls) + 1
    {
      refetches := refetches + 1;
      successCalls := successCalls + 1;
      isLoading := false;
    }

    method Dismiss()
      requires Valid()
      modifies this`open
      ensures Valid() && !open
    {
      open := false;
    }
  }

  /** In the intended table, after a click that went out, the clicked row
      reports progress and every other row keeps its idle label. */
  lemma ProgressOnClickedRowOnly(rooms: seq<Room>, i: nat, isConfirming: bool)
    requires i < |rooms|
    requires forall j, k :: 0 <= j < k < |rooms| ==> rooms[j].id != rooms[k].id
    ensures var rows := RowsIntended(rooms, true, isConfirming, Some(rooms[i].id));
      && rows[i].action == (if isConfirming then "Confirming..." else "Updating...")
      && forall j :: 0 <= j < |rooms| && j != i ==> rows[j].action == IdleAction(rooms[j].isAvailable)
  {
    var rows := RowsIntended(rooms, true, isConfirming, Some(rooms[i].id));
    forall j | 0 <= j < |rooms| && j != i
      ensures rows[j].action == IdleAction(rooms[j].isAvailable)
    {
      if j < i { assert rooms[j].id != rooms[i].id; } else { assert rooms[i].id != rooms[j].id; }
    }
  }
}
