/** The home page: which view it renders, when it reads the rooms, and how
    its children are wired back to the room list. */
module Home {
  import opened JsString
  import opened Types

  /** What a child's optional `onSuccess` prop holds: nothing, so that
      `onSuccess?.()` does nothing, or the page's `handleSuccess`. */
  datatype SuccessHandler = NoHandler | HandleSuccess

  /** The number of `refetch` calls one success of a child makes through
      its handler. */
  function RefetchCalls(h: SuccessHandler): (r: nat)
    ensures r <= 1
    ensures r == 1 <==> h == HandleSuccess
  {
    match h
    case NoHandler => 0
    case HandleSuccess => 1
  }

  /** The props of one `RoomCard`. */
  datatype CardProps = CardProps(room: Room, onSuccess: SuccessHandler)

  datatype HomeView =
    | Nothing
    | Welcome
    | WrongNetwork
    | Grid(adminButtons: bool, cards: seq<CardProps>,
           addRoomOnSuccess: SuccessHandler, availabilityOnSuccess: SuccessHandler)

  /** The read's `enabled` option: `mounted && !!address && isCorrectChain`. */
  predicate ReadEnabled(mounted: bool, address: Option<string>, isCorrectChain: bool) {
    mounted && Truthy(address) && isCorrectChain
  }

  /** The view. `data` is the read's result, `[]` while it has none. */
  function View(mounted: bool, address: Option<string>, isCorrectChain: bool,
                data: Option<seq<Room>>): (r: HomeView)
    ensures !mounted <==> r.Nothing?
    ensures r.Welcome? <==> mounted && !Truthy(address)
    ensures r.WrongNetwork? <==> mounted && Truthy(address) && !isCorrectChain
    ensures r.Grid? <==> ReadEnabled(mounted, address, isCorrectChain)
    ensures r.Grid? ==> r.adminButtons
    ensures r.Grid? ==>
      var rooms := if data.Some? then data.value else [];
      && |r.cards| == |rooms|
      && forall i :: 0 <= i < |rooms| ==> r.cards[i].room == rooms[i]
  {
    if !mounted then Nothing
    else if !Truthy(address) then Welcome
    else if !isCorrectChain then WrongNetwork
    else
      var rooms := if data.Some? then data.value else [];
      Grid(Truthy(address),
           seq(|rooms|, i requires 0 <= i < |rooms| => CardProps(rooms[i], HandleSuccess)),
           HandleSuccess, HandleSuccess)
  }

  /** Without an address the welcome view shows whatever the chain. */
  lemma WelcomeIgnoresChain(address: Option<string>, c1: bool, c2: bool, data: Option<seq<Room>>)
    requires !Truthy(address)
    ensures View(true, address, c1, data) == View(true, address, c2, data) == Welcome
  {
  }

  /** The grid hands every child the page's `handleSuccess`, never an
      absent handler, so each of their callbacks refetches exactly once. */
  lemma ChildrenRefetchOnce(mounted: bool, address: Option<string>, isCorrectChain: bool,
                            data: Option<seq<Room>>)
    ensures var v := View(mounted, address, isCorrectChain, data);
      v.Grid? ==>
        && v.addRoomOnSuccess == HandleSuccess && RefetchCalls(v.addRoomOnSuccess) == 1
        && v.availabilityOnSuccess == HandleSuccess && RefetchCalls(v.availabilityOnSuccess) == 1
        && forall i :: 0 <= i < |v.cards| ==> v.cards[i].onSuccess == HandleSuccess && RefetchCalls(v.cards[i].onSuccess) == 1
  {
  }

  /** A child of the grid whose success callback fires: the card at a
      position, the Add Room dialog or the availability dialog. */
  datatype Child = CardAt(index: nat) | AddRoomDialog | AvailabilityDialog

  /** The handler the grid gave that child; a position past the last card
      names no child and has none. */
  function HandlerOf(v: HomeView, c: Child): SuccessHandler
    requires v.Grid?
  {
    match c
    case CardAt(i) => if i < |v.cards| then v.cards[i].onSuccess else NoHandler
    case AddRoomDialog => v.addRoomOnSuccess
    case AvailabilityDialog => v.availabilityOnSuccess
  }

  /** The page's `refetch` calls after its children's successes `events`. */
  function Refetches(v: HomeView, events: seq<Child>): nat
    requires v.Grid?
  {
    if events == [] then 0
    else Refetches(v, events[..|events| - 1]) + RefetchCalls(HandlerOf(v, events[|events| - 1]))
  }

  predicate NamesChild(v: HomeView, c: Child)
    requires v.Grid?
  {
    c.CardAt? ==> c.index < |v.cards|
  }

  /** On the grid, every success of any card or dialog refetches the rooms
      exactly once: after `events` the page has refetched `|events|` times. */
  lemma {:induction false} OneRefetchPerSuccess(mounted: bool, address: Option<string>, isCorrectChain: bool,
                                                data: Option<seq<Room>>, events: seq<Child>)
    requires View(mounted, address, isCorrectChain, data).Grid?
    requires forall i :: 0 <= i < |events| ==> NamesChild(View(mounted, address, isCorrectChain, data), events[i])
    ensures Refetches(View(mounted, address, isCorrectChain, data), events) == |events|
  {
    var v := View(mounted, address, isCorrectChain, data);
    if events != [] {
      OneRefetchPerSuccess(mounted, address, isCorrectChain, data, events[..|events| - 1]);
      ChildrenRefetchOnce(mounted, address, isCorrectChain, data);
      assert NamesChild(v, events[|events| - 1]);
    }
  }
}
