/** The booking dialog: a nights field with a stepper, the total price, the
    `bookRoomByCategory` request and the transaction lifecycle flags. */
module Booking {
  import opened JsString
  import opened JsNumber
  import opened Types

  /** `24 * 60 * 60`, the seconds added per night. */
  const SecondsPerNight: int := 24 * 60 * 60

  /** The form's default value for the nights field. */
  const DefaultNights: string := "1"

  const BookFunction: string := "bookRoomByCategory"

  /** The schema: `z.string().min(1)`, only a non-empty string is required. */
  predicate NightsValid(nights: string) {
    |nights| >= 1
  }

  /** The browser's own constraint check on the field, an
      `<input type="number" min="1">` inside a form that does not opt out
      of validation: an empty value passes, any other value must be a whole
      number of at least 1 (the step is 1, counted from `min`). A number
      input holds "" whenever its text is not a number, so the "NaN" that
      "+" writes into an empty field is checked as "". */
  predicate BrowserAccepts(nights: string) {
    || nights == ""
    || nights == "NaN"
    || (|nights| >= 1 && AllDigitsIn(nights, 10) && DigitsValue(nights, 10) >= 1)
  }

  /** A field the browser lets through either does not parse or holds a
      count of at least one night. */
  lemma AcceptedNightsPositive(nights: string)
    requires BrowserAccepts(nights) && ParseInt(nights).Some?
    ensures ParseInt(nights).value >= 1
  {
    if nights == "NaN" {
      ParseIntRoundTrip(None);
    } else if nights != "" {
      ParseDigits(nights);
    }
  }

  /** The browser stops "0", "-2" and "1.5" before the submit handler runs,
      and lets "3" through. */
  lemma BrowserRejectsBelowOne()
    ensures !BrowserAccepts("0") && !BrowserAccepts("-2") && !BrowserAccepts("1.5")
    ensures BrowserAccepts("3")
  {
  }

  /** The total shown in the dialog: `parseInt(nights || "1") * parseInt(price)`,
      printed with `toString` ("NaN" when either side is not a number). */
  function TotalPrice(nights: string, pricePerNight: string): string {
    NumberToString(Times(ParseInt(if nights == "" then DefaultNights else nights), ParseInt(pricePerNight)))
  }

  /** The shown total reads back as the product of the two parsed sides,
      and it is "NaN" exactly when one of them does not parse. */
  lemma TotalPriceReadsBack(nights: string, pricePerNight: string)
    ensures ParseInt(TotalPrice(nights, pricePerNight))
      == Times(ParseInt(if nights == "" then DefaultNights else nights), ParseInt(pricePerNight))
    ensures TotalPrice(nights, pricePerNight) == "NaN"
      <==> ParseInt(if nights == "" then DefaultNights else nights).None? || ParseInt(pricePerNight).None?
  {
    ParseIntRoundTrip(Times(ParseInt(if nights == "" then DefaultNights else nights), ParseInt(pricePerNight)));
  }

  /** For decimal inputs the total is the exact integer product; an empty
      nights field counts as one night. */
  lemma TotalPriceIsProduct(nights: int, price: int)
    ensures TotalPrice(IntToDecimal(nights), IntToDecimal(price)) == IntToDecimal(nights * price)
    ensures TotalPrice("", IntToDecimal(price)) == IntToDecimal(price)
  {
    IntToDecimalRoundTrip(nights);
    IntToDecimalRoundTrip(price);
    assert ParseInt(DefaultNights) == Some(1) by {
      assert DefaultNights == NatToDecimal(1);
      IntToDecimalRoundTrip(1);
    }
  }

  /** Three nights at 100 per night cost 300. */
  lemma ThreeNightsAtHundred()
    ensures TotalPrice("3", "100") == "300"
  {
    assert NatToDecimal(3) == "3";
    assert NatToDecimal(100) == NatToDecimal(10) + "0" == NatToDecimal(1) + "0" + "0" == "100";
    assert NatToDecimal(300) == NatToDecimal(30) + "0" == NatToDecimal(3) + "0" + "0" == "300";
    TotalPriceIsProduct(3, 100);
  }

  /** `Math.floor(Date.now() / 1000)`: the current time in whole seconds. */
  function CheckIn(nowMs: nat): (r: nat)
    ensures r * 1000 <= nowMs < (r + 1) * 1000
  {
    nowMs / 1000
  }

  /** The arguments `[BigInt(category), BigInt(checkIn), BigInt(checkOut)]`.
      `BigInt` throws on NaN, so there are none when the nights field does
      not parse. */
  function BookingArgs(category: int, nowMs: nat, nights: string): (r: Option<seq<Arg>>)
    ensures r.Some? <==> ParseInt(nights).Some?
    ensures r.Some? ==>
      && |r.value| == 3
      && r.value[0] == Big(category)
      && r.value[1] == Big(CheckIn(nowMs))
      && r.value[2].Big?
      && r.value[2].n - r.value[1].n == ParseInt(nights).value * 86400
  {
    var checkIn := CheckIn(nowMs);
    var checkOut := Plus(Times(ParseInt(nights), Some(SecondsPerNight)), checkIn);
    if checkOut.None? then None
    else Some([Big(category), Big(checkIn), Big(checkOut.value)])
  }

  /** A request this dialog can issue for `category`: the right function,
      the category first, and a stay of a whole number of nights, at least
      one. */
  predicate IsBookingRequest(w: WriteRequest, category: int) {
    && w.functionName == BookFunction
    && |w.args| == 3
    && w.args[0] == Big(category)
    && w.args[1].Big? && w.args[2].Big?
    && (w.args[2].n - w.args[1].n) % SecondsPerNight == 0
    && w.args[2].n - w.args[1].n >= SecondsPerNight
  }

  /** Every request in `requests` is one this dialog can issue. */
  predicate AllBookingRequests(requests: seq<WriteRequest>, category: int) {
    forall i :: 0 <= i < |requests| ==> IsBookingRequest(requests[i], category)
  }

  /** The request built from a field the browser accepted is well formed. */
  lemma AcceptedRequestWellFormed(category: int, nowMs: nat, nights: string)
    requires BrowserAccepts(nights) && BookingArgs(category, nowMs, nights).Some?
    ensures IsBookingRequest(WriteRequest(BookFunction, BookingArgs(category, nowMs, nights).value), category)
  {
    AcceptedNightsPositive(nights);
    var args := BookingArgs(category, nowMs, nights).value;
    assert args[2].n - args[1].n == ParseInt(nights).value * SecondsPerNight;
  }

  /** The "-" button: decrement only a value above 1. */
  function Decremented(nights: string): (r: string)
    ensures ParseInt(nights).Some? && ParseInt(nights).value > 1 ==>
      ParseInt(r) == Some(ParseInt(nights).value - 1)
    ensures !(ParseInt(nights).Some? && ParseInt(nights).value > 1) ==> r == nights
  {
    var current := ParseInt(nights);
    if current.Some? && current.value > 1 then
      IntToDecimalRoundTrip(current.value - 1);
      IntToDecimal(current.value - 1)
    else nights
  }

  /** The "+" button: `(parseInt(value) + 1).toString()`, "NaN" for a value
      that does not parse. */
  function Incremented(nights: string): (r: string)
    ensures ParseInt(r) == Plus(ParseInt(nights), 1)
  {
    ParseIntRoundTrip(Plus(ParseInt(nights), 1));
    NumberToString(Plus(ParseInt(nights), 1))
  }

  /** The stepper never takes a count of at least one below one. */
  lemma DecrementKeepsPositive(nights: string)
    requires ParseInt(nights).Some? && ParseInt(nights).value >= 1
    ensures ParseInt(Decremented(nights)).Some? && ParseInt(Decremented(nights)).value >= 1
  {
  }

  predicate SubmitDisabled(isLoading: bool, isConfirming: bool) {
    isLoading || isConfirming
  }

  function SubmitLabel(isLoading: bool, isConfirming: bool): (r: string)
    ensures r == "Book Now" <==> !SubmitDisabled(isLoading, isConfirming)
  {
    if isConfirming then "Confirming..." else if isLoading then "Booking..." else "Book Now"
  }

  /** One booking dialog. `open` is the parent's flag, passed in as the
      `open` prop and cleared through `onOpenChange(false)`; `requests`
      records the contract writes and `successCalls` the `onSuccess` calls.
      The confirmation state comes from the receipt hook and is a parameter. */
  class BookingModal {
    const category: int
    const pricePerNight: string
    var nights: string
    var totalPrice: string
    var isLoading: bool
    var open: bool
    var requests: seq<WriteRequest>
    var successCalls: nat

    /** The total is always recomputed from the field; the dialog is only
        loading once a request has gone out; every request is well formed. */
    ghost predicate Valid()
      reads this
    {
      && totalPrice == TotalPrice(nights, pricePerNight)
      && (isLoading ==> requests != [])
      && AllBookingRequests(requests, category)
    }

    /** Mounting: the form holds its default, the total effect has run. */
    constructor (category: int, pricePerNight: string)
      ensures Valid()
      ensures this.category == category && this.pricePerNight == pricePerNight
      ensures nights == DefaultNights && !isLoading && !open
      ensures requests == [] && successCalls == 0
    {
      this.category := category;
      this.pricePerNight := pricePerNight;
      nights := DefaultNights;
      totalPrice := TotalPrice(DefaultNights, pricePerNight);
      isLoading := false;
      open := false;
      requests := [];
      successCalls := 0;
    }

    /** Typing into the nights field. */
    method EditNights(value: string)
      requires Valid() && open
      modifies this
      ensures Valid()
      ensures nights == value
      ensures isLoading == old(isLoading) && open == old(open)
      ensures requests == old(requests) && successCalls == old(successCalls)
    {
      nights := value;
      totalPrice := TotalPrice(nights, pricePerNight);
    }

    method Decrement()
      requires Valid() && open
      modifies this
      ensures Valid()
      ensures nights == Decremented(old(nights))
      ensures isLoading == old(isLoading) && open == old(open)
      ensures requests == old(requests) && successCalls == old(successCalls)
    {
      nights := Decremented(nights);
      totalPrice := TotalPrice(nights, pricePerNight);
    }

    method Increment()
      requires Valid() && open
      modifies this
      ensures Valid()
      ensures nights == Incremented(old(nights))
      ensures isLoading == old(isLoading) && open == old(open)
      ensures requests == old(requests) && successCalls == old(successCalls)
    {
      nights := Incremented(nights);
      totalPrice := TotalPrice(nights, pricePerNight);
    }

    /** Pressing "Book Now" at time `nowMs`. A disabled button, a value the
        browser's check refuses or a failed schema validation does nothing. Otherwise `isLoading` is set and the request
        goes out; when building it throws (the nights do not parse) or the
        write throws, the error is caught: `isLoading` is cleared and the
        dialog stays open. */
    method Submit(nowMs: nat, isConfirming: bool, writeThrows: bool)
      requires Valid() && open
      modifies this
      ensures Valid()
      ensures nights == old(nights) && open == old(open) && successCalls == old(successCalls)
      ensures
        var attempted := !SubmitDisabled(old(isLoading), isConfirming)
          && BrowserAccepts(old(nights)) && NightsValid(old(nights));
        var args := BookingArgs(category, nowMs, old(nights));
        if !attempted then
          isLoading == old(isLoading) && requests == old(requests)
        else if args.None? || writeThrows then
          !isLoading && requests == old(requests)
        else
          isLoading && requests == old(requests) + [WriteRequest(BookFunction, args.value)]
    {
      if SubmitDisabled(isLoading, isConfirming) || !BrowserAccepts(nights) || !NightsValid(nights) {
        return;
      }
      isLoading := true;
      var args := BookingArgs(category, nowMs, nights);
      if args.None? || writeThrows {
        isLoading := false;
      } else {
        AcceptedRequestWellFormed(category, nowMs, nights);
        requests := requests + [WriteRequest(BookFunction, args.value)];
      }
    }

    /** The success effect once the receipt is in: reset the form, call
        `onSuccess`, close the dialog, clear `isLoading`. */
    method Confirm()
      requires Valid()
      modifies this
      ensures Valid()
      ensures nights == DefaultNights && !open && !isLoading
      ensures successCalls == old(successCalls) + 1 && requests == old(requests)
    {
      nights := DefaultNights;
      totalPrice := TotalPrice(nights, pricePerNight);
      successCalls := successCalls + 1;
      open := false;
      isLoading := false;
    }

    /** The dialog's own close control, `onOpenChange(false)`: the loading
        flag is left as it is. */
    method Dismiss()
      requires Valid()
      modifies this`open
      ensures Valid() && !open
    {
      open := false;
    }
  }
}
