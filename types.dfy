/** The room data the front end reads from the booking contract, and the
    requests it sends back. */
module Types {
  import opened JsString

  /** The `RoomCategory` enum and its numeric values. */
  datatype RoomCategory = Presidential | Deluxe | Suite {
    function Value(): int {
      match this
      case Presidential => 0
      case Deluxe => 1
      case Suite => 2
    }
  }

  /** `RoomCategory[n]`, the reverse lookup of a TypeScript numeric enum:
      the member's name, or `undefined` for a number that is no member. */
  function EnumName(n: int): (r: Option<string>)
    ensures r.Some? <==> 0 <= n <= 2
  {
    if n == 0 then Some("Presidential")
    else if n == 1 then Some("Deluxe")
    else if n == 2 then Some("Suite")
    else None
  }

  /** One element of a room's `reviews` array as it arrives: the element may
      be missing, and its rating need not be of type number (`None`). */
  datatype ReviewEntry =
    | Absent
    | Entry(guest: string, rating: Option<int>, comment: string)

  /** A room snapshot. Identifiers are assigned by the contract and are
      non-negative; `reviews` may be absent. */
  datatype Room = Room(
    id: nat,
    category: int,
    pricePerNight: int,
    isAvailable: bool,
    reviews: Option<seq<ReviewEntry>>)

  /** An argument of a contract write: a `BigInt`, a boolean or a string. */
  datatype Arg = Big(n: int) | Flag(b: bool) | Text(s: string)

  /** A `writeContract` call, recorded as the function name and its
      arguments; what the contract does with it is outside the model. */
  datatype WriteRequest = WriteRequest(functionName: string, args: seq<Arg>)
}
