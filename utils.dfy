/** The shared helpers of the front end: the category label and the
    shortened wallet address. */
module Utils {
  import opened JsString
  import opened Types

  /** `getRoomCategoryLabel`: a switch on the enum values, "Unknown" for
      every other number. */
  function CategoryLabel(category: int): (r: string)
    ensures r == "Unknown" <==> category !in {0, 1, 2}
    ensures EnumName(category).Some? ==> r == EnumName(category).value
  {
    if category == Presidential.Value() then "Presidential"
    else if category == Deluxe.Value() then "Deluxe"
    else if category == Suite.Value() then "Suite"
    else "Unknown"
  }

  /** The three categories have three different labels, none "Unknown". */
  lemma CategoryLabelsDistinct(c: RoomCategory, d: RoomCategory)
    ensures CategoryLabel(c.Value()) != "Unknown"
    ensures c != d ==> CategoryLabel(c.Value()) != CategoryLabel(d.Value())
  {
  }

  /** `shortenAddress`: "" for an undefined or empty address, otherwise
      `address.slice(0, 6) + "..." + address.slice(-4)`. */
  function ShortenAddress(address: Option<string>): (r: string)
    ensures !Truthy(address) ==> r == ""
    ensures Truthy(address) ==>
      var a := address.value;
      r == a[..Min(6, |a|)] + "..." + a[|a| - Min(4, |a|)..]
  {
    if !Truthy(address) then ""
    else
      var a := address.value;
      SlicePrefix(a, 6);
      SliceSuffix(a, 4);
      Slice(a, 0, 6) + "..." + SliceFrom(a, -4)
  }

  /** An address of ten or more characters shortens to exactly thirteen:
      its first six, three dots, and its last four. */
  lemma ShortenedLength(a: string)
    requires |a| >= 10
    ensures |ShortenAddress(Some(a))| == 13
    ensures ShortenAddress(Some(a))[..6] == a[..6]
    ensures ShortenAddress(Some(a))[6..9] == "..."
    ensures ShortenAddress(Some(a))[9..] == a[|a| - 4..]
  {
  }
}
