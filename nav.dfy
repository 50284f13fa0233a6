/** The navigation bar: nothing before mount, then either the shortened
    address with a Disconnect button or a Connect Wallet button. */
module Navigation {
  import opened JsString
  import Utils

  /** Nav's own `shortenAddress`: `slice(0, 6) + "..." + slice(-4)` with no
      guard for the empty string. */
  function ShortenLocal(a: string): (r: string)
    ensures r == a[..Min(6, |a|)] + "..." + a[|a| - Min(4, |a|)..]
  {
    SlicePrefix(a, 6);
    SliceSuffix(a, 4);
    Slice(a, 0, 6) + "..." + SliceFrom(a, -4)
  }

  /** The local helper and the shared one agree on every non-empty address
      and differ on the empty one, where the local helper prints "...". */
  lemma ShortenVariants(a: string)
    ensures a != "" ==> ShortenLocal(a) == Utils.ShortenAddress(Some(a))
    ensures a == "" ==> ShortenLocal(a) == "..." && Utils.ShortenAddress(Some(a)) == ""
  {
  }

  datatype NavView = Hidden | Connected(addressLabel: string) | Disconnected

  /** The wallet area of the bar. While connected the wallet always has an
      address (`useAccount` guarantees it), which the local helper needs. */
  function View(mounted: bool, isConnected: bool, address: Option<string>): (r: NavView)
    requires isConnected ==> address.Some?
    ensures !mounted <==> r.Hidden?
    ensures r.Connected? <==> mounted && isConnected
    ensures r.Connected? ==> r.addressLabel == ShortenLocal(address.value)
  {
    if !mounted then Hidden
    else if isConnected then Connected(ShortenLocal(address.value))
    else Disconnected
  }
}
