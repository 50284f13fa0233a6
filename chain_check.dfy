/** `useChainCheck`: whether the wallet is on Morph Holesky, and the effect
    that asks the wallet to switch networks when it is not. */
module ChainCheck {
  import opened JsString

  /** The chain id of Morph Holesky, the network the booking contract lives on. */
  const MorphHoleskyId: int := 2810

  /** The dependencies of the effect, as seen at one render. */
  datatype Deps = Deps(chainId: int, isConnected: bool)

  /** `isCorrectChain`: only the chain id matters, not the connection. */
  function IsCorrectChain(chainId: int): (r: bool)
    ensures r <==> chainId == 2810
  {
    chainId == MorphHoleskyId
  }

  /** The effect's condition: a toast and a switch request are issued when
      it holds. */
  predicate SwitchNeeded(d: Deps) {
    d.isConnected && d.chainId != MorphHoleskyId
  }

  /** The effect runs after the first render and after every render whose
      dependencies differ from the previous render's. */
  predicate EffectRuns(prev: Option<Deps>, d: Deps) {
    prev != Some(d)
  }

  /** The number of switch requests issued over a sequence of renders,
      given the dependencies of the render before them (`None` before the
      first render). */
  function SwitchRequests(prev: Option<Deps>, renders: seq<Deps>): nat
    decreases |renders|
  {
    if renders == [] then 0
    else
      (if EffectRuns(prev, renders[0]) && SwitchNeeded(renders[0]) then 1 else 0)
      + SwitchRequests(Some(renders[0]), renders[1..])
  }

  /** The number of renders at which the effect runs at all. */
  function EffectRunCount(prev: Option<Deps>, renders: seq<Deps>): nat
    decreases |renders|
  {
    if renders == [] then 0
    else (if EffectRuns(prev, renders[0]) then 1 else 0) + EffectRunCount(Some(renders[0]), renders[1..])
  }

  /** `isCorrectChain` does not depend on the connection state. */
  lemma CorrectChainIgnoresConnection(d: Deps, e: Deps)
    requires d.chainId == e.chainId
    ensures IsCorrectChain(d.chainId) == IsCorrectChain(e.chainId)
    ensures SwitchNeeded(d) <==> d.isConnected && !IsCorrectChain(d.chainId)
  {
  }

  /** At most one switch request per change of the dependencies. */
  lemma {:induction false} SwitchRequestsBounded(prev: Option<Deps>, renders: seq<Deps>)
    ensures SwitchRequests(prev, renders) <= EffectRunCount(prev, renders)
    decreases |renders|
  {
    if renders != [] {
      SwitchRequestsBounded(Some(renders[0]), renders[1..]);
    }
  }

  /** Nothing is requested while the wallet is disconnected. */
  lemma {:induction false} NoSwitchWhileDisconnected(prev: Option<Deps>, renders: seq<Deps>)
    requires forall i :: 0 <= i < |renders| ==> !renders[i].isConnected
    ensures SwitchRequests(prev, renders) == 0
    decreases |renders|
  {
    if renders != [] {
      NoSwitchWhileDisconnected(Some(renders[0]), renders[1..]);
    }
  }

  /** Re-rendering with unchanged dependencies issues no further request. */
  lemma {:induction false} NoRepeatOnRerender(d: Deps, renders: seq<Deps>)
    requires forall i :: 0 <= i < |renders| ==> renders[i] == d
    ensures SwitchRequests(Some(d), renders) == 0
  {
    if renders != [] {
      NoRepeatOnRerender(d, renders[1..]);
    }
  }

  /** A mismatch detected while connected gives exactly one request, however
      often the page then re-renders with the same dependencies. */
  lemma OneRequestPerMismatch(prev: Option<Deps>, d: Deps, n: nat)
    requires SwitchNeeded(d) && prev != Some(d)
    ensures SwitchRequests(prev, seq(n + 1, _ => d)) == 1
  {
    var renders := seq(n + 1, _ => d);
    assert renders[1..] == seq(n, _ => d);
    NoRepeatOnRerender(d, renders[1..]);
  }
}
