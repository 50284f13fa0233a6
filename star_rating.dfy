/** The five-star rating widget: a hover level kept in component state, a
    value owned by the caller, and an `onChange` fired on click. */
module Stars {
  import opened JsString

  /** The stars the widget renders, `[1, 2, 3, 4, 5]`. */
  const StarCount: nat := 5

  /** `hoverValue || value`: the hover level wins unless it is 0. */
  function DisplayedLevel(hoverValue: int, value: int): (r: int)
    ensures hoverValue != 0 ==> r == hoverValue
    ensures hoverValue == 0 ==> r == value
  {
    if hoverValue != 0 then hoverValue else value
  }

  /** Which of the stars 1..5 are filled at a displayed level: star `s` is
      filled when the level is at least `s`. */
  function FillPattern(level: int): (r: seq<bool>)
    ensures |r| == StarCount
  {
    seq(StarCount, i => level >= i + 1)
  }

  /** The number of `true` entries in a pattern. */
  function CountFilled(p: seq<bool>): nat {
    if p == [] then 0 else (if p[0] then 1 else 0) + CountFilled(p[1..])
  }

  function Clamp(level: int): nat {
    if level < 0 then 0 else if level > StarCount then StarCount else level
  }

  /** The filled stars are exactly the first `min(5, level)` ones (none for a
      level below 1). */
  lemma {:induction false} FillPatternIsPrefix(level: int)
    ensures forall i :: 0 <= i < StarCount ==> (FillPattern(level)[i] <==> i < Clamp(level))
    ensures CountFilled(FillPattern(level)) == Clamp(level)
  {
    PrefixCount(FillPattern(level), Clamp(level));
  }

  /** A pattern whose `true` entries are exactly its first `k` has `k` of them. */
  lemma {:induction false} PrefixCount(p: seq<bool>, k: nat)
    requires k <= |p|
    requires forall i :: 0 <= i < |p| ==> (p[i] <==> i < k)
    ensures CountFilled(p) == k
  {
    if p != [] {
      PrefixCount(p[1..], if k == 0 then 0 else k - 1);
    }
  }

  class StarRating {
    var hoverValue: int

    ghost predicate Valid()
      reads this
    {
      0 <= hoverValue <= StarCount
    }

    constructor ()
      ensures Valid() && hoverValue == 0
    {
      hoverValue := 0;
    }

    /** The fill of the five stars for the caller's `value`. */
    function Filled(value: int): (r: seq<bool>)
      reads this
      ensures |r| == StarCount
      ensures forall i :: 0 <= i < StarCount ==>
        (r[i] <==> (if hoverValue != 0 then hoverValue else value) >= i + 1)
    {
      FillPattern(DisplayedLevel(hoverValue, value))
    }

    /** A click on star `star`: when enabled it calls `onChange(star)`,
        reported here as the value passed; when disabled nothing happens. */
    method Click(star: int, disabled: bool) returns (changed: Option<int>)
      requires 1 <= star <= StarCount
      ensures changed.Some? ==> 1 <= changed.value <= StarCount
      ensures disabled <==> changed.None?
      ensures !disabled ==> changed.value == star
    {
      if disabled {
        changed := None;
      } else {
        changed := Some(star);
      }
    }

    /** The pointer enters star `star`. */
    method Enter(star: int, disabled: bool)
      requires Valid() && 1 <= star <= StarCount
      modifies this
      ensures Valid()
      ensures hoverValue == if disabled then old(hoverValue) else star
    {
      if !disabled {
        hoverValue := star;
      }
    }

    /** The pointer leaves a star. */
    method Leave(disabled: bool)
      requires Valid()
      modifies this
      ensures Valid()
      ensures hoverValue == if disabled then old(hoverValue) else 0
    {
      if !disabled {
        hoverValue := 0;
      }
    }
  }
}
