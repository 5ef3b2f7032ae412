/** Ordered first-match bonus ladders.

    Every score formula of the app picks a multiplier by testing a component's name against an
    ordered list of substrings and taking the bonus of the first rung that matches, or a
    fallback when none does. A ladder keeps that order explicit: it is a sequence, not a map. */
module Tiers {
  import opened Text

  /** A name test on one rung. */
  datatype Test =
    | Has(pattern: string)        // `name.contains(pattern, ignoreCase = true)`
    | HasCased(pattern: string)   // `name.contains(pattern)`
    | Both(left: Test, right: Test)

  predicate Holds(t: Test, name: string)
  {
    match t
    case Has(p) => ContainsIC(name, p)
    case HasCased(p) => Contains(name, p)
    case Both(l, r) => Holds(l, name) && Holds(r, name)
  }

  type Ladder = seq<(Test, real)>

  /** Index of the first rung whose test holds, or `|ladder|` when none does. */
  function FirstMatch(name: string, ladder: Ladder): (k: nat)
    ensures k <= |ladder|
    ensures forall j :: 0 <= j < k ==> !Holds(ladder[j].0, name)
    ensures k < |ladder| ==> Holds(ladder[k].0, name)
  {
    if |ladder| == 0 then 0
    else if Holds(ladder[0].0, name) then 0
    else 1 + FirstMatch(name, ladder[1..])
  }

  /** The bonus of the first matching rung, or `fallback`. */
  function Bonus(name: string, ladder: Ladder, fallback: real): (b: real)
    ensures (forall j :: 0 <= j < |ladder| ==> !Holds(ladder[j].0, name)) ==> b == fallback
    ensures forall k ::
              (0 <= k < |ladder| && Holds(ladder[k].0, name) && forall j :: 0 <= j < k ==> !Holds(ladder[j].0, name))
              ==> b == ladder[k].1
  {
    var k := FirstMatch(name, ladder);
    if k < |ladder| then ladder[k].1 else fallback
  }

  /** Every rung bonus and the fallback lie in [lo, hi]. */
  ghost predicate BonusesWithin(ladder: Ladder, fallback: real, lo: real, hi: real)
  {
    lo <= fallback <= hi && forall j :: 0 <= j < |ladder| ==> lo <= ladder[j].1 <= hi
  }

  /** So does the bonus a name receives. */
  lemma BonusWithin(name: string, ladder: Ladder, fallback: real, lo: real, hi: real)
    requires BonusesWithin(ladder, fallback, lo, hi)
    ensures lo <= Bonus(name, ladder, fallback) <= hi
  {
  }
}

/** Kotlin's nullable values. */
module Wrappers {
  datatype Option<+T> = None | Some(value: T)
}
