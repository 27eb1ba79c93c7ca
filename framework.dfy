/** The three ethical frameworks a player can pick behind the doors of each
    scenario. The game keys them as `deontology`, `consequentialism` and
    `virtue`, and every place that walks over them does so in that order. */
module Frameworks {

  datatype Framework = Deontology | Consequentialism | Virtue

  /** The declaration order of the frameworks, as a list. */
  const AllFrameworks: seq<Framework> := [Deontology, Consequentialism, Virtue]

  /** Position of a framework in the declaration order. */
  function Rank(f: Framework): (r: nat)
    ensures r < |AllFrameworks| && AllFrameworks[r] == f
  {
    match f
    case Deontology => 0
    case Consequentialism => 1
    case Virtue => 2
  }

  /** A sequence lists frameworks in strictly increasing declaration order
      (so, in particular, without repetition). */
  predicate InDeclarationOrder(s: seq<Framework>)
  {
    forall i, j :: 0 <= i < j < |s| ==> Rank(s[i]) < Rank(s[j])
  }
}
