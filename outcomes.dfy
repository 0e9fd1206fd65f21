/** The nine batting outcomes a plate appearance can end in, the fixed
    positional order in which the weights are laid out, and the lookup
    that turns a sampled position back into an outcome. */
module Outcomes {

  /** One batting result: air out, ground out, strikeout, walk, intentional
      walk, single, double, triple, home run. */
  datatype HitResult = AO | GO | SO | BB | IBB | OneBase | TwoBase | ThreeBase | HR

  /** Number of outcome categories, and so the length of every weight array. */
  const Categories: nat := 9

  /** The outcomes in the positional order used by the weight array. */
  const HITS: seq<HitResult> := [AO, GO, SO, BB, IBB, OneBase, TwoBase, ThreeBase, HR]

  /** Where an outcome sits in HITS (and so which weight slot holds its weight). */
  function IndexOf(o: HitResult): (i: nat)
    ensures i < Categories && HITS[i] == o
  {
    match o
    case AO => 0
    case GO => 1
    case SO => 2
    case BB => 3
    case IBB => 4
    case OneBase => 5
    case TwoBase => 6
    case ThreeBase => 7
    case HR => 8
  }

  /** HITS lists every outcome exactly once: no two positions share an outcome. */
  lemma HitsDistinct(i: nat, j: nat)
    requires i < Categories && j < Categories
    requires HITS[i] == HITS[j]
    ensures i == j
  {
  }

  /** `hit`: the sampled index selects the outcome at that position of the
      given table. The random draw itself is not modelled; the index it
      produced is the parameter `sampled`. */
  function Hit(hitResult: seq<HitResult>, sampled: nat): (r: HitResult)
    requires |hitResult| == Categories && sampled < Categories
    ensures r in hitResult
    ensures hitResult == HITS ==> IndexOf(r) == sampled
  {
    hitResult[sampled]
  }

  /** Looking an outcome's own position up gives the outcome back, and the
      position of the outcome found at index k is k: Hit over HITS and
      IndexOf are inverse to each other. */
  lemma HitIndexRoundTrip(o: HitResult, k: nat)
    requires k < Categories
    ensures Hit(HITS, IndexOf(o)) == o
    ensures IndexOf(Hit(HITS, k)) == k
  {
  }
}
