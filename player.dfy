/** A batter's outcome weights: the nine counting numbers, one per
    outcome of `Outcomes.HITS`, derived from the batter's season line. */
module Players {
  import opened Outcomes

  /** Smallest and one past the largest value of a Rust `i32`. */
  const I32Min: int := -0x8000_0000
  const I32Bound: int := 0x8000_0000

  predicate IsI32(x: int) { I32Min <= x < I32Bound }

  /** The integer counting statistics `Player::new` takes, in its argument
      order; the ground-out/air-out ratio is passed separately. */
  datatype BattingLine = BattingLine(
    ab: int, h: int, twoB: int, threeB: int, hr: int, bb: int, ibb: int, so: int)

  /** Balls put in play: at-bats that ended neither in a hit nor in a strikeout. */
  function BallsInPlay(s: BattingLine): int { s.ab - s.h - s.so }

  /** Hits that were neither doubles, triples nor home runs. */
  function Singles(s: BattingLine): int { s.h - s.twoB - s.threeB - s.hr }

  /** A season line a batter can actually have: every count non-negative and
      a 32-bit integer, the extra-base hits among the hits, and hits and
      strikeouts among the at-bats. */
  predicate ValidLine(s: BattingLine) {
    0 <= s.ab < I32Bound && 0 <= s.h < I32Bound && 0 <= s.twoB < I32Bound &&
    0 <= s.threeB < I32Bound && 0 <= s.hr < I32Bound && 0 <= s.bb < I32Bound &&
    0 <= s.ibb < I32Bound && 0 <= s.so < I32Bound &&
    s.h >= s.twoB + s.threeB + s.hr &&
    s.ab >= s.h + s.so
  }

  /** The weight of one outcome, given the line and the ground-out count `go`
      (air outs are the balls in play that were not ground outs). This is the
      outcome-to-weight map; the array is its positional layout. */
  function WeightOf(s: BattingLine, go: int, o: HitResult): int {
    match o
    case AO => BallsInPlay(s) - go
    case GO => go
    case SO => s.so
    case BB => s.bb
    case IBB => s.ibb
    case OneBase => Singles(s)
    case TwoBase => s.twoB
    case ThreeBase => s.threeB
    case HR => s.hr
  }

  /** The nine weights in the order of HITS: slot i weighs outcome HITS[i],
      so each outcome's weight sits at that outcome's position. */
  function WeightVector(s: BattingLine, go: int): (w: seq<int>)
    ensures |w| == Categories
    ensures forall o :: w[IndexOf(o)] == WeightOf(s, go, o)
  {
    seq(Categories, i requires 0 <= i < Categories => WeightOf(s, go, HITS[i]))
  }

  function Sum(w: seq<int>): int {
    if w == [] then 0 else w[0] + Sum(w[1..])
  }

  /** Rust's `f64::round` on the exact rational n / d: the nearest integer,
      with halves rounded away from zero. */
  function RoundHalfAwayFromZero(n: int, d: int): (r: int)
    requires d > 0
    ensures n >= 0 ==> d * (2 * r - 1) <= 2 * n < d * (2 * r + 1)
    ensures n < 0 ==> d * (2 * r - 1) < 2 * n <= d * (2 * r + 1)
  {
    if n >= 0 then
      var r := (2 * n + d) / (2 * d);
      DivBounds(2 * n + d, 2 * d);
      r
    else
      var m := (-2 * n + d) / (2 * d);
      DivBounds(-2 * n + d, 2 * d);
      -m
  }

  /** Euclidean division brackets its dividend. */
  lemma DivBounds(a: int, b: int)
    requires b > 0
    ensures b * (a / b) <= a < b * (a / b) + b
  {
  }

  /** Ground outs as `Player::new` computes them:
      round(bip * goao / (1 + goao)), with goao the exact ratio p / q, so that
      the share is p / (p + q). The result is the integer nearest to
      bip * p / (p + q), halves going away from zero, for either sign of p + q. */
  function GroundOuts(bip: int, p: int, q: int): (r: int)
    requires q > 0 && p + q != 0
    ensures p + q > 0 && bip * p >= 0 ==>
              (p + q) * (2 * r - 1) <= 2 * (bip * p) < (p + q) * (2 * r + 1)
    ensures p + q > 0 && bip * p < 0 ==>
              (p + q) * (2 * r - 1) < 2 * (bip * p) <= (p + q) * (2 * r + 1)
    ensures p + q < 0 && bip * p <= 0 ==>
              (-(p + q)) * (2 * r - 1) <= 2 * (-(bip * p)) < (-(p + q)) * (2 * r + 1)
    ensures p + q < 0 && bip * p > 0 ==>
              (-(p + q)) * (2 * r - 1) < 2 * (-(bip * p)) <= (-(p + q)) * (2 * r + 1)
  {
    // goao / (1 + goao) == p / (p + q)
    if p + q > 0 then RoundHalfAwayFromZero(bip * p, p + q)
    else RoundHalfAwayFromZero(-(bip * p), -(p + q))
  }

  /** For a non-negative ratio the rounded share of ground outs lies between
      none and all of the balls in play. */
  lemma GroundOutsWithinBallsInPlay(bip: int, p: int, q: int)
    requires bip >= 0 && p >= 0 && q > 0
    ensures 0 <= GroundOuts(bip, p, q) <= bip
  {
    var d := p + q;
    var go := GroundOuts(bip, p, q);
    var n := bip * p;
    assert d * (2 * go - 1) <= 2 * n < d * (2 * go + 1);
    assert 0 <= n <= bip * d by {
      MulNonNegative(bip, p);
      MulNonNegative(bip, q);
      assert bip * d == bip * p + bip * q;
    }
    if go < 0 {
      MulMonotone(d, 2 * go + 1, -1);
      assert false;
    }
    if go > bip {
      assert d * (2 * bip + 1) == 2 * (bip * d) + d;
      MulMonotone(d, 2 * bip + 1, 2 * go - 1);
      assert false;
    }
  }

  lemma MulNonNegative(a: int, b: int)
    requires a >= 0 && b >= 0
    ensures a * b >= 0
  {
  }

  lemma MulMonotone(c: int, a: int, b: int)
    requires c > 0 && a <= b
    ensures c * a <= c * b
  {
    assert c * b - c * a == c * (b - a);
  }

  /** A batter: the nine outcome weights, in the order of HITS. */
  class Player {
    var stat: array<int>

    ghost predicate Valid()
      reads this
    {
      stat.Length == Categories
    }

    /** `Player::new`: derives the weights from the season line, with the
        ground-out/air-out ratio given as the fraction goaoNum / goaoDen. */
    constructor (ab: int, h: int, twoB: int, threeB: int, hr: int,
                 bb: int, ibb: int, goaoNum: int, goaoDen: int, so: int)
      requires goaoDen > 0 && goaoNum + goaoDen != 0
      ensures Valid() && fresh(stat)
      ensures var line := BattingLine(ab, h, twoB, threeB, hr, bb, ibb, so);
              stat[..] == WeightVector(line, GroundOuts(BallsInPlay(line), goaoNum, goaoDen))
    {
      // Rust zero-fills the array first; every slot is overwritten below,
      // so the initial contents are not observable.
      var a := new int[Categories];
      var bip := ab - h - so;
      var go := GroundOuts(bip, goaoNum, goaoDen);
      var ao := bip - go;
      var oneB := h - twoB - threeB - hr;
      a[0] := ao;
      a[1] := go;
      a[2] := so;
      a[3] := bb;
      a[4] := ibb;
      a[5] := oneB;
      a[6] := twoB;
      a[7] := threeB;
      a[8] := hr;
      // every slot of the array has been overwritten with its outcome's weight;
      // this is where the source's slot order is matched against HITS
      ghost var w := WeightVector(BattingLine(ab, h, twoB, threeB, hr, bb, ibb, so), go);
      assert w[0] == a[0] && w[1] == a[1] && w[2] == a[2];
      assert w[3] == a[3] && w[4] == a[4] && w[5] == a[5];
      assert w[6] == a[6] && w[7] == a[7] && w[8] == a[8];
      assert w == a[..];
      stat := a;
    }

    /** `Player::stat`: a copy of the nine weights; the player is left as it was. */
    function Stat(): (w: seq<int>)
      reads this, stat
      requires Valid()
      ensures |w| == Categories
      ensures forall i :: 0 <= i < Categories ==> w[i] == stat[i]
    {
      stat[..]
    }
  }

  /** `simu_1` without its random draw: the outcome returned is the one whose
      weight sits at the sampled slot of the player's weights. What the
      weights handed to the sampler satisfy is `ValidLineGivesSamplerWeights`. */
  function Simulate(player: Player, sampled: nat): (r: HitResult)
    reads player, player.stat
    requires player.Valid() && sampled < Categories
    ensures IndexOf(r) == sampled
  {
    Hit(HITS, sampled)
  }

  /** Weight slot k and HITS[k] name the same outcome: the outcome the
      sampler picks at slot k is the one whose weight that slot holds. This
      follows from the layout of `WeightVector`; that the source's own slot
      assignments follow that layout is what the constructor proves. */
  lemma SampledOutcomeWeight(s: BattingLine, go: int, k: nat)
    requires k < Categories
    ensures WeightOf(s, go, Hit(HITS, k)) == WeightVector(s, go)[k]
    ensures forall o :: WeightVector(s, go)[IndexOf(o)] == WeightOf(s, go, o)
  {
  }

  /** Air outs and ground outs together are exactly the balls in play,
      whatever the rounding made of the ground-out share. */
  lemma OutsSplitBallsInPlay(s: BattingLine, go: int)
    ensures WeightVector(s, go)[0] + WeightVector(s, go)[1] == s.ab - s.h - s.so
    ensures WeightVector(s, go)[1] == go
  {
  }

  /** Strikeouts, walks and intentional walks are copied unchanged. */
  lemma CopiedSlots(s: BattingLine, go: int)
    ensures WeightVector(s, go)[2] == s.so
    ensures WeightVector(s, go)[3] == s.bb
    ensures WeightVector(s, go)[4] == s.ibb
  {
  }

  /** Singles, doubles, triples and home runs together are all the hits. */
  lemma HitSlotsSumToHits(s: BattingLine, go: int)
    ensures var w := WeightVector(s, go); w[5] + w[6] + w[7] + w[8] == s.h
  {
  }

  /** Sum of a nine-element sequence, slot by slot. */
  lemma {:induction false} SumOfNine(w: seq<int>)
    requires |w| == 9
    ensures Sum(w) == w[0] + w[1] + w[2] + w[3] + w[4] + w[5] + w[6] + w[7] + w[8]
  {
    assert Sum(w[8..]) == w[8] by { assert w[8..][1..] == []; }
    assert Sum(w[7..]) == w[7] + Sum(w[8..]) by { assert w[7..][1..] == w[8..]; }
    assert Sum(w[6..]) == w[6] + Sum(w[7..]) by { assert w[6..][1..] == w[7..]; }
    assert Sum(w[5..]) == w[5] + Sum(w[6..]) by { assert w[5..][1..] == w[6..]; }
    assert Sum(w[4..]) == w[4] + Sum(w[5..]) by { assert w[4..][1..] == w[5..]; }
    assert Sum(w[3..]) == w[3] + Sum(w[4..]) by { assert w[3..][1..] == w[4..]; }
    assert Sum(w[2..]) == w[2] + Sum(w[3..]) by { assert w[2..][1..] == w[3..]; }
    assert Sum(w[1..]) == w[1] + Sum(w[2..]) by { assert w[1..][1..] == w[2..]; }
  }

  /** The nine weights add up to the plate appearances the line implies:
      at-bats plus walks plus intentional walks. */
  lemma WeightsSumToPlateAppearances(s: BattingLine, go: int)
    ensures Sum(WeightVector(s, go)) == s.ab + s.bb + s.ibb
  {
    SumOfNine(WeightVector(s, go));
  }

  /** Every weight is non-negative exactly when the counts are, the singles
      are, and the ground outs are a share of the balls in play. */
  lemma WeightsNonNegativeIff(s: BattingLine, go: int)
    ensures (forall i :: 0 <= i < Categories ==> WeightVector(s, go)[i] >= 0) <==>
            (s.so >= 0 && s.bb >= 0 && s.ibb >= 0 && s.twoB >= 0 && s.threeB >= 0 && s.hr >= 0 &&
             Singles(s) >= 0 && 0 <= go <= BallsInPlay(s))
  {
    var w := WeightVector(s, go);
    assert w[0] == BallsInPlay(s) - go && w[1] == go && w[2] == s.so && w[3] == s.bb;
    assert w[4] == s.ibb && w[5] == Singles(s) && w[6] == s.twoB && w[7] == s.threeB && w[8] == s.hr;
  }

  /** For a valid line and a non-negative ratio the weights are all
      non-negative and sum to a positive total whenever the batter came to
      the plate at all, which is what the weighted sampler accepts. */
  lemma ValidLineGivesSamplerWeights(s: BattingLine, p: int, q: int)
    requires ValidLine(s) && p >= 0 && q > 0
    ensures var w := WeightVector(s, GroundOuts(BallsInPlay(s), p, q));
            (forall i :: 0 <= i < Categories ==> w[i] >= 0) &&
            (Sum(w) > 0 <==> s.ab + s.bb + s.ibb > 0)
  {
    var go := GroundOuts(BallsInPlay(s), p, q);
    GroundOutsWithinBallsInPlay(BallsInPlay(s), p, q);
    WeightsNonNegativeIff(s, go);
    WeightsSumToPlateAppearances(s, go);
  }

  /** For a valid line and a non-negative ratio, every intermediate value
      `Player::new` computes in `i32` arithmetic (the partial differences
      included) stays within the `i32` range, so neither an overflow nor the
      saturating float-to-integer cast can change a weight. */
  lemma NoI32Overflow(s: BattingLine, p: int, q: int)
    requires ValidLine(s) && p >= 0 && q > 0
    ensures IsI32(s.ab - s.h) && IsI32(BallsInPlay(s))
    ensures IsI32(GroundOuts(BallsInPlay(s), p, q))
    ensures IsI32(BallsInPlay(s) - GroundOuts(BallsInPlay(s), p, q))
    ensures IsI32(s.h - s.twoB) && IsI32(s.h - s.twoB - s.threeB) && IsI32(Singles(s))
  {
    GroundOutsWithinBallsInPlay(BallsInPlay(s), p, q);
  }

  /** The hard-coded batter of `main`: 511 at-bats, 150 hits, 29 doubles,
      6 triples, 41 home runs, 69 walks, 8 intentional walks, a
      ground-out/air-out ratio of 0.78 and 130 strikeouts. */
  lemma ExampleBatterWeights()
    ensures WeightVector(BattingLine(511, 150, 29, 6, 41, 69, 8, 130),
                         GroundOuts(511 - 150 - 130, 78, 100))
            == [130, 101, 130, 69, 8, 74, 29, 6, 41]
  {
  }
}
