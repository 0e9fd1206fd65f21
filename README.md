# mlb_re24: batter outcome weights

A model of the outcome-weight part of a baseball run-expectancy simulator.
A batter's season line (at-bats, hits, doubles, triples, home runs, walks,
intentional walks, ground-out/air-out ratio, strikeouts) becomes nine
integer weights. There is one weight per batting outcome, in the fixed order
air out, ground out, strikeout, walk, intentional walk, single, double,
triple, home run. A weighted sampler then draws an index into that order,
and the index selects the outcome.

- `outcomes.dfy`, module `Outcomes`: the `HitResult` outcomes, the `HITS`
  table, the position of each outcome in it (`IndexOf`), and `hit` as a
  lookup of a sampled index (`Hit`).
- `player.dfy`, module `Players`: the season line (`BattingLine`), the
  outcome-to-weight map (`WeightOf`) and its positional layout
  (`WeightVector`). It also holds the rounding of the ground-out share
  (`RoundHalfAwayFromZero`, `GroundOuts`) and the `Player` class. The class
  constructor fills an `array<int>` of nine slots one assignment at a time,
  as `Player::new` does. `Stat` returns a copy of that array.
  Lemmas state the conservation laws, the non-negativity conditions and the
  absence of 32-bit overflow.

The ratio `goao` is an `f64` in the source. Here it is the exact fraction
`goaoNum / goaoDen`. Then `goao / (1 + goao)` is `goaoNum / (goaoNum + goaoDen)`,
and `.round()` rounds that rational to the nearest integer, with halves
going away from zero. Counts are unbounded integers. `NoI32Overflow`
shows that for a valid line and a non-negative ratio every intermediate
value fits in `i32`.

The code does not validate its inputs: `Player::new` accepts any line,
including one that yields negative weights. The model follows the code. Its
constructor requires only that the ratio be a fraction other than −1. The
conditions under which the weights are non-negative are proved as a lemma
(`WeightsNonNegativeIff`) and are not imposed on callers.

## Model

| member | source | states |
|---|---|---|
| `Outcomes.IndexOf` | src/main.rs:3-13 | every outcome has a position below 9 in `HITS`, and `HITS` holds that outcome at that position |
| `Outcomes.HitsDistinct` | src/main.rs:3-13 | no two positions of `HITS` hold the same outcome, so `HITS` lists each of the nine outcomes exactly once |
| `Outcomes.Hit` | src/main.rs:46-48 | the sampled index selects an entry of the table; over `HITS`, the outcome returned sits at exactly the sampled position |
| `Outcomes.HitIndexRoundTrip` | src/main.rs:46-48 | looking up an outcome's own position returns that outcome, and the position of the outcome found at index k is k |
| `Players.RoundHalfAwayFromZero` | src/main.rs:68 | the result is within one half of n / d; an exact half goes up for a non-negative value and down for a negative one |
| `Players.GroundOuts` | src/main.rs:67-68 | the ground outs are the integer nearest to balls in play times p / (p + q), the exact value of `goao / (1 + goao)` for goao = p / q, with halves going away from zero, for either sign of p + q |
| `Players.WeightVector` | src/main.rs:74-91 | nine weights, and the weight of each outcome sits at that outcome's position in `HITS` |
| `Players.GroundOutsWithinBallsInPlay` | src/main.rs:66-69 | for a non-negative ratio and non-negative balls in play, the rounded ground outs lie between 0 and the balls in play |
| `Players.Player.constructor` | src/main.rs:58-96 | the new player's array has nine slots; slot i holds the weight of outcome `HITS[i]` for the given line and the rounded ground outs, so every slot of the array is overwritten |
| `Players.Player.Stat` | src/main.rs:98-100 | returns the nine stored weights unchanged, slot by slot, and only reads the player |
| `Players.Simulate` | src/main.rs:36-43 | with the sampled index as a parameter, the outcome chosen is the one at that index of `HITS` |
| `Players.SampledOutcomeWeight` | src/main.rs:74-91 | weight slot k holds the weight of outcome `HITS[k]`, and the weight of any outcome is found at that outcome's position |
| `Players.OutsSplitBallsInPlay` | src/main.rs:66-77 | air-out plus ground-out weights equal at-bats minus hits minus strikeouts, for any ground-out count |
| `Players.CopiedSlots` | src/main.rs:78-83 | the strikeout, walk and intentional-walk slots copy their inputs |
| `Players.HitSlotsSumToHits` | src/main.rs:71-91 | the single, double, triple and home-run slots add up to the hits |
| `Players.WeightsSumToPlateAppearances` | src/main.rs:63-91 | the nine weights add up to at-bats plus walks plus intentional walks |
| `Players.WeightsNonNegativeIff` | src/main.rs:63-91 | all nine weights are non-negative if and only if strikeouts, walks, intentional walks, doubles, triples, home runs and singles are non-negative and the ground outs lie between 0 and the balls in play |
| `Players.ValidLineGivesSamplerWeights` | src/main.rs:38-39 | for a valid line and a non-negative ratio, the weights handed to the sampler are non-negative, and their total is positive exactly when the batter had a plate appearance |
| `Players.NoI32Overflow` | src/main.rs:58-72 | for a valid line of `i32` counts and a non-negative ratio, every intermediate `i32` value of the derivation stays in range |
| `Players.ExampleBatterWeights` | src/main.rs:19-29 | the hard-coded batter (511 AB, 150 H, 29 2B, 6 3B, 41 HR, 69 BB, 8 IBB, ratio 0.78, 130 SO) gets weights 130, 101, 130, 69, 8, 74, 29, 6, 41 |

## Left out

- `main` (src/main.rs:18-33): it hard-codes one batter and prints the sampled outcome. Printing is I/O. The batter's weights appear as `ExampleBatterWeights`.
- Random sampling in `simu_1` and `hit` (src/main.rs:36-48): `thread_rng`, `WeightedIndex::new(...).unwrap()` and `sample` belong to the `rand` library, whose code is not part of this model. The sampled index is a parameter below 9. Sampling probabilities and the sampler's panic on invalid weights are not modelled.
- Players.RoundHalfAwayFromZero: the ratio is an exact fraction with a positive denominator, not an `f64`. Binary rounding error in `goao / (1.0 + goao)` and in the product can move a value that sits at or next to a half by one; a ratio of exactly −1, an infinite or NaN ratio and the saturating `as i32` cast of an out-of-range product are not modelled.
- Players.Player.constructor: counts are unbounded integers, so `i32` overflow (a panic in a debug build, wrap-around in a release build) is not modelled for lines outside the range that `NoI32Overflow` covers.
- The base-out state machine, the run-expectancy table, the Monte Carlo driver and the mean/variance aggregation are not part of this model; none of them appears in src/main.rs.
