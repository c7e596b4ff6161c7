# ProBet handicap settlement, modelled in Dafny

This project models the settlement engine of the ProBet Handicap Calculator. The engine is
`calculateResult` in `services/bettingLogic.ts`. It takes a final score, a handicap line, the
backed side, decimal odds and a stake. It returns a status (WIN, HALF WIN, PUSH, HALF LOSS,
LOSS), a payout and a net profit. For an Asian quarter line it also returns the two half-stake
parts. The project also models the records it works on (`types.ts`) and the line tables and
defaults the application offers (`constants.ts`).

The engine is pure, so the model is written as Dafny datatypes, functions and lemmas:

- `types.dfy` (module `Types`): the enumerations and records. A part status is a subset type
  of the result status that admits only WIN, LOSS and PUSH. `parts` is an optional pair.
- `betting_logic.dfy` (module `BettingLogic`): `CalculateResult` with both branches. It also
  holds the inner `evaluatePart` (`EvaluatePart`), the quarter-line test, the combination
  table (`CombineStatus`) and the lemmas about all of them.
- `constants.dfy` (module `Constants`): the Asian and European line tables, the default stake
  (100) and default odds (1.95), and lemmas about the shape of the tables. The Asian table at
  `constants.ts:2` holds 33 lines from -4.0 to +4.0 in steps of 0.25.

Representation choices:

- A handicap line is an `int` count of quarter goals. Line `q` stands for `q / 4` goals, and
  `LineValue` converts it. Every line the application offers is a multiple of 0.25, so this is
  exact. The split lines `line - 0.25` and `line + 0.25` are `q - 1` and `q + 1`.
- The quarter test `Math.abs(handicapLine % 1)` is modelled with JavaScript's sign-of-dividend
  remainder (`LineRemainder`, `FractionQuarters`). `IsQuarterLineIffOdd` shows that the test
  picks out exactly the odd quarter counts, negative lines included.
- Scores are integers. The adjusted difference `scoreDiff + line` is a `real`, as in the
  source, and the winner and part outcomes are read from its sign.
- Stake, odds and payouts are `real`.
- A part settled for a bet that is not HOME reports its status from the backed side's point of
  view: WIN and LOSS are swapped, as `services/bettingLogic.ts:47` does. The comment at
  `services/bettingLogic.ts:42` says the status stays relative to HOME; the model follows the code.

Two reference definitions state what the combination table and the payouts mean:

- `StatusLevel` and `PartLevel` put the statuses on a signed scale. `CombineStatus` always
  returns the status whose level is the sum of the two part levels. The source's fallback
  PUSH for a WIN/LOSS pair also fits this rule.
- `ReturnFactor(status, odds)` is what a status pays per unit of stake: the odds, their
  average with 1, 1, 1/2 or 0. `PayoutDeterminedByStatus` proves that every settled bet, in
  every branch, pays `stake * ReturnFactor(status, odds)`. In the quarter-line branch this
  needs `QuarterPartsNeverMixed`: with whole-goal scores the two halves of a quarter line are
  never one WIN and one LOSS. So the fallback at `services/bettingLogic.ts:67` is unreachable.
  `FallbackMisstatesPayout` shows why that matters: for such a pair the fallback's PUSH would
  misstate the payout whenever the odds are not 2.

## Model

| member | source | states |
|---|---|---|
| `Types.LineValue` | types.ts:33 | four times a line's goal value is its quarter count |
| `BettingLogic.ScoreDiff` | services/bettingLogic.ts:6 | home goals minus away goals |
| `BettingLogic.AdjustedDiff` | services/bettingLogic.ts:6-9 | the adjusted difference, times four, is the whole number `4·(home − away) + q` |
| `BettingLogic.EuropeanWinner` | services/bettingLogic.ts:10-14 | the winner is HOME, DRAW or AWAY exactly when the adjusted difference is positive, zero or negative |
| `BettingLogic.LineRemainder` | services/bettingLogic.ts:53 | `line % 1` in quarters is the remainder that JavaScript computes: it differs from the line by a multiple of 4, lies strictly between -4 and 4 and takes the sign of the line |
| `BettingLogic.FractionQuarters` | services/bettingLogic.ts:53 | `Math.abs(line % 1)` in quarters is the absolute line's remainder by 4, in 0..3 |
| `BettingLogic.IsQuarterLine` | services/bettingLogic.ts:53 | a line is split exactly when `Math.abs(line % 1)` in quarters is 1 or 3 (0.25 or 0.75) |
| `BettingLogic.IsQuarterLineIffOdd` | services/bettingLogic.ts:53 | a line is a quarter (split) line exactly when its quarter count is odd, for negative lines too |
| `BettingLogic.HomeOutcome` | services/bettingLogic.ts:30-34 | the home outcome on one line is WIN, LOSS or PUSH exactly when the adjusted difference is positive, negative or zero |
| `BettingLogic.Invert` | services/bettingLogic.ts:47 | the away-side report swaps WIN and LOSS and keeps PUSH |
| `BettingLogic.InvertIsInvolution` | services/bettingLogic.ts:47 | inverting twice gives back the home outcome |
| `BettingLogic.EvaluatePart` | services/bettingLogic.ts:28-50 | a part keeps its line; it reports WIN when the backed side is ahead on that line (home: positive, otherwise: negative), LOSS in the opposite case and PUSH on zero; its payout is the part stake times odds on the reported WIN, the part stake on PUSH and 0 on LOSS |
| `BettingLogic.AwayPartInvertsHomePart` | services/bettingLogic.ts:36-48 | an away part on the same line reports the inverted home status, and its payout follows that reported status |
| `BettingLogic.CombineStatus` | services/bettingLogic.ts:61-67 | the combined status's level is the sum of the two part levels, which determines it uniquely |
| `BettingLogic.CombineStatusTable` | services/bettingLogic.ts:61-67 | WIN/WIN is WIN, LOSS/LOSS is LOSS, PUSH/PUSH is PUSH, WIN with PUSH in either order is HALF WIN, LOSS with PUSH in either order is HALF LOSS, a WIN/LOSS pair falls back to PUSH, and the table is symmetric |
| `BettingLogic.WholeLineStatus` | services/bettingLogic.ts:78-82 | on a whole or half line the bet's status is the single part's status |
| `BettingLogic.CalculateResult` | services/bettingLogic.ts:4-91 | net profit is payout minus stake in every branch; `parts` is present exactly for Asian quarter lines, on `q − 1` and `q + 1`, and then the payout is the sum of the part payouts; a European bet is only ever WIN or LOSS |
| `BettingLogic.EuropeanSettlement` | services/bettingLogic.ts:8-24 | a European bet is WIN exactly when it backs the line's winner; then it pays stake·odds, otherwise 0; it never has parts |
| `BettingLogic.EuropeanExactlyOneWinner` | services/bettingLogic.ts:10-18 | for a fixed score and line exactly one of HOME, DRAW and AWAY wins; it pays stake·odds and the other two pay 0 |
| `BettingLogic.AsianWholeOrHalfLine` | services/bettingLogic.ts:75-88 | on a whole or half line `parts` is absent, the status is the single part's status and the payout is 0, the stake or stake·odds |
| `BettingLogic.AsianQuarterLine` | services/bettingLogic.ts:53-74 | on a quarter line `parts` is exactly the two half-stake parts on `line − 0.25` and `line + 0.25`, the payout is their sum and the status is their combination |
| `BettingLogic.QuarterPartsNeverMixed` | services/bettingLogic.ts:53-67 | with whole-goal scores the two halves of a quarter line are never one WIN and one LOSS, from either side |
| `BettingLogic.QuarterFallbackUnreachable` | services/bettingLogic.ts:67 | no Asian quarter-line bet reaches the "should not happen" fallback of the combination table |
| `BettingLogic.CombineReturnFactor` | services/bettingLogic.ts:59-66 | outside the fallback, a combined status returns the average of what its two halves return |
| `BettingLogic.FallbackMisstatesPayout` | services/bettingLogic.ts:67 | for a WIN/LOSS pair the fallback PUSH does not match the payout of the two halves unless the odds are 2 |
| `BettingLogic.SplitStakePayout` | services/bettingLogic.ts:56-66 | two half-stake parts that are not one WIN and one LOSS pay, together, the whole stake at their combined status |
| `BettingLogic.QuarterSplitPayout` | services/bettingLogic.ts:54-66 | the two half-stake parts of any quarter line pay, together, the whole stake at their combined status |
| `BettingLogic.QuarterPayoutByStatus` | services/bettingLogic.ts:53-73 | a quarter-line bet pays its stake times what its combined status returns |
| `BettingLogic.PayoutDeterminedByStatus` | services/bettingLogic.ts:4-91 | every settled bet, in every branch, pays stake times the return of its status: odds, (odds + 1)/2, 1, 1/2 or 0 |
| `BettingLogic.ProfitSignOfStatus` | services/bettingLogic.ts:23 | with a positive stake and odds above 1, what a status returns less the stake is positive on WIN and HALF WIN, zero on PUSH, negative on HALF LOSS and LOSS |
| `BettingLogic.ProfitSignMatchesStatus` | services/bettingLogic.ts:4-91 | with a positive stake and odds above 1, net profit is positive exactly on WIN and HALF WIN, zero exactly on PUSH, negative exactly on HALF LOSS and LOSS |
| `BettingLogic.Mirror` | services/bettingLogic.ts:47 | the opposite side's status has the negated level |
| `BettingLogic.AsianHomeAwayMirror` | services/bettingLogic.ts:26-73 | an Asian AWAY bet's status is the mirror image of the HOME bet's status on the same score and line, quarter lines included |
| `BettingLogic.AsianDrawSettlesAsAway` | services/bettingLogic.ts:26 | in the Asian branch a DRAW selection settles exactly like an AWAY one |
| `BettingLogic.EuropeanExamples` | services/bettingLogic.ts:8-24 | 1–1 on a level line: DRAW at 3.00 for 100 wins 300 (profit 200); HOME at 1.90 for 50 loses 50 |
| `BettingLogic.AsianExamples` | services/bettingLogic.ts:25-89 | HOME −0.5 at 2–0 wins 195 on 100 at 1.95; AWAY on −0.5 at 1–0 loses; HOME −0.25 at 0–0 is HALF LOSS paying 50, with parts LOSS on −0.5 and PUSH on 0 |
| `Constants.QuarterRange` | constants.ts:2 | the run that `Array.from` builds has length `n` and entry `i` equal to `lo + i` |
| `Constants.AsianHandicapLinesShape` | constants.ts:2 | 33 lines, entry `i` worth `(i − 16)·0.25`, from -4.0 to +4.0 in steps of 0.25, 0 at index 16, symmetric about 0 |
| `Constants.EuropeanHandicapLinesShape` | constants.ts:3 | 17 lines, entry `i` worth `i − 8`, strictly increasing by one goal, 0 at index 8, symmetric about 0, none of them a split line |
| `Constants.AsianQuarterLinesAtOddOffsets` | constants.ts:2 | an Asian table entry is a quarter line exactly when its index is at an odd offset from the middle |
| `Constants.CountQuarterLinesIsCountOdd` | constants.ts:2 | in any list of lines, the quarter lines are exactly as many as the odd quarter counts |
| `Constants.OddCountOfRange` | constants.ts:2 | a run of `n` consecutive quarter counts starting at an even one holds `n / 2` odd ones |
| `Constants.QuarterCountOfRange` | constants.ts:2 | among `n` consecutive quarter counts starting at an even one, exactly `n / 2` are quarter lines |
| `Constants.AsianQuarterLineCount` | constants.ts:2 | exactly 16 of the 33 Asian lines are quarter lines |

`DefaultStake` (100) and `DefaultOdds` (1.95) are constants of module `Constants`
(constants.ts:5-6). The enumerations of types.ts:2-19 are datatypes with exactly two, three
and five constructors.

## Left out

- App.tsx is not part of this model. It holds the React view: state hooks, the matrix that maps `calculateResult` over a line table, and the line formatting with `toFixed`.
- services/geminiService.ts is not part of this model. It is an asynchronous call to an external text-generation service, which is I/O and not needed for settlement.
- `HistoryItem` (types.ts:46-50) is not modelled. It adds an id, a timestamp and the settlement result, and no code here maintains a history.
- IEEE-754 double arithmetic is not modelled. Amounts are exact reals, so the rounding of `stake * odds` is left out.
- Handicap lines that are not multiples of 0.25 cannot be expressed. JavaScript `%` on such lines is left out; every line the application offers is a quarter multiple.
- Fractional scores cannot be expressed. The source accepts any number, but the application only produces whole goals. `QuarterPartsNeverMixed` depends on whole goals.
- Input validation is not modelled because the source does none. Negative scores, odds of at most 1 and a DRAW selection on an Asian bet are settled as the code settles them.
