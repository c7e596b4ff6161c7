/** The records and enumerations of the settlement engine (types.ts). */
module Types {

  datatype Option<+T> = None | Some(value: T)

  /** The two handicap conventions (types.ts:2-5). */
  datatype HandicapType = European | Asian

  /** What the bettor backs (types.ts:7-11). */
  datatype BetSelection = Home | Draw | Away

  /** The five settlement outcomes (types.ts:13-19). */
  datatype ResultStatus = Win | HalfWin | Push | HalfLoss | Loss

  /** The outcome of one half of a split bet: never a half state (types.ts:23). */
  type PartStatus = s: ResultStatus | s.Win? || s.Loss? || s.Push? witness Win

  /**
   * A handicap line counted in quarter goals: the line `q` stands for the
   * number `q / 4`. Every line the application offers is a multiple of 0.25,
   * so this representation is exact.
   */
  type Quarters = int

  /** The goal value of a handicap line. */
  function LineValue(line: Quarters): (v: real)
    ensures 4.0 * v == line as real
  {
    line as real / 4.0
  }

  /** Final score of the match (types.ts:29-32). */
  datatype Scores = Scores(home: int, away: int)

  /** The settlement request (types.ts:27-37). */
  datatype BetData = BetData(
    handicapType: HandicapType,
    scores: Scores,
    handicapLine: Quarters,
    betSelection: BetSelection,
    odds: real,
    stake: real)

  /** One half of an Asian quarter-line bet (types.ts:21-25). */
  datatype CalculationPart = CalculationPart(line: Quarters, status: PartStatus, payout: real)

  /** The settlement outcome; `parts`, when present, is exactly a pair (types.ts:39-44). */
  datatype CalculationResult = CalculationResult(
    status: ResultStatus,
    payout: real,
    netProfit: real,
    parts: Option<(CalculationPart, CalculationPart)>)
}
