/**
 * The settlement engine (services/bettingLogic.ts): from a score, a handicap
 * line, a selection, odds and a stake to a status, a payout and a net profit,
 * under the European (3-way) and the Asian (2-way, split-line) conventions.
 */
module BettingLogic {
  import opened Types

  /** Home goals minus away goals (bettingLogic.ts:6). */
  function ScoreDiff(scores: Scores): int {
    scores.home - scores.away
  }

  /** The goal difference once the line is added to the home side (bettingLogic.ts:9, 29). */
  function AdjustedDiff(scoreDiff: int, line: Quarters): (adj: real)
    ensures 4.0 * adj == (4 * scoreDiff + line) as real
  {
    scoreDiff as real + LineValue(line)
  }

  // ---------------------------------------------------------------------------
  // European (3-way) handicap
  // ---------------------------------------------------------------------------

  /** The side the line declares the winner: the sign of the adjusted difference (bettingLogic.ts:10-14). */
  function EuropeanWinner(adjustedDiff: real): (w: BetSelection)
    ensures w == Home <==> adjustedDiff > 0.0
    ensures w == Draw <==> adjustedDiff == 0.0
    ensures w == Away <==> adjustedDiff < 0.0
  {
    if adjustedDiff > 0.0 then Home
    else if adjustedDiff == 0.0 then Draw
    else Away
  }

  // ---------------------------------------------------------------------------
  // Asian (2-way) handicap
  // ---------------------------------------------------------------------------

  /**
   * `handicapLine % 1` in quarters: JavaScript's `%` keeps the sign of the
   * dividend, so this is the remainder of the quarter count by 4, negated for
   * negative lines.
   */
  function LineRemainder(line: Quarters): (r: int)
    ensures -4 < r < 4
    ensures line >= 0 ==> r >= 0
    ensures line < 0 ==> r <= 0
    ensures (line - r) % 4 == 0
  {
    if line >= 0 then line % 4 else -((-line) % 4)
  }

  /** `Math.abs(handicapLine % 1)` in quarters. */
  function FractionQuarters(line: Quarters): (f: int)
    ensures 0 <= f < 4
    ensures f == (if line < 0 then -line else line) % 4
  {
    var r := LineRemainder(line);
    if r < 0 then -r else r
  }

  /** A quarter (split) line: fractional part 0.25 or 0.75 (bettingLogic.ts:53). */
  predicate IsQuarterLine(line: Quarters) {
    FractionQuarters(line) == 1 || FractionQuarters(line) == 3
  }

  /** The quarter lines are exactly the odd quarter counts, negative lines included. */
  lemma IsQuarterLineIffOdd(line: Quarters)
    ensures IsQuarterLine(line) <==> line % 2 == 1
  {
    var a := if line < 0 then -line else line;
    assert FractionQuarters(line) == a % 4;
    OddIffOddRemainderByFour(a);
    if line < 0 {
      NegationKeepsParity(line);
    }
  }

  /** A number and its negation are both odd or both even. */
  lemma NegationKeepsParity(x: int)
    ensures (-x) % 2 == x % 2
  {
    var k, m := x / 2, x % 2;
    assert x == 2 * k + m;
    if m == 0 {
      assert -x == 2 * -k;
    } else {
      assert -x == 2 * (-k - 1) + 1;
    }
  }

  /** A natural number is odd exactly when its remainder by 4 is 1 or 3. */
  lemma OddIffOddRemainderByFour(a: nat)
    ensures (a % 4 == 1 || a % 4 == 3) <==> a % 2 == 1
  {
    var k, m := a / 4, a % 4;
    assert a == 2 * (2 * k) + m;
    if m == 0 {
      assert a == 2 * (2 * k);
    } else if m == 1 {
      assert a == 2 * (2 * k) + 1;
    } else if m == 2 {
      assert a == 2 * (2 * k + 1);
    } else {
      assert a == 2 * (2 * k + 1) + 1;
    }
  }

  /** The home side's outcome on one line (bettingLogic.ts:30-34). */
  function HomeOutcome(adj: real): (s: PartStatus)
    ensures s == Win <==> adj > 0.0
    ensures s == Loss <==> adj < 0.0
    ensures s == Push <==> adj == 0.0
  {
    if adj > 0.0 then Win
    else if adj < 0.0 then Loss
    else Push
  }

  /** The same outcome seen from the other side (bettingLogic.ts:47). */
  function Invert(s: PartStatus): (t: PartStatus)
    ensures t == Win <==> s == Loss
    ensures t == Loss <==> s == Win
    ensures t == Push <==> s == Push
  {
    if s == Win then Loss else if s == Loss then Win else Push
  }

  lemma InvertIsInvolution(s: PartStatus)
    ensures Invert(Invert(s)) == s
  {
  }

  /**
   * What a status returns per unit of stake at the given odds: the full odds
   * on a win, the stake back on a push, nothing on a loss, and the average of
   * two of these for the half outcomes.
   */
  function ReturnFactor(status: ResultStatus, odds: real): real {
    match status
    case Win => odds
    case HalfWin => (odds + 1.0) / 2.0
    case Push => 1.0
    case HalfLoss => 0.5
    case Loss => 0.0
  }

  /**
   * `evaluatePart` (bettingLogic.ts:28-50): settles `partStake` on one line.
   * The multiplier is read off the home outcome (odds on a home win for a home
   * bet, odds on a home loss for any other bet); the reported status is the
   * home outcome for a home bet and its inversion otherwise.
   */
  function EvaluatePart(scoreDiff: int, isHomeBet: bool, odds: real, line: Quarters, partStake: real): (p: CalculationPart)
    ensures p.line == line
    ensures p.status == Win <==> (if isHomeBet then AdjustedDiff(scoreDiff, line) > 0.0 else AdjustedDiff(scoreDiff, line) < 0.0)
    ensures p.status == Loss <==> (if isHomeBet then AdjustedDiff(scoreDiff, line) < 0.0 else AdjustedDiff(scoreDiff, line) > 0.0)
    ensures p.status == Push <==> AdjustedDiff(scoreDiff, line) == 0.0
    ensures p.payout == partStake * ReturnFactor(p.status, odds)
  {
    var status := HomeOutcome(AdjustedDiff(scoreDiff, line));
    var multiplier :=
      if isHomeBet then (if status == Win then odds else if status == Push then 1.0 else 0.0)
      else (if status == Loss then odds else if status == Push then 1.0 else 0.0);
    CalculationPart(line, if isHomeBet then status else Invert(status), partStake * multiplier)
  }

  /** A part's outcome as a signed step: +1 win, 0 push, -1 loss. */
  function PartLevel(s: PartStatus): int {
    if s == Win then 1 else if s == Loss then -1 else 0
  }

  /** A result's outcome as a signed step on a five-point scale. */
  function StatusLevel(s: ResultStatus): int {
    match s
    case Win => 2
    case HalfWin => 1
    case Push => 0
    case HalfLoss => -1
    case Loss => -2
  }

  lemma StatusLevelInjective(s: ResultStatus, t: ResultStatus)
    ensures StatusLevel(s) == StatusLevel(t) ==> s == t
  {
  }

  /** The two halves are one win and one loss: the case the combination table leaves to its fallback. */
  predicate MixedWinLoss(a: PartStatus, b: PartStatus) {
    (a == Win && b == Loss) || (a == Loss && b == Win)
  }

  /**
   * The combination table of a quarter line (bettingLogic.ts:61-67), fallback
   * PUSH included. Its result is the status whose level is the sum of the two
   * parts' levels, which fixes it completely.
   */
  function CombineStatus(a: PartStatus, b: PartStatus): (r: ResultStatus)
    ensures StatusLevel(r) == PartLevel(a) + PartLevel(b)
  {
    if a == Win && b == Win then Win
    else if a == Loss && b == Loss then Loss
    else if a == Push && b == Push then Push
    else if (a == Win && b == Push) || (b == Win && a == Push) then HalfWin
    else if (a == Loss && b == Push) || (b == Loss && a == Push) then HalfLoss
    else Push
  }

  /** The table row by row: equal halves keep their status, a push beside a win or a loss halves it. */
  lemma CombineStatusTable(a: PartStatus, b: PartStatus)
    ensures a == b ==> CombineStatus(a, b) == a
    ensures (a == Push) != (b == Push) && (a == Win || b == Win) ==> CombineStatus(a, b) == HalfWin
    ensures (a == Push) != (b == Push) && (a == Loss || b == Loss) ==> CombineStatus(a, b) == HalfLoss
    ensures MixedWinLoss(a, b) ==> CombineStatus(a, b) == Push
    ensures CombineStatus(a, b) == CombineStatus(b, a)
  {
    StatusLevelInjective(CombineStatus(a, b), CombineStatus(b, a));
  }

  /** On a whole or half line the single part's status is the bet's status (bettingLogic.ts:78-82). */
  function WholeLineStatus(s: PartStatus): (r: ResultStatus)
    ensures r == s
  {
    if s == Win then Win else if s == Loss then Loss else Push
  }

  // ---------------------------------------------------------------------------
  // calculateResult
  // ---------------------------------------------------------------------------

  /** `calculateResult` (bettingLogic.ts:4-91). */
  function CalculateResult(data: BetData): (r: CalculationResult)
    ensures r.netProfit == r.payout - data.stake
    ensures r.parts.Some? <==> data.handicapType == Asian && IsQuarterLine(data.handicapLine)
    ensures data.handicapType == European ==> r.status == Win || r.status == Loss
    ensures r.parts.Some? ==>
      && r.parts.value.0.line == data.handicapLine - 1
      && r.parts.value.1.line == data.handicapLine + 1
      && r.payout == r.parts.value.0.payout + r.parts.value.1.payout
  {
    var scoreDiff := ScoreDiff(data.scores);
    if data.handicapType.European? then
      var winner := EuropeanWinner(AdjustedDiff(scoreDiff, data.handicapLine));
      var isWin := winner == data.betSelection;
      var payout := if isWin then data.stake * data.odds else 0.0;
      CalculationResult(if isWin then Win else Loss, payout, payout - data.stake, None)
    else
      var isHomeBet := data.betSelection == Home;
      if IsQuarterLine(data.handicapLine) then
        var part1 := EvaluatePart(scoreDiff, isHomeBet, data.odds, data.handicapLine - 1, data.stake / 2.0);
        var part2 := EvaluatePart(scoreDiff, isHomeBet, data.odds, data.handicapLine + 1, data.stake / 2.0);
        var payout := part1.payout + part2.payout;
        CalculationResult(CombineStatus(part1.status, part2.status), payout, payout - data.stake, Some((part1, part2)))
      else
        var part := EvaluatePart(scoreDiff, isHomeBet, data.odds, data.handicapLine, data.stake);
        CalculationResult(WholeLineStatus(part.status), part.payout, part.payout - data.stake, None)
  }

  // ---------------------------------------------------------------------------
  // Properties of the European branch
  // ---------------------------------------------------------------------------

  /** A European bet wins exactly when it backs the line's winner, and then pays stake times odds. */
  lemma EuropeanSettlement(data: BetData)
    requires data.handicapType == European
    ensures var r := CalculateResult(data);
      && (r.status == Win <==> data.betSelection == EuropeanWinner(AdjustedDiff(ScoreDiff(data.scores), data.handicapLine)))
      && (r.status == Win || r.status == Loss)
      && r.payout == (if r.status == Win then data.stake * data.odds else 0.0)
      && r.parts == None
  {
  }

  /** Whether a European bet on `selection`, otherwise as `data`, wins. */
  predicate EuropeanWins(data: BetData, selection: BetSelection) {
    CalculateResult(data.(betSelection := selection)).status == Win
  }

  /**
   * For a fixed score and line exactly one of HOME, DRAW and AWAY wins; it is
   * paid stake times odds and the other two are paid nothing.
   */
  lemma EuropeanExactlyOneWinner(data: BetData)
    requires data.handicapType == European
    ensures (if EuropeanWins(data, Home) then 1 else 0)
          + (if EuropeanWins(data, Draw) then 1 else 0)
          + (if EuropeanWins(data, Away) then 1 else 0) == 1
    ensures forall s: BetSelection ::
      CalculateResult(data.(betSelection := s)).payout
        == if EuropeanWins(data, s) then data.stake * data.odds else 0.0
  {
    var adj := AdjustedDiff(ScoreDiff(data.scores), data.handicapLine);
    assert EuropeanWins(data, Home) <==> adj > 0.0;
    assert EuropeanWins(data, Draw) <==> adj == 0.0;
    assert EuropeanWins(data, Away) <==> adj < 0.0;
  }

  // ---------------------------------------------------------------------------
  // Properties of the Asian branch
  // ---------------------------------------------------------------------------

  /**
   * An away bet's part is the home bet's part with WIN and LOSS swapped and
   * the same line; the away side wins exactly where the home side loses.
   */
  lemma AwayPartInvertsHomePart(scoreDiff: int, odds: real, line: Quarters, partStake: real)
    ensures var home := EvaluatePart(scoreDiff, true, odds, line, partStake);
            var away := EvaluatePart(scoreDiff, false, odds, line, partStake);
      && away.line == home.line
      && away.status == Invert(home.status)
      && away.payout == partStake * ReturnFactor(Invert(home.status), odds)
  {
  }

  /** Whole and half lines: no parts, the part's status, and a payout of 0, the stake, or stake times odds. */
  lemma AsianWholeOrHalfLine(data: BetData)
    requires data.handicapType == Asian && !IsQuarterLine(data.handicapLine)
    ensures var r := CalculateResult(data);
            var part := EvaluatePart(ScoreDiff(data.scores), data.betSelection == Home, data.odds, data.handicapLine, data.stake);
      && r.parts == None
      && r.status == part.status
      && r.payout == part.payout
      && (r.payout == 0.0 || r.payout == data.stake || r.payout == data.stake * data.odds)
  {
  }

  /** Quarter lines: the stake is split in halves on the two neighbouring lines, and the payouts add up. */
  lemma AsianQuarterLine(data: BetData)
    requires data.handicapType == Asian && IsQuarterLine(data.handicapLine)
    ensures var r := CalculateResult(data);
            var diff := ScoreDiff(data.scores);
            var isHomeBet := data.betSelection == Home;
            var part1 := EvaluatePart(diff, isHomeBet, data.odds, data.handicapLine - 1, data.stake / 2.0);
            var part2 := EvaluatePart(diff, isHomeBet, data.odds, data.handicapLine + 1, data.stake / 2.0);
      && r.parts == Some((part1, part2))
      && r.payout == part1.payout + part2.payout
      && r.status == CombineStatus(part1.status, part2.status)
  {
  }

  /**
   * With whole-goal scores the two halves of a quarter line can never be one
   * win and one loss: the lower line would have to lose while the line half a
   * goal higher wins, which puts the quarter line itself exactly on the score
   * difference, a whole number.
   */
  lemma QuarterPartsNeverMixed(scoreDiff: int, isHomeBet: bool, odds: real, line: Quarters, partStake: real)
    requires IsQuarterLine(line)
    ensures !MixedWinLoss(EvaluatePart(scoreDiff, isHomeBet, odds, line - 1, partStake).status,
                          EvaluatePart(scoreDiff, isHomeBet, odds, line + 1, partStake).status)
  {
  }

  /** The "should not happen" fallback of the combination table is never reached (bettingLogic.ts:67). */
  lemma QuarterFallbackUnreachable(data: BetData)
    requires data.handicapType == Asian && IsQuarterLine(data.handicapLine)
    ensures CalculateResult(data).parts.Some?
    ensures !MixedWinLoss(CalculateResult(data).parts.value.0.status, CalculateResult(data).parts.value.1.status)
  {
    QuarterPartsNeverMixed(ScoreDiff(data.scores), data.betSelection == Home, data.odds, data.handicapLine, data.stake / 2.0);
  }

  /**
   * Apart from the fallback, a combined status returns the average of what
   * its two halves return.
   */
  lemma CombineReturnFactor(a: PartStatus, b: PartStatus, odds: real)
    requires !MixedWinLoss(a, b)
    ensures ReturnFactor(CombineStatus(a, b), odds) == (ReturnFactor(a, odds) + ReturnFactor(b, odds)) / 2.0
  {
  }

  /** The fallback PUSH misstates the payout of a win paired with a loss whenever the odds are not 2. */
  lemma FallbackMisstatesPayout(odds: real)
    requires odds != 2.0
    ensures ReturnFactor(CombineStatus(Win, Loss), odds) != (ReturnFactor(Win, odds) + ReturnFactor(Loss, odds)) / 2.0
  {
  }

  /** Two halves of a stake that are not one win and one loss pay the whole stake at their combined status. */
  lemma SplitStakePayout(p1: CalculationPart, p2: CalculationPart, stake: real, odds: real)
    requires !MixedWinLoss(p1.status, p2.status)
    requires p1.payout == stake / 2.0 * ReturnFactor(p1.status, odds)
    requires p2.payout == stake / 2.0 * ReturnFactor(p2.status, odds)
    ensures p1.payout + p2.payout == stake * ReturnFactor(CombineStatus(p1.status, p2.status), odds)
  {
    var f1, f2 := ReturnFactor(p1.status, odds), ReturnFactor(p2.status, odds);
    CombineReturnFactor(p1.status, p2.status, odds);
    assert stake / 2.0 * f1 + stake / 2.0 * f2 == stake * ((f1 + f2) / 2.0);
  }

  /** The two half-stake parts of a quarter line together pay the stake at their combined status. */
  lemma QuarterSplitPayout(scoreDiff: int, isHomeBet: bool, odds: real, line: Quarters, stake: real)
    requires IsQuarterLine(line)
    ensures var p1 := EvaluatePart(scoreDiff, isHomeBet, odds, line - 1, stake / 2.0);
            var p2 := EvaluatePart(scoreDiff, isHomeBet, odds, line + 1, stake / 2.0);
      p1.payout + p2.payout == stake * ReturnFactor(CombineStatus(p1.status, p2.status), odds)
  {
    var p1 := EvaluatePart(scoreDiff, isHomeBet, odds, line - 1, stake / 2.0);
    var p2 := EvaluatePart(scoreDiff, isHomeBet, odds, line + 1, stake / 2.0);
    QuarterPartsNeverMixed(scoreDiff, isHomeBet, odds, line, stake / 2.0);
    SplitStakePayout(p1, p2, stake, odds);
  }

  /** A quarter-line bet pays its stake times what its combined status returns. */
  lemma QuarterPayoutByStatus(data: BetData)
    requires data.handicapType == Asian && IsQuarterLine(data.handicapLine)
    ensures CalculateResult(data).payout == data.stake * ReturnFactor(CalculateResult(data).status, data.odds)
  {
    AsianQuarterLine(data);
    QuarterSplitPayout(ScoreDiff(data.scores), data.betSelection == Home, data.odds, data.handicapLine, data.stake);
  }

  /**
   * Every settled bet, in every branch, pays its stake times what its status
   * returns per unit: the status alone determines the payout.
   */
  lemma PayoutDeterminedByStatus(data: BetData)
    ensures CalculateResult(data).payout == data.stake * ReturnFactor(CalculateResult(data).status, data.odds)
  {
    if data.handicapType == European {
      EuropeanSettlement(data);
    } else if IsQuarterLine(data.handicapLine) {
      QuarterPayoutByStatus(data);
    } else {
      AsianWholeOrHalfLine(data);
    }
  }

  /** What a positive stake returns at a status, less the stake, has the sign the status names. */
  lemma ProfitSignOfStatus(status: ResultStatus, profit: real, stake: real, odds: real)
    requires stake > 0.0 && odds > 1.0
    requires profit == stake * ReturnFactor(status, odds) - stake
    ensures profit > 0.0 <==> status == Win || status == HalfWin
    ensures profit == 0.0 <==> status == Push
    ensures profit < 0.0 <==> status == HalfLoss || status == Loss
  {
    var f := ReturnFactor(status, odds);
    assert profit == stake * (f - 1.0);
    assert f > 1.0 <==> status == Win || status == HalfWin;
    assert f == 1.0 <==> status == Push;
  }

  /**
   * With a positive stake and odds above 1, the net profit is positive on a
   * win or half win, zero on a push and negative on a half loss or loss.
   */
  lemma ProfitSignMatchesStatus(data: BetData)
    requires data.stake > 0.0 && data.odds > 1.0
    ensures var r := CalculateResult(data);
      && (r.netProfit > 0.0 <==> r.status == Win || r.status == HalfWin)
      && (r.netProfit == 0.0 <==> r.status == Push)
      && (r.netProfit < 0.0 <==> r.status == HalfLoss || r.status == Loss)
  {
    var r := CalculateResult(data);
    PayoutDeterminedByStatus(data);
    ProfitSignOfStatus(r.status, r.netProfit, data.stake, data.odds);
  }

  /** The status of the opposite side: WIN and LOSS swap, and so do HALF WIN and HALF LOSS. */
  function Mirror(s: ResultStatus): (t: ResultStatus)
    ensures StatusLevel(t) == -StatusLevel(s)
  {
    match s
    case Win => Loss
    case HalfWin => HalfLoss
    case Push => Push
    case HalfLoss => HalfWin
    case Loss => Win
  }

  /** An Asian away bet settles as the mirror image of the home bet on the same line. */
  lemma AsianHomeAwayMirror(data: BetData)
    requires data.handicapType == Asian
    ensures CalculateResult(data.(betSelection := Away)).status
         == Mirror(CalculateResult(data.(betSelection := Home)).status)
  {
    var home := data.(betSelection := Home);
    var away := data.(betSelection := Away);
    if IsQuarterLine(data.handicapLine) {
      var h := CalculateResult(home).parts.value;
      var a := CalculateResult(away).parts.value;
      AwayPartInvertsHomePart(ScoreDiff(data.scores), data.odds, data.handicapLine - 1, data.stake / 2.0);
      AwayPartInvertsHomePart(ScoreDiff(data.scores), data.odds, data.handicapLine + 1, data.stake / 2.0);
      assert a.0.status == Invert(h.0.status) && a.1.status == Invert(h.1.status);
      StatusLevelInjective(CalculateResult(away).status, Mirror(CalculateResult(home).status));
    }
  }

  /** In the Asian branch a DRAW selection is settled exactly as an AWAY one (bettingLogic.ts:26). */
  lemma AsianDrawSettlesAsAway(data: BetData)
    requires data.handicapType == Asian
    ensures CalculateResult(data.(betSelection := Draw)) == CalculateResult(data.(betSelection := Away))
  {
  }

  /** Worked European settlements: a draw backed on a level line wins, a home bet on it loses. */
  lemma EuropeanExamples()
    ensures CalculateResult(BetData(European, Scores(1, 1), 0, Draw, 3.0, 100.0))
         == CalculationResult(Win, 300.0, 200.0, None)
    ensures CalculateResult(BetData(European, Scores(1, 1), 0, Home, 1.9, 50.0))
         == CalculationResult(Loss, 0.0, -50.0, None)
  {
  }

  /** Worked Asian settlements: both sides of a half line, and a quarter line that half loses. */
  lemma AsianExamples()
    ensures CalculateResult(BetData(Asian, Scores(2, 0), -2, Home, 1.95, 100.0))
         == CalculationResult(Win, 195.0, 95.0, None)
    ensures CalculateResult(BetData(Asian, Scores(1, 0), -2, Away, 1.95, 100.0))
         == CalculationResult(Loss, 0.0, -100.0, None)
    ensures CalculateResult(BetData(Asian, Scores(0, 0), -1, Home, 2.0, 100.0))
         == CalculationResult(HalfLoss, 50.0, -50.0,
              Some((CalculationPart(-2, Loss, 0.0), CalculationPart(0, Push, 50.0))))
  {
    assert !IsQuarterLine(-2) by { assert LineRemainder(-2) == -2; }
    assert IsQuarterLine(-1) by { assert LineRemainder(-1) == -1; }
  }
}
