/** The handicap line tables and betting defaults of the application (constants.ts). */
module Constants {
  import opened Types
  import opened BettingLogic

  /** Consecutive quarter counts `lo, lo + 1, …, lo + n - 1`. */
  function QuarterRange(lo: Quarters, n: nat): (s: seq<Quarters>)
    ensures |s| == n
    ensures forall i | 0 <= i < n :: s[i] == lo + i
  {
    seq(n, i => lo + i)
  }

  /** `ASIAN_HANDICAP_LINES`: 33 lines `(i - 16) * 0.25`, in quarters (constants.ts:2). */
  const AsianHandicapLines: seq<Quarters> := QuarterRange(-16, 33)

  /** `EUROPEAN_HANDICAP_LINES`: 17 whole-goal lines `i - 8`, in quarters (constants.ts:3). */
  const EuropeanHandicapLines: seq<Quarters> := seq(17, i => 4 * (i - 8))

  /** `DEFAULT_STAKE` (constants.ts:5). */
  const DefaultStake: real := 100.0

  /** `DEFAULT_ODDS` (constants.ts:6). */
  const DefaultOdds: real := 1.95

  /** How many of `lines` are quarter (split) lines. */
  function CountQuarterLines(lines: seq<Quarters>): nat {
    if lines == [] then 0
    else (if IsQuarterLine(lines[0]) then 1 else 0) + CountQuarterLines(lines[1..])
  }

  /** The Asian table runs from -4.0 to +4.0 in steps of 0.25, symmetric about 0 at index 16. */
  lemma AsianHandicapLinesShape()
    ensures |AsianHandicapLines| == 33
    ensures forall i :: 0 <= i < 33 ==> LineValue(AsianHandicapLines[i]) == (i - 16) as real * 0.25
    ensures LineValue(AsianHandicapLines[0]) == -4.0 && LineValue(AsianHandicapLines[32]) == 4.0
    ensures AsianHandicapLines[16] == 0
    ensures forall i :: 0 <= i < 32 ==> AsianHandicapLines[i + 1] == AsianHandicapLines[i] + 1
    ensures forall i :: 0 <= i < 33 ==> AsianHandicapLines[32 - i] == -AsianHandicapLines[i]
  {
  }

  /** The European table holds the whole goals -8 to +8, symmetric about 0 at index 8, and no split line. */
  lemma EuropeanHandicapLinesShape()
    ensures |EuropeanHandicapLines| == 17
    ensures forall i :: 0 <= i < 17 ==> LineValue(EuropeanHandicapLines[i]) == (i - 8) as real
    ensures EuropeanHandicapLines[8] == 0
    ensures forall i :: 0 <= i < 16 ==> LineValue(EuropeanHandicapLines[i + 1]) == LineValue(EuropeanHandicapLines[i]) + 1.0
    ensures forall i :: 0 <= i < 17 ==> EuropeanHandicapLines[16 - i] == -EuropeanHandicapLines[i]
    ensures forall i :: 0 <= i < 17 ==> FractionQuarters(EuropeanHandicapLines[i]) == 0
  {
  }

  /** An Asian line is a quarter line exactly when its index is at an odd offset from the middle. */
  lemma AsianQuarterLinesAtOddOffsets()
    ensures forall i :: 0 <= i < 33 ==> (IsQuarterLine(AsianHandicapLines[i]) <==> (i - 16) % 2 == 1)
  {
    forall i | 0 <= i < 33
      ensures IsQuarterLine(AsianHandicapLines[i]) <==> (i - 16) % 2 == 1
    {
      IsQuarterLineIffOdd(AsianHandicapLines[i]);
    }
  }

  /** How many of `lines` are odd quarter counts. */
  function CountOdd(lines: seq<Quarters>): nat {
    if lines == [] then 0
    else (if lines[0] % 2 == 1 then 1 else 0) + CountOdd(lines[1..])
  }

  /** Counting quarter lines is counting odd quarter counts. */
  lemma {:induction false} CountQuarterLinesIsCountOdd(lines: seq<Quarters>)
    ensures CountQuarterLines(lines) == CountOdd(lines)
  {
    if lines != [] {
      IsQuarterLineIffOdd(lines[0]);
      CountQuarterLinesIsCountOdd(lines[1..]);
    }
  }

  /** Among `n` consecutive quarter counts starting at an even one, every other one is odd. */
  lemma {:induction false} OddCountOfRange(lo: Quarters, n: nat)
    requires lo % 2 == 0
    ensures CountOdd(QuarterRange(lo, n)) == n / 2
    decreases n
  {
    if n > 1 {
      var s := QuarterRange(lo, n);
      assert s[1..][1..] == QuarterRange(lo + 2, n - 2);
      OddCountOfRange(lo + 2, n - 2);
      assert CountOdd(s[1..]) == 1 + CountOdd(s[1..][1..]);
    }
  }

  /** Among `n` consecutive lines starting at an even quarter count, every other one is a quarter line. */
  lemma QuarterCountOfRange(lo: Quarters, n: nat)
    requires lo % 2 == 0
    ensures CountQuarterLines(QuarterRange(lo, n)) == n / 2
  {
    CountQuarterLinesIsCountOdd(QuarterRange(lo, n));
    OddCountOfRange(lo, n);
  }

  /** Exactly 16 of the 33 Asian lines are quarter lines; the other 17 are whole or half lines. */
  lemma AsianQuarterLineCount()
    ensures CountQuarterLines(AsianHandicapLines) == 16
  {
    QuarterCountOfRange(-16, 33);
  }
}
