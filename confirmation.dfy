/**
  The confirmation scorer (main.py:135-143): eight threshold tests on the latest
  row of indicators, each worth one point and one reason, and the informational
  "OBV Rising" reason, which is worth no point.
*/
module Confirmation {

  /** The latest row of the oscillators the scorer reads. */
  datatype Row = Row(rsi: real, stochRsi: real, mfi: real, percentB: real)

  /** The reasons a signal can carry; `Text` gives the wording the alert shows. */
  datatype Reason =
    | MacdBullishDivergence | MacdBearishDivergence
    | RsiOversold | RsiOverbought
    | StochRsiOversold | StochRsiOverbought
    | MfiOversold | MfiOverbought
    | PercentBOversold | PercentBOverbought
    | ObvRisingNote

  function Text(r: Reason): string
  {
    match r
    case MacdBullishDivergence => "MACD Bullish Divergence"
    case MacdBearishDivergence => "MACD Bearish Divergence"
    case RsiOversold => "RSI Oversold"
    case RsiOverbought => "RSI Overbought"
    case StochRsiOversold => "StochRSI Oversold"
    case StochRsiOverbought => "StochRSI Overbought"
    case MfiOversold => "MFI Oversold"
    case MfiOverbought => "MFI Overbought"
    case PercentBOversold => "BB %B Oversold"
    case PercentBOverbought => "BB %B Overbought"
    case ObvRisingNote => "OBV Rising"
  }

  /** An oscillator's two thresholds and the reasons reported when a reading passes them. */
  datatype Oscillator = Oscillator(oversoldBelow: real, overboughtAbove: real, oversold: Reason, overbought: Reason)

  const Rsi := Oscillator(35.0, 65.0, RsiOversold, RsiOverbought)
  const StochRsi := Oscillator(0.2, 0.8, StochRsiOversold, StochRsiOverbought)
  const Mfi := Oscillator(30.0, 70.0, MfiOversold, MfiOverbought)
  const PercentB := Oscillator(0.2, 0.8, PercentBOversold, PercentBOverbought)

  /** The reasons one reading earns: the oversold test first, then the overbought test. */
  function Verdict(o: Oscillator, x: real): (r: seq<Reason>)
    ensures o.oversoldBelow < o.overboughtAbove ==> |r| <= 1
    ensures r == [] <==> o.oversoldBelow <= x <= o.overboughtAbove
  {
    (if x < o.oversoldBelow then [o.oversold] else []) + (if x > o.overboughtAbove then [o.overbought] else [])
  }

  /**
    The reasons the latest row earns, in the source's order: RSI, StochRSI, MFI
    and %B, each oversold before overbought. Each point of confirmation strength
    is one of these reasons; since every oscillator's oversold threshold lies
    below its overbought one, at most one test per oscillator passes.
  */
  function Confirmations(row: Row): (r: seq<Reason>)
    ensures |r| <= 4
  {
    Verdict(Rsi, row.rsi) + Verdict(StochRsi, row.stochRsi) + Verdict(Mfi, row.mfi) + Verdict(PercentB, row.percentB)
  }

  /** The threshold test behind each confirmation reason; divergence and OBV reasons are not confirmations. */
  predicate Earns(row: Row, q: Reason)
  {
    match q
    case RsiOversold => row.rsi < 35.0
    case RsiOverbought => row.rsi > 65.0
    case StochRsiOversold => row.stochRsi < 0.2
    case StochRsiOverbought => row.stochRsi > 0.8
    case MfiOversold => row.mfi < 30.0
    case MfiOverbought => row.mfi > 70.0
    case PercentBOversold => row.percentB < 0.2
    case PercentBOverbought => row.percentB > 0.8
    case _ => false
  }

  /** A reading earns its oversold reason exactly below the lower threshold and its overbought reason exactly above the upper one. */
  lemma VerdictHas(o: Oscillator, x: real, q: Reason)
    ensures q in Verdict(o, x) <==> (q == o.oversold && x < o.oversoldBelow) || (q == o.overbought && x > o.overboughtAbove)
  {
  }

  /** Each reason is reported exactly when its own threshold test passes. */
  lemma {:induction false} ConfirmationsExact(row: Row, q: Reason)
    ensures q in Confirmations(row) <==> Earns(row, q)
  {
    var a, b, c, d := Verdict(Rsi, row.rsi), Verdict(StochRsi, row.stochRsi), Verdict(Mfi, row.mfi), Verdict(PercentB, row.percentB);
    assert Confirmations(row) == a + b + c + d;
    assert q in a + b + c + d <==> q in a || q in b || q in c || q in d;
    VerdictHas(Rsi, row.rsi, q);
    VerdictHas(StochRsi, row.stochRsi, q);
    VerdictHas(Mfi, row.mfi, q);
    VerdictHas(PercentB, row.percentB, q);
  }

  /** One oscillator's two tests, each adding one point and its reason to the running `strength` and `reasons`. */
  method AddVerdict(o: Oscillator, x: real, strength0: int, reasons0: seq<Reason>) returns (strength: int, reasons: seq<Reason>)
    ensures strength == strength0 + |Verdict(o, x)|
    ensures reasons == reasons0 + Verdict(o, x)
  {
    strength, reasons := strength0, reasons0;
    if x < o.oversoldBelow {
      strength := strength + 1;
      reasons := reasons + [o.oversold];
    }
    if x > o.overboughtAbove {
      strength := strength + 1;
      reasons := reasons + [o.overbought];
    }
  }

  /** The eight tests of main.py:135-142 in the source's order: RSI, StochRSI, MFI, then %B. */
  method AddConfirmations(row: Row, strength0: int, reasons0: seq<Reason>) returns (strength: int, reasons: seq<Reason>)
    ensures strength == strength0 + |Confirmations(row)|
    ensures reasons == reasons0 + Confirmations(row)
  {
    strength, reasons := AddVerdict(Rsi, row.rsi, strength0, reasons0);
    strength, reasons := AddVerdict(StochRsi, row.stochRsi, strength, reasons);
    strength, reasons := AddVerdict(Mfi, row.mfi, strength, reasons);
    strength, reasons := AddVerdict(PercentB, row.percentB, strength, reasons);
  }

  /** "OBV Rising": the latest on-balance volume exceeds the one nine rows earlier (`OBV[-1] > OBV[-10]`). */
  predicate ObvRising(obv: seq<real>)
    requires |obv| >= 10
  {
    obv[|obv| - 1] > obv[|obv| - 10]
  }

  /** RSI 30, StochRSI 0.1, MFI 25 and %B 0.15 earn the four oversold reasons and nothing else. */
  lemma OversoldExample()
    ensures Confirmations(Row(30.0, 0.1, 25.0, 0.15)) == [RsiOversold, StochRsiOversold, MfiOversold, PercentBOversold]
  {
  }
}
