/**
  One pass of `detect_divergence_with_confirmation` (main.py:53-143) over an
  already-trimmed indicator table: the length guards, the swing detection on the
  price-low and histogram series, the bullish and bearish divergence tests and
  the confirmation score. The de-duplicating gate is in module Gate.
*/
module Detector {
  import opened Wrappers
  import opened Swing
  import opened Divergence
  import opened Confirmation

  /** Fewer candles than this and the pass gives no result (main.py:55). */
  const MinCandles: nat := 100
  /** Fewer trimmed rows than this and the pass gives no result (main.py:81). */
  const MinRows: nat := 50
  /** The look-around window of the swing detector (main.py:85). */
  const Window: nat := 5
  /** Strength earned by each divergence that fires (main.py:116, 128). */
  const DivergencePoints: nat := 3

  datatype Kind = Bullish | Bearish

  /** The label the source stores and shows for a kind. */
  function Label(k: Kind): string
  {
    match k
    case Bullish => "BULLISH DIVERGENCE"
    case Bearish => "BEARISH DIVERGENCE"
  }

  /**
    The indicator table after the warm-up rows were dropped: the price-low,
    MACD-histogram and on-balance-volume columns, and the oscillators of the
    latest row.
  */
  datatype Table = Table(low: seq<real>, hist: seq<real>, obv: seq<real>, current: Row)
  {
    /** The columns are aligned row by row. */
    predicate WellFormed()
    {
      |low| == |hist| == |obv|
    }

    function Rows(): nat
    {
      |low|
    }
  }

  /** A detected signal: its kind, its strength score and its reasons in the order they were found. */
  datatype Signal = Signal(kind: Kind, strength: int, reasons: seq<Reason>)

  /** How many of the two divergences fired. */
  function Fired(bullish: bool, bearish: bool): nat
  {
    (if bullish then 1 else 0) + (if bearish then 1 else 0)
  }

  /**
    The decision on given swing lists: no signal unless a divergence fires;
    otherwise bearish wins the kind when it fires, every divergence that fires
    scores its points and its reason (bullish first), and the confirmations and
    the OBV note follow.
  */
  function Decide(t: Table, priceLows: seq<SwingPoint>, priceHighs: seq<SwingPoint>,
                  macdLows: seq<SwingPoint>, macdHighs: seq<SwingPoint>): Option<Signal>
    requires IndexesInto(macdLows, t.hist) && IndexesInto(macdHighs, t.hist)
    requires |t.obv| >= 10
  {
    var bullish := Diverges(priceLows, macdLows, t.hist, Low);
    var bearish := Diverges(priceHighs, macdHighs, t.hist, High);
    if !bullish && !bearish then None
    else
      Some(Signal(
        if bearish then Bearish else Bullish,
        DivergencePoints * Fired(bullish, bearish) + |Confirmations(t.current)|,
        (if bullish then [MacdBullishDivergence] else []) + (if bearish then [MacdBearishDivergence] else [])
          + Confirmations(t.current)
          + (if ObvRising(t.obv) then [ObvRisingNote] else [])))
  }

  /** The table's swing points index into its histogram column. */
  lemma SwingsIndexInto(t: Table)
    requires t.WellFormed()
    ensures IndexesInto(Swings(t.low, Window, Low), t.hist) && IndexesInto(Swings(t.low, Window, High), t.hist)
    ensures IndexesInto(Swings(t.hist, Window, Low), t.hist) && IndexesInto(Swings(t.hist, Window, High), t.hist)
  {
  }

  /** The bullish test of main.py:108-117 on the table. */
  predicate BullishFires(t: Table)
    requires t.WellFormed()
  {
    SwingsIndexInto(t);
    Diverges(Swings(t.low, Window, Low), Swings(t.hist, Window, Low), t.hist, Low)
  }

  /** The bearish test of main.py:120-129 on the table. */
  predicate BearishFires(t: Table)
    requires t.WellFormed()
  {
    SwingsIndexInto(t);
    Diverges(Swings(t.low, Window, High), Swings(t.hist, Window, High), t.hist, High)
  }

  /** The outcome of one pass, given the number of candles fetched and the trimmed table. */
  function Evaluate(candles: nat, t: Table): Option<Signal>
    requires t.WellFormed()
  {
    if candles < MinCandles || t.Rows() < MinRows then None
    else
      SwingsIndexInto(t);
      Decide(t, Swings(t.low, Window, Low), Swings(t.low, Window, High),
             Swings(t.hist, Window, Low), Swings(t.hist, Window, High))
  }

  /**
    One divergence block (main.py:108-117, mirrored at 120-129): the last two
    price swing points, the histogram swing point nearest to each, and the two
    comparisons.
  */
  method TestDivergence(price: seq<SwingPoint>, macd: seq<SwingPoint>, hist: seq<real>, e: Extremum) returns (fires: bool)
    requires IndexesInto(macd, hist)
    ensures fires == Diverges(price, macd, hist, e)
  {
    fires := false;
    if |price| >= 2 && |macd| >= 2 {
      var p1, p2 := price[|price| - 2], price[|price| - 1];
      var m1, m2 := Nearest(macd, p1.index), Nearest(macd, p2.index);
      fires := Beyond(p2.value, p1.value, e) && Beyond(hist[macd[m1].index], hist[macd[m2].index], e);
    }
  }

  /**
    The pass as the source runs it: the guards, both swing scans, then
    `signal`, `strength` and `reasons` updated test by test.
  */
  method Detect(candles: nat, t: Table) returns (r: Option<Signal>)
    requires t.WellFormed()
    ensures r == Evaluate(candles, t)
  {
    if candles < MinCandles {
      return None;
    }
    if t.Rows() < MinRows {
      return None;
    }
    var priceLows, priceHighs := FindSwingLowsHighs(t.low, Window);
    var macdLows, macdHighs := FindSwingLowsHighs(t.hist, Window);
    SwingsIndexInto(t);
    r := Classify(t, priceLows, priceHighs, macdLows, macdHighs);
  }

  /**
    From the swing lists on (main.py:100-143): `signal`, `strength` and
    `reasons` start empty and are updated test by test.
  */
  method Classify(t: Table, priceLows: seq<SwingPoint>, priceHighs: seq<SwingPoint>,
                  macdLows: seq<SwingPoint>, macdHighs: seq<SwingPoint>) returns (r: Option<Signal>)
    requires IndexesInto(macdLows, t.hist) && IndexesInto(macdHighs, t.hist)
    requires |t.obv| >= 10
    ensures r == Decide(t, priceLows, priceHighs, macdLows, macdHighs)
  {
    var signal: Option<Kind> := None;
    var strength := 0;
    var reasons: seq<Reason> := [];

    var bullish := TestDivergence(priceLows, macdLows, t.hist, Low);
    if bullish {
      signal := Some(Bullish);
      strength := strength + DivergencePoints;
      reasons := reasons + [MacdBullishDivergence];
    }
    var bearish := TestDivergence(priceHighs, macdHighs, t.hist, High);
    if bearish {
      signal := Some(Bearish);
      strength := strength + DivergencePoints;
      reasons := reasons + [MacdBearishDivergence];
    }
    assert signal.Some? <==> bullish || bearish;
    assert strength == DivergencePoints * Fired(bullish, bearish);
    assert reasons == (if bullish then [MacdBullishDivergence] else []) + (if bearish then [MacdBearishDivergence] else []);
    if signal == None {
      return None;
    }

    ghost var divergenceReasons := reasons;
    strength, reasons := AddConfirmations(t.current, strength, reasons);
    if t.obv[|t.obv| - 1] > t.obv[|t.obv| - 10] {
      reasons := reasons + [ObvRisingNote];
    }
    assert reasons == divergenceReasons + Confirmations(t.current) + (if ObvRising(t.obv) then [ObvRisingNote] else []);
    assert signal.value == if bearish then Bearish else Bullish;

    r := Some(Signal(signal.value, strength, reasons));
  }

  /** The fact behind each reason a signal can carry (main.py:114, 126, 135-143). */
  predicate Supports(q: Reason, bullish: bool, bearish: bool, row: Row, obvRising: bool)
  {
    match q
    case MacdBullishDivergence => bullish
    case MacdBearishDivergence => bearish
    case ObvRisingNote => obvRising
    case _ => Earns(row, q)
  }

  /** On given swing lists, a decided signal carries each reason exactly when its fact holds, and scores 3 per divergence plus 1 per confirmation. */
  lemma {:induction false} DecideIsExact(t: Table, priceLows: seq<SwingPoint>, priceHighs: seq<SwingPoint>,
                                         macdLows: seq<SwingPoint>, macdHighs: seq<SwingPoint>)
    requires IndexesInto(macdLows, t.hist) && IndexesInto(macdHighs, t.hist) && |t.obv| >= 10
    requires Decide(t, priceLows, priceHighs, macdLows, macdHighs).Some?
    ensures
      var bullish := Diverges(priceLows, macdLows, t.hist, Low);
      var bearish := Diverges(priceHighs, macdHighs, t.hist, High);
      var s := Decide(t, priceLows, priceHighs, macdLows, macdHighs).value;
      && (bullish || bearish)
      && s.kind == (if bearish then Bearish else Bullish)
      && (forall q :: q in s.reasons <==> Supports(q, bullish, bearish, t.current, ObvRising(t.obv)))
      && s.strength == DivergencePoints * Fired(bullish, bearish) + |Confirmations(t.current)|
      && 3 <= s.strength <= 10
  {
    var bullish := Diverges(priceLows, macdLows, t.hist, Low);
    var bearish := Diverges(priceHighs, macdHighs, t.hist, High);
    var s := Decide(t, priceLows, priceHighs, macdLows, macdHighs).value;
    var d := (if bullish then [MacdBullishDivergence] else []) + (if bearish then [MacdBearishDivergence] else []);
    var o := if ObvRising(t.obv) then [ObvRisingNote] else [];
    assert s.reasons == d + Confirmations(t.current) + o;
    forall q
      ensures q in s.reasons <==> Supports(q, bullish, bearish, t.current, ObvRising(t.obv))
    {
      assert q in s.reasons <==> q in d || q in Confirmations(t.current) || q in o;
      ConfirmationsExact(t.current, q);
    }
  }

  /** A pass gives no signal exactly when there are too few candles, too few trimmed rows, or neither divergence fires (main.py:55-56, 81-82, 131-132). */
  lemma NoSignalIff(candles: nat, t: Table)
    requires t.WellFormed()
    ensures Evaluate(candles, t).None? <==>
      candles < MinCandles || t.Rows() < MinRows || (!BullishFires(t) && !BearishFires(t))
  {
  }

  /**
    A signal is bearish exactly when the bearish divergence fired; it carries
    each reason exactly when that reason's fact holds; each divergence scores 3
    and each confirmation 1, the OBV note nothing; so the strength lies between
    3 and 10.
  */
  lemma {:induction false} SignalIsExact(candles: nat, t: Table)
    requires t.WellFormed() && Evaluate(candles, t).Some?
    ensures t.Rows() >= MinRows
    ensures Evaluate(candles, t).value.kind == if BearishFires(t) then Bearish else Bullish
    ensures forall q :: q in Evaluate(candles, t).value.reasons <==>
      Supports(q, BullishFires(t), BearishFires(t), t.current, ObvRising(t.obv))
    ensures Evaluate(candles, t).value.strength ==
      DivergencePoints * Fired(BullishFires(t), BearishFires(t)) + |Confirmations(t.current)|
    ensures 3 <= Evaluate(candles, t).value.strength <= 10
  {
    SwingsIndexInto(t);
    DecideIsExact(t, Swings(t.low, Window, Low), Swings(t.low, Window, High),
                  Swings(t.hist, Window, Low), Swings(t.hist, Window, High));
  }

  /**
    When both divergences fire, the bearish one decides the kind, both score, and
    the reasons start with the bullish then the bearish divergence (main.py:115-129).
  */
  lemma BothFireIsBearish(candles: nat, t: Table)
    requires t.WellFormed() && candles >= MinCandles && t.Rows() >= MinRows
    requires BullishFires(t) && BearishFires(t)
    ensures Evaluate(candles, t).Some?
    ensures Evaluate(candles, t).value.kind == Bearish
    ensures Evaluate(candles, t).value.strength == 6 + |Confirmations(t.current)|
    ensures Evaluate(candles, t).value.reasons[..2] == [MacdBullishDivergence, MacdBearishDivergence]
  {
  }

  /** The OBV column never changes whether a signal is given, its kind or its strength (main.py:143 adds a reason only). */
  lemma ObvNeverScores(candles: nat, t: Table, obv: seq<real>)
    requires t.WellFormed() && |obv| == |t.obv|
    ensures Evaluate(candles, t.(obv := obv)).None? == Evaluate(candles, t).None?
    ensures Evaluate(candles, t).Some? ==>
      && Evaluate(candles, t.(obv := obv)).value.kind == Evaluate(candles, t).value.kind
      && Evaluate(candles, t.(obv := obv)).value.strength == Evaluate(candles, t).value.strength
  {
  }

  /**
    The pass with the swing detector as written (main.py:85-98): the first scan
    that meets a strict local minimum raises, and a scan that does not raise
    returns no swing point.
  */
  function EvaluateAsWritten(candles: nat, t: Table): Result<Option<Signal>, Fault>
    requires t.WellFormed()
  {
    if candles < MinCandles || t.Rows() < MinRows then Success(None)
    else
      match FindSwingLowsHighsAsWritten(t.low, Window)
      case Failure(f) => Failure(f)
      case Success(price) =>
        match FindSwingLowsHighsAsWritten(t.hist, Window)
        case Failure(f) => Failure(f)
        case Success(macd) => Success(Decide(t, price.0, price.1, macd.0, macd.1))
  }

  /** As written, a pass that gets past the guards raises exactly when price or histogram has a strict local minimum, and otherwise never gives a signal. */
  lemma {:induction false} AsWrittenNeverSignals(candles: nat, t: Table)
    requires t.WellFormed()
    ensures EvaluateAsWritten(candles, t).Success? ==> EvaluateAsWritten(candles, t).value == None
    ensures EvaluateAsWritten(candles, t).Failure? <==>
      candles >= MinCandles && t.Rows() >= MinRows && (Swings(t.low, Window, Low) != [] || Swings(t.hist, Window, Low) != [])
  {
    AsWrittenRaisesIffSwingLow(t.low, Window);
    AsWrittenRaisesIffSwingLow(t.hist, Window);
  }
}
