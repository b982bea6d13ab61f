/**
  The emission gate (main.py:48, 145-147, 160-162). `LAST_SIGNAL` maps each
  (symbol, timeframe) pair to the kind of the last signal sent for it; a signal
  is sent only when its strength is at least 5 and its kind differs from the
  recorded one, and sending it records its kind.
*/
module Gate {
  import opened Wrappers
  import opened Confirmation
  import opened Detector

  /** A (symbol, timeframe) pair such as ("BTC/USDT", "4h"). */
  type Key = (string, string)

  /** The least strength that is sent (main.py:146). */
  const MinStrength: int := 5

  /** The strength the alert is shown out of (main.py:153). */
  const DisplayedMaximum: int := 10

  /** What an emitted alert reports: pair, timeframe, the signal, and the latest oscillator readings. */
  datatype Alert = Alert(symbol: string, timeframe: string, signal: Signal, snapshot: Row)

  /** `s` is strong enough and is not a repeat of the last kind sent for `key`; an absent key never blocks. */
  predicate Admits(last: map<Key, Kind>, key: Key, s: Signal)
  {
    s.strength >= MinStrength && (key !in last || last[key] != s.kind)
  }

  /** Right after a signal is sent for a key, the same kind for that key is held back, whatever its strength. */
  lemma RepeatIsSuppressed(last: map<Key, Kind>, key: Key, s: Signal, again: Signal)
    requires Admits(last, key, s) && again.kind == s.kind
    ensures !Admits(last[key := s.kind], key, again)
  {
  }

  /**
    Two passes giving the same kind for a key, then one giving the other kind,
    all strong enough, starting from a key never sent: the first and third are
    sent, the second is held back.
  */
  lemma SameThenOpposite(last: map<Key, Kind>, key: Key, a: Signal, b: Signal, c: Signal)
    requires key !in last
    requires a.strength >= MinStrength && b.strength >= MinStrength && c.strength >= MinStrength
    requires b.kind == a.kind && c.kind != a.kind
    ensures Admits(last, key, a)
    ensures !Admits(last[key := a.kind], key, b)
    ensures Admits(last[key := a.kind], key, c)
  {
  }

  /** Whatever was recorded, a signal is sent only if it scored at least one confirmation beyond a single divergence. */
  lemma {:induction false} SentSignalsAreConfirmed(candles: nat, t: Table, last: map<Key, Kind>, key: Key)
    requires t.WellFormed() && Evaluate(candles, t).Some?
    requires Admits(last, key, Evaluate(candles, t).value)
    ensures (BullishFires(t) && BearishFires(t)) || |Confirmations(t.current)| >= 2
    ensures Evaluate(candles, t).value.strength <= DisplayedMaximum
  {
    SignalIsExact(candles, t);
  }

  /** The process-wide record of the last kind sent per (symbol, timeframe). */
  class SignalGate {
    var last: map<Key, Kind>

    /** Empty at process start. */
    constructor ()
      ensures last == map[]
    {
      last := map[];
    }

    /** The test and update of main.py:146-147: send `s` for `(symbol, timeframe)` or hold it back. */
    method Offer(symbol: string, timeframe: string, s: Signal) returns (sent: bool)
      modifies this
      ensures sent == Admits(old(last), (symbol, timeframe), s)
      ensures sent ==> last == old(last)[(symbol, timeframe) := s.kind]
      ensures !sent ==> last == old(last)
      ensures forall k :: k != (symbol, timeframe) ==> (k in last <==> k in old(last))
      ensures forall k :: k != (symbol, timeframe) && k in last ==> last[k] == old(last)[k]
    {
      var key := (symbol, timeframe);
      sent := s.strength >= MinStrength && (key !in last || last[key] != s.kind);
      if sent {
        last := last[key := s.kind];
      }
    }

    /**
      One full pass of `detect_divergence_with_confirmation` for a pair: detect,
      then send through the gate. The alert stands for the message text.
    */
    method Scan(symbol: string, timeframe: string, candles: nat, t: Table) returns (alert: Option<Alert>)
      requires t.WellFormed()
      modifies this
      ensures Evaluate(candles, t).None? ==> alert == None && last == old(last)
      ensures Evaluate(candles, t).Some? ==>
        var s := Evaluate(candles, t).value;
        && (alert.Some? <==> Admits(old(last), (symbol, timeframe), s))
        && (alert.Some? ==> alert.value == Alert(symbol, timeframe, s, t.current))
        && last == (if alert.Some? then old(last)[(symbol, timeframe) := s.kind] else old(last))
    {
      var detected := Detect(candles, t);
      if detected.None? {
        return None;
      }
      var sent := Offer(symbol, timeframe, detected.value);
      if sent {
        alert := Some(Alert(symbol, timeframe, detected.value, t.current));
      } else {
        alert := None;
      }
    }
  }

  /** Two identical passes for the same pair in a row: whatever the first one does, the second sends nothing. */
  method ScanTwice(g: SignalGate, symbol: string, timeframe: string, candles: nat, t: Table)
    returns (first: Option<Alert>, second: Option<Alert>)
    requires t.WellFormed()
    modifies g
    ensures first.Some? <==> Evaluate(candles, t).Some? && Admits(old(g.last), (symbol, timeframe), Evaluate(candles, t).value)
    ensures second == None
  {
    first := g.Scan(symbol, timeframe, candles, t);
    second := g.Scan(symbol, timeframe, candles, t);
  }
}
