/**
 * The scalper object and its per-tick step `analyze_signals`
 * (memecoin_screening.py:8-15, 85-234): the window update, the indicators
 * over the window, the classifier and the reducer, in the order the step
 * runs them.
 */
module Scalper {
  import opened Wrappers
  import opened PriceWindow
  import opened Indicators
  import opened Signals

  /** The fields of the first feed row that the step reads (memecoin_screening.py:88, 126-127). */
  datatype Observation = Observation(close: real, buyOrders: int, sellOrders: int)

  /** The dictionary the step returns, minus its display-only fields. */
  datatype Analysis =
    | NoData
    | Analyzed(price: real, buyOrders: int, sellOrders: int, snapshot: Snapshot,
               conditions: ConditionSet, recommendation: Recommendation)

  /** The indicators of a non-empty window (memecoin_screening.py:102-123, 139-144). */
  function SnapshotOf(w: seq<real>): Snapshot
    requires |w| > 0
  {
    Snapshot(Ema(w, Span9), Ema(w, Span21), Rsi(w), Bollinger(w))
  }

  /**
   * One tick on `obs`, with the window going from `before` to `after` and the
   * previous EMA pair `prev9`, `prev21`: an empty feed gives NO_DATA and
   * leaves the window alone; otherwise the close is appended, the indicators
   * are those of the new window, and the conditions and recommendation are
   * what the classifier and the reducer make of them.
   */
  ghost predicate Analyzes(r: Analysis, obs: Option<Observation>, before: seq<real>, after: seq<real>,
                           prev9: Option<real>, prev21: Option<real>)
  {
    if obs.None? then r == NoData && after == before
    else
      var o := obs.value;
      && after == Append(before, o.close)
      && r.Analyzed?
      && r.price == o.close && r.buyOrders == o.buyOrders && r.sellOrders == o.sellOrders
      && r.snapshot == SnapshotOf(after)
      && WellFormed(r.conditions)
      && Classifies(r.conditions, prev9, prev21, r.snapshot, o.close, o.buyOrders, o.sellOrders)
      && Recommends(r.recommendation, r.conditions, o.close)
  }

  class MemecoinScalper {
    /** Closes seen so far, oldest first, at most `Cap` of them after a tick. */
    var priceHistory: seq<real>
    /** EMA pair of the previous tick; `None` until one is stored. */
    var prevEma9: Option<real>
    var prevEma21: Option<real>

    /** A fresh scalper: empty history, no previous EMA pair (memecoin_screening.py:12-15). */
    constructor ()
      ensures priceHistory == [] && prevEma9 == None && prevEma21 == None
    {
      priceHistory := [];
      prevEma9 := None;
      prevEma21 := None;
    }

    /**
     * `analyze_signals` as written (memecoin_screening.py:85-234). It reads
     * the previous EMA pair but never stores the current one, so the pair
     * keeps its value from the constructor.
     */
    method AnalyzeSignals(obs: Option<Observation>) returns (r: Analysis)
      modifies this
      ensures Analyzes(r, obs, old(priceHistory), priceHistory, old(prevEma9), old(prevEma21))
      ensures prevEma9 == old(prevEma9) && prevEma21 == old(prevEma21)
      ensures obs.Some? ==> |priceHistory| <= Cap
    {
      if obs.None? {
        return NoData;
      }
      var window;
      r, window := Tick(priceHistory, prevEma9, prevEma21, obs);
      priceHistory := window;
    }

    /**
     * `analyze_signals` with the missing update added: after a tick with data
     * the current EMA pair is stored as the previous one, so the next tick
     * can see a cross. Everything else is as written.
     */
    method AnalyzeSignalsTracking(obs: Option<Observation>) returns (r: Analysis)
      modifies this
      ensures Analyzes(r, obs, old(priceHistory), priceHistory, old(prevEma9), old(prevEma21))
      ensures r.NoData? ==> prevEma9 == old(prevEma9) && prevEma21 == old(prevEma21)
      ensures r.Analyzed? ==> prevEma9 == Some(r.snapshot.ema9) && prevEma21 == Some(r.snapshot.ema21)
    {
      if obs.None? {
        return NoData;
      }
      var window;
      r, window := Tick(priceHistory, prevEma9, prevEma21, obs);
      priceHistory, prevEma9, prevEma21 := window, Some(r.snapshot.ema9), Some(r.snapshot.ema21);
    }
  }

  /**
   * The body of a tick with data (memecoin_screening.py:88-232): the close
   * is appended to the history and the list cut back to its last `Cap`
   * entries, then the indicators, the conditions and the recommendation
   * are computed from the new window and the previous EMA pair.
   */
  method Tick(history: seq<real>, prev9: Option<real>, prev21: Option<real>, obs: Option<Observation>)
    returns (r: Analysis, window: seq<real>)
    requires obs.Some?
    ensures Analyzes(r, obs, history, window, prev9, prev21)
  {
    var o := obs.value;
    var currentPrice := o.close;
    window := history + [currentPrice];
    if |window| > Cap {
      window := window[|window| - Cap..];
    }
    assert window == Append(history, currentPrice);
    var snap := SnapshotOf(window);
    var conditions := BuildConditions(prev9, prev21, snap, currentPrice, o.buyOrders, o.sellOrders);
    var recommendation := Recommend(conditions, currentPrice);
    r := Analyzed(currentPrice, o.buyOrders, o.sellOrders, snap, conditions, recommendation);
  }

  /** On the first tick, from an empty history, both EMAs equal the close. */
  lemma FirstTickEmas(close: real)
    ensures Ema(Append([], close), Span9) == close && Ema(Append([], close), Span21) == close
  {
    var w := Append([], close);
    assert w == [close];
    EmaOfConstant(w, Span9, close);
    EmaOfConstant(w, Span21, close);
  }

  /**
   * A tick taken without a previous EMA pair records no ema_cross; since
   * AnalyzeSignals keeps the pair the constructor set, as written no tick
   * ever records one.
   */
  lemma NoCrossWithoutPreviousPair(r: Analysis, obs: Option<Observation>, before: seq<real>, after: seq<real>,
                                   prev9: Option<real>, prev21: Option<real>)
    requires Analyzes(r, obs, before, after, prev9, prev21)
    requires obs.Some? && (prev9.None? || prev21.None?)
    ensures Get(r.conditions, EmaCrossKey) == None
  {
    NoCrossWithoutPrevious(r.conditions, prev9, prev21, r.snapshot, obs.value.close, obs.value.buyOrders, obs.value.sellOrders);
  }

  /** The indicators over the closes 2, 3: the fast EMA is above the slow one, RSI and bands undefined. */
  lemma SnapshotOfTwoCloses()
    ensures SnapshotOf([2.0, 3.0]) == Snapshot(2.2, 23.0 / 11.0, None, None)
  {
    assert [2.0, 3.0][..1] == [2.0];
  }

  /**
   * A tick at close 3 after a single close 2: the fast EMA rises above the
   * slow one, and a cross is reported exactly when a previous pair with
   * fast <= slow is known.
   */
  lemma SecondTickAtThree(r: Analysis, after: seq<real>, prev9: Option<real>, prev21: Option<real>)
    requires Analyzes(r, Some(Observation(3.0, 0, 0)), [2.0], after, prev9, prev21)
    ensures r.Analyzed? && r.snapshot == Snapshot(2.2, 23.0 / 11.0, None, None)
    ensures prev9 == Some(2.0) && prev21 == Some(2.0) ==> Get(r.conditions, EmaCrossKey) == Some(GoldenCross) && r.recommendation.Buy?
  {
    assert after == [2.0, 3.0];
    SnapshotOfTwoCloses();
  }

  /** A fresh scalper after one tick at `close`, taken as written or with tracking. */
  method StartedAt(close: real, tracked: bool) returns (scalper: MemecoinScalper)
    ensures fresh(scalper)
    ensures scalper.priceHistory == [close]
    ensures scalper.prevEma9 == (if tracked then Some(close) else None)
    ensures scalper.prevEma21 == scalper.prevEma9
  {
    scalper := new MemecoinScalper();
    var first: Analysis;
    if tracked {
      first := scalper.AnalyzeSignalsTracking(Some(Observation(close, 0, 0)));
    } else {
      first := scalper.AnalyzeSignals(Some(Observation(close, 0, 0)));
    }
    assert scalper.priceHistory == [close];
    FirstTickEmas(close);
  }

  /**
   * As written: closes 2 then 3 lift the fast EMA above the slow one, yet
   * no ema_cross is recorded, because the previous pair is never stored.
   */
  method CrossMissedAsWritten() returns (r: Analysis)
    ensures r.Analyzed? && r.snapshot.ema9 > r.snapshot.ema21
    ensures Get(r.conditions, EmaCrossKey) == None
  {
    var scalper := StartedAt(2.0, false);
    r := scalper.AnalyzeSignals(Some(Observation(3.0, 0, 0)));
    SecondTickAtThree(r, scalper.priceHistory, None, None);
    NoCrossWithoutPreviousPair(r, Some(Observation(3.0, 0, 0)), [2.0], scalper.priceHistory, None, None);
  }

  /**
   * Corrected: on the same closes, storing the pair makes the second tick
   * report GOLDEN_CROSS, and so BUY.
   */
  method CrossDetectedWhenTracked() returns (r: Analysis)
    ensures r.Analyzed? && r.snapshot.ema9 > r.snapshot.ema21
    ensures Get(r.conditions, EmaCrossKey) == Some(GoldenCross)
    ensures r.recommendation.Buy?
  {
    var scalper := StartedAt(2.0, true);
    r := scalper.AnalyzeSignalsTracking(Some(Observation(3.0, 0, 0)));
    SecondTickAtThree(r, scalper.priceHistory, Some(2.0), Some(2.0));
  }
}
