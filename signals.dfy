/**
 * The condition classifier and the recommendation reducer of
 * `analyze_signals` (memecoin_screening.py:149-232). `signals["conditions"]`
 * is an insertion-ordered dictionary; it is modelled as the sequence of its
 * entries, each key at most once.
 */
module Signals {
  import opened Wrappers
  import opened Indicators

  /** Keys of `signals["conditions"]`, ranked in the order they can be inserted. */
  datatype Category = EmaCrossKey | RsiKey | BbKey | OrderFlowKey
  {
    function Name(): string
    {
      match this
      case EmaCrossKey => "ema_cross"
      case RsiKey => "rsi"
      case BbKey => "bb"
      case OrderFlowKey => "order_flow"
    }

    function Rank(): nat
    {
      match this
      case EmaCrossKey => 0
      case RsiKey => 1
      case BbKey => 2
      case OrderFlowKey => 3
    }
  }

  /** Values stored under the keys. */
  datatype Label = GoldenCross | DeathCross | Oversold | Overbought | TouchLower | TouchUpper | Bullish | Bearish
  {
    function Name(): string
    {
      match this
      case GoldenCross => "GOLDEN_CROSS"
      case DeathCross => "DEATH_CROSS"
      case Oversold => "OVERSOLD"
      case Overbought => "OVERBOUGHT"
      case TouchLower => "TOUCH_LOWER"
      case TouchUpper => "TOUCH_UPPER"
      case Bullish => "BULLISH"
      case Bearish => "BEARISH"
    }

    /** The key this label is stored under. */
    function Key(): Category
    {
      match this
      case GoldenCross => EmaCrossKey
      case DeathCross => EmaCrossKey
      case Oversold => RsiKey
      case Overbought => RsiKey
      case TouchLower => BbKey
      case TouchUpper => BbKey
      case Bullish => OrderFlowKey
      case Bearish => OrderFlowKey
    }

    /** One of the three labels that trigger BUY (memecoin_screening.py:183-187). */
    predicate IsBuy()
    {
      this == GoldenCross || this == Oversold || this == TouchLower
    }

    /** One of the three labels that trigger SELL (memecoin_screening.py:189-193). */
    predicate IsSell()
    {
      this == DeathCross || this == Overbought || this == TouchUpper
    }

    /** The text `conditions_met` lists for a BUY or SELL label. */
    function MatchName(): string
      requires IsBuy() || IsSell()
    {
      match this
      case GoldenCross => "Golden Cross"
      case Oversold => "RSI Oversold"
      case TouchLower => "Lower BB Touch"
      case DeathCross => "Death Cross"
      case Overbought => "RSI Overbought"
      case TouchUpper => "Upper BB Touch"
      case _ => assert false; ""
    }
  }

  datatype Entry = Entry(key: Category, tag: Label)

  /** `signals["conditions"]`: its entries in insertion order. */
  type ConditionSet = seq<Entry>

  /** The indicator values of one tick (memecoin_screening.py:139-144). */
  datatype Snapshot = Snapshot(ema9: real, ema21: real, rsi: Option<RsiReading>, bands: Option<Band>)

  /** `conditions.keys()`, in insertion order. */
  function Keys(c: ConditionSet): seq<Category>
  {
    seq(|c|, i requires 0 <= i < |c| => c[i].key)
  }

  /** `conditions.get(k)`: the label stored under `k`, if any; the last entry for `k` wins. */
  function Get(c: ConditionSet, k: Category): Option<Label>
  {
    if c == [] then None
    else if c[|c| - 1].key == k then Some(c[|c| - 1].tag)
    else Get(c[..|c| - 1], k)
  }

  /** `get` finds a key exactly when some entry carries it, and what it returns is stored under that key. */
  lemma {:induction false} GetPresent(c: ConditionSet, k: Category)
    ensures Get(c, k).Some? <==> exists i :: 0 <= i < |c| && c[i].key == k
    ensures Get(c, k).Some? ==> Entry(k, Get(c, k).value) in c
  {
    if c != [] && c[|c| - 1].key != k {
      var init := c[..|c| - 1];
      GetPresent(init, k);
      assert forall i :: 0 <= i < |init| ==> init[i] == c[i];
      assert init <= c;
    }
  }

  /**
   * The shape every conditions dictionary built by `analyze_signals` has:
   * each label sits under its own key, keys appear in the order
   * ema_cross, rsi, bb, order_flow (so none twice), and `order_flow` is set.
   */
  ghost predicate WellFormed(c: ConditionSet)
  {
    && LabelsUnderKeys(c)
    && Ordered(c)
    && Get(c, OrderFlowKey).Some?
  }

  /** Keys appear in strictly increasing rank, so none twice. */
  ghost predicate Ordered(c: ConditionSet)
  {
    forall i, j :: 0 <= i < j < |c| ==> c[i].key.Rank() < c[j].key.Rank()
  }

  /**
   * What each key holds after one tick (memecoin_screening.py:149-180):
   * a cross needs both previous EMAs; the RSI and band labels need a
   * defined indicator; the lower band is tested before the upper one;
   * order flow is BULLISH exactly when buys outnumber sells.
   */
  ghost predicate Classifies(c: ConditionSet, prev9: Option<real>, prev21: Option<real>, snap: Snapshot,
                                price: real, buyOrders: int, sellOrders: int)
  {
    && (Get(c, EmaCrossKey) == Some(GoldenCross) <==>
          prev9.Some? && prev21.Some? && snap.ema9 > snap.ema21 && prev9.value <= prev21.value)
    && (Get(c, EmaCrossKey) == Some(DeathCross) <==>
          prev9.Some? && prev21.Some? && snap.ema9 < snap.ema21 && prev9.value >= prev21.value)
    && (Get(c, RsiKey) == Some(Oversold) <==> snap.rsi.Some? && BelowThirty(snap.rsi.value))
    && (Get(c, RsiKey) == Some(Overbought) <==>
          snap.rsi.Some? && !BelowThirty(snap.rsi.value) && AboveSeventy(snap.rsi.value))
    && (Get(c, BbKey) == Some(TouchLower) <==> snap.bands.Some? && TouchesLower(price, snap.bands.value))
    && (Get(c, BbKey) == Some(TouchUpper) <==>
          snap.bands.Some? && !TouchesLower(price, snap.bands.value) && TouchesUpper(price, snap.bands.value))
    && (Get(c, OrderFlowKey) == Some(Bullish) <==> buyOrders > sellOrders)
  }

  /** Builds `signals["conditions"]` one key at a time, as memecoin_screening.py:149-180 does. */
  method BuildConditions(prev9: Option<real>, prev21: Option<real>, snap: Snapshot,
                         price: real, buyOrders: int, sellOrders: int) returns (c: ConditionSet)
    ensures WellFormed(c)
    ensures Classifies(c, prev9, prev21, snap, price, buyOrders, sellOrders)
  {
    // the label each step stores, if any
    ghost var cross: Option<Label> := None;
    ghost var zone: Option<Label> := None;
    ghost var touch: Option<Label> := None;
    var flow: Label;
    c := [];
    // 1. EMA cross
    if prev9.Some? && prev21.Some? {
      if snap.ema9 > snap.ema21 && prev9.value <= prev21.value {
        c := c + [Entry(EmaCrossKey, GoldenCross)];
        cross := Some(GoldenCross);
      } else if snap.ema9 < snap.ema21 && prev9.value >= prev21.value {
        c := c + [Entry(EmaCrossKey, DeathCross)];
        cross := Some(DeathCross);
      }
    }
    assert c == Section(EmaCrossKey, cross);
    // 2. RSI: a NaN RSI fails both comparisons
    if snap.rsi.Some? && BelowThirty(snap.rsi.value) {
      c := c + [Entry(RsiKey, Oversold)];
      zone := Some(Oversold);
    } else if snap.rsi.Some? && AboveSeventy(snap.rsi.value) {
      c := c + [Entry(RsiKey, Overbought)];
      zone := Some(Overbought);
    }
    assert c == Section(EmaCrossKey, cross) + Section(RsiKey, zone);
    // 3. Bollinger bands, lower touch first: NaN bands fail both comparisons
    if snap.bands.Some? && TouchesLower(price, snap.bands.value) {
      c := c + [Entry(BbKey, TouchLower)];
      touch := Some(TouchLower);
    } else if snap.bands.Some? && TouchesUpper(price, snap.bands.value) {
      c := c + [Entry(BbKey, TouchUpper)];
      touch := Some(TouchUpper);
    }
    assert c == Section(EmaCrossKey, cross) + Section(RsiKey, zone) + Section(BbKey, touch);
    // 4. order flow, a tie counts as BEARISH
    if buyOrders > sellOrders {
      flow := Bullish;
    } else {
      flow := Bearish;
    }
    c := c + [Entry(OrderFlowKey, flow)];
    AssembledConditions(cross, zone, touch, flow);
  }

  /** No entry, or the one entry `k: l`. */
  function Section(k: Category, l: Option<Label>): seq<Entry>
  {
    if l.Some? then [Entry(k, l.value)] else []
  }

  /** A key that no entry carries is absent. */
  lemma GetAbsent(c: ConditionSet, k: Category)
    requires forall i :: 0 <= i < |c| ==> c[i].key != k
    ensures Get(c, k) == None
  {
    GetPresent(c, k);
  }

  /** What `get` returns on a dictionary built from the four steps of the classifier. */
  lemma AssembledConditions(cross: Option<Label>, zone: Option<Label>, touch: Option<Label>, flow: Label)
    requires cross.Some? ==> cross.value.Key() == EmaCrossKey
    requires zone.Some? ==> zone.value.Key() == RsiKey
    requires touch.Some? ==> touch.value.Key() == BbKey
    requires flow.Key() == OrderFlowKey
    ensures var c := Section(EmaCrossKey, cross) + Section(RsiKey, zone) + Section(BbKey, touch) + [Entry(OrderFlowKey, flow)];
      && WellFormed(c)
      && Get(c, EmaCrossKey) == cross && Get(c, RsiKey) == zone && Get(c, BbKey) == touch
      && Get(c, OrderFlowKey) == Some(flow)
  {
    ThreeSections(cross, zone, touch);
    var c3 := Section(EmaCrossKey, cross) + Section(RsiKey, zone) + Section(BbKey, touch);
    SectionAppended(c3, OrderFlowKey, Some(flow));
    assert c3 + Section(OrderFlowKey, Some(flow)) == c3 + [Entry(OrderFlowKey, flow)];
    SectionKeepsOthers(c3, OrderFlowKey, Some(flow), EmaCrossKey);
    SectionKeepsOthers(c3, OrderFlowKey, Some(flow), RsiKey);
    SectionKeepsOthers(c3, OrderFlowKey, Some(flow), BbKey);
  }

  /** The ema_cross, rsi and bb steps of the classifier. */
  lemma ThreeSections(cross: Option<Label>, zone: Option<Label>, touch: Option<Label>)
    requires cross.Some? ==> cross.value.Key() == EmaCrossKey
    requires zone.Some? ==> zone.value.Key() == RsiKey
    requires touch.Some? ==> touch.value.Key() == BbKey
    ensures var c := Section(EmaCrossKey, cross) + Section(RsiKey, zone) + Section(BbKey, touch);
      && LabelsUnderKeys(c) && Ordered(c) && RanksBelow(c, OrderFlowKey.Rank())
      && Get(c, EmaCrossKey) == cross && Get(c, RsiKey) == zone && Get(c, BbKey) == touch
  {
    TwoSections(cross, zone);
    var c2 := Section(EmaCrossKey, cross) + Section(RsiKey, zone);
    SectionAppended(c2, BbKey, touch);
    SectionKeepsOthers(c2, BbKey, touch, EmaCrossKey);
    SectionKeepsOthers(c2, BbKey, touch, RsiKey);
  }

  /** The ema_cross and rsi steps of the classifier. */
  lemma TwoSections(cross: Option<Label>, zone: Option<Label>)
    requires cross.Some? ==> cross.value.Key() == EmaCrossKey
    requires zone.Some? ==> zone.value.Key() == RsiKey
    ensures var c := Section(EmaCrossKey, cross) + Section(RsiKey, zone);
      && LabelsUnderKeys(c) && Ordered(c) && RanksBelow(c, BbKey.Rank())
      && Get(c, EmaCrossKey) == cross && Get(c, RsiKey) == zone
  {
    var c1 := Section(EmaCrossKey, cross);
    assert LabelsUnderKeys(c1) && Ordered(c1) && RanksBelow(c1, RsiKey.Rank());
    assert Get(c1, EmaCrossKey) == cross;
    SectionAppended(c1, RsiKey, zone);
    SectionKeepsOthers(c1, RsiKey, zone, EmaCrossKey);
  }

  /** Every label sits under its own key. */
  ghost predicate LabelsUnderKeys(c: ConditionSet)
  {
    forall i :: 0 <= i < |c| ==> c[i].tag.Key() == c[i].key
  }

  /** Every key of `c` ranks below `n`. */
  ghost predicate RanksBelow(c: ConditionSet, n: nat)
  {
    forall i :: 0 <= i < |c| ==> c[i].key.Rank() < n
  }

  /** One step of the classifier: appending the (possibly absent) entry for a key ranked above all present. */
  lemma SectionAppended(c: ConditionSet, k: Category, l: Option<Label>)
    requires LabelsUnderKeys(c) && Ordered(c) && RanksBelow(c, k.Rank())
    requires l.Some? ==> l.value.Key() == k
    ensures LabelsUnderKeys(c + Section(k, l)) && Ordered(c + Section(k, l)) && RanksBelow(c + Section(k, l), k.Rank() + 1)
    ensures Get(c + Section(k, l), k) == l
  {
    if l.None? {
      assert c + Section(k, l) == c;
      GetAbsent(c, k);
    }
  }

  /** Appending the entry for `k`, if any, leaves what another key holds alone. */
  lemma SectionKeepsOthers(c: ConditionSet, k: Category, l: Option<Label>, other: Category)
    requires other != k
    ensures Get(c + Section(k, l), other) == Get(c, other)
  {
    if l.Some? {
      GetAppendOther(c, Entry(k, l.value), other);
    } else {
      assert c + Section(k, l) == c;
    }
  }

  /** Appending an entry for another key does not change what `k` holds. */
  lemma GetAppendOther(c: ConditionSet, e: Entry, k: Category)
    requires e.key != k
    ensures Get(c + [e], k) == Get(c, k)
  {
    assert (c + [e])[..|c|] == c;
  }

  /** In a dictionary without repeated keys, `get` finds every entry. */
  lemma {:induction false} GetFindsEntry(c: ConditionSet, i: nat)
    requires forall p, q :: 0 <= p < q < |c| ==> c[p].key != c[q].key
    requires i < |c|
    ensures Get(c, c[i].key) == Some(c[i].tag)
  {
    if i < |c| - 1 {
      var init := c[..|c| - 1];
      assert init[i] == c[i];
      assert forall p, q :: 0 <= p < q < |init| ==> init[p].key != init[q].key;
      GetFindsEntry(init, i);
    }
  }

  /** In a well-formed dictionary a key holds only labels that belong to it. */
  lemma GetKeyLabel(c: ConditionSet, k: Category)
    requires WellFormed(c)
    requires Get(c, k).Some?
    ensures Get(c, k).value.Key() == k
  {
    GetPresent(c, k);
    var i :| 0 <= i < |c| && c[i].key == k;
    GetFindsEntry(c, i);
  }

  /** Some BUY condition holds (memecoin_screening.py:183-187). */
  predicate BuyTriggered(c: ConditionSet)
  {
    Get(c, EmaCrossKey) == Some(GoldenCross) || Get(c, RsiKey) == Some(Oversold) || Get(c, BbKey) == Some(TouchLower)
  }

  /** Some SELL condition holds (memecoin_screening.py:189-193). */
  predicate SellTriggered(c: ConditionSet)
  {
    Get(c, EmaCrossKey) == Some(DeathCross) || Get(c, RsiKey) == Some(Overbought) || Get(c, BbKey) == Some(TouchUpper)
  }

  /** Action string of the fallback branch (memecoin_screening.py:230). */
  const FallbackAction: string := "Market Bearish & Tidak Likuid"

  /** `signals["recommendation"]` (memecoin_screening.py:195-232). */
  datatype Recommendation =
    | Buy(entryPrice: real, takeProfit: real, stopLoss: real, conditionsMet: seq<Label>)
    | Sell(currentPrice: real, conditionsMet: seq<Label>)
    | NoSignal(action: string, keysText: string)

  /** `", ".join(names)`. */
  function JoinKeys(ks: seq<Category>): string
  {
    if ks == [] then ""
    else if |ks| == 1 then ks[0].Name()
    else ks[0].Name() + ", " + JoinKeys(ks[1..])
  }

  /**
   * `m` lists exactly those of `a`, `b`, `d` (the labels of one side for
   * the keys ema_cross, rsi and bb) that `c` holds, in that order.
   */
  ghost predicate ListsMatched(m: seq<Label>, c: ConditionSet, a: Label, b: Label, d: Label)
  {
    && (forall i :: 0 <= i < |m| ==> m[i] == a || m[i] == b || m[i] == d)
    && (a in m <==> Get(c, EmaCrossKey) == Some(a))
    && (b in m <==> Get(c, RsiKey) == Some(b))
    && (d in m <==> Get(c, BbKey) == Some(d))
    && (forall i, j :: 0 <= i < j < |m| ==> m[i].Key().Rank() < m[j].Key().Rank())
  }

  /**
   * The recommendation the reducer gives for `c` at `price`: BUY whenever a
   * BUY condition holds, even if a SELL condition holds too; else SELL if a
   * SELL condition holds; else the fallback, listing the keys present.
   */
  ghost predicate Recommends(r: Recommendation, c: ConditionSet, price: real)
  {
    && (r.Buy? <==> BuyTriggered(c))
    && (r.Sell? <==> !BuyTriggered(c) && SellTriggered(c))
    && (r.Buy? ==> r.entryPrice == price && r.takeProfit == price * 1.03 && r.stopLoss == price * 0.99)
    && (r.Buy? ==> |r.conditionsMet| > 0 && ListsMatched(r.conditionsMet, c, GoldenCross, Oversold, TouchLower))
    && (r.Sell? ==> r.currentPrice == price && |r.conditionsMet| > 0 && ListsMatched(r.conditionsMet, c, DeathCross, Overbought, TouchUpper))
    && (r.NoSignal? ==> r.action == FallbackAction && r.keysText == JoinKeys(Keys(c)))
  }

  /** The reducer of memecoin_screening.py:183-232, appending matched conditions one by one. */
  method Recommend(c: ConditionSet, price: real) returns (r: Recommendation)
    ensures Recommends(r, c, price)
    ensures r.Buy? && price > 0.0 ==> r.stopLoss < r.entryPrice < r.takeProfit
  {
    var buyConditions := BuyTriggered(c);
    var sellConditions := SellTriggered(c);
    if buyConditions {
      var matched: seq<Label> := [];
      if Get(c, EmaCrossKey) == Some(GoldenCross) {
        matched := matched + [GoldenCross];
      }
      if Get(c, RsiKey) == Some(Oversold) {
        matched := matched + [Oversold];
      }
      if Get(c, BbKey) == Some(TouchLower) {
        matched := matched + [TouchLower];
      }
      assert matched == Matches(c, GoldenCross, Oversold, TouchLower);
      MatchesListed(c, GoldenCross, Oversold, TouchLower);
      r := Buy(price, price * 1.03, price * 0.99, matched);
    } else if sellConditions {
      var matched: seq<Label> := [];
      if Get(c, EmaCrossKey) == Some(DeathCross) {
        matched := matched + [DeathCross];
      }
      if Get(c, RsiKey) == Some(Overbought) {
        matched := matched + [Overbought];
      }
      if Get(c, BbKey) == Some(TouchUpper) {
        matched := matched + [TouchUpper];
      }
      assert matched == Matches(c, DeathCross, Overbought, TouchUpper);
      MatchesListed(c, DeathCross, Overbought, TouchUpper);
      r := Sell(price, matched);
    } else {
      r := NoSignal(FallbackAction, JoinKeys(Keys(c)));
    }
  }

  /** `[l]` when `hit`, else nothing. */
  function Picked(hit: bool, l: Label): seq<Label>
  {
    if hit then [l] else []
  }

  /** Those of `a`, `b`, `d` (one per key ema_cross, rsi, bb) that `c` holds, in that order. */
  function Matches(c: ConditionSet, a: Label, b: Label, d: Label): seq<Label>
  {
    Picked(Get(c, EmaCrossKey) == Some(a), a) + Picked(Get(c, RsiKey) == Some(b), b) + Picked(Get(c, BbKey) == Some(d), d)
  }

  /** The matched list of either side is complete, exact and ordered. */
  lemma MatchesListed(c: ConditionSet, a: Label, b: Label, d: Label)
    requires a.Key() == EmaCrossKey && b.Key() == RsiKey && d.Key() == BbKey
    ensures ListsMatched(Matches(c, a, b, d), c, a, b, d)
    ensures |Matches(c, a, b, d)| > 0 <==> Get(c, EmaCrossKey) == Some(a) || Get(c, RsiKey) == Some(b) || Get(c, BbKey) == Some(d)
  {
    PickedInOrder(Get(c, EmaCrossKey) == Some(a), a, Get(c, RsiKey) == Some(b), b, Get(c, BbKey) == Some(d), d);
  }

  /** Three picks, one per key ema_cross, rsi, bb, concatenate to a list in key order holding exactly the picked labels. */
  lemma PickedInOrder(h1: bool, a: Label, h2: bool, b: Label, h3: bool, d: Label)
    requires a.Key() == EmaCrossKey && b.Key() == RsiKey && d.Key() == BbKey
    ensures var m := Picked(h1, a) + Picked(h2, b) + Picked(h3, d);
      && (forall i :: 0 <= i < |m| ==> m[i] == a || m[i] == b || m[i] == d)
      && (a in m <==> h1) && (b in m <==> h2) && (d in m <==> h3)
      && (forall i, j :: 0 <= i < j < |m| ==> m[i].Key().Rank() < m[j].Key().Rank())
      && (|m| > 0 <==> h1 || h2 || h3)
  {
  }

  // ----- what the contracts imply -----

  /** The last entry's key is not found earlier, and nothing else moves when it is dropped. */
  lemma DropLast(c: ConditionSet, k: Category)
    requires Ordered(c) && c != []
    ensures Get(c, c[|c| - 1].key) == Some(c[|c| - 1].tag)
    ensures Ordered(c[..|c| - 1])
    ensures k != c[|c| - 1].key ==> Get(c[..|c| - 1], k) == Get(c, k)
    ensures k == c[|c| - 1].key ==> Get(c[..|c| - 1], k) == None
  {
    var init := c[..|c| - 1];
    assert forall i :: 0 <= i < |init| ==> init[i] == c[i];
    if k == c[|c| - 1].key {
      GetAbsent(init, k);
    }
  }

  /** Two dictionaries with keys in rank order that answer every `get` alike are equal, order included. */
  lemma {:induction false} OrderedDeterminedByGet(c1: ConditionSet, c2: ConditionSet)
    requires Ordered(c1) && Ordered(c2)
    requires forall k :: Get(c1, k) == Get(c2, k)
    ensures c1 == c2
    decreases |c1|
  {
    BothEmptyOrNot(c1, c2);
    if c1 != [] {
      LastEntriesAgree(c1, c2);
      var e := c1[|c1| - 1];
      var init1, init2 := c1[..|c1| - 1], c2[..|c2| - 1];
      forall k ensures Get(init1, k) == Get(init2, k) {
        DropLast(c1, k);
        DropLast(c2, k);
      }
      DropLast(c1, e.key);
      DropLast(c2, e.key);
      OrderedDeterminedByGet(init1, init2);
      assert c1 == init1 + [e];
      assert c2 == init2 + [e];
    }
  }

  /** Dictionaries that answer every `get` alike are both empty or both not. */
  lemma BothEmptyOrNot(c1: ConditionSet, c2: ConditionSet)
    requires forall k :: Get(c1, k) == Get(c2, k)
    ensures c1 == [] <==> c2 == []
  {
    if c1 != [] {
      GetPresent(c1, c1[0].key);
      GetPresent(c2, c1[0].key);
    }
    if c2 != [] {
      GetPresent(c1, c2[0].key);
      GetPresent(c2, c2[0].key);
    }
  }

  /** Ordered dictionaries that answer every `get` alike end with the same entry. */
  lemma LastEntriesAgree(c1: ConditionSet, c2: ConditionSet)
    requires Ordered(c1) && Ordered(c2) && c1 != [] && c2 != []
    requires forall k :: Get(c1, k) == Get(c2, k)
    ensures c1[|c1| - 1] == c2[|c2| - 1]
  {
    var e1, e2 := c1[|c1| - 1], c2[|c2| - 1];
    DropLast(c1, e1.key);
    DropLast(c2, e2.key);
    GetPresent(c1, e2.key);
    GetPresent(c2, e1.key);
    assert e1.key.Rank() <= e2.key.Rank() && e2.key.Rank() <= e1.key.Rank();
  }

  /**
   * The classification is unique: any two well-formed dictionaries that
   * classify the same tick are the same dictionary, entry order included.
   */
  lemma ClassificationUnique(c1: ConditionSet, c2: ConditionSet, prev9: Option<real>, prev21: Option<real>,
                             snap: Snapshot, price: real, buyOrders: int, sellOrders: int)
    requires WellFormed(c1) && Classifies(c1, prev9, prev21, snap, price, buyOrders, sellOrders)
    requires WellFormed(c2) && Classifies(c2, prev9, prev21, snap, price, buyOrders, sellOrders)
    ensures c1 == c2
  {
    SameClassification(c1, c2, EmaCrossKey, GoldenCross, DeathCross);
    SameClassification(c1, c2, RsiKey, Oversold, Overbought);
    SameClassification(c1, c2, BbKey, TouchLower, TouchUpper);
    SameClassification(c1, c2, OrderFlowKey, Bullish, Bearish);
    forall k ensures Get(c1, k) == Get(c2, k) {
      assert k == EmaCrossKey || k == RsiKey || k == BbKey || k == OrderFlowKey;
    }
    OrderedDeterminedByGet(c1, c2);
  }

  /** Two well-formed dictionaries agree on key `k` when they agree on both its labels `l1`, `l2`. */
  lemma SameClassification(c1: ConditionSet, c2: ConditionSet, k: Category, l1: Label, l2: Label)
    requires WellFormed(c1) && WellFormed(c2)
    requires l1.Key() == k && l2.Key() == k && l1 != l2
    requires forall l: Label :: l.Key() == k ==> l == l1 || l == l2
    requires Get(c1, k) == Some(l1) <==> Get(c2, k) == Some(l1)
    requires k != OrderFlowKey ==> (Get(c1, k) == Some(l2) <==> Get(c2, k) == Some(l2))
    ensures Get(c1, k) == Get(c2, k)
  {
    if Get(c1, k).Some? {
      GetKeyLabel(c1, k);
    }
    if Get(c2, k).Some? {
      GetKeyLabel(c2, k);
    }
  }

  /**
   * The fallback lists only `order_flow`: in a well-formed dictionary every
   * ema_cross, rsi or bb label triggers BUY or SELL.
   */
  lemma FallbackListsOrderFlow(c: ConditionSet)
    requires WellFormed(c)
    requires !BuyTriggered(c) && !SellTriggered(c)
    ensures Keys(c) == [OrderFlowKey]
    ensures JoinKeys(Keys(c)) == "order_flow"
  {
    forall i | 0 <= i < |c| ensures c[i].key == OrderFlowKey {
      GetFindsEntry(c, i);
      assert c[i].tag.Key() == c[i].key;
    }
    FirstTwoRanked(c);
    GetPresent(c, OrderFlowKey);
    assert |c| == 1;
  }

  /** In an ordered dictionary the first key ranks below the second. */
  lemma FirstTwoRanked(c: ConditionSet)
    requires Ordered(c)
    ensures |c| >= 2 ==> c[0].key.Rank() < c[1].key.Rank()
  {
  }

  /** Without a previous EMA pair no ema_cross is recorded. */
  lemma NoCrossWithoutPrevious(c: ConditionSet, prev9: Option<real>, prev21: Option<real>,
                               snap: Snapshot, price: real, buyOrders: int, sellOrders: int)
    requires WellFormed(c) && Classifies(c, prev9, prev21, snap, price, buyOrders, sellOrders)
    requires prev9.None? || prev21.None?
    ensures Get(c, EmaCrossKey) == None
  {
    if Get(c, EmaCrossKey).Some? {
      GetKeyLabel(c, EmaCrossKey);
    }
  }

  /** `order_flow` is always recorded, BULLISH exactly when buys outnumber sells. */
  lemma OrderFlowAlwaysSet(c: ConditionSet, prev9: Option<real>, prev21: Option<real>,
                           snap: Snapshot, price: real, buyOrders: int, sellOrders: int)
    requires WellFormed(c) && Classifies(c, prev9, prev21, snap, price, buyOrders, sellOrders)
    ensures Get(c, OrderFlowKey) == Some(if buyOrders > sellOrders then Bullish else Bearish)
  {
    GetKeyLabel(c, OrderFlowKey);
  }

  /** With 14 or fewer closes no rsi label is recorded, and with fewer than 20 no bb label. */
  lemma ShortWindowRecordsNoRsiOrBand(c: ConditionSet, xs: seq<real>, prev9: Option<real>, prev21: Option<real>,
                                      ema9: real, ema21: real, price: real, buyOrders: int, sellOrders: int)
    requires WellFormed(c)
    requires Classifies(c, prev9, prev21, Snapshot(ema9, ema21, Rsi(xs), Bollinger(xs)), price, buyOrders, sellOrders)
    ensures |xs| <= RsiPeriod ==> Get(c, RsiKey) == None
    ensures |xs| < BandPeriod ==> Get(c, BbKey) == None
  {
    if Get(c, RsiKey).Some? {
      GetKeyLabel(c, RsiKey);
    }
    if Get(c, BbKey).Some? {
      GetKeyLabel(c, BbKey);
    }
  }

  /** A window that never falls and rises somewhere gives RSI 100, recorded as OVERBOUGHT. */
  lemma RisingWindowOverbought(c: ConditionSet, xs: seq<real>, prev9: Option<real>, prev21: Option<real>,
                               ema9: real, ema21: real, price: real, buyOrders: int, sellOrders: int)
    requires WellFormed(c)
    requires Classifies(c, prev9, prev21, Snapshot(ema9, ema21, Rsi(xs), Bollinger(xs)), price, buyOrders, sellOrders)
    requires |xs| > RsiPeriod && NeverFalls(xs) && SomeRise(xs)
    ensures Get(c, RsiKey) == Some(Overbought)
  {
    RsiHundredIff(xs);
    BelowThirtyAgrees(Rsi(xs).value);
    AboveSeventyAgrees(Rsi(xs).value);
  }

  /** A window that does not move at all has no RSI, so no rsi label is recorded. */
  lemma FlatWindowNoRsi(c: ConditionSet, xs: seq<real>, prev9: Option<real>, prev21: Option<real>,
                        ema9: real, ema21: real, price: real, buyOrders: int, sellOrders: int)
    requires WellFormed(c)
    requires Classifies(c, prev9, prev21, Snapshot(ema9, ema21, Rsi(xs), Bollinger(xs)), price, buyOrders, sellOrders)
    requires Flat(xs)
    ensures Get(c, RsiKey) == None
  {
    if |xs| > RsiPeriod {
      RsiUndefinedIffFlat(xs);
      BelowThirtyAgrees(Rsi(xs).value);
      AboveSeventyAgrees(Rsi(xs).value);
    }
    if Get(c, RsiKey).Some? {
      GetKeyLabel(c, RsiKey);
    }
  }

  /**
   * The rsi label in the source's own terms: OVERSOLD exactly when the RSI
   * value is defined and below 30, OVERBOUGHT exactly when it is above 70.
   */
  lemma RsiLabelInSourceTerms(c: ConditionSet, prev9: Option<real>, prev21: Option<real>,
                              snap: Snapshot, price: real, buyOrders: int, sellOrders: int)
    requires Classifies(c, prev9, prev21, snap, price, buyOrders, sellOrders)
    requires snap.rsi.Some? ==> snap.rsi.value.avgGain >= 0.0 && snap.rsi.value.avgLoss >= 0.0
    ensures Get(c, RsiKey) == Some(Oversold) <==> RsiValue(snap.rsi).Some? && RsiValue(snap.rsi).value < 30.0
    ensures Get(c, RsiKey) == Some(Overbought) <==> RsiValue(snap.rsi).Some? && RsiValue(snap.rsi).value > 70.0
  {
    if snap.rsi.Some? {
      BelowThirtyAgrees(snap.rsi.value);
      AboveSeventyAgrees(snap.rsi.value);
    }
  }

  /**
   * The bb label in the source's own terms, for the standard deviation `s`
   * of the bands: TOUCH_LOWER exactly when price <= lower_band * 1.01,
   * otherwise TOUCH_UPPER exactly when price >= upper_band * 0.99.
   */
  lemma BandLabelInSourceTerms(c: ConditionSet, prev9: Option<real>, prev21: Option<real>,
                               snap: Snapshot, price: real, buyOrders: int, sellOrders: int, s: real)
    requires Classifies(c, prev9, prev21, snap, price, buyOrders, sellOrders)
    requires snap.bands.Some? ==> IsStd(snap.bands.value, s)
    ensures Get(c, BbKey) == Some(TouchLower) <==>
              snap.bands.Some? && price <= LowerBand(snap.bands.value, s) * 1.01
    ensures Get(c, BbKey) == Some(TouchUpper) <==>
              snap.bands.Some? && !(price <= LowerBand(snap.bands.value, s) * 1.01) &&
              price >= UpperBand(snap.bands.value, s) * 0.99
  {
    if snap.bands.Some? {
      TouchesLowerAgrees(price, snap.bands.value, s);
      TouchesUpperAgrees(price, snap.bands.value, s);
    }
  }

  /**
   * When the last 20 closes all equal the current price `p >= 0`, the bands
   * collapse onto `p`, the lower touch fires and the recommendation is BUY.
   */
  lemma FlatTailTouchesLower(c: ConditionSet, xs: seq<real>, p: real, prev9: Option<real>, prev21: Option<real>,
                             ema9: real, ema21: real, buyOrders: int, sellOrders: int)
    requires WellFormed(c)
    requires Classifies(c, prev9, prev21, Snapshot(ema9, ema21, Rsi(xs), Bollinger(xs)), p, buyOrders, sellOrders)
    requires |xs| >= BandPeriod && p >= 0.0
    requires forall i :: |xs| - BandPeriod <= i < |xs| ==> xs[i] == p
    ensures Get(c, BbKey) == Some(TouchLower)
    ensures BuyTriggered(c)
  {
    BollingerOfFlatTail(xs, p);
    CollapsedBandTouchedTwice(p);
  }
}
