/**
 * The scalper's price history: every close is appended to a list, which is then
 * cut back to its most recent `Cap` entries (memecoin_screening.py:90-93).
 */
module PriceWindow {

  /** Number of closes the scalper keeps (memecoin_screening.py:92-93). */
  const Cap: nat := 100

  /** The last `n` entries of `s`, or all of `s` when it is shorter; Python's `s[-n:]`. */
  function LastN(s: seq<real>, n: nat): seq<real>
  {
    if |s| <= n then s else s[|s| - n..]
  }

  /** The window after one close is appended and the list is cut back to `Cap` entries. */
  function Append(h: seq<real>, price: real): (w: seq<real>)
    ensures |w| <= Cap
    ensures |w| == if |h| < Cap then |h| + 1 else Cap
    ensures w[|w| - 1] == price
    ensures w[..|w| - 1] == h[|h| - (|w| - 1)..]
  {
    LastN(h + [price], Cap)
  }

  /** The window after the closes `prices` arrive one tick at a time. */
  function AppendAll(h: seq<real>, prices: seq<real>): seq<real>
    decreases |prices|
  {
    if prices == [] then h else AppendAll(Append(h, prices[0]), prices[1..])
  }

  /** Two sequences with a common suffix `u` agree on their last `m <= |u|` entries. */
  lemma SuffixesAgree(p: seq<real>, u: seq<real>, m: nat)
    requires m <= |u|
    ensures u[|u| - m..] == (p + u)[|p + u| - m..]
  {
    var v := p + u;
    assert v[|p|..] == u;
    assert v[|v| - m..] == v[|p|..][|u| - m..];
  }

  /** Cutting back early does not change what a later cut keeps. */
  lemma LastNAbsorbs(s: seq<real>, t: seq<real>, n: nat)
    ensures LastN(LastN(s, n) + t, n) == LastN(s + t, n)
  {
    if |s| > n {
      var k := |s| - n;
      var u := s[k..];
      assert LastN(s, n) == u;
      assert s + t == s[..k] + (u + t);
      var m := |LastN(u + t, n)|;
      assert m == |LastN(s + t, n)|;
      SuffixesAgree(s[..k], u + t, m);
    }
  }

  /** One step of AppendAll, stated on LastN alone. */
  lemma AppendAllStep(h: seq<real>, prices: seq<real>)
    requires prices != []
    ensures AppendAll(h, prices) == AppendAll(LastN(h + [prices[0]], Cap), prices[1..])
  {
  }

  /**
   * However many ticks arrive, the window holds exactly the most recent `Cap`
   * closes of everything seen, in chronological order.
   */
  lemma {:induction false} AppendAllKeepsMostRecent(h: seq<real>, prices: seq<real>)
    requires |h| <= Cap
    ensures AppendAll(h, prices) == LastN(h + prices, Cap)
    decreases |prices|
  {
    if prices == [] {
      assert h + prices == h;
    } else {
      var s := h + [prices[0]];
      var rest := prices[1..];
      assert s + rest == h + prices;
      AppendAllStep(h, prices);
      AppendAllKeepsMostRecent(LastN(s, Cap), rest);
      LastNAbsorbs(s, rest, Cap);
    }
  }
}
