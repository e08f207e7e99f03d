/**
 * The trade summary read from the trade analyzer after a backtest run
 * (backtest.py:185-190): five counts looked up with `.get(key, {}).get(sub, 0)`
 * and the winning probability derived from two of them.
 */
module TradeSummary {

  /** The analyzer's nested dictionary, reduced to its integer leaves. */
  type Analysis = map<string, map<string, int>>

  datatype Summary = Summary(total: int, long: int, short: int, won: int, lost: int, winProbability: real)

  /** `a.get(outer, {}).get(inner, 0)`: a missing key at either level reads as 0. */
  function Lookup(a: Analysis, outer: string, inner: string): (v: int)
    ensures outer !in a ==> v == 0
    ensures outer in a && inner !in a[outer] ==> v == 0
    ensures outer in a && inner in a[outer] ==> v == a[outer][inner]
  {
    if outer in a && inner in a[outer] then a[outer][inner] else 0
  }

  /**
   * Winning trades as a percentage of closed trades, and 0 (not a division)
   * when there are no closed trades.
   */
  function WinProbability(won: int, total: int): (r: real)
    ensures total > 0 ==> r * (total as real) == 100.0 * (won as real)
    ensures total <= 0 ==> r == 0.0
  {
    if total > 0 then won as real / total as real * 100.0 else 0.0
  }

  function Summarize(a: Analysis): (s: Summary)
    ensures s.total == Lookup(a, "total", "closed")
    ensures s.won == Lookup(a, "won", "total")
    ensures s.long == Lookup(a, "long", "total") && s.short == Lookup(a, "short", "total")
    ensures s.lost == Lookup(a, "lost", "total")
    ensures s.winProbability == WinProbability(s.won, s.total)
  {
    var total := Lookup(a, "total", "closed");
    var won := Lookup(a, "won", "total");
    Summary(total, Lookup(a, "long", "total"), Lookup(a, "short", "total"), won, Lookup(a, "lost", "total"),
            WinProbability(won, total))
  }

  /** With no more winners than closed trades the probability lies in [0, 100]. */
  lemma WinProbabilityBounds(won: int, total: int)
    requires 0 <= won <= total
    ensures 0.0 <= WinProbability(won, total) <= 100.0
    ensures WinProbability(won, total) == 100.0 <==> total > 0 && won == total
    ensures WinProbability(won, total) == 0.0 <==> won == 0 || total == 0
  {
    if total > 0 {
      var r := WinProbability(won, total);
      var t := total as real;
      assert r * t == 100.0 * (won as real);
      assert t > 0.0;
      if r == 100.0 {
        assert 100.0 * t == 100.0 * (won as real);
      }
      if r == 0.0 {
        assert 100.0 * (won as real) == 0.0;
      }
    }
  }

  /** An analysis without closed trades (the analyzer then has no 'closed' entry) reports 0. */
  lemma NoTradesGivesZero(a: Analysis)
    requires "total" !in a || "closed" !in a["total"] || a["total"]["closed"] == 0
    ensures Summarize(a).total == 0 && Summarize(a).winProbability == 0.0
  {
  }
}
