/** Shares of a limit in percent, as reals. */
module Percentages {
  /** A share of a limit, capped; no limit reads as nothing used. */
  function Percent(tokens: int, limit: int): (pct: real)
    ensures tokens >= 0 ==> 0.0 <= pct <= 100.0
    ensures limit > 0 && 0 <= tokens <= limit ==> pct * limit as real == tokens as real * 100.0
    ensures limit > 0 && tokens >= limit ==> pct == 100.0
    ensures limit <= 0 ==> pct == 0.0
  {
    if limit <= 0 then 0.0
    else
      PercentFacts(tokens, limit);
      var pct := tokens as real / limit as real * 100.0;
      if pct > 100.0 then 100.0 else pct
  }

  lemma PercentFacts(tokens: int, limit: int)
    requires limit > 0
    ensures var pct := tokens as real / limit as real * 100.0;
            && pct * limit as real == tokens as real * 100.0
            && (tokens >= 0 ==> pct >= 0.0)
            && (tokens >= limit <==> pct >= 100.0)
  {
    var q, l, t := tokens as real / limit as real, limit as real, tokens as real;
    assert q * l == t;
    assert (q * 100.0) * l == (q * l) * 100.0;
    if tokens >= 0 {
      assert q >= 0.0;
    }
    if tokens >= limit {
      assert q >= 1.0;
    } else {
      assert q < 1.0;
    }
  }
}
