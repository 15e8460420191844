/**
 * Price and fee constants of the settlement code: the mid-price table and
 * fee of Backend/routes/trades.js, the per-pair price table of
 * Backend/server.js, the 1e-12 sufficiency tolerance and `toFixed(8)`.
 */
module Prices {
  import opened Text

  /** Fee in basis points (0.10 %). */
  const FeeBps: int := 10

  /** Slack allowed when comparing a balance with the amount it must cover. */
  const Tolerance: real := 0.000000000001

  /** Mid prices in USD per asset symbol. */
  const MidTable: map<string, real> :=
    map["BTC" := 68000.0, "ETH" := 2800.0, "SOL" := 150.0, "USDT" := 1.0, "USD" := 1.0]

  /** `midUsd(asset)`: the table entry of the upper-cased symbol, 0 when absent. */
  function MidUsd(asset: string): (p: real)
    ensures p >= 0.0
    ensures p > 0.0 <==> Upper(asset) in MidTable
  {
    var key := Upper(asset);
    if key in MidTable then MidTable[key] else 0.0
  }

  /** `fee(usd)`: 10 basis points of the amount. */
  function Fee(usd: real): (f: real)
    ensures usd > 0.0 ==> 0.0 < f < usd
    ensures f * 1000.0 == usd
  {
    (usd * FeeBps as real) / 10000.0
  }

  /** Initial per-pair prices; the running server drifts them on a timer. */
  const InitialPrices: map<string, real> :=
    map["BTC-USD" := 30000.0, "ETH-USD" := 2000.0, "BNB-USD" := 400.0, "LTC-USD" := 75.0, "XRP-USD" := 0.6]

  /**
   * `getSymbolPrice(sym)` against a snapshot `prices` of the price table: the
   * entry for the exact (case-sensitive) pair symbol, 0 for an unknown pair.
   */
  function SymbolPrice(prices: map<string, real>, sym: string): (p: real)
    ensures sym !in prices ==> p == 0.0
    ensures sym in prices ==> p == prices[sym]
  {
    if sym in prices && prices[sym] != 0.0 then prices[sym] else 0.0
  }

  const Scale8: real := 100000000.0

  /** `+x.toFixed(8)`: the nearest multiple of 1e-8, halves rounded away from zero. */
  function Round8(x: real): real
  {
    if x >= 0.0 then ((x * Scale8 + 0.5).Floor as real) / Scale8
    else -((((-x) * Scale8 + 0.5).Floor as real) / Scale8)
  }

  /** Rounding to 8 decimals moves a value by at most half of 1e-8 and keeps its sign. */
  lemma Round8Error(x: real)
    ensures -0.000000005 <= Round8(x) - x <= 0.000000005
    ensures x >= 0.0 ==> Round8(x) >= 0.0
    ensures x <= 0.0 ==> Round8(x) <= 0.0
  {
    var y := (if x >= 0.0 then x else -x) * Scale8 + 0.5;
    var n := y.Floor;
    assert n as real <= y < n as real + 1.0;
    var m := (n as real) / Scale8;
    var ax := if x >= 0.0 then x else -x;
    assert ax * Scale8 - 0.5 < n as real <= ax * Scale8 + 0.5;
    assert m * Scale8 == n as real;
    assert -0.000000005 < m - ax <= 0.000000005;
  }
}
