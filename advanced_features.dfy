/** Small derived features: flow and activity flags, the range counters, the
    breakout estimate and the single-number encoding of the three regimes. */
module AdvancedFeatures {
  import opened Reals

  // ------------------------------------------------------------ options flow

  /** `calculate_unusual_activity`: flags volume above twice the average. */
  function UnusualActivity(currentVolume: real, avgVolume: real): (flag: int)
    ensures flag == 0 || flag == 1
    ensures flag == 1 <==> currentVolume > 2.0 * avgVolume
  {
    if currentVolume > 2.0 * avgVolume then 1 else 0
  }

  /** Once flagged, any larger volume against the same average is flagged too. */
  lemma UnusualActivityMonotone(v: real, w: real, avg: real)
    requires v <= w
    ensures UnusualActivity(v, avg) <= UnusualActivity(w, avg)
  {
  }

  /** An option-chain row as the flow measure reads it: its type label and trade count. */
  datatype FlowRow = FlowRow(kind: string, transactions: real)

  /** The summed transactions of the rows labelled `kind`. */
  function Volume(rows: seq<FlowRow>, kind: string): (v: real)
    ensures (forall i | 0 <= i < |rows| :: rows[i].transactions >= 0.0) ==> v >= 0.0
  {
    if rows == [] then 0.0
    else Volume(rows[..|rows| - 1], kind) + (if rows[|rows| - 1].kind == kind then rows[|rows| - 1].transactions else 0.0)
  }

  /** `calculate_options_flow_sentiment`: (call volume - put volume) / total,
      0 when nothing traded. With non-negative counts it lies in [-1, 1]. */
  function OptionsFlowSentiment(rows: seq<FlowRow>): (s: real)
    ensures Volume(rows, "call") + Volume(rows, "put") <= 0.0 ==> s == 0.0
    ensures (forall i | 0 <= i < |rows| :: rows[i].transactions >= 0.0) ==> -1.0 <= s <= 1.0
    ensures Volume(rows, "call") + Volume(rows, "put") > 0.0 ==>
      s * (Volume(rows, "call") + Volume(rows, "put")) == Volume(rows, "call") - Volume(rows, "put")
  {
    var call := Volume(rows, "call");
    var put := Volume(rows, "put");
    var total := call + put;
    if total > 0.0 then
      FlowBounds(call, put);
      (call - put) / total
    else 0.0
  }

  lemma FlowBounds(call: real, put: real)
    requires call + put > 0.0
    ensures (call - put) / (call + put) * (call + put) == call - put
    ensures call >= 0.0 && put >= 0.0 ==> -1.0 <= (call - put) / (call + put) <= 1.0
  {
    var q := (call - put) / (call + put);
    assert q * (call + put) == call - put;
    if call >= 0.0 && put >= 0.0 {
      assert (q - 1.0) * (call + put) == -2.0 * put;
      assert (q + 1.0) * (call + put) == 2.0 * call;
    }
  }

  /** Relabelling every call as a put and every put as a call negates the sentiment. */
  function Swapped(rows: seq<FlowRow>): (r: seq<FlowRow>)
    ensures |r| == |rows|
  {
    seq(|rows|, i requires 0 <= i < |rows| =>
      FlowRow(if rows[i].kind == "call" then "put" else if rows[i].kind == "put" then "call" else rows[i].kind,
              rows[i].transactions))
  }

  lemma {:induction false} SwappedVolume(rows: seq<FlowRow>)
    ensures Volume(Swapped(rows), "call") == Volume(rows, "put")
    ensures Volume(Swapped(rows), "put") == Volume(rows, "call")
  {
    if rows != [] {
      var init := rows[..|rows| - 1];
      SwappedVolume(init);
      assert Swapped(rows)[..|rows| - 1] == Swapped(init);
    }
  }

  lemma FlowSentimentAntisymmetric(rows: seq<FlowRow>)
    ensures OptionsFlowSentiment(Swapped(rows)) == -OptionsFlowSentiment(rows)
  {
    SwappedVolume(rows);
    var call := Volume(rows, "call");
    var put := Volume(rows, "put");
    if call + put > 0.0 {
      QuotientNegates(call, put);
    }
  }

  lemma QuotientNegates(call: real, put: real)
    requires call + put > 0.0
    ensures (put - call) / (put + call) == -((call - put) / (call + put))
  {
    var q := (call - put) / (call + put);
    assert q * (call + put) == call - put;
    assert -q * (put + call) == put - call;
  }

  // ------------------------------------------------------------ range counters

  /** The number of trailing prices inside [support, resistance]. */
  function TrailingInRange(prices: seq<real>, support: real, resistance: real): (n: nat)
    ensures n <= |prices|
    ensures forall i | |prices| - n <= i < |prices| :: support <= prices[i] <= resistance
    ensures n < |prices| ==> !(support <= prices[|prices| - 1 - n] <= resistance)
  {
    if prices == [] then 0
    else if support <= prices[|prices| - 1] <= resistance then
      var n := TrailingInRange(prices[..|prices| - 1], support, resistance);
      assert forall i | |prices| - 1 - n <= i < |prices| - 1 :: prices[..|prices| - 1][i] == prices[i];
      n + 1
    else 0
  }

  /** `calculate_days_in_range`: walk back from the latest price while it
      stays inside the range, capped at 60. */
  method DaysInRange(prices: seq<real>, resistance: real, support: real) returns (days: int)
    ensures days == if TrailingInRange(prices, support, resistance) < 60 then TrailingInRange(prices, support, resistance) else 60
    ensures 0 <= days <= 60 && days <= |prices|
  {
    days := 0;
    var i := |prices| - 1;
    while i >= 0
      invariant -1 <= i < |prices|
      invariant days == |prices| - 1 - i
      invariant TrailingInRange(prices[..i + 1], support, resistance) + days == TrailingInRange(prices, support, resistance)
      decreases i
    {
      var price := prices[i];
      if support <= price <= resistance {
        days := days + 1;
        assert prices[..i + 1][..i] == prices[..i];
      } else {
        break;
      }
      i := i - 1;
    }
    if days > 60 {
      days := 60;
    }
  }

  /** The length of the trailing run of entries equal to `v`. */
  function TrailingRun(xs: seq<int>, v: int): (n: nat)
    ensures n <= |xs|
    ensures forall i | |xs| - n <= i < |xs| :: xs[i] == v
    ensures n < |xs| ==> xs[|xs| - 1 - n] != v
  {
    if xs == [] then 0
    else if xs[|xs| - 1] == v then
      var n := TrailingRun(xs[..|xs| - 1], v);
      assert forall i | |xs| - 1 - n <= i < |xs| - 1 :: xs[..|xs| - 1][i] == xs[i];
      n + 1
    else 0
  }

  /** `calculate_days_since_regime_change`: 0 for fewer than two entries,
      otherwise the days the latest regime has lasted, between 1 and 60. */
  method DaysSinceRegimeChange(regimes: seq<int>) returns (days: int)
    ensures |regimes| < 2 ==> days == 0
    ensures |regimes| >= 2 ==>
      var run := TrailingRun(regimes, regimes[|regimes| - 1]);
      days == if run < 60 then run else 60
    ensures |regimes| >= 2 ==> 1 <= days <= 60
  {
    if |regimes| < 2 {
      return 0;
    }
    var current := regimes[|regimes| - 1];
    days := 0;
    var i := |regimes| - 1;
    while i >= 0
      invariant -1 <= i < |regimes|
      invariant days == |regimes| - 1 - i
      invariant TrailingRun(regimes[..i + 1], current) + days == TrailingRun(regimes, current)
      decreases i
    {
      if regimes[i] == current {
        days := days + 1;
        assert regimes[..i + 1][..i] == regimes[..i];
      } else {
        break;
      }
      i := i - 1;
    }
    assert regimes[..|regimes|] == regimes;
    if days > 60 {
      days := 60;
    }
  }

  // ------------------------------------------------------------ breakout

  function Min(a: real, b: real): real { if a <= b then a else b }
  function Max(a: real, b: real): real { if a >= b then a else b }

  /** `calculate_breakout_probability` as written: a weighted blend of the
      position factor, volatility and trend strength, clamped to [0, 1]. The
      position factor 1 - |position - 0.5| * 2 is largest in the MIDDLE of
      the range and 0 at its edges. */
  function BreakoutProbability(positionInRange: real, volatility: real, adx: real): (p: real)
    ensures 0.0 <= p <= 1.0
  {
    var edge := 1.0 - Abs(positionInRange - 0.5) * 2.0;
    Blend(edge, volatility, adx)
  }

  /** The clamped blend shared by both readings of the position factor. */
  function Blend(edge: real, volatility: real, adx: real): (p: real)
    ensures 0.0 <= p <= 1.0
  {
    var vol := Min(volatility / 0.5, 1.0);
    var trend := Min(adx / 40.0, 1.0);
    Max(0.0, Min(1.0, edge * 0.4 + vol * 0.3 + trend * 0.3))
  }

  /** Raising any factor never lowers the blend. */
  lemma BlendMonotone(e: real, e': real, vol: real, vol': real, adx: real, adx': real)
    requires e <= e' && vol <= vol' && adx <= adx'
    ensures Blend(e, vol, adx) <= Blend(e', vol', adx')
  {
  }

  /** As written, the estimate peaks mid-range: a price at an edge never
      scores above one in the middle, and with no volatility and no trend the
      middle scores 0.4 while either edge scores 0. */
  lemma BreakoutPeaksMidRange(pos: real, vol: real, adx: real)
    ensures BreakoutProbability(pos, vol, adx) <= BreakoutProbability(0.5, vol, adx)
    ensures BreakoutProbability(0.5, 0.0, 0.0) == 0.4
    ensures BreakoutProbability(0.0, 0.0, 0.0) == 0.0 && BreakoutProbability(1.0, 0.0, 0.0) == 0.0
  {
    BlendMonotone(1.0 - Abs(pos - 0.5) * 2.0, 1.0, vol, vol, adx, adx);
  }

  /** The estimate the feature is described as giving: the position factor
      grows with the distance from the middle of the range, so a price at
      an edge scores highest. */
  function EdgeBreakoutProbability(positionInRange: real, volatility: real, adx: real): (p: real)
    ensures 0.0 <= p <= 1.0
  {
    Blend(Abs(positionInRange - 0.5) * 2.0, volatility, adx)
  }

  /** Moving towards an edge, or raising volatility or trend strength, never
      lowers the corrected estimate. */
  lemma EdgeBreakoutMonotone(pos: real, pos': real, vol: real, vol': real, adx: real, adx': real)
    requires Abs(pos - 0.5) <= Abs(pos' - 0.5) && vol <= vol' && adx <= adx'
    ensures EdgeBreakoutProbability(pos, vol, adx) <= EdgeBreakoutProbability(pos', vol', adx')
  {
    BlendMonotone(Abs(pos - 0.5) * 2.0, Abs(pos' - 0.5) * 2.0, vol, vol', adx, adx');
  }

  /** With the corrected factor an edge outscores the middle, and at an edge
      with volatility 0.5 and ADX 40 a breakout is certain. */
  lemma EdgeBreakoutAtEdges()
    ensures EdgeBreakoutProbability(1.0, 0.5, 40.0) == 1.0
    ensures EdgeBreakoutProbability(0.0, 0.0, 0.0) > EdgeBreakoutProbability(0.5, 0.0, 0.0)
  {
    assert Abs(1.0 - 0.5) * 2.0 == 1.0 && Abs(0.0 - 0.5) * 2.0 == 1.0 && Abs(0.5 - 0.5) * 2.0 == 0.0;
    assert Min(0.5 / 0.5, 1.0) == 1.0 && Min(40.0 / 40.0, 1.0) == 1.0;
    assert Blend(1.0, 0.5, 40.0) == Max(0.0, Min(1.0, 1.0 * 0.4 + 1.0 * 0.3 + 1.0 * 0.3)) == 1.0;
    assert Min(0.0 / 0.5, 1.0) == 0.0 && Min(0.0 / 40.0, 1.0) == 0.0;
    assert Blend(1.0, 0.0, 0.0) == Max(0.0, Min(1.0, 1.0 * 0.4)) == 0.4;
    assert Blend(0.0, 0.0, 0.0) == Max(0.0, Min(1.0, 0.0)) == 0.0;
  }

  // ------------------------------------------------------------ combined state

  /** `calculate_combined_state`: trend * 15 + volatility * 3 + volume. */
  function CombinedState(trend: int, volatility: int, volume: int): (s: int)
    ensures 0 <= trend <= 4 && 0 <= volatility <= 4 && 0 <= volume <= 2 ==> 0 <= s <= 74
  {
    trend * 15 + volatility * 3 + volume
  }

  /** Within the documented ranges the encoding loses nothing: each regime
      is read back by division and remainder. */
  lemma CombinedStateDecodes(trend: int, volatility: int, volume: int)
    requires 0 <= trend <= 4 && 0 <= volatility <= 4 && 0 <= volume <= 2
    ensures CombinedState(trend, volatility, volume) / 15 == trend
    ensures CombinedState(trend, volatility, volume) % 15 / 3 == volatility
    ensures CombinedState(trend, volatility, volume) % 3 == volume
  {
    var s := CombinedState(trend, volatility, volume);
    var low := volatility * 3 + volume;
    assert 0 <= low < 15;
    assert s == trend * 15 + low;
    assert s / 15 == trend && s % 15 == low;
    assert low / 3 == volatility && low % 3 == volume;
    assert s % 3 == volume by {
      assert s == (trend * 5 + volatility) * 3 + volume;
    }
  }

  /** Hence different regime triples never share a state. */
  lemma CombinedStateInjective(t: int, v: int, w: int, t': int, v': int, w': int)
    requires 0 <= t <= 4 && 0 <= v <= 4 && 0 <= w <= 2
    requires 0 <= t' <= 4 && 0 <= v' <= 4 && 0 <= w' <= 2
    requires CombinedState(t, v, w) == CombinedState(t', v', w')
    ensures t == t' && v == v' && w == w'
  {
    CombinedStateDecodes(t, v, w);
    CombinedStateDecodes(t', v', w');
  }
}
