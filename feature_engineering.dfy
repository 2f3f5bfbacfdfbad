/** The named market-regime classification of the training-time feature
    pipeline. Its scale differs from the live extractor's: volatility has
    four levels with cut points 30, 50 and 70. */
module FeatureEngineering {
  import opened Features

  datatype Trend = StrongUp | StrongDown | Mixed | Ranging | WeakUp | WeakDown
  datatype Volatility = Extreme | Elevated | Normal | Low
  datatype Volume = High | Average | LowVolume

  function TrendName(t: Trend): string {
    match t
    case StrongUp => "strong_up"
    case StrongDown => "strong_down"
    case Mixed => "mixed"
    case Ranging => "ranging"
    case WeakUp => "weak_up"
    case WeakDown => "weak_down"
  }

  function VolatilityName(v: Volatility): string {
    match v
    case Extreme => "extreme"
    case Elevated => "elevated"
    case Normal => "normal"
    case Low => "low"
  }

  function VolumeName(v: Volume): string {
    match v
    case High => "high"
    case Average => "average"
    case LowVolume => "low"
  }

  /** The numeric code attached to each label. */
  function TrendCode(t: Trend): int {
    match t
    case StrongUp => 4
    case WeakUp => 3
    case Mixed | Ranging => 2
    case WeakDown => 1
    case StrongDown => 0
  }

  function VolatilityCode(v: Volatility): int {
    match v
    case Extreme => 3
    case Elevated => 2
    case Normal => 1
    case Low => 0
  }

  function VolumeCode(v: Volume): int {
    match v
    case High => 2
    case Average => 1
    case LowVolume => 0
  }

  /** The six entries the classification fills in. */
  datatype Regime = Regime(trend: string, trendNumeric: int, volatility: string, volatilityNumeric: int,
                           volume: string, volumeNumeric: int)

  function TrendOf(adx: real, macdHist: real, rsi: real): (t: Trend)
    ensures adx > 25.0 ==> (t == StrongUp <==> macdHist > 0.0 && rsi > 50.0)
    ensures adx > 25.0 ==> (t == StrongDown <==> macdHist < 0.0 && rsi < 50.0)
    ensures adx > 25.0 ==> t in {StrongUp, StrongDown, Mixed}
    ensures adx < 20.0 <==> t == Ranging
    ensures 20.0 <= adx <= 25.0 ==> (t == WeakUp <==> rsi > 50.0) && t in {WeakUp, WeakDown}
  {
    if adx > 25.0 then
      if macdHist > 0.0 && rsi > 50.0 then StrongUp
      else if macdHist < 0.0 && rsi < 50.0 then StrongDown
      else Mixed
    else if adx < 20.0 then Ranging
    else if rsi > 50.0 then WeakUp
    else WeakDown
  }

  function VolatilityOf(ivRank: real): (v: Volatility)
    ensures v == Extreme <==> ivRank > 70.0
    ensures v == Elevated <==> 50.0 < ivRank <= 70.0
    ensures v == Normal <==> 30.0 < ivRank <= 50.0
    ensures v == Low <==> ivRank <= 30.0
  {
    if ivRank > 70.0 then Extreme
    else if ivRank > 50.0 then Elevated
    else if ivRank > 30.0 then Normal
    else Low
  }

  function VolumeOf(volumeVsAvg: real): (v: Volume)
    ensures v == High <==> volumeVsAvg > 1.5
    ensures v == LowVolume <==> volumeVsAvg <= 0.8
  {
    if volumeVsAvg > 1.5 then High else if volumeVsAvg > 0.8 then Average else LowVolume
  }

  /** `classify_market_regime`, with defaults ADX 20, MACD histogram 0, RSI
      50, IV rank 50 and relative volume 1. Every name agrees with its
      code, and the codes lie in 0..4, 0..3 and 0..2. */
  function ClassifyMarketRegime(f: Snapshot): (r: Regime)
    ensures var t := TrendOf(Get(f, "adx_14", 20.0), Get(f, "macd_histogram", 0.0), Get(f, "rsi_14", 50.0));
      r.trend == TrendName(t) && r.trendNumeric == TrendCode(t)
    ensures var v := VolatilityOf(Get(f, "iv_rank", 50.0));
      r.volatility == VolatilityName(v) && r.volatilityNumeric == VolatilityCode(v)
    ensures var v := VolumeOf(Get(f, "volume_vs_avg", 1.0));
      r.volume == VolumeName(v) && r.volumeNumeric == VolumeCode(v)
    ensures 0 <= r.trendNumeric <= 4 && 0 <= r.volatilityNumeric <= 3 && 0 <= r.volumeNumeric <= 2
  {
    var t := TrendOf(Get(f, "adx_14", 20.0), Get(f, "macd_histogram", 0.0), Get(f, "rsi_14", 50.0));
    var v := VolatilityOf(Get(f, "iv_rank", 50.0));
    var w := VolumeOf(Get(f, "volume_vs_avg", 1.0));
    Regime(TrendName(t), TrendCode(t), VolatilityName(v), VolatilityCode(v), VolumeName(w), VolumeCode(w))
  }

  /** The trend name determines its code: two readings with the same name
      have the same number, so the pair never disagrees. */
  lemma NameDeterminesCode(f: Snapshot, g: Snapshot)
    requires ClassifyMarketRegime(f).trend == ClassifyMarketRegime(g).trend
    ensures ClassifyMarketRegime(f).trendNumeric == ClassifyMarketRegime(g).trendNumeric
  {
    var t := TrendOf(Get(f, "adx_14", 20.0), Get(f, "macd_histogram", 0.0), Get(f, "rsi_14", 50.0));
    var u := TrendOf(Get(g, "adx_14", 20.0), Get(g, "macd_histogram", 0.0), Get(g, "rsi_14", 50.0));
    TrendNameInjective(t, u);
  }

  lemma TrendNameInjective(t: Trend, u: Trend)
    requires TrendName(t) == TrendName(u)
    ensures t == u
  {
    match t
    case StrongUp => assert TrendName(u)[7] == 'u';
    case StrongDown => assert TrendName(u)[7] == 'd';
    case Mixed => assert TrendName(u)[0] == 'm';
    case Ranging => assert TrendName(u)[0] == 'r';
    case WeakUp => assert TrendName(u)[5] == 'u';
    case WeakDown => assert TrendName(u)[5] == 'd';
  }

  /** Higher IV rank never gives a lower volatility code. */
  lemma VolatilityCodeMonotone(iv: real, iv': real)
    requires iv <= iv'
    ensures VolatilityCode(VolatilityOf(iv)) <= VolatilityCode(VolatilityOf(iv'))
  {
  }
}
