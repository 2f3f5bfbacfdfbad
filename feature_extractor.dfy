/** The regime classification, output validation and model-input ordering
    of the live feature extractor. */
module FeatureExtractor {
  import opened Wrappers
  import opened Features
  import AdvancedFeatures

  // ------------------------------------------------------------ regimes

  /** Trend regime: 4 strong up, 3 weak up, 2 ranging, 1 weak down, 0 strong down. */
  function TrendRegime(adx: real, macdHist: real, priceVsSma50: real): (t: int)
    ensures 0 <= t <= 4
    ensures t == 4 <==> adx > 30.0 && macdHist > 0.0 && priceVsSma50 > 0.02
    ensures t == 2 <==> adx < 20.0
    ensures 20.0 <= adx <= 25.0 ==> t == 0
  {
    if adx > 30.0 && macdHist > 0.0 && priceVsSma50 > 0.02 then 4
    else if adx > 25.0 && priceVsSma50 > 0.0 then 3
    else if adx < 20.0 then 2
    else if adx > 25.0 && priceVsSma50 < 0.0 then 1
    else 0
  }

  /** The "strong down" code is never given to a trending market that is
      below its 50-day average: those get 1. It is given only for ADX
      between 20 and 25, or above 25 exactly at the average. */
  lemma StrongDownOnlyWithoutDirection(adx: real, macdHist: real, priceVsSma50: real)
    ensures adx > 25.0 && priceVsSma50 < 0.0 ==> TrendRegime(adx, macdHist, priceVsSma50) == 1
    ensures TrendRegime(adx, macdHist, priceVsSma50) == 0 <==>
      (20.0 <= adx <= 25.0) || (adx > 25.0 && priceVsSma50 == 0.0)
  {
  }

  /** Volatility regime by IV rank: cut points 25, 40, 60 and 75. */
  function VolatilityRegime(ivRank: real): (v: int)
    ensures 0 <= v <= 4
    ensures v == 4 <==> ivRank > 75.0
    ensures v == 3 <==> 60.0 < ivRank <= 75.0
    ensures v == 2 <==> 40.0 < ivRank <= 60.0
    ensures v == 1 <==> 25.0 < ivRank <= 40.0
    ensures v == 0 <==> ivRank <= 25.0
  {
    if ivRank > 75.0 then 4
    else if ivRank > 60.0 then 3
    else if ivRank > 40.0 then 2
    else if ivRank > 25.0 then 1
    else 0
  }

  /** Volume regime by volume relative to its average: cut points 0.8 and 1.5. */
  function VolumeRegime(volumeVsAvg: real): (v: int)
    ensures 0 <= v <= 2
    ensures v == 2 <==> volumeVsAvg > 1.5
    ensures v == 0 <==> volumeVsAvg <= 0.8
  {
    if volumeVsAvg > 1.5 then 2 else if volumeVsAvg > 0.8 then 1 else 0
  }

  /** Higher IV rank or relative volume never gives a lower regime. */
  lemma RegimesMonotone(iv: real, iv': real, vol: real, vol': real)
    requires iv <= iv' && vol <= vol'
    ensures VolatilityRegime(iv) <= VolatilityRegime(iv')
    ensures VolumeRegime(vol) <= VolumeRegime(vol')
  {
  }

  datatype RegimeFeatures = RegimeFeatures(trendRegime: int, volatilityRegime: int, volumeRegime: int,
                                           combinedState: int, daysSinceRegimeChange: int)

  /** `_extract_regime_classification`: the three regimes from the features
      (with defaults ADX 20, MACD histogram 0, distance to SMA-50 0, IV rank
      50 and relative volume 1), their combined code and a fixed 5 days. */
  function RegimeClassification(f: Snapshot): (r: RegimeFeatures)
    ensures r.trendRegime == TrendRegime(Get(f, "adx_14", 20.0), Get(f, "macd_histogram", 0.0), Get(f, "price_vs_sma_50", 0.0))
    ensures r.volatilityRegime == VolatilityRegime(Get(f, "iv_rank", 50.0))
    ensures r.volumeRegime == VolumeRegime(Get(f, "volume_vs_avg", 1.0))
    ensures r.combinedState == AdvancedFeatures.CombinedState(r.trendRegime, r.volatilityRegime, r.volumeRegime)
    ensures 0 <= r.combinedState <= 74
    ensures r.combinedState / 15 == r.trendRegime && r.combinedState % 15 / 3 == r.volatilityRegime
    ensures r.combinedState % 3 == r.volumeRegime
    ensures r.daysSinceRegimeChange == 5
  {
    var trend := TrendRegime(Get(f, "adx_14", 20.0), Get(f, "macd_histogram", 0.0), Get(f, "price_vs_sma_50", 0.0));
    var vol := VolatilityRegime(Get(f, "iv_rank", 50.0));
    var volume := VolumeRegime(Get(f, "volume_vs_avg", 1.0));
    AdvancedFeatures.CombinedStateDecodes(trend, vol, volume);
    RegimeFeatures(trend, vol, volume, trend * 15 + vol * 3 + volume, 5)
  }

  /** With no features at all: ADX 20 is not ranging, so the trend code is 0. */
  lemma EmptyFeaturesRegime()
    ensures RegimeClassification(map[]) == RegimeFeatures(0, 2, 1, 7, 5)
  {
  }

  // ------------------------------------------------------------ validation

  /** Why a feature dictionary is refused. */
  datatype OutputError = MissingFeatures(names: set<string>) | NaNFeatures(names: set<string>)

  function NaNKeys(features: map<string, Value>): (k: set<string>)
    ensures forall n :: n in k <==> n in features && features[n].NaN?
  {
    set n | n in features && features[n].NaN?
  }

  /** `_validate_output`: refuse missing required names first, then NaN
      values; otherwise succeed, reporting the extra names that only draw a
      warning. */
  function ValidateOutput(required: seq<string>, features: map<string, Value>): (r: Result<set<string>, OutputError>)
    ensures r.Err? && r.error.MissingFeatures? <==> exists n | n in required :: n !in features
    ensures r.Err? && r.error.MissingFeatures? ==> forall n :: n in r.error.names <==> n in required && n !in features
    ensures r.Err? && r.error.NaNFeatures? ==> r.error.names != {} && forall n :: n in r.error.names <==> n in NaNKeys(features)
    ensures r.Ok? <==> (forall n | n in required :: n in features) && forall n | n in features :: features[n].Num?
    ensures r.Ok? ==> forall n :: n in r.value <==> n in features && n !in required
  {
    var missing := (set n | n in required) - features.Keys;
    if missing != {} then
      assert exists n | n in required :: n !in features;
      Err(MissingFeatures(missing))
    else
      assert forall n | n in required :: n in features by {
        forall n | n in required ensures n in features {
          assert n in (set m | m in required);
          assert n !in missing;
        }
      }
      var nan := NaNKeys(features);
      if nan != {} then
        Err(NaNFeatures(nan))
      else Ok(features.Keys - set n | n in required)
  }

  // ------------------------------------------------------------ model input

  /** `get_feature_array`: one value per required name, in the required
      order; a missing name fails on the first one in that order. */
  function FeatureArray(required: seq<string>, features: map<string, Value>): (r: Result<seq<Value>, string>)
    ensures r.Ok? <==> forall i | 0 <= i < |required| :: required[i] in features
    ensures r.Ok? ==> |r.value| == |required| && forall i | 0 <= i < |required| :: r.value[i] == features[required[i]]
    ensures r.Err? ==> r.error in required && r.error !in features
    ensures r.Err? ==> exists i | 0 <= i < |required| :: required[i] == r.error && forall j | 0 <= j < i :: required[j] in features
  {
    if required == [] then Ok([])
    else if required[0] !in features then Err(required[0])
    else
      var rest := FeatureArray(required[1..], features);
      if rest.Err? then
        Err(rest.error)
      else
        Ok([features[required[0]]] + rest.value)
  }

  /** A dictionary that passes validation yields a complete array with no NaN entry. */
  lemma ValidatedArrayIsComplete(required: seq<string>, features: map<string, Value>)
    requires ValidateOutput(required, features).Ok?
    ensures FeatureArray(required, features).Ok?
    ensures forall i | 0 <= i < |required| :: FeatureArray(required, features).value[i].Num?
  {
  }
}
