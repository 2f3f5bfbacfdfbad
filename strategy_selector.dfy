/** Rule-based labelling of a market day with one of the ten strategies, and
    the check that a labelled data set has the intended mix of strategies. */
module StrategySelector {
  import opened Strategies
  import opened Features
  import opened Reals

  /** The five features the rules read, with the defaults used when absent. */
  datatype Signals = Signals(ivRank: real, adx: real, trendRegime: real, rsi: real, priceVsSma: real)

  /** The five signals, each the snapshot's value or its default when absent. */
  function Read(f: Snapshot): (m: Signals)
    ensures m.ivRank == (if "iv_rank" in f then f["iv_rank"] else 50.0)
    ensures m.adx == (if "adx_14" in f then f["adx_14"] else 20.0)
    ensures m.trendRegime == (if "trend_regime" in f then f["trend_regime"] else 2.0)
    ensures m.rsi == (if "rsi_14" in f then f["rsi_14"] else 50.0)
    ensures m.priceVsSma == (if "price_vs_sma_20" in f then f["price_vs_sma_20"] else 0.0)
  {
    Signals(Get(f, "iv_rank", 50.0), Get(f, "adx_14", 20.0), Get(f, "trend_regime", 2.0),
            Get(f, "rsi_14", 50.0), Get(f, "price_vs_sma_20", 0.0))
  }


  // ------------------------------------------------------------ the rules, in order

  predicate DiagonalRule(m: Signals) {
    45.0 < m.ivRank < 60.0 && m.trendRegime == 2.0 && 0.005 < Abs(m.priceVsSma) < 0.012 && m.adx < 15.0
  }

  predicate CondorRule(m: Signals) {
    52.0 < m.ivRank < 75.0 && m.adx < 25.0 && 45.0 < m.rsi < 55.0
  }

  predicate ButterflyRule(m: Signals) {
    m.ivRank > 68.0 && m.adx < 20.0
  }

  predicate LongCallRule(m: Signals) {
    m.ivRank < 46.0 && m.adx > 21.0 && m.trendRegime >= 3.0 && m.rsi > 54.0
  }

  /** Cheap options and one of three bearish paths. */
  predicate LongPutRule(m: Signals) {
    && m.ivRank < 48.0
    && (|| (m.adx > 20.0 && (m.trendRegime <= 1.0 || m.rsi < 42.0 || m.priceVsSma < -0.025))
        || (m.adx >= 15.0 && (m.rsi < 38.0 || m.priceVsSma < -0.035))
        || m.rsi < 33.0)
  }

  predicate BullCallRule(m: Signals) {
    56.0 <= m.ivRank <= 63.0 && m.trendRegime >= 3.0 && m.adx > 26.0 && m.rsi > 62.0
  }

  predicate BearPutRule(m: Signals) {
    54.0 <= m.ivRank <= 65.0 && m.trendRegime <= 1.0 && m.adx > 22.0 && m.rsi < 45.0
  }

  predicate StraddleRule(m: Signals) {
    m.ivRank < 35.0 && 45.0 < m.rsi < 58.0 && m.adx < 17.0
  }

  predicate StrangleRule(m: Signals) {
    m.ivRank < 36.0 && 44.0 < m.rsi < 59.0 && m.adx < 25.0
  }

  predicate CalendarRule(m: Signals) {
    m.ivRank < 42.0 && m.adx < 20.0 && 42.0 < m.rsi < 58.0 && Abs(m.priceVsSma) < 0.022
  }

  /** The final fallback when no rule applies: sell premium in high IV, buy
      options in low IV, spreads only on strong momentum in between. */
  function Fallback(m: Signals): Strategy {
    if m.ivRank > 55.0 then IronCondor
    else if m.ivRank < 35.0 then (if m.rsi >= 50.0 then LongCall else LongPut)
    else if m.rsi > 58.0 && m.adx > 18.0 then BullCallSpread
    else if m.rsi < 42.0 && m.adx > 18.0 then BearPutSpread
    else IronCondor
  }

  /** The ten rules in priority order. */
  predicate RuleAt(i: int, m: Signals) {
    match i
    case 0 => DiagonalRule(m)
    case 1 => CondorRule(m)
    case 2 => ButterflyRule(m)
    case 3 => LongCallRule(m)
    case 4 => LongPutRule(m)
    case 5 => BullCallRule(m)
    case 6 => BearPutRule(m)
    case 7 => StraddleRule(m)
    case 8 => StrangleRule(m)
    case 9 => CalendarRule(m)
    case _ => false
  }

  /** The label each rule assigns. */
  function RuleLabel(i: int): Strategy {
    match i
    case 0 => DiagonalSpread
    case 1 => IronCondor
    case 2 => IronButterfly
    case 3 => LongCall
    case 4 => LongPut
    case 5 => BullCallSpread
    case 6 => BearPutSpread
    case 7 => LongStraddle
    case 8 => LongStrangle
    case 9 => CalendarSpread
    case _ => IronCondor
  }

  /** The ten rules, spelled out by position. */
  lemma RulesByPosition(m: Signals)
    ensures RuleAt(0, m) == DiagonalRule(m) && RuleAt(1, m) == CondorRule(m)
    ensures RuleAt(2, m) == ButterflyRule(m) && RuleAt(3, m) == LongCallRule(m)
    ensures RuleAt(4, m) == LongPutRule(m) && RuleAt(5, m) == BullCallRule(m)
    ensures RuleAt(6, m) == BearPutRule(m) && RuleAt(7, m) == StraddleRule(m)
    ensures RuleAt(8, m) == StrangleRule(m) && RuleAt(9, m) == CalendarRule(m)
  {
  }

  /** Rule `i` applies and no earlier rule does. */
  predicate FirstMatch(i: int, m: Signals) {
    0 <= i < 10 && RuleAt(i, m) && forall j | 0 <= j < i :: !RuleAt(j, m)
  }

  /** `select_strategy_from_features`: the label of the first rule that
      applies, or the fallback when none does. Every label also comes with
      the conditions that any day given it must meet. */
  function SelectStrategy(f: Snapshot): (s: Strategy)
    ensures forall i | FirstMatch(i, Read(f)) :: s == RuleLabel(i)
    ensures (forall i | 0 <= i < 10 :: !RuleAt(i, Read(f))) ==> s == Fallback(Read(f))
    ensures var m := Read(f);
      && (s == LongCall ==> m.ivRank < 46.0 && m.rsi >= 50.0)
      && (s == LongPut ==> m.ivRank < 48.0)
      && (s == IronButterfly ==> m.ivRank > 68.0 && m.adx < 20.0)
      && (s == BullCallSpread ==> 35.0 <= m.ivRank <= 63.0 && m.rsi > 58.0 && m.adx > 18.0)
      && (s == BearPutSpread ==> 35.0 <= m.ivRank <= 65.0 && m.rsi < 45.0 && m.adx > 18.0)
      && (s == LongStraddle ==> m.ivRank < 35.0 && m.adx < 17.0)
      && (s == LongStrangle ==> m.ivRank < 36.0 && m.adx < 25.0)
      && (s == CalendarSpread ==> m.ivRank < 42.0 && m.adx < 20.0)
      && (s == DiagonalSpread <==> DiagonalRule(m))
  {
    var m := Read(f);
    RulesByPosition(m);
    if DiagonalRule(m) then DiagonalSpread
    else if CondorRule(m) then IronCondor
    else if ButterflyRule(m) then IronButterfly
    else if LongCallRule(m) then LongCall
    else if LongPutRule(m) then LongPut
    else if BullCallRule(m) then BullCallSpread
    else if BearPutRule(m) then BearPutSpread
    else if StraddleRule(m) then LongStraddle
    else if StrangleRule(m) then LongStrangle
    else if CalendarRule(m) then CalendarSpread
    else Fallback(m)
  }

  /** A day no rule claims gets the fallback label, which is never one of
      the four neutral-volatility structures. */
  lemma NoRuleMeansFallback(f: Snapshot)
    requires var m := Read(f);
      && !DiagonalRule(m) && !CondorRule(m) && !ButterflyRule(m) && !LongCallRule(m) && !LongPutRule(m)
      && !BullCallRule(m) && !BearPutRule(m) && !StraddleRule(m) && !StrangleRule(m) && !CalendarRule(m)
    ensures SelectStrategy(f) == Fallback(Read(f))
    ensures SelectStrategy(f) in {IronCondor, LongCall, LongPut, BullCallSpread, BearPutSpread}
  {
  }

  /** Once no earlier rule has fired, cheap options on a very oversold day
      are always a long put, whatever the trend. */
  lemma OversoldIsLongPut(f: Snapshot)
    requires var m := Read(f); !DiagonalRule(m) && !CondorRule(m) && !ButterflyRule(m) && !LongCallRule(m)
    requires Read(f).ivRank < 48.0 && Read(f).rsi < 33.0
    ensures SelectStrategy(f) == LongPut
  {
    assert FirstMatch(4, Read(f));
  }

  /** In the fallback, high IV always sells premium and low IV always buys an option. */
  lemma FallbackByVolatility(m: Signals)
    ensures m.ivRank > 55.0 ==> Fallback(m) == IronCondor
    ensures m.ivRank < 35.0 ==> (Fallback(m) == LongCall <==> m.rsi >= 50.0)
    ensures m.ivRank < 35.0 ==> Fallback(m) in {LongCall, LongPut}
  {
  }

  /** Every one of the ten labels is produced for some day. */
  lemma EveryStrategyReachable(s: Strategy)
    ensures exists f :: SelectStrategy(f) == s
  {
    var f := match s
      case DiagonalSpread => Snap(53.0, 10.0, 2.0, 50.0, 0.008)
      case IronCondor => Snap(60.0, 15.0, 2.0, 50.0, 0.0)
      case IronButterfly => Snap(80.0, 10.0, 2.0, 60.0, 0.0)
      case LongCall => Snap(30.0, 25.0, 4.0, 60.0, 0.0)
      case LongPut => Snap(30.0, 25.0, 0.0, 40.0, 0.0)
      case BullCallSpread => Snap(60.0, 30.0, 3.0, 70.0, 0.0)
      case BearPutSpread => Snap(60.0, 30.0, 1.0, 40.0, 0.0)
      case LongStraddle => Snap(30.0, 10.0, 2.0, 50.0, 0.0)
      case LongStrangle => Snap(30.0, 20.0, 2.0, 50.0, 0.0)
      case CalendarSpread => Snap(40.0, 10.0, 2.0, 50.0, 0.0);
    assert Read(f) == Signals(f["iv_rank"], f["adx_14"], f["trend_regime"], f["rsi_14"], f["price_vs_sma_20"]);
    assert SelectStrategy(f) == s;
  }

  /** A snapshot holding exactly the five features the rules read. */
  function Snap(iv: real, adx: real, regime: real, rsi: real, pvs: real): (f: Snapshot)
    ensures Read(f) == Signals(iv, adx, regime, rsi, pvs)
  {
    map["iv_rank" := iv, "adx_14" := adx, "trend_regime" := regime, "rsi_14" := rsi, "price_vs_sma_20" := pvs]
  }

  /** With no features at all, every default is neutral: an iron condor. */
  lemma EmptySnapshotIsCondor()
    ensures SelectStrategy(map[]) == IronCondor
  {
  }

  /** Scenario: IV rank 60, ADX 15, RSI 50 is a ranging, expensive market. */
  lemma ScenarioHighIvRanging()
    ensures SelectStrategy(Snap(60.0, 15.0, 2.0, 50.0, 0.0)) == IronCondor
  {
  }

  /** Scenario: cheap options in a strong uptrend. */
  lemma ScenarioLowIvUptrend()
    ensures SelectStrategy(Snap(30.0, 25.0, 4.0, 60.0, 0.0)) == LongCall
  {
  }

  /** The diagonal rule is checked before the condor rule: a day meeting both is a diagonal. */
  lemma DiagonalBeforeCondor()
    ensures var m := Read(Snap(53.0, 10.0, 2.0, 50.0, 0.008)); DiagonalRule(m) && CondorRule(m)
    ensures SelectStrategy(Snap(53.0, 10.0, 2.0, 50.0, 0.008)) == DiagonalSpread
  {
  }

  // ------------------------------------------------------------ distribution check

  /** The intended share, in percent, of each label in a training set. */
  datatype Band = Band(strategy: Strategy, minPct: real, maxPct: real)

  const Bands: seq<Band> := [
    Band(IronCondor, 20.0, 30.0),
    Band(LongCall, 15.0, 20.0),
    Band(LongPut, 15.0, 20.0),
    Band(IronButterfly, 10.0, 15.0),
    Band(BullCallSpread, 10.0, 15.0),
    Band(BearPutSpread, 10.0, 15.0),
    Band(LongStraddle, 5.0, 10.0),
    Band(LongStrangle, 5.0, 10.0),
    Band(CalendarSpread, 3.0, 5.0),
    Band(DiagonalSpread, 3.0, 5.0)
  ]

  lemma BandsCoverAll(s: Strategy)
    ensures exists i | 0 <= i < |Bands| :: Bands[i].strategy == s
    ensures forall i | 0 <= i < |Bands| :: Bands[i].minPct > 0.0
  {
    match s
    case IronCondor => assert Bands[0].strategy == s;
    case LongCall => assert Bands[1].strategy == s;
    case LongPut => assert Bands[2].strategy == s;
    case IronButterfly => assert Bands[3].strategy == s;
    case BullCallSpread => assert Bands[4].strategy == s;
    case BearPutSpread => assert Bands[5].strategy == s;
    case LongStraddle => assert Bands[6].strategy == s;
    case LongStrangle => assert Bands[7].strategy == s;
    case CalendarSpread => assert Bands[8].strategy == s;
    case DiagonalSpread => assert Bands[9].strategy == s;
  }

  datatype Failure =
    | OutOfBand(strategy: Strategy, minPct: real, maxPct: real, actualPct: real)
    | MissingStrategies(present: nat, missing: set<Strategy>)

  function Count(labels: seq<Strategy>, s: Strategy): (n: nat)
    ensures n <= |labels|
    ensures n == 0 <==> s !in labels
  {
    if labels == [] then 0
    else Count(labels[..|labels| - 1], s) + (if labels[|labels| - 1] == s then 1 else 0)
  }

  /** `value_counts(normalize=True) * 100`, with 0 for a label that never occurs. */
  function Pct(labels: seq<Strategy>, s: Strategy): (p: real)
    ensures 0.0 <= p <= 100.0
    ensures p == 0.0 <==> s !in labels
  {
    if |labels| == 0 then 0.0
    else
      var c := Count(labels, s);
      PctBounds(c, |labels|);
      c as real * 100.0 / |labels| as real
  }

  lemma PctBounds(c: nat, n: nat)
    requires 0 < n && c <= n
    ensures 0.0 <= c as real * 100.0 / n as real <= 100.0
    ensures c as real * 100.0 / n as real == 0.0 <==> c == 0
  {
    var q := c as real * 100.0 / n as real;
    assert q * n as real == c as real * 100.0;
  }

  function Present(labels: seq<Strategy>): set<Strategy> {
    set s | s in labels
  }

  predicate InBand(labels: seq<Strategy>, b: Band) {
    b.minPct <= Pct(labels, b.strategy) <= b.maxPct
  }

  /** The out-of-band failures for `bands`, in band order. */
  function BandFailures(labels: seq<Strategy>, bands: seq<Band>): (fs: seq<Failure>)
    ensures fs == [] <==> forall i | 0 <= i < |bands| :: InBand(labels, bands[i])
  {
    if bands == [] then []
    else
      var b := bands[|bands| - 1];
      var rest := BandFailures(labels, bands[..|bands| - 1]);
      assert forall i | 0 <= i < |bands| - 1 :: bands[..|bands| - 1][i] == bands[i];
      rest + (if InBand(labels, b) then [] else [OutOfBand(b.strategy, b.minPct, b.maxPct, Pct(labels, b.strategy))])
  }

  /** Every failure `validate_strategy_distribution` reports. */
  function Failures(labels: seq<Strategy>): seq<Failure> {
    BandFailures(labels, Bands)
      + (if |Present(labels)| < 10 then [MissingStrategies(|Present(labels)|, AllStrategies - Present(labels))] else [])
  }

  /** `validate_strategy_distribution`: one pass over the bands, then the
      check that all ten labels occur. */
  method ValidateDistribution(labels: seq<Strategy>) returns (valid: bool, failures: seq<Failure>)
    ensures failures == Failures(labels)
    ensures valid <==> failures == []
  {
    failures := [];
    for i := 0 to |Bands|
      invariant failures == BandFailures(labels, Bands[..i])
    {
      var b := Bands[i];
      var actual := Pct(labels, b.strategy);
      if actual < b.minPct || actual > b.maxPct {
        failures := failures + [OutOfBand(b.strategy, b.minPct, b.maxPct, actual)];
      }
      assert Bands[..i + 1][..i] == Bands[..i];
    }
    assert Bands[..|Bands|] == Bands;
    var present := Present(labels);
    if |present| < 10 {
      failures := failures + [MissingStrategies(|present|, AllStrategies - present)];
    }
    valid := |failures| == 0;
  }

  /** A training set passes exactly when every label's share lies in its
      band; the missing-label check never fails on its own, because a
      missing label has share 0, below every band. */
  lemma {:induction false} ValidIffAllInBand(labels: seq<Strategy>)
    ensures Failures(labels) == [] <==> forall s :: MinPct(s) <= Pct(labels, s) <= MaxPct(s)
  {
    var all := forall i | 0 <= i < |Bands| :: InBand(labels, Bands[i]);
    if all {
      forall s ensures s in labels {
        BandsCoverAll(s);
        var i :| 0 <= i < |Bands| && Bands[i].strategy == s;
        assert InBand(labels, Bands[i]);
      }
      assert Present(labels) == AllStrategies by {
        forall s ensures s in Present(labels) <==> s in AllStrategies {
          AllStrategiesComplete(s);
        }
      }
      AllStrategiesComplete(IronCondor);
      forall s ensures MinPct(s) <= Pct(labels, s) <= MaxPct(s) {
        BandsCoverAll(s);
        BandOf(s);
        var i :| 0 <= i < |Bands| && Bands[i].strategy == s;
        assert InBand(labels, Bands[i]);
      }
    } else {
      var i :| 0 <= i < |Bands| && !InBand(labels, Bands[i]);
      BandOf(Bands[i].strategy);
    }
    if forall s :: MinPct(s) <= Pct(labels, s) <= MaxPct(s) {
      forall i | 0 <= i < |Bands| ensures InBand(labels, Bands[i]) {
        BandOf(Bands[i].strategy);
      }
    }
  }

  function MinPct(s: Strategy): real {
    match s
    case IronCondor => 20.0
    case LongCall => 15.0
    case LongPut => 15.0
    case IronButterfly => 10.0
    case BullCallSpread => 10.0
    case BearPutSpread => 10.0
    case LongStraddle => 5.0
    case LongStrangle => 5.0
    case CalendarSpread => 3.0
    case DiagonalSpread => 3.0
  }

  function MaxPct(s: Strategy): real {
    match s
    case IronCondor => 30.0
    case LongCall | LongPut => 20.0
    case IronButterfly | BullCallSpread | BearPutSpread => 15.0
    case LongStraddle | LongStrangle => 10.0
    case CalendarSpread | DiagonalSpread => 5.0
  }

  /** Each label has exactly one band, the one MinPct and MaxPct name. */
  lemma BandOf(s: Strategy)
    ensures forall i | 0 <= i < |Bands| && Bands[i].strategy == s ::
      Bands[i].minPct == MinPct(s) && Bands[i].maxPct == MaxPct(s)
  {
  }
}
