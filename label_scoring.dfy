/** Label creation: for each day, the rule engine picks a strategy, its
    parameter grid is backtested on similar past days, and the best
    risk-adjusted parameter set becomes the label. The backtest itself is
    random and enters as a function parameter. */
module LabelScoring {
  import opened Wrappers
  import opened Strategies
  import opened Features
  import opened Reals
  import StrategySelector
  import opened LabelGrids

  // ------------------------------------------------------------ similar days

  /** The columns of a past day that the similarity filter reads. */
  datatype Day = Day(date: int, ivRank: real, trendRegime: real, adx: real, rsi: real)

  /** The day being labelled, with the defaults used for absent features. */
  function TargetOf(f: Snapshot, date: int): (t: Day)
    ensures t.date == date
    ensures t.ivRank == (if "iv_rank" in f then f["iv_rank"] else 50.0)
    ensures t.trendRegime == (if "trend_regime" in f then f["trend_regime"] else 2.0)
    ensures t.adx == (if "adx_14" in f then f["adx_14"] else 20.0)
    ensures t.rsi == (if "rsi_14" in f then f["rsi_14"] else 50.0)
  {
    Day(date, Get(f, "iv_rank", 50.0), Get(f, "trend_regime", 2.0), Get(f, "adx_14", 20.0), Get(f, "rsi_14", 50.0))
  }


  /** The strict filter: IV rank within 10, same trend regime, ADX within 5, RSI within 10. */
  predicate StrictMatch(t: Day, d: Day) {
    d.date < t.date && Abs(d.ivRank - t.ivRank) <= 10.0 && d.trendRegime == t.trendRegime
    && Abs(d.adx - t.adx) <= 5.0 && Abs(d.rsi - t.rsi) <= 10.0
  }

  /** The relaxed filter: IV rank within 15 and ADX within 10. */
  predicate LooseMatch(t: Day, d: Day) {
    d.date < t.date && Abs(d.ivRank - t.ivRank) <= 15.0 && Abs(d.adx - t.adx) <= 10.0
  }

  /** The filter in force: the strict one or the relaxed one. */
  predicate Matches(t: Day, d: Day, strict: bool) {
    if strict then StrictMatch(t, d) else LooseMatch(t, d)
  }

  /** The rows of `days` that match, in their original order. */
  function Matching(days: seq<Day>, t: Day, strict: bool): (r: seq<Day>)
    ensures |r| <= |days|
  {
    if days == [] then []
    else
      var rest := Matching(days[..|days| - 1], t, strict);
      var d := days[|days| - 1];
      if Matches(t, d, strict) then rest + [d] else rest
  }

  /** Exactly the matching days of the table are kept. */
  lemma {:induction false} MatchingMembers(days: seq<Day>, t: Day, strict: bool)
    ensures forall d | d in Matching(days, t, strict) :: d in days && Matches(t, d, strict)
    ensures forall d | d in days && Matches(t, d, strict) :: d in Matching(days, t, strict)
  {
    if days != [] {
      var init := days[..|days| - 1];
      MatchingMembers(init, t, strict);
      assert days == init + [days[|days| - 1]];
    }
  }

  /** A single day is kept exactly when it matches. */
  lemma MatchingOne(d: Day, t: Day, strict: bool)
    ensures Matching([d], t, strict) == if Matches(t, d, strict) then [d] else []
  {
    assert [d][..0] == [];
  }

  /** The filter keeps the order of the table: filtering two stretches of
      days one after the other gives the filtered stretches one after the
      other. With `MatchingOne` this pins `Matching` down completely. */
  lemma {:induction false} MatchingConcat(xs: seq<Day>, ys: seq<Day>, t: Day, strict: bool)
    ensures Matching(xs + ys, t, strict) == Matching(xs, t, strict) + Matching(ys, t, strict)
  {
    if ys == [] {
      assert xs + ys == xs;
    } else {
      var zs := xs + ys;
      var init := ys[..|ys| - 1];
      var last := ys[|ys| - 1];
      MatchingConcat(xs, init, t, strict);
      assert zs[..|zs| - 1] == xs + init;
      assert zs[|zs| - 1] == last;
      var keep := if Matches(t, last, strict) then [last] else [];
      assert Matching(zs, t, strict) == Matching(xs + init, t, strict) + keep;
      assert Matching(ys, t, strict) == Matching(init, t, strict) + keep;
    }
  }

  /** Relaxing the filter never loses a day: the strict matches are a
      sub-sequence of the relaxed ones, so there are never more of them. */
  lemma {:induction false} StrictWithinLoose(days: seq<Day>, t: Day)
    ensures |Matching(days, t, true)| <= |Matching(days, t, false)|
  {
    if days != [] {
      StrictWithinLoose(days[..|days| - 1], t);
    }
  }

  /** `find_similar_days`: at most `n` past days, from the strict filter when
      it finds `n` of them and from the relaxed filter otherwise. */
  function FindSimilarDays(t: Day, days: seq<Day>, n: nat): (r: seq<Day>)
    ensures r <= if |Matching(days, t, true)| < n then Matching(days, t, false) else Matching(days, t, true)
    ensures |r| <= n
    ensures forall d | d in r :: d in days && d.date < t.date && LooseMatch(t, d)
    ensures |Matching(days, t, true)| >= n ==> |r| == n && forall d | d in r :: StrictMatch(t, d)
    ensures |r| >= n || |r| == |Matching(days, t, false)|
    ensures |r| >= if |Matching(days, t, true)| < n then |Matching(days, t, true)| else n
  {
    var strict := Matching(days, t, true);
    StrictWithinLoose(days, t);
    MatchingMembers(days, t, true);
    MatchingMembers(days, t, false);
    assert forall d | d in strict :: Matches(t, d, true) && LooseMatch(t, d);
    var chosen := if |strict| < n then Matching(days, t, false) else strict;
    assert forall d | d in chosen[..if |chosen| < n then |chosen| else n] :: d in chosen;
    chosen[..if |chosen| < n then |chosen| else n]
  }

  // ------------------------------------------------------------ scoring

  /** What the backtest reports for one parameter set. */
  datatype Stats = Stats(winProbability: real, expectedReturn: real, maxLoss: real, avgDaysHeld: real, nTests: int)

  /** The multiplier for the win rate: a bonus above 70%, a penalty below 55%. */
  function WinRateFactor(p: real): (m: real)
    ensures m > 0.0
    ensures p > 0.70 ==> m == 1.2
    ensures p < 0.55 ==> m == 0.8
    ensures 0.55 <= p <= 0.70 ==> m == 1.0
  {
    if p > 0.70 then 1.2 else if p < 0.55 then 0.8 else 1.0
  }

  /** `calculate_risk_adjusted_score`: expected dollars per dollar of maximum
      loss, scaled by the win-rate factor; -999 for a missing backtest and 0
      for a zero maximum loss. The score has the sign of the expected return. */
  function RiskAdjustedScore(s: Option<Stats>): (score: real)
    ensures s.None? ==> score == -999.0
    ensures s.Some? && s.value.maxLoss == 0.0 ==> score == 0.0
    ensures s.Some? && s.value.maxLoss != 0.0 ==>
      score * Abs(s.value.maxLoss) == s.value.expectedReturn * 25000.0 * WinRateFactor(s.value.winProbability)
    ensures s.Some? ==> (score > 0.0 <==> s.value.maxLoss != 0.0 && s.value.expectedReturn > 0.0)
    ensures s.Some? ==> (score < 0.0 <==> s.value.maxLoss != 0.0 && s.value.expectedReturn < 0.0)
  {
    match s
    case None => -999.0
    case Some(st) =>
      var maxLoss := Abs(st.maxLoss);
      if maxLoss == 0.0 then 0.0
      else
        var ev := st.expectedReturn * 25000.0;
        var base := ev / maxLoss;
        SignOfQuotient(ev, maxLoss, WinRateFactor(st.winProbability));
        base * WinRateFactor(st.winProbability)
  }

  lemma SignOfQuotient(x: real, y: real, m: real)
    requires y > 0.0 && m > 0.0
    ensures (x / y) * m * y == x * m
    ensures (x / y) * m > 0.0 <==> x > 0.0
    ensures (x / y) * m < 0.0 <==> x < 0.0
  {
    assert (x / y) * y == x;
  }

  /** With the same win rate and maximum loss, a larger expected return
      never scores lower. */
  lemma ScoreMonotoneInReturn(a: Stats, b: Stats)
    requires a.winProbability == b.winProbability && a.maxLoss == b.maxLoss
    requires a.expectedReturn <= b.expectedReturn
    ensures RiskAdjustedScore(Some(a)) <= RiskAdjustedScore(Some(b))
  {
    if a.maxLoss != 0.0 {
      var l := Abs(a.maxLoss);
      var sa := RiskAdjustedScore(Some(a));
      var sb := RiskAdjustedScore(Some(b));
      assert (sb - sa) * l == (b.expectedReturn - a.expectedReturn) * 25000.0 * WinRateFactor(a.winProbability);
    }
  }

  /** For a profitable parameter set, a higher win rate never scores lower. */
  lemma ScoreMonotoneInWinRate(a: Stats, b: Stats)
    requires a.expectedReturn == b.expectedReturn > 0.0 && a.maxLoss == b.maxLoss
    requires a.winProbability <= b.winProbability
    ensures RiskAdjustedScore(Some(a)) <= RiskAdjustedScore(Some(b))
  {
    if a.maxLoss != 0.0 {
      var l := Abs(a.maxLoss);
      var sa := RiskAdjustedScore(Some(a));
      var sb := RiskAdjustedScore(Some(b));
      var ev := a.expectedReturn * 25000.0;
      assert (sb - sa) * l == ev * (WinRateFactor(b.winProbability) - WinRateFactor(a.winProbability));
    }
  }

  // ------------------------------------------------------------ best parameter set

  /** Position `i` holds the parameter set `create_labels` keeps: a backtest
      scoring above -999, no lower than any other, and strictly above every
      earlier one. */
  predicate BestAt(stats: seq<Option<Stats>>, i: int) {
    && 0 <= i < |stats| && stats[i].Some? && RiskAdjustedScore(stats[i]) > -999.0
    && (forall j | 0 <= j < |stats| :: RiskAdjustedScore(stats[j]) <= RiskAdjustedScore(stats[i]))
    && (forall j | 0 <= j < i :: RiskAdjustedScore(stats[j]) < RiskAdjustedScore(stats[i]))
  }

  /** A position of `stats` and its score. */
  datatype Pick = Pick(at: nat, score: real)

  /** The position the scan over `stats` ends on, if any, with the score it
      keeps as the best. */
  function Best(stats: seq<Option<Stats>>): (r: Option<Pick>)
    ensures r.Some? ==> && r.value.at < |stats| && stats[r.value.at].Some?
                        && r.value.score == RiskAdjustedScore(stats[r.value.at]) && r.value.score > -999.0
  {
    if stats == [] then None
    else
      var n := |stats| - 1;
      var prev := Best(stats[..n]);
      var bar := if prev.None? then -999.0 else prev.value.score;
      var score := RiskAdjustedScore(stats[n]);
      if stats[n].Some? && score > bar then Some(Pick(n, score)) else prev
  }

  /** The scan ends on nothing exactly when no backtest scores above -999,
      and otherwise on the first position of maximal score. */
  lemma {:induction false} BestIsFirstMaximal(stats: seq<Option<Stats>>)
    ensures Best(stats).None? <==> forall i | 0 <= i < |stats| :: RiskAdjustedScore(stats[i]) <= -999.0
    ensures Best(stats).Some? ==> BestAt(stats, Best(stats).value.at)
  {
    if stats != [] {
      var n := |stats| - 1;
      var init := stats[..n];
      assert forall j | 0 <= j < n :: init[j] == stats[j];
      BestIsFirstMaximal(init);
    }
  }

  /** The loop in `create_labels` that keeps the best parameter set: start
      from -999, skip missing backtests, and replace the best only on a
      strictly greater score, so the first of equal scores is kept and a
      score of -999 or less is never chosen. */
  method SelectBest(stats: seq<Option<Stats>>) returns (best: Option<nat>, bestScore: real)
    ensures Best(stats) == if best.None? then None else Some(Pick(best.value, bestScore))
    ensures best.None? <==> forall i | 0 <= i < |stats| :: stats[i].None? || RiskAdjustedScore(stats[i]) <= -999.0
    ensures best.None? ==> bestScore == -999.0
    ensures best.Some? ==> BestAt(stats, best.value) && bestScore == RiskAdjustedScore(stats[best.value])
  {
    best := None;
    bestScore := -999.0;
    for i := 0 to |stats|
      invariant Best(stats[..i]) == if best.None? then None else Some(Pick(best.value, bestScore))
      invariant best.None? ==> bestScore == -999.0
    {
      assert stats[..i + 1][..i] == stats[..i];
      if stats[i].None? {
        continue;
      }
      var score := RiskAdjustedScore(stats[i]);
      if score > bestScore {
        best := Some(i);
        bestScore := score;
      }
    }
    assert stats[..|stats|] == stats;
    BestIsFirstMaximal(stats);
  }

  // ------------------------------------------------------------ one labelled day

  /** The parameter shape each strategy's grid produces. */
  predicate Fits(s: Strategy, p: Params) {
    match s
    case IronCondor => p.CondorLegs?
    case IronButterfly => p.ButterflyLegs?
    case BullCallSpread | BearPutSpread => p.SpreadLegs?
    case LongCall | LongPut | LongStraddle => p.StrikeDte?
    case LongStrangle => p.StrangleLegs?
    case CalendarSpread => p.CalendarLegs?
    case DiagonalSpread => p.DiagonalLegs?
  }

  /** The grid each strategy is tried with, as its generator lists it. */
  function GridFor(s: Strategy, price: real, round: real -> int): seq<Params> {
    match s
    case IronCondor => Take(CondorKeptBefore(price, round, 3, 0, 0, 0), 20)
    case IronButterfly => seq(9, k requires 0 <= k < 9 => ButterflyPoint(price, round, k / 3, k % 3))
    case BullCallSpread | BearPutSpread => Take(SpreadKeptBefore(price, s, round, 3, 0, 0), 15)
    case LongCall | LongPut => seq(10, k requires 0 <= k < 10 => LongOptionPoint(price, s, round, k / 5, k % 5))
    case LongStraddle => seq(10, k requires 0 <= k < 10 => StraddlePoint(price, round, k / 3, k % 3))
    case LongStrangle => seq(15, k requires 0 <= k < 15 => StranglePoint(price, round, k / 9, (k / 3) % 3, k % 3))
    case CalendarSpread => seq(12, k requires 0 <= k < 12 => CalendarPoint(price, round, k / 9, (k / 3) % 3, k % 3))
    case DiagonalSpread => Take(DiagonalKeptBefore(price, round, 2, 0, 0, 0), 15)
  }

  /** The dispatch in `create_labels` from a strategy to its grid generator. */
  method CandidateGrid(s: Strategy, price: real, round: real -> int) returns (r: seq<Params>)
    ensures r == GridFor(s, price, round)
  {
    match s
    case IronCondor => r := CondorGrid(price, round);
    case IronButterfly => r := ButterflyGrid(price, round);
    case BullCallSpread | BearPutSpread => r := SpreadGrid(price, s, round);
    case LongCall | LongPut => r := LongOptionGrid(price, s, round);
    case LongStraddle => r := StraddleGrid(price, round);
    case LongStrangle => r := StrangleGrid(price, round);
    case CalendarSpread => r := CalendarGrid(price, round);
    case DiagonalSpread => r := DiagonalGrid(price, round);
  }

  /** One row of the label table. */
  datatype Label = Label(date: int, strategy: Strategy, riskAdjustedScore: real, winProbability: real,
                         expectedReturn: real, maxLoss: real, avgDaysHeld: real, nSimilarDays: nat,
                         nTests: int, params: Params)

  /** `backtest_params_on_similar_days`, which draws random outcomes, as a
      function of the strategy, one parameter set and the similar days. */
  type Backtest = (Strategy, Params, seq<Day>) -> Option<Stats>

  /** The backtest of every grid point, in grid order. */
  function Backtests(s: Strategy, combos: seq<Params>, similar: seq<Day>, backtest: Backtest): (stats: seq<Option<Stats>>)
    ensures |stats| == |combos|
    ensures forall i | 0 <= i < |combos| :: stats[i] == backtest(s, combos[i], similar)
  {
    seq(|combos|, i requires 0 <= i < |combos| => backtest(s, combos[i], similar))
  }

  /** The similar days `create_labels` backtests on. */
  function SimilarFor(features: Snapshot, date: int, history: seq<Day>): seq<Day> {
    FindSimilarDays(TargetOf(features, date), history, 30)
  }

  /** The row one day contributes to the label table. */
  function DayLabel(features: Snapshot, date: int, price: real, history: seq<Day>,
                    round: real -> int, backtest: Backtest): Option<Label>
  {
    var s := StrategySelector.SelectStrategy(features);
    var combos := GridFor(s, price, round);
    var similar := SimilarFor(features, date, history);
    var stats := Backtests(s, combos, similar, backtest);
    if |similar| < 10 then None
    else match Best(stats)
      case None => None
      case Some(pick) =>
        var st := stats[pick.at].value;
        Some(Label(date, s, pick.score, st.winProbability, st.expectedReturn, st.maxLoss,
                   st.avgDaysHeld, |similar|, st.nTests, combos[pick.at]))
  }

  /** A day yields a row exactly when it has at least ten similar days and
      some grid point backtests above -999; the row carries the rule's
      strategy and the first best-scoring grid point with its statistics. */
  lemma DayLabelMeaning(features: Snapshot, date: int, price: real, history: seq<Day>,
                        round: real -> int, backtest: Backtest)
    ensures var row := DayLabel(features, date, price, history, round, backtest);
      var s := StrategySelector.SelectStrategy(features);
      var similar := SimilarFor(features, date, history);
      var stats := Backtests(s, GridFor(s, price, round), similar, backtest);
      && (row.Some? <==> |similar| >= 10 && exists i | 0 <= i < |stats| :: RiskAdjustedScore(stats[i]) > -999.0)
      && (row.Some? ==>
        && Best(stats).Some? && BestAt(stats, Best(stats).value.at)
        && row.value.date == date && row.value.strategy == s
        && row.value.params == GridFor(s, price, round)[Best(stats).value.at]
        && row.value.nSimilarDays == |similar| && 10 <= |similar| <= 30
        && row.value.riskAdjustedScore == RiskAdjustedScore(stats[Best(stats).value.at])
        && stats[Best(stats).value.at] == Some(Stats(row.value.winProbability, row.value.expectedReturn,
                                                   row.value.maxLoss, row.value.avgDaysHeld, row.value.nTests)))
  {
    var s := StrategySelector.SelectStrategy(features);
    var stats := Backtests(s, GridFor(s, price, round), SimilarFor(features, date, history), backtest);
    BestIsFirstMaximal(stats);
  }

  /** The body of the loop in `create_labels` for one day. */
  method LabelDay(features: Snapshot, date: int, price: real, history: seq<Day>,
                  round: real -> int, backtest: Backtest) returns (row: Option<Label>)
    ensures row == DayLabel(features, date, price, history, round, backtest)
  {
    var strategy := StrategySelector.SelectStrategy(features);
    var combos := CandidateGrid(strategy, price, round);
    var similar := FindSimilarDays(TargetOf(features, date), history, 30);
    if |similar| < 10 {
      return None;
    }
    var stats := Backtests(strategy, combos, similar, backtest);
    var best, bestScore := SelectBest(stats);
    if best.None? {
      return None;
    }
    var params := combos[best.value];
    var st := stats[best.value].value;
    row := Some(Label(date, strategy, bestScore, st.winProbability, st.expectedReturn, st.maxLoss,
                        st.avgDaysHeld, |similar|, st.nTests, params));
  }

  /** A labelled day's parameters are the best of its grid: no other grid
      point backtests to a higher score. */
  lemma LabelIsBestOfGrid(features: Snapshot, date: int, price: real, history: seq<Day>,
                          round: real -> int, backtest: Backtest, p: Params)
    requires DayLabel(features, date, price, history, round, backtest).Some?
    requires p in GridFor(StrategySelector.SelectStrategy(features), price, round)
    ensures var l := DayLabel(features, date, price, history, round, backtest).value;
      RiskAdjustedScore(backtest(l.strategy, p, SimilarFor(features, date, history))) <= l.riskAdjustedScore
  {
    var s := StrategySelector.SelectStrategy(features);
    var combos := GridFor(s, price, round);
    var stats := Backtests(s, combos, SimilarFor(features, date, history), backtest);
    var j :| 0 <= j < |combos| && combos[j] == p;
    DayLabelMeaning(features, date, price, history, round, backtest);
    assert stats[j] == backtest(s, p, SimilarFor(features, date, history));
  }

  /** A row of the daily feature table. */
  datatype FeatureRow = FeatureRow(date: int, currentPrice: real, features: Snapshot)

  /** The similarity columns of every row, the history the filter searches. */
  function History(rows: seq<FeatureRow>): (h: seq<Day>)
    ensures |h| == |rows|
    ensures forall i | 0 <= i < |rows| :: h[i] == TargetOf(rows[i].features, rows[i].date)
  {
    seq(|rows|, i requires 0 <= i < |rows| => TargetOf(rows[i].features, rows[i].date))
  }

  /** What day `j` of the table contributes: its label against the whole
      history, or none. */
  function RowLabel(rows: seq<FeatureRow>, j: nat, round: real -> int, backtest: Backtest): Option<Label>
    requires j < |rows|
  {
    DayLabel(rows[j].features, rows[j].date, rows[j].currentPrice, History(rows), round, backtest)
  }

  /** Every day's label, by position in the table (none past its end). */
  function Labeller(rows: seq<FeatureRow>, round: real -> int, backtest: Backtest): nat -> Option<Label> {
    (j: nat) => if j < |rows| then RowLabel(rows, j, round, backtest) else None
  }

  /** `days` holds `f` of each of its first `n` positions from the
      thirty-first on. */
  predicate Agrees(days: seq<Option<Label>>, n: nat, f: nat -> Option<Label>) {
    && |days| == n
    && forall j | Warmup <= j < n :: days[j] == f(j)
  }

  lemma AgreesStep(days: seq<Option<Label>>, n: nat, f: nat -> Option<Label>, day: Option<Label>)
    requires Agrees(days, n, f) && day == f(n)
    ensures Agrees(days + [day], n + 1, f)
  {
  }

  /** `days` records, for the first `n` days of the table, what each day from
      the thirty-first on contributes. */
  predicate LabelledUpTo(rows: seq<FeatureRow>, round: real -> int, backtest: Backtest,
                         days: seq<Option<Label>>, n: nat)
  {
    n <= |rows| && Agrees(days, n, Labeller(rows, round, backtest))
  }

  /** The days skipped before labelling starts, for want of history. */
  const Warmup := 30

  /** The labels of days `Warmup` to `n` - 1, in day order, skipping days without one. */
  function Collect(days: seq<Option<Label>>, n: nat): (r: seq<Label>)
    requires n <= |days|
    ensures |r| <= if n <= Warmup then 0 else n - Warmup
  {
    if n <= Warmup then []
    else
      var prev := Collect(days, n - 1);
      match days[n - 1]
      case None => prev
      case Some(l) => prev + [l]
  }

  /** One more day adds its label, if it has one, at the end. */
  lemma CollectStep(days: seq<Option<Label>>, i: nat)
    requires Warmup <= i < |days|
    ensures Collect(days, i + 1) == Collect(days, i) + (if days[i].Some? then [days[i].value] else [])
  {
  }

  /** Later days do not change what the earlier ones collect. */
  lemma {:induction false} CollectPrefix(days: seq<Option<Label>>, more: seq<Option<Label>>, n: nat)
    requires n <= |days|
    ensures Collect(days + more, n) == Collect(days, n)
  {
    if n > Warmup {
      CollectPrefix(days, more, n - 1);
      assert (days + more)[n - 1] == days[n - 1];
    }
  }

  /** Every collected label is the label of some day after the warm-up. */
  lemma {:induction false} CollectedFromDays(days: seq<Option<Label>>, n: nat)
    requires n <= |days|
    ensures forall l | l in Collect(days, n) :: exists i | Warmup <= i < n :: days[i] == Some(l)
  {
    if n > Warmup {
      CollectedFromDays(days, n - 1);
    }
  }

  /** Every day from the thirty-first on that has a label contributes it. */
  lemma {:induction false} LabelledDayIsKept(days: seq<Option<Label>>, n: nat, i: nat)
    requires Warmup <= i < n <= |days|
    requires days[i].Some?
    ensures days[i].value in Collect(days, n)
  {
    if i < n - 1 {
      LabelledDayIsKept(days, n - 1, i);
    }
  }

  /** `create_labels`: every day after the first thirty, in order, that
      yields a label; `days` records what each day contributed. */
  method CreateLabels(rows: seq<FeatureRow>, round: real -> int, backtest: Backtest)
    returns (labels: seq<Label>, ghost days: seq<Option<Label>>)
    ensures LabelledUpTo(rows, round, backtest, days, |rows|)
    ensures labels == Collect(days, |rows|)
  {
    labels := [];
    if |rows| <= Warmup {
      days := seq(|rows|, j => None);
      return;
    }
    days := seq(Warmup, j => None);
    var history := History(rows);
    var i := Warmup;
    while i < |rows|
      invariant Warmup <= i <= |rows|
      invariant LabelledUpTo(rows, round, backtest, days, i)
      invariant labels == Collect(days, i)
    {
      labels, days := AddDay(rows, i, history, round, backtest, labels, days);
      i := i + 1;
    }
  }

  /** One pass of the loop in `create_labels`: label day `i` and append the
      label, if any. */
  method AddDay(rows: seq<FeatureRow>, i: nat, history: seq<Day>, round: real -> int, backtest: Backtest,
                labels: seq<Label>, ghost days: seq<Option<Label>>)
    returns (labels': seq<Label>, ghost days': seq<Option<Label>>)
    requires Warmup <= i < |rows| && history == History(rows)
    requires LabelledUpTo(rows, round, backtest, days, i)
    requires labels == Collect(days, i)
    ensures LabelledUpTo(rows, round, backtest, days', i + 1)
    ensures labels' == Collect(days', i + 1)
  {
    var row := rows[i];
    var day := LabelDay(row.features, row.date, row.currentPrice, history, round, backtest);
    assert day == Labeller(rows, round, backtest)(i);
    AgreesStep(days, i, Labeller(rows, round, backtest), day);
    days' := days + [day];
    CollectPrefix(days, [day], i);
    CollectStep(days', i);
    labels' := labels;
    if day.Some? {
      labels' := labels' + [day.value];
    }
  }

  /** Each collected label comes from a day after the warm-up, carries that
      day's date and rule strategy, a parameter set of the strategy's shape
      and between ten and thirty similar days. */
  lemma CollectedLabelsFit(rows: seq<FeatureRow>, round: real -> int, backtest: Backtest, days: seq<Option<Label>>)
    requires LabelledUpTo(rows, round, backtest, days, |rows|)
    ensures forall l | l in Collect(days, |rows|) :: exists i | Warmup <= i < |rows| ::
      l.date == rows[i].date && l.strategy == StrategySelector.SelectStrategy(rows[i].features)
      && Fits(l.strategy, l.params) && 10 <= l.nSimilarDays <= 30
  {
    CollectedFromDays(days, |rows|);
    forall l | l in Collect(days, |rows|)
      ensures exists i | Warmup <= i < |rows| ::
        l.date == rows[i].date && l.strategy == StrategySelector.SelectStrategy(rows[i].features)
        && Fits(l.strategy, l.params) && 10 <= l.nSimilarDays <= 30
    {
      var j :| Warmup <= j < |rows| && days[j] == Some(l);
      assert days[j] == Labeller(rows, round, backtest)(j);
      DayLabelFits(rows[j].features, rows[j].date, rows[j].currentPrice, History(rows), round, backtest);
    }
  }

  /** A day's label carries the day's date and rule strategy, a parameter set
      of that strategy's shape and between ten and thirty similar days. */
  lemma DayLabelFits(features: Snapshot, date: int, price: real, history: seq<Day>,
                     round: real -> int, backtest: Backtest)
    ensures var row := DayLabel(features, date, price, history, round, backtest);
      row.Some? ==>
        && row.value.date == date && row.value.strategy == StrategySelector.SelectStrategy(features)
        && Fits(row.value.strategy, row.value.params) && 10 <= row.value.nSimilarDays <= 30
  {
    DayLabelMeaning(features, date, price, history, round, backtest);
    GridFits(StrategySelector.SelectStrategy(features), price, round);
  }

  /** How many parameter sets each strategy tries: the full product for the
      fixed grids, at most the cap for the filtered ones. */
  lemma GridSizes(s: Strategy, price: real, round: real -> int)
    ensures var n := |GridFor(s, price, round)|;
      match s
      case IronButterfly => n == 9
      case LongCall | LongPut | LongStraddle => n == 10
      case CalendarSpread => n == 12
      case LongStrangle => n == 15
      case IronCondor => n <= 20
      case BullCallSpread | BearPutSpread | DiagonalSpread => n <= 15
  {
  }

  /** Every point of a strategy's grid has that strategy's shape. */
  lemma GridFits(s: Strategy, price: real, round: real -> int)
    ensures forall p | p in GridFor(s, price, round) :: Fits(s, p)
  {
  }
}
