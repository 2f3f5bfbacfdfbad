/** The command-line predictor: the classifier's pick with its confidence
    and top three, and the fixed fallback parameters per strategy. The
    classifier itself enters as a pair of functions. */
module StrategyPrediction {
  import opened Wrappers
  import opened Strategies
  import opened Features
  import opened Ranking

  // ------------------------------------------------------------ stage 1

  /** `np.nan_to_num(features, nan=0.0)` on one row. */
  function NanToNum(row: seq<Value>): (r: seq<real>)
    ensures |r| == |row|
    ensures forall i | 0 <= i < |row| :: r[i] == (if row[i].Num? then row[i].x else 0.0)
  {
    seq(|row|, i requires 0 <= i < |row| => if row[i].Num? then row[i].x else 0.0)
  }

  datatype Prediction = Prediction(strategy: string, confidence: real, top3Strategies: seq<string>,
                                   top3Probabilities: seq<real>, allProbabilities: seq<real>)

  /** The class decoder or the probability vector was indexed out of range. */
  datatype PredictError = IndexOutOfRange

  /** The classifier's verdict on one input: the predicted class index
      names the strategy and picks its probability as the confidence, and
      `argsort(p)[-3:][::-1]` lists the three most probable classes best
      first. Indexing the class list or the probabilities out of range fails. */
  function Classify<X>(x: X, classes: seq<string>, predict: X -> nat, proba: X -> seq<real>): (r: Result<Prediction, PredictError>)
    ensures var p := proba(x); var top := TopK(p, 3);
      r.Ok? <==> predict(x) < |classes| && predict(x) < |p| && forall i | 0 <= i < |top| :: top[i] < |classes|
    ensures var p := proba(x); var top := TopK(p, 3);
      r.Ok? ==>
        && r.value.strategy == classes[predict(x)]
        && r.value.confidence == p[predict(x)]
        && r.value.allProbabilities == p
        && |r.value.top3Strategies| == |top| == |r.value.top3Probabilities| <= 3
        && (forall i | 0 <= i < |top| ::
              r.value.top3Strategies[i] == classes[top[i]] && r.value.top3Probabilities[i] == p[top[i]])
        && (forall i, j | 0 <= i < j < |top| :: r.value.top3Probabilities[i] >= r.value.top3Probabilities[j])
        && (|p| > 0 ==> r.value.top3Probabilities[0] >= r.value.confidence)
  {
    var idx := predict(x);
    var p := proba(x);
    var top := TopK(p, 3);
    if idx >= |classes| || idx >= |p| || exists i | 0 <= i < |top| :: top[i] >= |classes| then Err(IndexOutOfRange)
    else
      Ok(Prediction(classes[idx], p[idx],
                    seq(|top|, i requires 0 <= i < |top| => classes[top[i]]),
                    seq(|top|, i requires 0 <= i < |top| => p[top[i]]),
                    p))
  }

  /** `predict_strategy`: NaN features become 0 before the classifier sees them. */
  function PredictStrategy(row: seq<Value>, classes: seq<string>,
                           predict: seq<real> -> nat, proba: seq<real> -> seq<real>): (r: Result<Prediction, PredictError>)
    ensures var x := NanToNum(row);
      && |x| == |row| && (forall i | 0 <= i < |row| :: x[i] == (if row[i].NaN? then 0.0 else row[i].x))
      && (r.Ok? <==> predict(x) < |classes| && predict(x) < |proba(x)| && forall i | 0 <= i < |TopK(proba(x), 3)| :: TopK(proba(x), 3)[i] < |classes|)
      && (r.Ok? ==> r.value.strategy == classes[predict(x)] && r.value.confidence == proba(x)[predict(x)])
  {
    Classify(NanToNum(row), classes, predict, proba)
  }

  /** A missing (NaN) feature is read exactly as a zero. */
  lemma NaNReadsAsZero(row: seq<Value>, i: nat, classes: seq<string>,
                       predict: seq<real> -> nat, proba: seq<real> -> seq<real>)
    requires i < |row| && row[i].NaN?
    ensures PredictStrategy(row, classes, predict, proba) == PredictStrategy(row[i := Num(0.0)], classes, predict, proba)
  {
    assert NanToNum(row) == NanToNum(row[i := Num(0.0)]);
  }

  /** When the predicted class is the single most probable one, it heads the
      top three with the same probability. */
  lemma {:induction false} PickLeadsTopThree<X>(x: X, classes: seq<string>, predict: X -> nat, proba: X -> seq<real>)
    requires Classify(x, classes, predict, proba).Ok?
    requires StrictMax(proba(x), predict(x))
    ensures var v := Classify(x, classes, predict, proba).value;
      |v.top3Strategies| > 0 && v.top3Strategies[0] == v.strategy && v.top3Probabilities[0] == v.confidence
  {
    var p := proba(x);
    var r := TopK(p, 3);
    assert p[predict(x)] <= p[r[0]];
  }

  // ------------------------------------------------------------ default parameters

  /** The fallback parameter sets; every one also fixes the contract count. */
  datatype Defaults =
    | SpreadDefaults(longStrike: real, shortStrike: real, dte: int, contracts: int)
    | WingDefaults(centerStrike: real, longPut: real, shortPut: real, shortCall: real, longCall: real,
                   dte: int, contracts: int)
    | SingleDefaults(strike: real, dte: int, contracts: int)
    | StrangleDefaults(callStrike: real, putStrike: real, dte: int, contracts: int)
    | TimeDefaults(strike: real, nearDte: int, farDte: int, contracts: int)

  /** `round(x / 5) * 5`. */
  function Snap5(round: real -> int, x: real): real {
    (round(x / 5.0) * 5) as real
  }

  /** `_default_parameters`: fixed offsets around the price snapped to the
      5-point grid. The IV rank argument is ignored, and any label outside
      the first eight, known or not, gets the calendar defaults. */
  function DefaultParameters(strategy: string, price: real, ivRank: real, round: real -> int): (d: Defaults)
    ensures strategy == "BULL_CALL_SPREAD" ==>
      d.SpreadDefaults? && d.longStrike == Snap5(round, price * 0.98) && d.shortStrike == d.longStrike + 10.0
      && d.dte == 21 && d.contracts == 1
    ensures strategy == "BEAR_PUT_SPREAD" ==>
      d.SpreadDefaults? && d.shortStrike == Snap5(round, price * 1.02) && d.longStrike == d.shortStrike - 10.0
      && d.dte == 21 && d.contracts == 1
    ensures strategy == "IRON_CONDOR" ==>
      d.WingDefaults? && d.longPut < d.shortPut < d.shortCall < d.longCall
      && d.shortPut - d.longPut == 10.0 && d.longCall - d.shortCall == 10.0
      && d.shortPut == d.centerStrike - 5.0 && d.shortCall == d.centerStrike + 5.0
      && d.centerStrike == Snap5(round, price) && d.dte == 30 && d.contracts == 1
    ensures strategy == "IRON_BUTTERFLY" ==>
      d.WingDefaults? && d.shortPut == d.shortCall == d.centerStrike && d.centerStrike == Snap5(round, price)
      && d.longPut == d.centerStrike - 10.0 && d.longCall == d.centerStrike + 10.0
      && d.dte == 30 && d.contracts == 1
    ensures strategy == "LONG_CALL" ==>
      d.SingleDefaults? && d.strike == Snap5(round, price * 1.02) && d.dte == 30 && d.contracts == 2
    ensures strategy == "LONG_PUT" ==>
      d.SingleDefaults? && d.strike == Snap5(round, price * 0.98) && d.dte == 30 && d.contracts == 2
    ensures strategy == "LONG_STRADDLE" ==>
      d.SingleDefaults? && d.strike == Snap5(round, price) && d.dte == 21 && d.contracts == 1
    ensures strategy == "LONG_STRANGLE" ==>
      d.StrangleDefaults? && d.callStrike == Snap5(round, price * 1.05) && d.putStrike == Snap5(round, price * 0.95)
      && d.dte == 21 && d.contracts == 1
    ensures d.TimeDefaults? <==> strategy !in {"BULL_CALL_SPREAD", "BEAR_PUT_SPREAD", "IRON_CONDOR", "IRON_BUTTERFLY",
                                               "LONG_CALL", "LONG_PUT", "LONG_STRADDLE", "LONG_STRANGLE"}
    ensures d.TimeDefaults? ==> d.strike == Snap5(round, price) && d.nearDte == 7 && d.farDte == 30 && d.contracts == 1
  {
    if strategy == "BULL_CALL_SPREAD" then
      var long := Snap5(round, price * 0.98);
      SpreadDefaults(long, long + 10.0, 21, 1)
    else if strategy == "BEAR_PUT_SPREAD" then
      var short := Snap5(round, price * 1.02);
      SpreadDefaults(short - 10.0, short, 21, 1)
    else if strategy == "IRON_CONDOR" then
      var center := Snap5(round, price);
      WingDefaults(center, center - 15.0, center - 5.0, center + 5.0, center + 15.0, 30, 1)
    else if strategy == "IRON_BUTTERFLY" then
      var center := Snap5(round, price);
      WingDefaults(center, center - 10.0, center, center, center + 10.0, 30, 1)
    else if strategy == "LONG_CALL" then
      SingleDefaults(Snap5(round, price * 1.02), 30, 2)
    else if strategy == "LONG_PUT" then
      SingleDefaults(Snap5(round, price * 0.98), 30, 2)
    else if strategy == "LONG_STRADDLE" then
      SingleDefaults(Snap5(round, price), 21, 1)
    else if strategy == "LONG_STRANGLE" then
      StrangleDefaults(Snap5(round, price * 1.05), Snap5(round, price * 0.95), 21, 1)
    else
      TimeDefaults(Snap5(round, price), 7, 30, 1)
  }

  /** Which parameter shape each of the ten labels falls back to. */
  lemma DefaultsForEveryLabel(s: Strategy, price: real, ivRank: real, round: real -> int)
    ensures var d := DefaultParameters(Name(s), price, ivRank, round);
      && (s in {BullCallSpread, BearPutSpread} <==> d.SpreadDefaults?)
      && (s in {IronCondor, IronButterfly} <==> d.WingDefaults?)
      && (s in {LongCall, LongPut, LongStraddle} <==> d.SingleDefaults?)
      && (s == LongStrangle <==> d.StrangleDefaults?)
      && (s in {CalendarSpread, DiagonalSpread} <==> d.TimeDefaults?)
  {
  }
}
