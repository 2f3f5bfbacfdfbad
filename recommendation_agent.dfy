/** The recommendation agent's two tool stages: the classifier's pick with
    its alternatives, and the generated trade with the risk gate applied to
    it. The classifier, the model files and the language-model front end
    stay outside; the classifier enters as a pair of functions. */
module Recommendation {
  import opened Wrappers
  import opened Features
  import opened OptionChain
  import opened Trades
  import opened Reals
  import opened Ranking
  import opened StrategyPrediction
  import Risk
  import ParameterGen
  import FeatureExtractor

  // ------------------------------------------------------------ text

  /** `str.lower` on one character, for the ASCII letters. */
  function LowerChar(c: char): char {
    if 'A' <= c <= 'Z' then (c as int + 32) as char else c
  }

  function Lower(s: string): (r: string)
    ensures |r| == |s| && forall i | 0 <= i < |s| :: r[i] == LowerChar(s[i])
  {
    seq(|s|, i requires 0 <= i < |s| => LowerChar(s[i]))
  }

  /** Python's `sub in s` on strings. */
  predicate Contains(s: string, sub: string)
    decreases |s|
  {
    if |sub| > |s| then false
    else s[..|sub|] == sub || (|s| > 0 && Contains(s[1..], sub))
  }

  /** A text that lacks the first character of `sub` does not contain `sub`. */
  lemma {:induction false} MissingFirstCharNotContained(s: string, sub: string)
    requires |sub| > 0
    requires forall i | 0 <= i < |s| :: s[i] != sub[0]
    ensures !Contains(s, sub)
    decreases |s|
  {
    if |sub| <= |s| {
      assert s[..|sub|][0] == s[0];
      if |s| > 0 {
        MissingFirstCharNotContained(s[1..], sub);
      }
    }
  }

  /** No character of `s` is `c`. */
  predicate Lacks(s: string, c: char) {
    forall i | 0 <= i < |s| :: s[i] != c
  }

  /** Neither descriptive profit text has a `u` in either case, so neither
      mentions "unlimited" in any letter case. */
  lemma LowerLacks(s: string)
    requires s in {CalendarProfitText, DiagonalProfitText}
    ensures !Contains(Lower(s), "unlimited")
  {
    assert Lacks(s, 'u') && Lacks(s, 'U') by {
      if s == CalendarProfitText {
        assert Lacks(CalendarProfitText, 'u') && Lacks(CalendarProfitText, 'U');
      } else {
        assert Lacks(DiagonalProfitText, 'u') && Lacks(DiagonalProfitText, 'U');
      }
    }
    var l := Lower(s);
    forall i | 0 <= i < |l| ensures l[i] != 'u' {
      assert s[i] != 'u' && s[i] != 'U';
    }
    MissingFirstCharNotContained(l, "unlimited");
  }

  /** A text that starts with `sub` contains it. */
  lemma PrefixContained(s: string, sub: string)
    requires |sub| <= |s| && s[..|sub|] == sub
    ensures Contains(s, sub)
  {
  }

  // ------------------------------------------------------------ the agent

  /** One entry of the alternatives list. */
  datatype Alternative = Alternative(strategy: string, confidence: real)

  /** What `predict_strategy` returns. */
  datatype Pick = Pick(strategy: string, confidence: real, alternatives: seq<Alternative>,
                       modelVersion: string, modelAccuracy: real)

  datatype AgentError =
    | MissingFeature(name: string)           // the column selection raised KeyError
    | ClassIndexOutOfRange                    // decoder or probability index out of range
    | ProfitIsText                            // dividing a descriptive profit string raised TypeError
    | RiskFailure(cause: Risk.RiskError)      // validate_trade divided by a zero account size
    | Generation(failure: ParameterGen.GenError)

  /** Where the risk gate's two figures come from: the position totals when
      the trade carries them, otherwise the per-contract entries. */
  function LossFigure(t: Trade): (l: real)
    ensures TotalMaxLossEntry(t).Some? ==> l == t.totalMaxLoss
    ensures TotalMaxLossEntry(t).None? ==> l == MaxLossEntry(t)
  {
    match TotalMaxLossEntry(t)
    case Some(x) => x
    case None => MaxLossEntry(t)
  }

  function ProfitFigure(t: Trade): (p: Entry)
    ensures TotalMaxProfitEntry(t).Some? ==> p == Entry.Num(t.totalMaxProfit)
    ensures TotalMaxProfitEntry(t).None? ==> p == MaxProfitEntry(t)
  {
    match TotalMaxProfitEntry(t)
    case Some(x) => Entry.Num(x)
    case None => MaxProfitEntry(t)
  }

  /** The agent: its feature order and a risk manager it shares with its
      parameter generator. */
  class RecommendationAgent {
    const featureNames: seq<string>
    const riskManager: Risk.RiskManager
    const parameterGenerator: ParameterGen.ParameterGenerator

    /** A 10000 account risking 2% per trade with the default cap of 10
        contracts, handed to the parameter generator. */
    constructor (featureNames: seq<string>)
      ensures this.featureNames == featureNames
      ensures riskManager.accountSize == 10000.0 && riskManager.riskPerTrade == 0.02
      ensures riskManager.maxContracts == 10
      ensures parameterGenerator.riskManager == riskManager
    {
      this.featureNames := featureNames;
      var rm := new Risk.RiskManager(10000.0, 0.02, 10);
      this.riskManager := rm;
      this.parameterGenerator := new ParameterGen.ParameterGenerator(rm);
    }

    /** `predict_strategy`: select the model's columns in order (a missing
        one is an error), classify that row as it is, NaN values included,
        and report the top three as alternatives, tagged with the model's
        version and accuracy. */
    function PredictStrategy(features: map<string, Value>, classes: seq<string>,
                             predict: seq<Value> -> nat, proba: seq<Value> -> seq<real>): (r: Result<Pick, AgentError>)
      ensures var row := FeatureExtractor.FeatureArray(featureNames, features);
        row.Err? ==> r == Err(MissingFeature(row.error)) && row.error in featureNames && row.error !in features
      ensures var row := FeatureExtractor.FeatureArray(featureNames, features);
        row.Ok? ==>
          var c := Classify(row.value, classes, predict, proba);
          && (r.Ok? <==> c.Ok?)
          && (r.Ok? ==>
                && r.value.strategy == c.value.strategy
                && r.value.confidence == c.value.confidence
                && |r.value.alternatives| == |c.value.top3Strategies|
                && (forall i | 0 <= i < |r.value.alternatives| ::
                      r.value.alternatives[i] == Alternative(c.value.top3Strategies[i], c.value.top3Probabilities[i]))
                && r.value.modelVersion == "v1.0" && r.value.modelAccuracy == 0.8421)
    {
      match FeatureExtractor.FeatureArray(featureNames, features)
      case Err(name) => Err(MissingFeature(name))
      case Ok(row) =>
        match Classify(row, classes, predict, proba)
        case Err(_) => Err(ClassIndexOutOfRange)
        case Ok(c) =>
          Ok(Pick(c.strategy, c.confidence,
                  seq(|c.top3Strategies|, i requires 0 <= i < |c.top3Strategies| =>
                    Alternative(c.top3Strategies[i], c.top3Probabilities[i])),
                  "v1.0", 0.8421))
    }

    /** The risk gate of `generate_parameters`: a profit described as
        unlimited (in any letter case) is taken as three times the loss; any
        other descriptive profit can be divided only when the loss is zero. */
    function RiskCheck(t: Trade): (r: Result<Risk.Validation, AgentError>)
      ensures var loss := Abs(LossFigure(t));
        var profit := ProfitFigure(t);
        var unlimited := profit.Text? && Contains(Lower(profit.s), "unlimited");
        && (r == Err(ProfitIsText) <==> profit.Text? && !unlimited && loss != 0.0)
        && (r.Err? && r != Err(ProfitIsText) <==> riskManager.accountSize == 0.0 && !(profit.Text? && !unlimited && loss != 0.0))
        && (r.Ok? ==> r.value.riskPercentage * riskManager.accountSize == loss)
        && (r.Ok? && profit.Num? ==> r.value.riskRewardRatio == if loss == 0.0 then 0.0 else profit.v / loss)
        && (r.Ok? && unlimited && loss != 0.0 ==>
              r.value.riskRewardRatio == 3.0 && (r.value.approved <==> r.value.riskPercentage <= riskManager.riskPerTrade))
    {
      var loss := Abs(LossFigure(t));
      var profit := ProfitFigure(t);
      if profit.Num? then Wrap(riskManager.ValidateTrade(loss, profit.v))
      else if Contains(Lower(profit.s), "unlimited") then
        ThreeToOne(loss);
        Wrap(riskManager.ValidateTrade(loss, loss * 3.0))
      else if loss != 0.0 then Err(ProfitIsText)
      else Wrap(riskManager.ValidateTrade(0.0, 0.0))
    }

    /** `generate_parameters`: the current price comes from the market data,
        then the features, then 236.80; the generated trade is returned with
        its risk verdict. */
    function GenerateParameters(strategy: string, chain: Chain, marketPrice: Option<real>,
                                features: Snapshot): (r: Result<(Trade, Risk.Validation), AgentError>)
      ensures var price := if marketPrice.Some? then marketPrice.value else Get(features, "current_price", 236.80);
        var g := parameterGenerator.Generate(strategy, chain, features, price);
        && (g.Err? ==> r == Err(Generation(g.error)))
        && (g.Ok? ==> (r.Ok? <==> RiskCheck(g.value).Ok?))
        && (r.Ok? ==> g.Ok? && r.value == (g.value, RiskCheck(g.value).value))
    {
      var price := if marketPrice.Some? then marketPrice.value else Get(features, "current_price", 236.80);
      match parameterGenerator.Generate(strategy, chain, features, price)
      case Err(e) => Err(Generation(e))
      case Ok(t) =>
        match RiskCheck(t)
        case Err(e) => Err(e)
        case Ok(v) => Ok((t, v))
    }

    /** When the classifier's pick is the single most probable class, it
        leads the alternatives. */
    lemma PickLeadsAlternatives(features: map<string, Value>, classes: seq<string>,
                                predict: seq<Value> -> nat, proba: seq<Value> -> seq<real>)
      requires PredictStrategy(features, classes, predict, proba).Ok?
      requires var row := FeatureExtractor.FeatureArray(featureNames, features).value;
        StrictMax(proba(row), predict(row))
      ensures var pick := PredictStrategy(features, classes, predict, proba).value;
        |pick.alternatives| > 0 && pick.alternatives[0] == Alternative(pick.strategy, pick.confidence)
    {
      var row := FeatureExtractor.FeatureArray(featureNames, features).value;
      assert Classify(row, classes, predict, proba).Ok?;
      PickLeadsTopThree(row, classes, predict, proba);
      var c := Classify(row, classes, predict, proba).value;
      var pick := PredictStrategy(features, classes, predict, proba).value;
      assert pick.strategy == c.strategy && pick.confidence == c.confidence;
      assert pick.alternatives[0] == Alternative(c.top3Strategies[0], c.top3Probabilities[0]);
    }

    /** Long options, straddles and strangles promise unlimited profit: the
        gate sees a 3:1 reward on a nonzero loss, so approval reduces to the
        risk-percentage test; a zero loss is rejected. */
    lemma UnlimitedProfitGate(t: Trade)
      requires t.LongOption? || t.Straddle? || t.Strangle?
      requires riskManager.accountSize != 0.0
      ensures RiskCheck(t).Ok?
      ensures var v := RiskCheck(t).value;
        && v.riskRewardRatio == (if t.maxLoss == 0.0 then 0.0 else 3.0)
        && (v.approved <==> t.maxLoss != 0.0 && v.riskPercentage <= riskManager.riskPerTrade)
    {
      assert ProfitFigure(t) == Entry.Text("Unlimited");
      assert Lower("Unlimited") == "unlimited";
      PrefixContained("unlimited", "unlimited");
      var loss := Abs(t.maxLoss);
      assert Abs(loss) == loss;
      if loss != 0.0 {
        ThreeToOne(loss);
      }
    }

    /** Calendars and diagonals describe their profit in words: with any
        loss the division in the gate fails, and with none the trade is
        rejected. */
    lemma VariableProfitGate(t: Trade)
      requires t.Calendar? || t.Diagonal?
      requires riskManager.accountSize != 0.0
      ensures t.totalMaxLoss != 0.0 <==> RiskCheck(t) == Err(ProfitIsText)
      ensures t.totalMaxLoss == 0.0 ==> RiskCheck(t).Ok? && !RiskCheck(t).value.approved
    {
      VariableProfitText(t);
    }

    /** Spreads, condors and butterflies are judged on their position totals. */
    lemma NumericProfitGate(t: Trade)
      requires t.Vertical? || t.Condor? || t.Butterfly?
      ensures RiskCheck(t) == Wrap(riskManager.ValidateTrade(Abs(t.totalMaxLoss), t.totalMaxProfit))
    {
    }
  }

  function Wrap(v: Result<Risk.Validation, Risk.RiskError>): (r: Result<Risk.Validation, AgentError>)
    ensures v.Ok? <==> r.Ok?
    ensures v.Ok? ==> r.value == v.value
    ensures v.Err? ==> r == Err(RiskFailure(v.error))
  {
    match v
    case Ok(x) => Ok(x)
    case Err(e) => Err(RiskFailure(e))
  }

  /** The profit entries of calendars and diagonals never mention "unlimited". */
  lemma VariableProfitText(t: Trade)
    requires t.Calendar? || t.Diagonal?
    ensures ProfitFigure(t).Text? && !Contains(Lower(ProfitFigure(t).s), "unlimited")
    ensures LossFigure(t) == t.totalMaxLoss
  {
    if t.Calendar? {
      assert ProfitFigure(t) == Entry.Text(CalendarProfitText);
      LowerLacks(CalendarProfitText);
    } else {
      assert ProfitFigure(t) == Entry.Text(DiagonalProfitText);
      LowerLacks(DiagonalProfitText);
    }
  }

  const CalendarProfitText: string := "Variable (depends on IV expansion)"
  const DiagonalProfitText: string := "Variable (depends on price movement and IV)"

  lemma ThreeToOne(loss: real)
    ensures loss != 0.0 ==> loss * 3.0 / loss == 3.0
  {
  }
}
