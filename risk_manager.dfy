/** Position sizing and the approve/reject gate on a single trade. */
module Risk {
  import opened Wrappers
  import opened Reals

  datatype RiskError = DivisionByZero

  /** Python's `int(x)` on a float: truncation toward zero. */
  function Trunc(x: real): (n: int)
    ensures x >= 0.0 ==> n as real <= x < n as real + 1.0
    ensures x < 0.0 ==> n as real - 1.0 < x <= n as real
  {
    if x >= 0.0 then x.Floor else -((-x).Floor)
  }

  /** What `validate_trade` reports: its `warnings` list is always empty and is not kept. */
  datatype Validation = Validation(
    approved: bool,
    riskRewardRatio: real,
    riskPercentage: real,
    maxRiskAmount: real)

  /** Account size, risk tolerance and contract cap, fixed at construction. */
  class RiskManager {
    const accountSize: real
    const riskPerTrade: real
    const maxContracts: int
    const maxRiskAmount: real := accountSize * riskPerTrade

    /** The Python defaults are 10000, 0.02 and 10. */
    constructor (accountSize: real, riskPerTrade: real, maxContracts: int)
      ensures this.accountSize == accountSize
      ensures this.riskPerTrade == riskPerTrade
      ensures this.maxContracts == maxContracts
    {
      this.accountSize := accountSize;
      this.riskPerTrade := riskPerTrade;
      this.maxContracts := maxContracts;
    }

    /** `calculate_position_size`: the number of contracts whose combined loss
        stays within the per-trade risk budget, never below 1 nor above the cap. */
    function PositionSize(maxLossPerContract: real): (n: int)
      ensures maxLossPerContract <= 0.0 ==> n == 1
      ensures 1 <= n <= if maxContracts < 1 then 1 else maxContracts
      ensures 0.0 < maxLossPerContract <= maxRiskAmount ==> n as real * maxLossPerContract <= maxRiskAmount
      ensures 0.0 < maxLossPerContract && 1 <= maxContracts ==>
        n == maxContracts || (n + 1) as real * maxLossPerContract > maxRiskAmount
    {
      if maxLossPerContract <= 0.0 then 1
      else
        var q := maxRiskAmount / maxLossPerContract;
        SizeWithinBudget(maxRiskAmount, maxLossPerContract, q, maxContracts);
        Max(1, Min(Trunc(q), maxContracts))
    }

    /** `validate_trade`: a pure verdict; the only failure is a zero account size. */
    function ValidateTrade(maxLoss: real, maxProfit: real): (r: Result<Validation, RiskError>)
      ensures r.Err? <==> accountSize == 0.0
      ensures r.Ok? ==> r.value.riskRewardRatio == (if maxLoss == 0.0 then 0.0 else maxProfit / Abs(maxLoss))
      ensures r.Ok? ==> r.value.riskPercentage * accountSize == Abs(maxLoss)
      ensures r.Ok? ==> r.value.maxRiskAmount == maxRiskAmount
      ensures r.Ok? ==> (r.value.approved <==>
        r.value.riskPercentage <= riskPerTrade && r.value.riskRewardRatio > 0.5)
    {
      if accountSize == 0.0 then Err(DivisionByZero)
      else
        var ratio := if maxLoss != 0.0 then maxProfit / Abs(maxLoss) else 0.0;
        var riskPct := Abs(maxLoss) / accountSize;
        Ok(Validation(riskPct <= riskPerTrade && ratio > 0.5, ratio, riskPct, maxRiskAmount))
    }

    /** An approved trade risks at most the per-trade budget and promises more than
        half its loss in profit; a zero loss is never approved. */
    lemma ApprovedMeansWithinBudget(maxLoss: real, maxProfit: real)
      requires accountSize > 0.0
      requires ValidateTrade(maxLoss, maxProfit).Ok? && ValidateTrade(maxLoss, maxProfit).value.approved
      ensures Abs(maxLoss) <= maxRiskAmount
      ensures maxLoss != 0.0 && maxProfit > 0.5 * Abs(maxLoss)
    {
      var v := ValidateTrade(maxLoss, maxProfit).value;
      assert v.riskPercentage <= riskPerTrade;
      MulMono(v.riskPercentage, riskPerTrade, accountSize);
      assert maxLoss != 0.0;
      assert maxProfit == v.riskRewardRatio * Abs(maxLoss);
      MulStrict(0.5, v.riskRewardRatio, Abs(maxLoss));
    }

    /** A position sized by PositionSize, when one contract fits the budget, passes
        the risk-percentage half of the gate. */
    lemma SizedPositionWithinRiskPercentage(lossPerContract: real)
      requires accountSize > 0.0
      requires 0.0 < lossPerContract <= maxRiskAmount
      ensures var total := PositionSize(lossPerContract) as real * lossPerContract;
        ValidateTrade(total, 0.0).Ok? && ValidateTrade(total, 0.0).value.riskPercentage <= riskPerTrade
    {
      var n := PositionSize(lossPerContract);
      var total := n as real * lossPerContract;
      assert total <= accountSize * riskPerTrade;
      var pct := ValidateTrade(total, 0.0).value.riskPercentage;
      assert pct * accountSize == total;
      if pct > riskPerTrade {
        MulStrict(riskPerTrade, pct, accountSize);
      }
    }
  }

  function Max(a: int, b: int): int { if a < b then b else a }
  function Min(a: int, b: int): int { if a < b then a else b }

  /** The arithmetic behind PositionSize, with the quotient named so that no
      division stands in the proof. */
  lemma SizeWithinBudget(budget: real, loss: real, q: real, cap: int)
    requires loss > 0.0 && q * loss == budget
    ensures var n := Max(1, Min(Trunc(q), cap));
      && (loss <= budget ==> n as real * loss <= budget)
      && (1 <= cap ==> n == cap || (n + 1) as real * loss > budget)
  {
    var c := Trunc(q);
    var n := Max(1, Min(c, cap));
    if loss <= budget {
      QuotientAtLeastOne(budget, loss, q);
      MulMono(n as real, q, loss);
    }
    if 1 <= cap && n < cap {
      if c >= 1 {
        assert n == c;
      } else {
        assert n == 1 && q < 1.0;
      }
      assert q < (n + 1) as real;
      AboveBudget(budget, loss, q, (n + 1) as real);
    }
  }

  lemma AboveBudget(budget: real, loss: real, q: real, m: real)
    requires loss > 0.0 && q * loss == budget && q < m
    ensures m * loss > budget
  {
    MulStrict(q, m, loss);
  }

  lemma QuotientAtLeastOne(budget: real, loss: real, q: real)
    requires loss > 0.0 && q * loss == budget && loss <= budget
    ensures q >= 1.0
  {
    if q < 1.0 {
      MulStrict(q, 1.0, loss);
    }
  }

  lemma MulMono(a: real, b: real, c: real)
    requires a <= b && c >= 0.0
    ensures a * c <= b * c
  {
  }

  lemma MulStrict(a: real, b: real, c: real)
    requires a < b && c > 0.0
    ensures a * c < b * c
  {
  }

  /** Scenario: account 10000 at 2% risk, 150 of loss per contract: one contract. */
  lemma ScenarioPositionSize(rm: RiskManager)
    requires rm.accountSize == 10000.0 && rm.riskPerTrade == 0.02 && rm.maxContracts == 10
    ensures rm.PositionSize(150.0) == 1
  {
    assert rm.maxRiskAmount == 200.0;
    assert 1.0 <= 200.0 / 150.0 < 2.0;
    assert Trunc(200.0 / 150.0) == 1;
  }

  /** Scenario: a loss of 300 against a profit of 100 has ratio 1/3 and is rejected. */
  lemma ScenarioRejectedTrade(rm: RiskManager)
    requires rm.accountSize == 10000.0 && rm.riskPerTrade == 0.02
    ensures rm.ValidateTrade(-300.0, 100.0).Ok?
    ensures rm.ValidateTrade(-300.0, 100.0).value.riskRewardRatio == 1.0 / 3.0
    ensures !rm.ValidateTrade(-300.0, 100.0).value.approved
  {
  }
}
