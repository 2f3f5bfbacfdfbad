/** The trade specifications the parameter generator returns, one shape per
    family of strategies, and what their derived figures must satisfy. */
module Trades {
  import opened Wrappers
  import opened Strategies
  import opened OptionChain

  datatype TrendStrength = VeryStrong | Strong | Moderate | Weak

  /** A trade specification. Money figures are dollars per contract unless named
      `total...`; strikes and breakevens are prices per share. */
  datatype Trade =
    | LongOption(strategy: Strategy, kind: OptionType, strike: real, dte: int, contracts: int,
                 costPerContract: real, totalCost: real, maxLoss: real, breakeven: real,
                 targetDelta: real, ivRank: real, trendStrength: TrendStrength)
    | Vertical(strategy: Strategy, longStrike: real, shortStrike: real, dte: int, contracts: int,
               netDebit: real, totalDebit: real, maxProfit: real, totalMaxProfit: real,
               maxLoss: real, totalMaxLoss: real, breakeven: real, spreadWidth: real,
               riskRewardRatio: real, ivRank: real)
    | Straddle(strategy: Strategy, strike: real, dte: int, contracts: int, callCost: real, putCost: real,
               costPerContract: real, totalCost: real, maxLoss: real,
               breakevenUp: real, breakevenDown: real, breakevenRange: real, ivRank: real)
    | Strangle(strategy: Strategy, callStrike: real, putStrike: real, dte: int, contracts: int,
               callCost: real, putCost: real, costPerContract: real, totalCost: real, maxLoss: real,
               breakevenUp: real, breakevenDown: real, breakevenRange: real, strikeWidth: real, ivRank: real)
    | Condor(strategy: Strategy, putShortStrike: real, putLongStrike: real,
             callShortStrike: real, callLongStrike: real, dte: int, contracts: int,
             netCredit: real, totalCredit: real, maxProfit: real, totalMaxProfit: real,
             maxLoss: real, totalMaxLoss: real, breakevenDown: real, breakevenUp: real,
             profitZoneWidth: real, riskRewardRatio: real, ivRank: real)
    | Butterfly(strategy: Strategy, centerStrike: real, longPutStrike: real, longCallStrike: real,
                dte: int, contracts: int, netCredit: real, totalCredit: real,
                maxProfit: real, totalMaxProfit: real, maxLoss: real, totalMaxLoss: real,
                breakevenDown: real, breakevenUp: real, profitZoneWidth: real, wingWidth: real,
                riskRewardRatio: real, ivRank: real)
    | Calendar(strategy: Strategy, strike: real, kind: OptionType, nearDte: int, farDte: int,
               contracts: int, netDebit: real, totalDebit: real, maxLoss: real, totalMaxLoss: real,
               ivRank: real)
    | Diagonal(strategy: Strategy, kind: OptionType, longStrike: real, shortStrike: real,
               nearDte: int, farDte: int, contracts: int, netDebit: real, totalDebit: real,
               maxLoss: real, totalMaxLoss: real, ivRank: real)

  /** Each label is built in its own shape, so no result lacks a field its label needs. */
  predicate Shaped(t: Trade) {
    match t
    case LongOption(s, kind, _, _, _, _, _, _, _, _, _, _) =>
      (s == LongCall && kind == Call) || (s == LongPut && kind == Put)
    case Vertical(s, _, _, _, _, _, _, _, _, _, _, _, _, _, _) => s == BullCallSpread || s == BearPutSpread
    case Straddle(s, _, _, _, _, _, _, _, _, _, _, _, _) => s == LongStraddle
    case Strangle(s, _, _, _, _, _, _, _, _, _, _, _, _, _, _) => s == LongStrangle
    case Condor(s, _, _, _, _, _, _, _, _, _, _, _, _, _, _, _, _, _) => s == IronCondor
    case Butterfly(s, _, _, _, _, _, _, _, _, _, _, _, _, _, _, _, _, _) => s == IronButterfly
    case Calendar(s, _, _, _, _, _, _, _, _, _, _) => s == CalendarSpread
    case Diagonal(s, _, _, _, _, _, _, _, _, _, _, _) => s == DiagonalSpread
  }

  function Max(a: real, b: real): real { if a < b then b else a }

  /** `x / y if y > 0 else 0`: reward per unit of risk, zero when the risk is not positive. */
  function Ratio(x: real, y: real): (q: real)
    ensures y > 0.0 ==> q * y == x
    ensures y <= 0.0 ==> q == 0.0
  {
    if y > 0.0 then x / y else 0.0
  }

  /** The derived figures of a trade agree with its legs and with each other:
      loss and profit per contract, totals as per-contract figures times the
      contract count, breakevens as strike plus or minus the premium per share. */
  predicate Coherent(t: Trade) {
    && t.contracts >= 1
    && match t
      case LongOption(s, kind, k, _, n, cost, total, loss, be, _, _, _) =>
        && total == cost * n as real && loss == total
        && be == (if kind == Call then k + cost / 100.0 else k - cost / 100.0)
      case Vertical(s, lk, sk, _, n, debit, totalDebit, profit, totalProfit, loss, totalLoss, be, width, ratio, _) =>
        && ratio == Ratio(profit, debit)
        && width == (if s == BullCallSpread then sk - lk else lk - sk)
        && loss == debit && profit == width * 100.0 - debit
        && totalDebit == debit * n as real && totalLoss == totalDebit && totalProfit == profit * n as real
        && be == (if s == BullCallSpread then lk + debit / 100.0 else lk - debit / 100.0)
      case Straddle(_, k, _, n, callCost, putCost, cost, total, loss, up, down, range, _) =>
        && cost == callCost + putCost && total == cost * n as real && loss == total
        && up == k + cost / 100.0 && down == k - cost / 100.0 && range == up - down
      case Strangle(_, kc, kp, _, n, callCost, putCost, cost, total, loss, up, down, range, width, _) =>
        && cost == callCost + putCost && total == cost * n as real && loss == total
        && up == kc + cost / 100.0 && down == kp - cost / 100.0 && range == up - down && width == kc - kp
      case Condor(_, ps, pl, cs, cl, _, n, credit, totalCredit, profit, totalProfit, loss, totalLoss, down, up, zone, ratio, _) =>
        && ratio == Ratio(credit, loss)
        && profit == credit && loss == Max((ps - pl) * 100.0, (cl - cs) * 100.0) - credit
        && totalCredit == credit * n as real && totalProfit == totalCredit && totalLoss == loss * n as real
        && down == ps - credit / 100.0 && up == cs + credit / 100.0 && zone == cs - ps
      case Butterfly(_, c, lp, lc, _, n, credit, totalCredit, profit, totalProfit, loss, totalLoss, down, up, zone, wing, ratio, _) =>
        && ratio == Ratio(credit, loss)
        && wing == Max(c - lp, lc - c) && profit == credit && loss == wing * 100.0 - credit
        && totalCredit == credit * n as real && totalProfit == totalCredit && totalLoss == loss * n as real
        && down == c - credit / 100.0 && up == c + credit / 100.0 && zone == 2.0 * credit / 100.0
      case Calendar(_, _, _, _, _, n, debit, totalDebit, loss, totalLoss, _) =>
        && loss == debit && totalDebit == debit * n as real && totalLoss == totalDebit
      case Diagonal(_, _, _, _, _, _, n, debit, totalDebit, loss, totalLoss, _) =>
        && loss == debit && totalDebit == debit * n as real && totalLoss == totalDebit
  }

  // ------------------------------------------------------- the dict's risk keys

  /** A dictionary value under `max_profit`: a number or a descriptive string. */
  datatype Entry = Num(v: real) | Text(s: string)

  /** `parameters['max_loss']`, present in every shape. */
  function MaxLossEntry(t: Trade): real {
    t.maxLoss
  }

  /** `parameters['max_profit']`, present in every shape. */
  function MaxProfitEntry(t: Trade): Entry {
    match t
    case LongOption(_, _, _, _, _, _, _, _, _, _, _, _) => Text("Unlimited")
    case Straddle(_, _, _, _, _, _, _, _, _, _, _, _, _) => Text("Unlimited")
    case Strangle(_, _, _, _, _, _, _, _, _, _, _, _, _, _, _) => Text("Unlimited")
    case Calendar(_, _, _, _, _, _, _, _, _, _, _) => Text("Variable (depends on IV expansion)")
    case Diagonal(_, _, _, _, _, _, _, _, _, _, _, _) => Text("Variable (depends on price movement and IV)")
    case Vertical(_, _, _, _, _, _, _, p, _, _, _, _, _, _, _) => Num(p)
    case Condor(_, _, _, _, _, _, _, _, _, p, _, _, _, _, _, _, _, _) => Num(p)
    case Butterfly(_, _, _, _, _, _, _, _, p, _, _, _, _, _, _, _, _, _) => Num(p)
  }

  /** `parameters['total_max_loss']` where the shape has it. */
  function TotalMaxLossEntry(t: Trade): Option<real> {
    if t.Vertical? || t.Condor? || t.Butterfly? || t.Calendar? || t.Diagonal? then Some(t.totalMaxLoss) else None
  }

  /** `parameters['total_max_profit']` where the shape has it. */
  function TotalMaxProfitEntry(t: Trade): Option<real> {
    if t.Vertical? || t.Condor? || t.Butterfly? then Some(t.totalMaxProfit) else None
  }

  /** The per-contract loss the risk manager sizes the position by. */
  function LossPerContract(t: Trade): real {
    if t.LongOption? || t.Straddle? || t.Strangle? then t.costPerContract else t.maxLoss
  }
}
