/** Expiry value of the legs, used as an independent reference for the
    breakevens and the profit and loss figures the generator reports. */
module Payoffs {
  import opened Strategies
  import opened OptionChain
  import opened Trades

  function CallValue(price: real, strike: real): (v: real)
    ensures v >= 0.0 && v >= price - strike
  {
    if price > strike then price - strike else 0.0
  }

  function PutValue(price: real, strike: real): (v: real)
    ensures v >= 0.0 && v >= strike - price
  {
    if strike > price then strike - price else 0.0
  }

  /** Profit or loss in dollars of one contract of a single-expiry trade held
      to expiry with the underlying at `price`. */
  function ExpiryPnl(t: Trade, price: real): real
    requires !t.Calendar? && !t.Diagonal?
  {
    match t
    case LongOption(_, kind, k, _, _, cost, _, _, _, _, _, _) =>
      100.0 * (if kind == Call then CallValue(price, k) else PutValue(price, k)) - cost
    case Vertical(s, lk, sk, _, _, debit, _, _, _, _, _, _, _, _, _) =>
      if s == BullCallSpread then 100.0 * (CallValue(price, lk) - CallValue(price, sk)) - debit
      else 100.0 * (PutValue(price, lk) - PutValue(price, sk)) - debit
    case Straddle(_, k, _, _, _, _, cost, _, _, _, _, _, _) =>
      100.0 * (CallValue(price, k) + PutValue(price, k)) - cost
    case Strangle(_, kc, kp, _, _, _, _, cost, _, _, _, _, _, _, _) =>
      100.0 * (CallValue(price, kc) + PutValue(price, kp)) - cost
    case Condor(_, ps, pl, cs, cl, _, _, credit, _, _, _, _, _, _, _, _, _, _) =>
      credit + 100.0 * (PutValue(price, pl) - PutValue(price, ps) + CallValue(price, cl) - CallValue(price, cs))
    case Butterfly(_, c, lp, lc, _, _, credit, _, _, _, _, _, _, _, _, _, _, _) =>
      credit + 100.0 * (PutValue(price, lp) - PutValue(price, c) + CallValue(price, lc) - CallValue(price, c))
  }

  /** A long option loses at most its premium, and breaks even at the reported breakeven. */
  lemma LongOptionPayoff(t: Trade, price: real)
    requires t.LongOption? && Coherent(t) && t.costPerContract >= 0.0
    ensures ExpiryPnl(t, price) >= -t.costPerContract
    ensures t.maxLoss == t.costPerContract * t.contracts as real
    ensures ExpiryPnl(t, t.breakeven) == 0.0
  {
  }

  /** A debit vertical with its strikes the right way round: its P&L lies
      between minus the max loss and the max profit, and is zero at the
      breakeven when the debit is no larger than the width. */
  lemma VerticalPayoff(t: Trade, price: real)
    requires t.Vertical? && Coherent(t) && t.spreadWidth >= 0.0
    ensures -t.maxLoss <= ExpiryPnl(t, price) <= t.maxProfit
    ensures 0.0 <= t.netDebit <= 100.0 * t.spreadWidth ==> ExpiryPnl(t, t.breakeven) == 0.0
  {
  }

  /** Beyond the short strike the vertical earns exactly its max profit. */
  lemma VerticalMaxProfitReached(t: Trade, price: real)
    requires t.Vertical? && Coherent(t) && t.spreadWidth >= 0.0
    requires if t.strategy == BullCallSpread then price >= t.shortStrike else price <= t.shortStrike
    ensures ExpiryPnl(t, price) == t.maxProfit
  {
  }

  /** A straddle loses at most its premium and breaks even at both breakevens. */
  lemma StraddlePayoff(t: Trade, price: real)
    requires t.Straddle? && Coherent(t) && t.costPerContract >= 0.0
    ensures ExpiryPnl(t, price) >= -t.costPerContract
    ensures ExpiryPnl(t, t.breakevenUp) == 0.0 && ExpiryPnl(t, t.breakevenDown) == 0.0
  {
  }

  /** A strangle whose put strike is not above its call strike breaks even at both breakevens. */
  lemma StranglePayoff(t: Trade, price: real)
    requires t.Strangle? && Coherent(t) && t.costPerContract >= 0.0 && t.putStrike <= t.callStrike
    ensures ExpiryPnl(t, price) >= -t.costPerContract
    ensures ExpiryPnl(t, t.breakevenUp) == 0.0 && ExpiryPnl(t, t.breakevenDown) == 0.0
  {
  }

  /** An iron condor with ordered legs keeps at most its credit and loses at
      most its max loss; with the credit inside both wings it breaks even at
      the reported breakevens. */
  lemma CondorPayoff(t: Trade, price: real)
    requires t.Condor? && Coherent(t)
    requires t.putLongStrike <= t.putShortStrike <= t.callShortStrike <= t.callLongStrike
    ensures -t.maxLoss <= ExpiryPnl(t, price) <= t.maxProfit
    ensures t.putShortStrike <= price <= t.callShortStrike ==> ExpiryPnl(t, price) == t.maxProfit
    ensures 0.0 <= t.netCredit <= 100.0 * (t.putShortStrike - t.putLongStrike)
      ==> ExpiryPnl(t, t.breakevenDown) == 0.0
    ensures 0.0 <= t.netCredit <= 100.0 * (t.callLongStrike - t.callShortStrike)
      ==> ExpiryPnl(t, t.breakevenUp) == 0.0
  {
  }

  /** An iron butterfly with ordered legs: the same bounds, the credit kept
      only at the centre strike. */
  lemma ButterflyPayoff(t: Trade, price: real)
    requires t.Butterfly? && Coherent(t)
    requires t.longPutStrike <= t.centerStrike <= t.longCallStrike
    ensures -t.maxLoss <= ExpiryPnl(t, price) <= t.maxProfit
    ensures ExpiryPnl(t, t.centerStrike) == t.maxProfit
    ensures 0.0 <= t.netCredit <= 100.0 * (t.centerStrike - t.longPutStrike)
      ==> ExpiryPnl(t, t.breakevenDown) == 0.0
    ensures 0.0 <= t.netCredit <= 100.0 * (t.longCallStrike - t.centerStrike)
      ==> ExpiryPnl(t, t.breakevenUp) == 0.0
  {
  }
}
