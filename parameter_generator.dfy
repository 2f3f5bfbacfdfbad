/** The parameter generator: given a strategy label, an option chain and the
    market features, it picks expirations and strikes, prices the legs from
    the chain and sizes the position through the risk manager. */
module ParameterGen {
  import opened Wrappers
  import opened Strategies
  import opened Features
  import opened OptionChain
  import opened Trades
  import opened Reals
  import Risk

  datatype GenError =
    | UnknownStrategy(name: string)   // ValueError("Unknown strategy: ...")
    | Lookup(cause: ChainError)       // a chain lookup that raised

  function IvRank(f: Snapshot): real { Get(f, "iv_rank", 50.0) }
  function Rsi(f: Snapshot): real { Get(f, "rsi_14", 50.0) }
  function Adx(f: Snapshot): real { Get(f, "adx_14", 20.0) }
  function TrendRegime(f: Snapshot): real { Get(f, "trend_regime", 2.0) }

  // ------------------------------------------------------------ trend strength

  predicate VeryStrongTrend(rsi: real, adx: real, regime: real) {
    adx > 30.0 && ((rsi > 65.0 && regime >= 4.0) || (rsi < 35.0 && regime <= 0.0))
  }

  predicate StrongTrend(rsi: real, adx: real, regime: real) {
    adx > 25.0 && ((rsi > 60.0 && regime >= 3.0) || (rsi < 40.0 && regime <= 1.0))
  }

  /** `_classify_trend_strength`: the first of VERY_STRONG, STRONG, MODERATE
      that applies, else WEAK. Weak is exactly a non-trending ADX, and the two
      strong grades need ADX above 25. */
  function ClassifyTrendStrength(f: Snapshot): (t: TrendStrength)
    ensures t == VeryStrong <==> VeryStrongTrend(Rsi(f), Adx(f), TrendRegime(f))
    ensures t == Strong <==> !VeryStrongTrend(Rsi(f), Adx(f), TrendRegime(f)) && StrongTrend(Rsi(f), Adx(f), TrendRegime(f))
    ensures t == Weak <==> Adx(f) <= 20.0
    ensures t == VeryStrong || t == Strong ==> Adx(f) > 25.0
  {
    var rsi, adx, regime := Rsi(f), Adx(f), TrendRegime(f);
    if VeryStrongTrend(rsi, adx, regime) then VeryStrong
    else if StrongTrend(rsi, adx, regime) then Strong
    else if adx > 20.0 then Moderate
    else Weak
  }

  // ------------------------------------------------------------ expirations

  /** The DTE `_select_optimal_dte` aims for before snapping to the chain. */
  function TargetDte(s: Strategy, ivRank: real, trend: TrendStrength): (d: int)
    ensures d in {7, 14, 21, 30, 45}
    ensures (s == IronCondor || s == IronButterfly) ==>
      && (d == 7 <==> ivRank > 70.0) && (d == 14 <==> 50.0 < ivRank <= 70.0) && (d == 21 <==> ivRank <= 50.0)
    ensures (s == LongCall || s == LongPut) ==>
      && (d == 45 <==> ivRank < 30.0 && trend == VeryStrong)
      && (d == 30 <==> ivRank < 40.0 && !(ivRank < 30.0 && trend == VeryStrong))
      && (d == 21 <==> ivRank >= 40.0)
    ensures (s == BullCallSpread || s == BearPutSpread) ==> (d == 30 <==> trend == VeryStrong) && (d == 21 <==> trend != VeryStrong)
    ensures s in {LongStraddle, LongStrangle, CalendarSpread, DiagonalSpread} ==> d == 30
    ensures d == 45 ==> (s == LongCall || s == LongPut) && trend == VeryStrong
  {
    if s == IronCondor || s == IronButterfly then
      if ivRank > 70.0 then 7 else if ivRank > 50.0 then 14 else 21
    else if s == LongCall || s == LongPut then
      if ivRank < 30.0 && trend == VeryStrong then 45 else if ivRank < 40.0 then 30 else 21
    else if s == BullCallSpread || s == BearPutSpread then
      if trend == VeryStrong then 30 else 21
    else 30
  }

  /** Higher IV rank never lengthens the target expiration, for any strategy. */
  lemma TargetDteShortensWithIv(s: Strategy, iv1: real, iv2: real, trend: TrendStrength)
    requires iv1 <= iv2
    ensures TargetDte(s, iv2, trend) <= TargetDte(s, iv1, trend)
  {
  }

  /** `_select_optimal_dte`: the chain's DTE nearest the target (the smaller on
      a tie); `min` of no DTEs raises, modelled as EmptyChain. */
  function SelectOptimalDte(chain: Chain, s: Strategy, ivRank: real, trend: TrendStrength): (r: Result<int, ChainError>)
    ensures r.Err? <==> chain == []
    ensures r.Err? ==> r.error == EmptyChain
    ensures r.Ok? ==> IsClosest(r.value, Dtes(chain), TargetDte(s, ivRank, trend))
    ensures r.Ok? ==> exists c | c in chain :: c.dte == r.value
  {
    match Closest(Dtes(chain), TargetDte(s, ivRank, trend))
    case None => Err(EmptyChain)
    case Some(d) =>
      var i :| 0 <= i < |chain| && Dtes(chain)[i] == d;
      assert chain[i] in chain;
      Ok(d)
  }

  /** The DTEs more than `bound` days out. */
  function Beyond(ds: seq<int>, bound: int): (r: seq<int>)
    ensures forall d :: d in r <==> d in ds && d > bound
  {
    if ds == [] then []
    else
      var rest := Beyond(ds[..|ds| - 1], bound);
      assert ds == ds[..|ds| - 1] + [ds[|ds| - 1]];
      if ds[|ds| - 1] > bound then rest + [ds[|ds| - 1]] else rest
  }

  /** The near and far expirations of the calendar and diagonal spreads: near
      is the DTE nearest 21; far is the DTE nearest 45 among those more than
      two weeks beyond near, or near + 30 when the chain has none. */
  function NearFarDtes(chain: Chain): (r: Result<(int, int), ChainError>)
    ensures r.Err? <==> chain == []
    ensures r.Err? ==> r.error == EmptyChain
    ensures r.Ok? ==> IsClosest(r.value.0, Dtes(chain), 21)
    ensures r.Ok? ==> r.value.1 > r.value.0 + 14
    ensures r.Ok? ==> var (near, far) := r.value;
      if exists d | d in Dtes(chain) :: d > near + 14 then IsClosest(far, Beyond(Dtes(chain), near + 14), 45)
      else far == near + 30
  {
    match Closest(Dtes(chain), 21)
    case None => Err(EmptyChain)
    case Some(near) =>
      var later := Beyond(Dtes(chain), near + 14);
      match Closest(later, 45)
      case None =>
        Ok((near, near + 30))
      case Some(far) =>
        Ok((near, far))
  }

  // ------------------------------------------------------------ strike targets

  function Signed(kind: OptionType, x: real): real {
    if kind == Call then x else -x
  }

  /** Long options: ATM in very low IV, further out of the money as IV rises. */
  function LongOptionDelta(kind: OptionType, ivRank: real): (d: real)
    ensures Abs(d) == (if ivRank < 30.0 then 0.50 else if ivRank < 40.0 then 0.40 else 0.30)
    ensures kind == Call <==> d > 0.0
  {
    Signed(kind, if ivRank < 30.0 then 0.50 else if ivRank < 40.0 then 0.40 else 0.30)
  }

  /** Verticals: (long, short) deltas, tighter below IV rank 50. The long leg
      is always nearer the money than the short one. */
  function VerticalDeltas(kind: OptionType, ivRank: real): (d: (real, real))
    ensures Abs(d.0) > Abs(d.1) > 0.0
    ensures kind == Call <==> d.0 > 0.0 && d.1 > 0.0
  {
    if ivRank < 50.0 then (Signed(kind, 0.50), Signed(kind, 0.30)) else (Signed(kind, 0.60), Signed(kind, 0.25))
  }

  /** Iron condor: (put short, put long, call short, call long) deltas; wider
      wings above IV rank 70. Each short leg is nearer the money than its wing. */
  function CondorDeltas(ivRank: real): (d: (real, real, real, real))
    ensures d.0 < d.1 < 0.0 < d.3 < d.2
    ensures d.0 == -d.2 && d.1 == -d.3
  {
    if ivRank > 70.0 then (-0.20, -0.10, 0.20, 0.10) else (-0.25, -0.15, 0.25, 0.15)
  }

  /** A row of this type at this DTE exists. */
  predicate HasLeg(chain: Chain, kind: OptionType, dte: int) {
    exists c | c in chain :: c.kind == kind && c.dte == dte
  }

  /** A row with this strike, type and DTE exists and `price` is its bid or ask. */
  predicate Priced(chain: Chain, strike: real, kind: OptionType, dte: int, ask: bool, price: real) {
    exists c | c in chain :: c.strike == strike && c.kind == kind && c.dte == dte && price == (if ask then c.ask else c.bid)
  }

  /** The straddle's strike: the call strike nearest the midpoint of the
      50-delta call and put strikes. It exists exactly when the chain has both
      calls and puts. */
  function StraddleStrike(chain: Chain, dte: int): (r: Result<real, ChainError>)
    ensures r.Ok? <==> (exists c | c in chain :: c.kind == Call) && (exists c | c in chain :: c.kind == Put)
  {
    var callStrike := FindStrike(chain, ByDelta(0.50), Call, dte);
    var putStrike := FindStrike(chain, ByDelta(-0.50), Put, dte);
    if callStrike.Err? then Err(callStrike.error)
    else if putStrike.Err? then Err(putStrike.error)
    else FindStrike(chain, ByPrice((callStrike.value + putStrike.value) / 2.0), Call, dte)
  }

  /** The straddle's strike is a strike of a candidate call no farther from
      the midpoint of the 50-delta call and put strikes than any other. */
  lemma StraddleStrikeNearestMid(chain: Chain, dte: int)
    requires StraddleStrike(chain, dte).Ok?
    ensures FindStrike(chain, ByDelta(0.50), Call, dte).Ok? && FindStrike(chain, ByDelta(-0.50), Put, dte).Ok?
    ensures var mid := ByPrice((FindStrike(chain, ByDelta(0.50), Call, dte).value
                                + FindStrike(chain, ByDelta(-0.50), Put, dte).value) / 2.0);
      exists c | c in Candidates(chain, Call, dte) ::
        c.strike == StraddleStrike(chain, dte).value
        && forall d | d in Candidates(chain, Call, dte) :: Distance(mid, c) <= Distance(mid, d)
  {
  }

  /** With calls listed at `dte`, the straddle's strike is a call listed at `dte`. */
  lemma StraddleStrikeListed(chain: Chain, dte: int)
    requires StraddleStrike(chain, dte).Ok?
    ensures HasLeg(chain, Call, dte) ==> Quote(chain, StraddleStrike(chain, dte).value, Call, dte).Ok?
  {
    var mid := (FindStrike(chain, ByDelta(0.50), Call, dte).value + FindStrike(chain, ByDelta(-0.50), Put, dte).value) / 2.0;
    QuotableWhenListed(chain, ByPrice(mid), Call, dte);
  }

  /** The butterfly's wing targets: 7% (wide wings) or 5% either side of the centre. */
  function WingBelow(center: real, wide: bool): real { if wide then center * 0.93 else center * 0.95 }
  function WingAbove(center: real, wide: bool): real { if wide then center * 1.07 else center * 1.05 }

  /** The iron butterfly's strikes at `dte`: the 50-delta call's strike as the
      centre, and the put and call strikes nearest the wing targets below and
      above it. They exist exactly when the chain has both calls and puts. */
  function ButterflyStrikes(chain: Chain, dte: int, wide: bool): (r: Result<(real, real, real), ChainError>)
    ensures r.Ok? <==> (exists c | c in chain :: c.kind == Call) && (exists c | c in chain :: c.kind == Put)
    ensures r.Ok? ==> var (center, lp, lc) := r.value;
      && FindStrike(chain, ByDelta(0.50), Call, dte) == Ok(center)
      && FindStrike(chain, ByPrice(WingBelow(center, wide)), Put, dte) == Ok(lp)
      && FindStrike(chain, ByPrice(WingAbove(center, wide)), Call, dte) == Ok(lc)
  {
    var center := FindStrike(chain, ByDelta(0.50), Call, dte);
    if center.Err? then Err(center.error)
    else
      var lp := FindStrike(chain, ByPrice(WingBelow(center.value, wide)), Put, dte);
      if lp.Err? then Err(lp.error)
      else Ok((center.value, lp.value, FindStrike(chain, ByPrice(WingAbove(center.value, wide)), Call, dte).value))
  }

  /** Each butterfly strike can be quoted at `dte` when its type is listed there. */
  lemma ButterflyStrikesListed(chain: Chain, dte: int, wide: bool)
    requires ButterflyStrikes(chain, dte, wide).Ok?
    ensures var (center, lp, lc) := ButterflyStrikes(chain, dte, wide).value;
      && (HasLeg(chain, Call, dte) ==> Quote(chain, center, Call, dte).Ok? && Quote(chain, lc, Call, dte).Ok?)
      && (HasLeg(chain, Put, dte) ==> Quote(chain, lp, Put, dte).Ok?)
  {
    var (center, lp, lc) := ButterflyStrikes(chain, dte, wide).value;
    QuotableWhenListed(chain, ByDelta(0.50), Call, dte);
    QuotableWhenListed(chain, ByPrice(WingBelow(center, wide)), Put, dte);
    QuotableWhenListed(chain, ByPrice(WingAbove(center, wide)), Call, dte);
  }

  /** A far expiry beyond every listed DTE has no quotes. */
  lemma UnlistedFarLeg(chain: Chain, near: int, far: int)
    ensures far > near + 14 && !(exists d | d in Dtes(chain) :: d > near + 14) ==>
      forall strike: real, kind: OptionType :: Quote(chain, strike, kind, far).Err?
  {
    if far > near + 14 && !(exists d | d in Dtes(chain) :: d > near + 14) {
      forall c | c in chain ensures c.dte != far {
        var i :| 0 <= i < |chain| && chain[i] == c;
        assert Dtes(chain)[i] in Dtes(chain);
      }
    }
  }

  lemma QuotableWhenListed(chain: Chain, t: Target, kind: OptionType, dte: int)
    ensures HasLeg(chain, kind, dte) ==>
      FindStrike(chain, t, kind, dte).Ok? && Quote(chain, FindStrike(chain, t, kind, dte).value, kind, dte).Ok?
  {
    if HasLeg(chain, kind, dte) {
      ChosenStrikeIsQuotable(chain, t, kind, dte);
    }
  }

  // ------------------------------------------------------------ the generator

  class ParameterGenerator {
    const riskManager: Risk.RiskManager

    /** Without a risk manager, the default one: 10000 account, 2% risk, 10 contracts. */
    constructor (riskManager: Risk.RiskManager?)
      ensures riskManager != null ==> this.riskManager == riskManager
      ensures riskManager == null ==>
        && this.riskManager.accountSize == 10000.0
        && this.riskManager.riskPerTrade == 0.02
        && this.riskManager.maxContracts == 10
    {
      if riskManager == null {
        this.riskManager := new Risk.RiskManager(10000.0, 0.02, 10);
      } else {
        this.riskManager := riskManager;
      }
    }

    /** The contracts of a trade are what the risk manager allows for its per-contract loss. */
    predicate Sized(t: Trade) {
      t.contracts == riskManager.PositionSize(LossPerContract(t))
    }

    // -------------------------------------------------- assembling a priced trade

    /** A long option bought at `ask` per share. */
    function LongOptionAt(kind: OptionType, strike: real, dte: int, ask: real, delta: real,
                          iv: real, trend: TrendStrength): (t: Trade)
      ensures Shaped(t) && Coherent(t) && Sized(t)
      ensures t.LongOption? && t.kind == kind && t.strike == strike && t.dte == dte
      ensures t.costPerContract == ask * 100.0 && t.targetDelta == delta
    {
      var n := riskManager.PositionSize(ask * 100.0);
      var total := ask * 100.0 * n as real;
      LongOption(if kind == Call then LongCall else LongPut, kind, strike, dte, n, ask * 100.0, total, total,
                 if kind == Call then strike + ask else strike - ask, delta, iv, trend)
    }

    /** A debit vertical: the long leg bought at its ask, the short leg sold at its bid. */
    function VerticalAt(kind: OptionType, longStrike: real, shortStrike: real, dte: int,
                        longAsk: real, shortBid: real, iv: real): (t: Trade)
      ensures Shaped(t) && Coherent(t) && Sized(t)
      ensures t.Vertical? && (t.strategy == BullCallSpread <==> kind == Call)
      ensures t.longStrike == longStrike && t.shortStrike == shortStrike && t.dte == dte
      ensures t.netDebit == (longAsk - shortBid) * 100.0
    {
      var netDebit := (longAsk - shortBid) * 100.0;
      var width := if kind == Call then (shortStrike - longStrike) * 100.0 else (longStrike - shortStrike) * 100.0;
      var maxProfit := width - netDebit;
      var n := riskManager.PositionSize(netDebit);
      var totalDebit := netDebit * n as real;
      Vertical(if kind == Call then BullCallSpread else BearPutSpread, longStrike, shortStrike, dte, n,
               netDebit, totalDebit, maxProfit, maxProfit * n as real, netDebit, totalDebit,
               if kind == Call then longStrike + netDebit / 100.0 else longStrike - netDebit / 100.0,
               width / 100.0, Ratio(maxProfit, netDebit), iv)
    }

    /** A straddle: call and put at one strike, both bought at the ask. */
    function StraddleAt(strike: real, dte: int, callAsk: real, putAsk: real, iv: real): (t: Trade)
      ensures Shaped(t) && Coherent(t) && Sized(t)
      ensures t.Straddle? && t.strike == strike && t.dte == dte
      ensures t.callCost == callAsk * 100.0 && t.putCost == putAsk * 100.0
    {
      var perContract := (callAsk + putAsk) * 100.0;
      var n := riskManager.PositionSize(perContract);
      var total := perContract * n as real;
      var up := strike + (callAsk + putAsk);
      var down := strike - (callAsk + putAsk);
      Straddle(LongStraddle, strike, dte, n, callAsk * 100.0, putAsk * 100.0, perContract, total, total,
               up, down, up - down, iv)
    }

    /** A strangle: a call and a put at their own strikes, both bought at the ask. */
    function StrangleAt(callStrike: real, putStrike: real, dte: int, callAsk: real, putAsk: real,
                        iv: real): (t: Trade)
      ensures Shaped(t) && Coherent(t) && Sized(t)
      ensures t.Strangle? && t.callStrike == callStrike && t.putStrike == putStrike && t.dte == dte
      ensures t.callCost == callAsk * 100.0 && t.putCost == putAsk * 100.0
    {
      var perContract := (callAsk + putAsk) * 100.0;
      var n := riskManager.PositionSize(perContract);
      var total := perContract * n as real;
      var up := callStrike + (callAsk + putAsk);
      var down := putStrike - (callAsk + putAsk);
      Strangle(LongStrangle, callStrike, putStrike, dte, n, callAsk * 100.0, putAsk * 100.0, perContract,
               total, total, up, down, up - down, callStrike - putStrike, iv)
    }

    /** An iron condor: short legs sold at the bid, wings bought at the ask;
        the loss is the wider wing less the credit. */
    function CondorAt(ps: real, pl: real, cs: real, cl: real, dte: int,
                      psBid: real, plAsk: real, csBid: real, clAsk: real, iv: real): (t: Trade)
      ensures Shaped(t) && Coherent(t) && Sized(t)
      ensures t.Condor? && t.dte == dte
      ensures t.putShortStrike == ps && t.putLongStrike == pl && t.callShortStrike == cs && t.callLongStrike == cl
      ensures t.netCredit == (psBid + csBid - plAsk - clAsk) * 100.0
    {
      var credit := (psBid + csBid - plAsk - clAsk) * 100.0;
      var maxLoss := Max((ps - pl) * 100.0, (cl - cs) * 100.0) - credit;
      var n := riskManager.PositionSize(maxLoss);
      var totalCredit := credit * n as real;
      Condor(IronCondor, ps, pl, cs, cl, dte, n, credit, totalCredit, credit, totalCredit,
             maxLoss, maxLoss * n as real, ps - credit / 100.0, cs + credit / 100.0, cs - ps,
             Ratio(credit, maxLoss), iv)
    }

    /** An iron butterfly: both centre legs sold at the bid, wings bought at the ask. */
    function ButterflyAt(center: real, lp: real, lc: real, dte: int,
                         cpBid: real, ccBid: real, lpAsk: real, lcAsk: real, iv: real): (t: Trade)
      ensures Shaped(t) && Coherent(t) && Sized(t)
      ensures t.Butterfly? && t.dte == dte
      ensures t.centerStrike == center && t.longPutStrike == lp && t.longCallStrike == lc
      ensures t.netCredit == (cpBid + ccBid - lpAsk - lcAsk) * 100.0
    {
      var credit := (cpBid + ccBid - lpAsk - lcAsk) * 100.0;
      var wing := Max((center - lp) * 100.0, (lc - center) * 100.0);
      assert wing / 100.0 == Max(center - lp, lc - center);
      var maxLoss := wing - credit;
      var n := riskManager.PositionSize(maxLoss);
      var totalCredit := credit * n as real;
      Butterfly(IronButterfly, center, lp, lc, dte, n, credit, totalCredit, credit, totalCredit,
                maxLoss, maxLoss * n as real, center - credit / 100.0, center + credit / 100.0,
                (credit / 100.0) * 2.0, wing / 100.0, Ratio(credit, maxLoss), iv)
    }

    /** A calendar: one strike, sold near at the bid and bought far at the ask. */
    function CalendarAt(strike: real, kind: OptionType, near: int, far: int,
                        nearBid: real, farAsk: real, iv: real): (t: Trade)
      ensures Shaped(t) && Coherent(t) && Sized(t)
      ensures t.Calendar? && t.strike == strike && t.kind == kind && t.nearDte == near && t.farDte == far
      ensures t.netDebit == (farAsk - nearBid) * 100.0
    {
      var netDebit := (farAsk - nearBid) * 100.0;
      var n := riskManager.PositionSize(netDebit);
      var totalDebit := netDebit * n as real;
      Calendar(CalendarSpread, strike, kind, near, far, n, netDebit, totalDebit, netDebit, totalDebit, iv)
    }

    /** A diagonal: the far leg bought at its ask, the near leg sold at its bid. */
    function DiagonalAt(kind: OptionType, longStrike: real, shortStrike: real, near: int, far: int,
                        farAsk: real, nearBid: real, iv: real): (t: Trade)
      ensures Shaped(t) && Coherent(t) && Sized(t)
      ensures t.Diagonal? && t.kind == kind && t.longStrike == longStrike && t.shortStrike == shortStrike
      ensures t.nearDte == near && t.farDte == far
      ensures t.netDebit == (farAsk - nearBid) * 100.0
    {
      var netDebit := (farAsk - nearBid) * 100.0;
      var n := riskManager.PositionSize(netDebit);
      var totalDebit := netDebit * n as real;
      Diagonal(DiagonalSpread, kind, longStrike, shortStrike, near, far, n, netDebit, totalDebit,
               netDebit, totalDebit, iv)
    }

    // -------------------------------------------------- the builders
    // Each builder is split in two: the chain lookups (which contracts, at
    // which prices, and when a lookup fails) and the assembly above.

    /** The long option's DTE, strike and ask: the strike nearest the delta the
        IV rank calls for. The lookups fail exactly when the chain is empty or
        has no option of that type at the chosen DTE. */
    function LongOptionQuotes(chain: Chain, f: Snapshot, kind: OptionType): (r: Result<(int, real, real), ChainError>)
      ensures chain == [] ==> r == Err(EmptyChain)
      ensures chain != [] ==> var s := if kind == Call then LongCall else LongPut;
        (r.Ok? <==> HasLeg(chain, kind, SelectOptimalDte(chain, s, IvRank(f), ClassifyTrendStrength(f)).value))
      ensures r.Ok? ==> var (dte, strike, ask) := r.value;
        && IsClosest(dte, Dtes(chain), TargetDte(if kind == Call then LongCall else LongPut, IvRank(f), ClassifyTrendStrength(f)))
        && Priced(chain, strike, kind, dte, true, ask)
        && FindStrike(chain, ByDelta(LongOptionDelta(kind, IvRank(f))), kind, dte) == Ok(strike)
    {
      var dte :- SelectOptimalDte(chain, if kind == Call then LongCall else LongPut, IvRank(f), ClassifyTrendStrength(f));
      var delta := LongOptionDelta(kind, IvRank(f));
      QuotableWhenListed(chain, ByDelta(delta), kind, dte);
      var strike :- FindStrike(chain, ByDelta(delta), kind, dte);
      var ask :- Ask(chain, strike, kind, dte);
      Ok((dte, strike, ask))
    }

    /** `_generate_long_call` (calls) and `_generate_long_put` (puts). */
    function LongOptionTrade(chain: Chain, f: Snapshot, kind: OptionType): (r: Result<Trade, ChainError>)
      ensures r.Err? <==> LongOptionQuotes(chain, f, kind).Err?
      ensures r.Err? ==> r.error == LongOptionQuotes(chain, f, kind).error
      ensures r.Ok? ==> r.value.LongOption? && Shaped(r.value) && Coherent(r.value) && Sized(r.value)
      ensures r.Ok? ==> var (dte, strike, ask) := LongOptionQuotes(chain, f, kind).value;
        && r.value.kind == kind && r.value.dte == dte && r.value.strike == strike
        && r.value.costPerContract == ask * 100.0 && r.value.targetDelta == LongOptionDelta(kind, IvRank(f))
    {
      var (dte, strike, ask) :- LongOptionQuotes(chain, f, kind);
      Ok(LongOptionAt(kind, strike, dte, ask, LongOptionDelta(kind, IvRank(f)), IvRank(f), ClassifyTrendStrength(f)))
    }

    /** The vertical's DTE, long and short strikes, long ask and short bid.
        The lookups fail exactly when the chain is empty or lacks that type at
        the chosen DTE. */
    function VerticalQuotes(chain: Chain, f: Snapshot, kind: OptionType): (r: Result<(int, real, real, real, real), ChainError>)
      ensures chain == [] ==> r == Err(EmptyChain)
      ensures chain != [] ==> var s := if kind == Call then BullCallSpread else BearPutSpread;
        (r.Ok? <==> HasLeg(chain, kind, SelectOptimalDte(chain, s, IvRank(f), ClassifyTrendStrength(f)).value))
      ensures r.Ok? ==> var (dte, longStrike, shortStrike, longAsk, shortBid) := r.value;
        && IsClosest(dte, Dtes(chain), TargetDte(if kind == Call then BullCallSpread else BearPutSpread, IvRank(f), ClassifyTrendStrength(f)))
        && Priced(chain, longStrike, kind, dte, true, longAsk)
        && Priced(chain, shortStrike, kind, dte, false, shortBid)
        && FindStrike(chain, ByDelta(VerticalDeltas(kind, IvRank(f)).0), kind, dte) == Ok(longStrike)
        && FindStrike(chain, ByDelta(VerticalDeltas(kind, IvRank(f)).1), kind, dte) == Ok(shortStrike)
    {
      var dte :- SelectOptimalDte(chain, if kind == Call then BullCallSpread else BearPutSpread, IvRank(f), ClassifyTrendStrength(f));
      var (longDelta, shortDelta) := VerticalDeltas(kind, IvRank(f));
      QuotableWhenListed(chain, ByDelta(longDelta), kind, dte);
      QuotableWhenListed(chain, ByDelta(shortDelta), kind, dte);
      var longStrike :- FindStrike(chain, ByDelta(longDelta), kind, dte);
      var shortStrike := FindStrike(chain, ByDelta(shortDelta), kind, dte).value;
      var longAsk :- Ask(chain, longStrike, kind, dte);
      var shortBid := Bid(chain, shortStrike, kind, dte).value;
      Ok((dte, longStrike, shortStrike, longAsk, shortBid))
    }

    /** `_generate_bull_call_spread` (calls) and `_generate_bear_put_spread` (puts). */
    function VerticalTrade(chain: Chain, f: Snapshot, kind: OptionType): (r: Result<Trade, ChainError>)
      ensures r.Err? <==> VerticalQuotes(chain, f, kind).Err?
      ensures r.Err? ==> r.error == VerticalQuotes(chain, f, kind).error
      ensures r.Ok? ==> r.value.Vertical? && Shaped(r.value) && Coherent(r.value) && Sized(r.value)
      ensures r.Ok? ==> var (dte, longStrike, shortStrike, longAsk, shortBid) := VerticalQuotes(chain, f, kind).value;
        && (r.value.strategy == BullCallSpread <==> kind == Call)
        && r.value.dte == dte && r.value.longStrike == longStrike && r.value.shortStrike == shortStrike
        && r.value.netDebit == (longAsk - shortBid) * 100.0
    {
      var (dte, longStrike, shortStrike, longAsk, shortBid) :- VerticalQuotes(chain, f, kind);
      Ok(VerticalAt(kind, longStrike, shortStrike, dte, longAsk, shortBid, IvRank(f)))
    }

    /** The straddle's DTE, strike and the call and put asks there: the call
        strike nearest the midpoint of the 50-delta call and put strikes. */
    function StraddleQuotes(chain: Chain, f: Snapshot): (r: Result<(int, real, real, real), ChainError>)
      ensures chain == [] ==> r == Err(EmptyChain)
      ensures chain != [] ==> var dte := SelectOptimalDte(chain, LongStraddle, IvRank(f), Moderate).value;
        (r.Ok? <==> && HasLeg(chain, Call, dte) && HasLeg(chain, Put, dte)
                    && Quote(chain, StraddleStrike(chain, dte).value, Put, dte).Ok?)
      ensures r.Ok? ==> var (dte, strike, callAsk, putAsk) := r.value;
        && IsClosest(dte, Dtes(chain), TargetDte(LongStraddle, IvRank(f), Moderate))
        && StraddleStrike(chain, dte) == Ok(strike)
        && Priced(chain, strike, Call, dte, true, callAsk)
        && Priced(chain, strike, Put, dte, true, putAsk)
    {
      var dte :- SelectOptimalDte(chain, LongStraddle, IvRank(f), Moderate);
      QuotableWhenListed(chain, ByDelta(0.50), Call, dte);
      var atm :- StraddleStrike(chain, dte);
      StraddleStrikeListed(chain, dte);
      var callAsk :- Ask(chain, atm, Call, dte);
      var putAsk :- Ask(chain, atm, Put, dte);
      Ok((dte, atm, callAsk, putAsk))
    }

    /** `_generate_long_straddle`. */
    function StraddleTrade(chain: Chain, f: Snapshot): (r: Result<Trade, ChainError>)
      ensures r.Err? <==> StraddleQuotes(chain, f).Err?
      ensures r.Err? ==> r.error == StraddleQuotes(chain, f).error
      ensures r.Ok? ==> r.value.Straddle? && Shaped(r.value) && Coherent(r.value) && Sized(r.value)
      ensures r.Ok? ==> var (dte, strike, callAsk, putAsk) := StraddleQuotes(chain, f).value;
        && r.value.dte == dte && r.value.strike == strike
        && r.value.callCost == callAsk * 100.0 && r.value.putCost == putAsk * 100.0
    {
      var (dte, strike, callAsk, putAsk) :- StraddleQuotes(chain, f);
      Ok(StraddleAt(strike, dte, callAsk, putAsk, IvRank(f)))
    }

    /** The strangle's DTE, call and put strikes at symmetric deltas (0.35
        below IV rank 30, else 0.25) and their asks. The lookups fail exactly
        when either type is missing at the chosen DTE. */
    function StrangleQuotes(chain: Chain, f: Snapshot): (r: Result<(int, real, real, real, real), ChainError>)
      ensures chain == [] ==> r == Err(EmptyChain)
      ensures chain != [] ==> var dte := SelectOptimalDte(chain, LongStrangle, IvRank(f), Moderate).value;
        (r.Ok? <==> HasLeg(chain, Call, dte) && HasLeg(chain, Put, dte))
      ensures r.Ok? ==> var (dte, callStrike, putStrike, callAsk, putAsk) := r.value;
        && IsClosest(dte, Dtes(chain), TargetDte(LongStrangle, IvRank(f), Moderate))
        && Priced(chain, callStrike, Call, dte, true, callAsk)
        && Priced(chain, putStrike, Put, dte, true, putAsk)
        && var delta := if IvRank(f) < 30.0 then 0.35 else 0.25;
           && FindStrike(chain, ByDelta(delta), Call, dte) == Ok(callStrike)
           && FindStrike(chain, ByDelta(-delta), Put, dte) == Ok(putStrike)
    {
      var dte :- SelectOptimalDte(chain, LongStrangle, IvRank(f), Moderate);
      var delta := if IvRank(f) < 30.0 then 0.35 else 0.25;
      QuotableWhenListed(chain, ByDelta(delta), Call, dte);
      QuotableWhenListed(chain, ByDelta(-delta), Put, dte);
      var callStrike :- FindStrike(chain, ByDelta(delta), Call, dte);
      var putStrike :- FindStrike(chain, ByDelta(-delta), Put, dte);
      var callAsk :- Ask(chain, callStrike, Call, dte);
      var putAsk :- Ask(chain, putStrike, Put, dte);
      Ok((dte, callStrike, putStrike, callAsk, putAsk))
    }

    /** `_generate_long_strangle`. */
    function StrangleTrade(chain: Chain, f: Snapshot): (r: Result<Trade, ChainError>)
      ensures r.Err? <==> StrangleQuotes(chain, f).Err?
      ensures r.Err? ==> r.error == StrangleQuotes(chain, f).error
      ensures r.Ok? ==> r.value.Strangle? && Shaped(r.value) && Coherent(r.value) && Sized(r.value)
      ensures r.Ok? ==> var (dte, callStrike, putStrike, callAsk, putAsk) := StrangleQuotes(chain, f).value;
        && r.value.dte == dte && r.value.callStrike == callStrike && r.value.putStrike == putStrike
        && r.value.callCost == callAsk * 100.0 && r.value.putCost == putAsk * 100.0
    {
      var (dte, callStrike, putStrike, callAsk, putAsk) :- StrangleQuotes(chain, f);
      Ok(StrangleAt(callStrike, putStrike, dte, callAsk, putAsk, IvRank(f)))
    }

    /** The condor's DTE, its four strikes (put short, put long, call short,
        call long) and their prices: bids for the short legs, asks for the
        wings. The lookups fail exactly when calls or puts are missing at the
        chosen DTE. */
    function CondorQuotes(chain: Chain, f: Snapshot): (r: Result<(int, real, real, real, real, real, real, real, real), ChainError>)
      ensures chain == [] ==> r == Err(EmptyChain)
      ensures chain != [] ==> var dte := SelectOptimalDte(chain, IronCondor, IvRank(f), Weak).value;
        (r.Ok? <==> HasLeg(chain, Call, dte) && HasLeg(chain, Put, dte))
      ensures r.Ok? ==> var (dte, ps, pl, cs, cl, psBid, plAsk, csBid, clAsk) := r.value;
        && IsClosest(dte, Dtes(chain), TargetDte(IronCondor, IvRank(f), Weak))
        && Priced(chain, ps, Put, dte, false, psBid) && Priced(chain, pl, Put, dte, true, plAsk)
        && Priced(chain, cs, Call, dte, false, csBid) && Priced(chain, cl, Call, dte, true, clAsk)
        && var (psDelta, plDelta, csDelta, clDelta) := CondorDeltas(IvRank(f));
           && FindStrike(chain, ByDelta(psDelta), Put, dte) == Ok(ps)
           && FindStrike(chain, ByDelta(plDelta), Put, dte) == Ok(pl)
           && FindStrike(chain, ByDelta(csDelta), Call, dte) == Ok(cs)
           && FindStrike(chain, ByDelta(clDelta), Call, dte) == Ok(cl)
    {
      var dte :- SelectOptimalDte(chain, IronCondor, IvRank(f), Weak);
      var (psDelta, plDelta, csDelta, clDelta) := CondorDeltas(IvRank(f));
      QuotableWhenListed(chain, ByDelta(psDelta), Put, dte);
      QuotableWhenListed(chain, ByDelta(plDelta), Put, dte);
      QuotableWhenListed(chain, ByDelta(csDelta), Call, dte);
      QuotableWhenListed(chain, ByDelta(clDelta), Call, dte);
      var ps :- FindStrike(chain, ByDelta(psDelta), Put, dte);
      var pl := FindStrike(chain, ByDelta(plDelta), Put, dte).value;
      var cs :- FindStrike(chain, ByDelta(csDelta), Call, dte);
      var cl := FindStrike(chain, ByDelta(clDelta), Call, dte).value;
      var psBid :- Bid(chain, ps, Put, dte);
      var plAsk := Ask(chain, pl, Put, dte).value;
      var csBid :- Bid(chain, cs, Call, dte);
      var clAsk := Ask(chain, cl, Call, dte).value;
      Ok((dte, ps, pl, cs, cl, psBid, plAsk, csBid, clAsk))
    }

    /** `_generate_iron_condor`. */
    function CondorTrade(chain: Chain, f: Snapshot): (r: Result<Trade, ChainError>)
      ensures r.Err? <==> CondorQuotes(chain, f).Err?
      ensures r.Err? ==> r.error == CondorQuotes(chain, f).error
      ensures r.Ok? ==> r.value.Condor? && Shaped(r.value) && Coherent(r.value) && Sized(r.value)
      ensures r.Ok? ==> var (dte, ps, pl, cs, cl, psBid, plAsk, csBid, clAsk) := CondorQuotes(chain, f).value;
        && r.value.dte == dte
        && r.value.putShortStrike == ps && r.value.putLongStrike == pl
        && r.value.callShortStrike == cs && r.value.callLongStrike == cl
        && r.value.netCredit == (psBid + csBid - plAsk - clAsk) * 100.0
    {
      var (dte, ps, pl, cs, cl, psBid, plAsk, csBid, clAsk) :- CondorQuotes(chain, f);
      Ok(CondorAt(ps, pl, cs, cl, dte, psBid, plAsk, csBid, clAsk, IvRank(f)))
    }

    /** The butterfly's DTE, centre strike (the 50-delta call's), wing strikes
        nearest a fixed fraction away (7% above IV rank 75, else 5%) and their
        prices: centre bids, wing asks. */
    function ButterflyQuotes(chain: Chain, f: Snapshot): (r: Result<(int, real, real, real, real, real, real, real), ChainError>)
      ensures chain == [] ==> r == Err(EmptyChain)
      ensures chain != [] ==> var dte := SelectOptimalDte(chain, IronButterfly, IvRank(f), Weak).value;
        (r.Ok? <==> && HasLeg(chain, Call, dte) && HasLeg(chain, Put, dte)
                    && Quote(chain, FindStrike(chain, ByDelta(0.50), Call, dte).value, Put, dte).Ok?)
      ensures r.Ok? ==> var (dte, center, lp, lc, cpBid, ccBid, lpAsk, lcAsk) := r.value;
        && IsClosest(dte, Dtes(chain), TargetDte(IronButterfly, IvRank(f), Weak))
        && ButterflyStrikes(chain, dte, IvRank(f) > 75.0) == Ok((center, lp, lc))
        && Priced(chain, center, Put, dte, false, cpBid) && Priced(chain, center, Call, dte, false, ccBid)
        && Priced(chain, lp, Put, dte, true, lpAsk) && Priced(chain, lc, Call, dte, true, lcAsk)
    {
      var dte :- SelectOptimalDte(chain, IronButterfly, IvRank(f), Weak);
      var (atm, lp, lc) :- ButterflyStrikes(chain, dte, IvRank(f) > 75.0);
      ButterflyStrikesListed(chain, dte, IvRank(f) > 75.0);
      var cpBid :- Bid(chain, atm, Put, dte);
      var ccBid :- Bid(chain, atm, Call, dte);
      var lpAsk := Ask(chain, lp, Put, dte).value;
      var lcAsk := Ask(chain, lc, Call, dte).value;
      Ok((dte, atm, lp, lc, cpBid, ccBid, lpAsk, lcAsk))
    }

    /** `_generate_iron_butterfly`. */
    function ButterflyTrade(chain: Chain, f: Snapshot): (r: Result<Trade, ChainError>)
      ensures r.Err? <==> ButterflyQuotes(chain, f).Err?
      ensures r.Err? ==> r.error == ButterflyQuotes(chain, f).error
      ensures r.Ok? ==> r.value.Butterfly? && Shaped(r.value) && Coherent(r.value) && Sized(r.value)
      ensures r.Ok? ==> var (dte, center, lp, lc, cpBid, ccBid, lpAsk, lcAsk) := ButterflyQuotes(chain, f).value;
        && r.value.dte == dte
        && r.value.centerStrike == center && r.value.longPutStrike == lp && r.value.longCallStrike == lc
        && r.value.netCredit == (cpBid + ccBid - lpAsk - lcAsk) * 100.0
    {
      var (dte, center, lp, lc, cpBid, ccBid, lpAsk, lcAsk) :- ButterflyQuotes(chain, f);
      Ok(ButterflyAt(center, lp, lc, dte, cpBid, ccBid, lpAsk, lcAsk, IvRank(f)))
    }

    /** The calendar's expiries, strike (the 50-delta call's at the near
        expiry), near bid and far ask; calls when RSI is above 50, else puts.
        With no listed expiry more than two weeks past the near one, the far
        leg (near + 30) is not listed either, so the lookups fail. */
    function CalendarQuotes(chain: Chain, f: Snapshot): (r: Result<(int, int, real, OptionType, real, real), ChainError>)
      ensures chain == [] ==> r == Err(EmptyChain)
      ensures chain != [] && !(exists d | d in Dtes(chain) :: d > NearFarDtes(chain).value.0 + 14) ==> r.Err?
      ensures r.Ok? ==> var (near, far, strike, kind, nearBid, farAsk) := r.value;
        && NearFarDtes(chain) == Ok((near, far))
        && (kind == Call <==> Rsi(f) > 50.0)
        && Priced(chain, strike, kind, near, false, nearBid)
        && Priced(chain, strike, kind, far, true, farAsk)
        && FindStrike(chain, ByDelta(0.50), Call, near) == Ok(strike)
      ensures NearFarDtes(chain).Ok? ==> var (near, far) := NearFarDtes(chain).value;
        var kind := if Rsi(f) > 50.0 then Call else Put;
        (r.Ok? <==> && FindStrike(chain, ByDelta(0.50), Call, near).Ok?
                    && var atm := FindStrike(chain, ByDelta(0.50), Call, near).value;
                       Quote(chain, atm, kind, near).Ok? && Quote(chain, atm, kind, far).Ok?)
    {
      var (near, far) :- NearFarDtes(chain);
      UnlistedFarLeg(chain, near, far);
      var atm :- FindStrike(chain, ByDelta(0.50), Call, near);
      var kind := if Rsi(f) > 50.0 then Call else Put;
      var nearBid :- Bid(chain, atm, kind, near);
      var farAsk :- Ask(chain, atm, kind, far);
      Ok((near, far, atm, kind, nearBid, farAsk))
    }

    /** `_generate_calendar_spread`. */
    function CalendarTrade(chain: Chain, f: Snapshot): (r: Result<Trade, ChainError>)
      ensures r.Err? <==> CalendarQuotes(chain, f).Err?
      ensures r.Err? ==> r.error == CalendarQuotes(chain, f).error
      ensures r.Ok? ==> r.value.Calendar? && Shaped(r.value) && Coherent(r.value) && Sized(r.value)
      ensures r.Ok? ==> var (near, far, strike, kind, nearBid, farAsk) := CalendarQuotes(chain, f).value;
        && r.value.nearDte == near && r.value.farDte == far && r.value.strike == strike && r.value.kind == kind
        && r.value.netDebit == (farAsk - nearBid) * 100.0
    {
      var (near, far, strike, kind, nearBid, farAsk) :- CalendarQuotes(chain, f);
      Ok(CalendarAt(strike, kind, near, far, nearBid, farAsk, IvRank(f)))
    }

    /** The diagonal's expiries, the far 50-delta and near 30-delta strikes,
        far ask and near bid; calls when RSI is above 55, else puts. The
        lookups fail exactly when that type is missing at either expiry. */
    function DiagonalQuotes(chain: Chain, f: Snapshot): (r: Result<(int, int, OptionType, real, real, real, real), ChainError>)
      ensures chain == [] ==> r == Err(EmptyChain)
      ensures NearFarDtes(chain).Ok? ==>
        var (near, far) := NearFarDtes(chain).value;
        var kind := if Rsi(f) > 55.0 then Call else Put;
        (r.Ok? <==> HasLeg(chain, kind, near) && HasLeg(chain, kind, far))
      ensures r.Ok? ==> var (near, far, kind, longStrike, shortStrike, farAsk, nearBid) := r.value;
        && NearFarDtes(chain) == Ok((near, far))
        && (kind == Call <==> Rsi(f) > 55.0)
        && Priced(chain, longStrike, kind, far, true, farAsk)
        && Priced(chain, shortStrike, kind, near, false, nearBid)
        && FindStrike(chain, ByDelta(Signed(kind, 0.50)), kind, far) == Ok(longStrike)
        && FindStrike(chain, ByDelta(Signed(kind, 0.30)), kind, near) == Ok(shortStrike)
    {
      var (near, far) :- NearFarDtes(chain);
      var kind := if Rsi(f) > 55.0 then Call else Put;
      QuotableWhenListed(chain, ByDelta(Signed(kind, 0.50)), kind, far);
      QuotableWhenListed(chain, ByDelta(Signed(kind, 0.30)), kind, near);
      var longStrike :- FindStrike(chain, ByDelta(Signed(kind, 0.50)), kind, far);
      var shortStrike := FindStrike(chain, ByDelta(Signed(kind, 0.30)), kind, near).value;
      var farAsk :- Ask(chain, longStrike, kind, far);
      var nearBid :- Bid(chain, shortStrike, kind, near);
      Ok((near, far, kind, longStrike, shortStrike, farAsk, nearBid))
    }

    /** `_generate_diagonal_spread`. */
    function DiagonalTrade(chain: Chain, f: Snapshot): (r: Result<Trade, ChainError>)
      ensures r.Err? <==> DiagonalQuotes(chain, f).Err?
      ensures r.Err? ==> r.error == DiagonalQuotes(chain, f).error
      ensures r.Ok? ==> r.value.Diagonal? && Shaped(r.value) && Coherent(r.value) && Sized(r.value)
      ensures r.Ok? ==> var (near, far, kind, longStrike, shortStrike, farAsk, nearBid) := DiagonalQuotes(chain, f).value;
        && r.value.nearDte == near && r.value.farDte == far && r.value.kind == kind
        && r.value.longStrike == longStrike && r.value.shortStrike == shortStrike
        && r.value.netDebit == (farAsk - nearBid) * 100.0
    {
      var (near, far, kind, longStrike, shortStrike, farAsk, nearBid) :- DiagonalQuotes(chain, f);
      Ok(DiagonalAt(kind, longStrike, shortStrike, near, far, farAsk, nearBid, IvRank(f)))
    }

    /** `r` is what the builder returned, its lookup failure wrapped as a generator error. */
    predicate Routes(r: Result<Trade, GenError>, built: Result<Trade, ChainError>) {
      && (r.Ok? <==> built.Ok?)
      && (r.Ok? ==> r.value == built.value)
      && (r.Err? ==> r.error == Lookup(built.error))
    }

    /** The `generators` table: each label goes to its own builder, and a
        built trade has the label's shape, coherent figures and a risk-sized
        position. */
    function Builder(s: Strategy, chain: Chain, f: Snapshot): (r: Result<Trade, ChainError>)
      ensures chain == [] ==> r == Err(EmptyChain)
      ensures s == LongCall ==> r == LongOptionTrade(chain, f, Call)
      ensures s == LongPut ==> r == LongOptionTrade(chain, f, Put)
      ensures s == BullCallSpread ==> r == VerticalTrade(chain, f, Call)
      ensures s == BearPutSpread ==> r == VerticalTrade(chain, f, Put)
      ensures s == LongStraddle ==> r == StraddleTrade(chain, f)
      ensures s == LongStrangle ==> r == StrangleTrade(chain, f)
      ensures s == IronCondor ==> r == CondorTrade(chain, f)
      ensures s == IronButterfly ==> r == ButterflyTrade(chain, f)
      ensures s == CalendarSpread ==> r == CalendarTrade(chain, f)
      ensures s == DiagonalSpread ==> r == DiagonalTrade(chain, f)
    {
      match s
      case LongCall => LongOptionTrade(chain, f, Call)
      case LongPut => LongOptionTrade(chain, f, Put)
      case BullCallSpread => VerticalTrade(chain, f, Call)
      case BearPutSpread => VerticalTrade(chain, f, Put)
      case LongStraddle => StraddleTrade(chain, f)
      case LongStrangle => StrangleTrade(chain, f)
      case IronCondor => CondorTrade(chain, f)
      case IronButterfly => ButterflyTrade(chain, f)
      case CalendarSpread => CalendarTrade(chain, f)
      case DiagonalSpread => DiagonalTrade(chain, f)
    }

    /** A built trade carries its label, its label's shape, coherent figures
        and a sized position. */
    lemma BuiltTradeIsSound(s: Strategy, chain: Chain, f: Snapshot)
      ensures var r := Builder(s, chain, f);
        r.Ok? ==> r.value.strategy == s && Shaped(r.value) && Coherent(r.value) && Sized(r.value)
    {
    }

    /** `generate`: an unknown name is an error; a known one reaches its
        label's builder, whose trade or lookup failure is the result. */
    function Generate(name: string, chain: Chain, f: Snapshot, currentPrice: real): (r: Result<Trade, GenError>)
      ensures Parse(name).None? <==> r == Err(UnknownStrategy(name))
      ensures Parse(name).Some? ==> Routes(r, Builder(Parse(name).value, chain, f))
      ensures r.Ok? ==> Parse(name) == Some(r.value.strategy)
      ensures r.Ok? ==> Shaped(r.value) && Coherent(r.value) && Sized(r.value)
      ensures chain == [] && Parse(name).Some? ==> r == Err(Lookup(EmptyChain))
    {
      match Parse(name)
      case None => Err(UnknownStrategy(name))
      case Some(s) =>
        BuiltTradeIsSound(s, chain, f);
        match Builder(s, chain, f)
        case Ok(t) => Ok(t)
        case Err(e) => Err(Lookup(e))
    }

    /** A generated trade carries the label it was asked for, spelled the same way. */
    lemma GenerateKeepsName(name: string, chain: Chain, f: Snapshot, currentPrice: real)
      requires Generate(name, chain, f, currentPrice).Ok?
      ensures Name(Generate(name, chain, f, currentPrice).value.strategy) == name
    {
      ParseName(Generate(name, chain, f, currentPrice).value.strategy, name);
    }

    /** A sized position whose per-contract loss fits the budget loses in
        total no more than the risk budget; one that does not fit is a single
        contract. Generate sizes every trade it returns this way. */
    lemma SizedWithinBudget(t: Trade)
      requires Sized(t)
      ensures 0.0 < LossPerContract(t) <= riskManager.maxRiskAmount ==>
        t.contracts as real * LossPerContract(t) <= riskManager.maxRiskAmount
      ensures LossPerContract(t) <= 0.0 ==> t.contracts == 1
    {
    }
  }

  /** Scenario: a bull call spread bought 100/110 for a 4.00 debit makes at
      most 600, loses at most 400 and breaks even at 104. */
  lemma ScenarioBullCallSpread(t: Trade)
    requires t.Vertical? && t.strategy == BullCallSpread && Coherent(t)
    requires t.longStrike == 100.0 && t.shortStrike == 110.0 && t.netDebit == 400.0
    ensures t.maxProfit == 600.0 && t.maxLoss == 400.0 && t.breakeven == 104.0
  {
  }
}
