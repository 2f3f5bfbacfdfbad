/** The option chain and the lookups the parameter generator makes on it:
    snapping a target DTE to an available one, choosing a strike by delta or
    by price, and reading a contract's bid and ask. The chain is never changed. */
module OptionChain {
  import opened Wrappers
  import opened Reals

  datatype OptionType = Call | Put

  /** One row of the chain; volume, open interest, IV and the other Greeks are
      not read by the parameter generator and are not kept. */
  datatype Contract = Contract(strike: real, kind: OptionType, dte: int, bid: real, ask: real, delta: real)

  type Chain = seq<Contract>

  datatype ChainError =
    | EmptyChain                                            // min() over no DTEs
    | NoOptions(kind: OptionType)                           // "No call options available"
    | OptionNotFound(kind: OptionType, strike: real, dte: int)  // "Option not found: ..."

  function AbsInt(x: int): nat { if x < 0 then -x else x }


  // ---------------------------------------------------------------- DTE

  /** The `dte` column of the chain, in chain order. */
  function Dtes(chain: Chain): (ds: seq<int>)
    ensures |ds| == |chain|
    ensures forall i | 0 <= i < |chain| :: ds[i] == chain[i].dte
  {
    if chain == [] then [] else Dtes(chain[..|chain| - 1]) + [chain[|chain| - 1].dte]
  }

  /** `a` is strictly nearer to `target` than `b`, or as near and smaller. */
  predicate Nearer(a: int, b: int, target: int) {
    AbsInt(a - target) < AbsInt(b - target) || (AbsInt(a - target) == AbsInt(b - target) && a < b)
  }

  /** `d` is the available value nearest to `target`, the smaller one on a tie. */
  predicate IsClosest(d: int, ds: seq<int>, target: int) {
    && d in ds
    && forall e | e in ds ::
         && AbsInt(d - target) <= AbsInt(e - target)
         && (AbsInt(d - target) == AbsInt(e - target) ==> d <= e)
  }

  /** `min(sorted(set(ds)), key=lambda x: abs(x - target))`, None for no values. */
  function Closest(ds: seq<int>, target: int): (r: Option<int>)
    ensures r.None? <==> ds == []
    ensures r.Some? ==> IsClosest(r.value, ds, target)
  {
    if ds == [] then None
    else
      var last := ds[|ds| - 1];
      var rest := Closest(ds[..|ds| - 1], target);
      assert ds == ds[..|ds| - 1] + [last];
      if rest.None? || Nearer(last, rest.value, target) then Some(last) else rest
  }

  /** The nearest value is unique, so it does not depend on the order or the
      repetitions of the values: sorting and de-duplicating first changes nothing. */
  lemma ClosestIgnoresOrder(ds: seq<int>, es: seq<int>, target: int)
    requires (set d | d in ds) == (set e | e in es)
    ensures Closest(ds, target) == Closest(es, target)
  {
    var a, b := Closest(ds, target), Closest(es, target);
    var S, T := set d | d in ds, set e | e in es;
    forall x ensures x in ds <==> x in es {
      InSetOfSeq(ds, x);
      InSetOfSeq(es, x);
      assert x in S <==> x in T;
    }
    if ds != [] {
      assert ds[0] in es;
      assert a.value in es && b.value in ds;
      assert AbsInt(a.value - target) == AbsInt(b.value - target);
    }
  }

  lemma InSetOfSeq(xs: seq<int>, x: int)
    ensures x in (set e | e in xs) <==> x in xs
  {
  }

  // ---------------------------------------------------------------- strikes

  /** Rows of the given type, in chain order. */
  function OfType(chain: Chain, kind: OptionType): (r: Chain)
    ensures forall c | c in r :: c in chain && c.kind == kind
    ensures forall c | c in chain && c.kind == kind :: c in r
  {
    if chain == [] then []
    else
      var rest := OfType(chain[..|chain| - 1], kind);
      var last := chain[|chain| - 1];
      assert chain == chain[..|chain| - 1] + [last];
      if last.kind == kind then rest + [last] else rest
  }

  /** Rows of the given type and DTE, in chain order. */
  function OfTypeAt(chain: Chain, kind: OptionType, dte: int): (r: Chain)
    ensures forall c | c in r :: c in chain && c.kind == kind && c.dte == dte
    ensures forall c | c in chain && c.kind == kind && c.dte == dte :: c in r
  {
    if chain == [] then []
    else
      var rest := OfTypeAt(chain[..|chain| - 1], kind, dte);
      var last := chain[|chain| - 1];
      assert chain == chain[..|chain| - 1] + [last];
      if last.kind == kind && last.dte == dte then rest + [last] else rest
  }

  /** The rows a strike selector ranks: those of the requested type at the
      requested DTE, or of that type at any DTE when there are none. */
  function Candidates(chain: Chain, kind: OptionType, dte: int): Chain {
    var exact := OfTypeAt(chain, kind, dte);
    if |exact| > 0 then exact else OfType(chain, kind)
  }

  /** What a strike selector ranks rows by. */
  datatype Target = ByDelta(delta: real) | ByPrice(price: real)

  /** `(|delta| - |target|).abs()` or `(strike - target).abs()`. */
  function Distance(t: Target, c: Contract): real {
    match t
    case ByDelta(d) => Abs(Abs(c.delta) - Abs(d))
    case ByPrice(p) => Abs(c.strike - p)
  }

  /** `nsmallest(1, key)`: the position of the first row with the smallest distance. */
  function FirstNearest(rows: Chain, t: Target): (i: nat)
    requires rows != []
    ensures i < |rows|
    ensures forall j | 0 <= j < |rows| :: Distance(t, rows[i]) <= Distance(t, rows[j])
    ensures forall j | 0 <= j < i :: Distance(t, rows[j]) > Distance(t, rows[i])
  {
    if |rows| == 1 then 0
    else
      var i := FirstNearest(rows[..|rows| - 1], t);
      if Distance(t, rows[|rows| - 1]) < Distance(t, rows[i]) then |rows| - 1 else i
  }

  /** `_find_strike_by_delta` / `_find_strike_by_price`, returning the chosen row. */
  function FindContract(chain: Chain, t: Target, kind: OptionType, dte: int): (r: Result<Contract, ChainError>)
    ensures r.Err? <==> (forall c | c in chain :: c.kind != kind)
    ensures r.Err? ==> r.error == NoOptions(kind)
    ensures r.Ok? ==> r.value in chain && r.value.kind == kind
    ensures r.Ok? && (exists c | c in chain :: c.kind == kind && c.dte == dte) ==> r.value.dte == dte
    ensures r.Ok? ==> r.value in Candidates(chain, kind, dte)
    ensures r.Ok? ==> forall c | c in Candidates(chain, kind, dte) :: Distance(t, r.value) <= Distance(t, c)
  {
    var rows := Candidates(chain, kind, dte);
    if |rows| == 0 then
      Err(NoOptions(kind))
    else
      var i := FirstNearest(rows, t);
      assert rows[i] in rows;
      assert forall c | c in rows :: Distance(t, rows[i]) <= Distance(t, c) by {
        forall c | c in rows ensures Distance(t, rows[i]) <= Distance(t, c) {
          var j :| 0 <= j < |rows| && rows[j] == c;
        }
      }
      assert (exists c | c in chain :: c.kind == kind && c.dte == dte) ==> |OfTypeAt(chain, kind, dte)| > 0 by {
        if c :| c in chain && c.kind == kind && c.dte == dte {
          assert c in OfTypeAt(chain, kind, dte);
        }
      }
      Ok(rows[i])
  }

  /** The strike of the chosen row. */
  function FindStrike(chain: Chain, t: Target, kind: OptionType, dte: int): (r: Result<real, ChainError>)
    ensures r.Err? <==> (forall c | c in chain :: c.kind != kind)
    ensures r.Ok? ==> exists c | c in chain :: c.kind == kind && c.strike == r.value
    ensures r.Ok? ==> exists c | c in Candidates(chain, kind, dte) ::
      c.strike == r.value && forall d | d in Candidates(chain, kind, dte) :: Distance(t, c) <= Distance(t, d)
  {
    var c :- FindContract(chain, t, kind, dte);
    assert c in Candidates(chain, kind, dte);
    Ok(c.strike)
  }

  /** On ties the selectors keep the first nearest row in chain order, as
      `nsmallest(1)` does: every earlier candidate is strictly farther. */
  lemma FindContractFirstOnTies(chain: Chain, t: Target, kind: OptionType, dte: int)
    requires FindContract(chain, t, kind, dte).Ok?
    ensures var rows := Candidates(chain, kind, dte);
      exists i | 0 <= i < |rows| :: rows[i] == FindContract(chain, t, kind, dte).value
        && forall j | 0 <= j < i :: Distance(t, rows[j]) > Distance(t, rows[i])
  {
  }

  /** The selected strike is that of the first nearest candidate. */
  lemma FindStrikeFirstOnTies(chain: Chain, t: Target, kind: OptionType, dte: int)
    requires FindStrike(chain, t, kind, dte).Ok?
    ensures var rows := Candidates(chain, kind, dte);
      exists i | 0 <= i < |rows| :: rows[i].strike == FindStrike(chain, t, kind, dte).value
        && forall j | 0 <= j < i :: Distance(t, rows[j]) > Distance(t, rows[i])
  {
    FindContractFirstOnTies(chain, t, kind, dte);
  }

  /** Selecting by price with a strike that a selector already returned for the
      same type and DTE gives that strike back. */
  lemma {:induction false} StrikeRoundTrip(chain: Chain, t: Target, kind: OptionType, dte: int)
    requires FindStrike(chain, t, kind, dte).Ok?
    ensures FindStrike(chain, ByPrice(FindStrike(chain, t, kind, dte).value), kind, dte)
      == FindStrike(chain, t, kind, dte)
  {
    var c := FindContract(chain, t, kind, dte).value;
    assert FindStrike(chain, t, kind, dte) == Ok(c.strike);
    assert c in Candidates(chain, kind, dte);
    var probe := ByPrice(c.strike);
    assert FindContract(chain, probe, kind, dte).Ok?;
    var back := FindContract(chain, probe, kind, dte).value;
    assert Distance(probe, back) <= Distance(probe, c) == 0.0;
    assert back.strike == c.strike;
    assert FindStrike(chain, probe, kind, dte) == Ok(back.strike);
  }

  // ---------------------------------------------------------------- quotes

  /** The first row with exactly this strike, type and DTE. */
  function Quote(chain: Chain, strike: real, kind: OptionType, dte: int): (r: Result<Contract, ChainError>)
    ensures r.Err? <==> (forall c | c in chain :: !(c.strike == strike && c.kind == kind && c.dte == dte))
    ensures r.Err? ==> r.error == OptionNotFound(kind, strike, dte)
    ensures r.Ok? ==> r.value in chain && r.value.strike == strike && r.value.kind == kind && r.value.dte == dte
    ensures r.Ok? ==> exists i | 0 <= i < |chain| ::
      chain[i] == r.value && forall j | 0 <= j < i :: !(chain[j].strike == strike && chain[j].kind == kind && chain[j].dte == dte)
  {
    if chain == [] then Err(OptionNotFound(kind, strike, dte))
    else if chain[0].strike == strike && chain[0].kind == kind && chain[0].dte == dte then Ok(chain[0])
    else
      var r := Quote(chain[1..], strike, kind, dte);
      assert chain == [chain[0]] + chain[1..];
      r
  }

  /** `_get_option_cost`: the ask of the quoted contract. */
  function Ask(chain: Chain, strike: real, kind: OptionType, dte: int): (r: Result<real, ChainError>)
    ensures r.Err? <==> Quote(chain, strike, kind, dte).Err?
    ensures r.Ok? ==> exists c | c in chain :: c.strike == strike && c.kind == kind && c.dte == dte && c.ask == r.value
  {
    var c :- Quote(chain, strike, kind, dte);
    Ok(c.ask)
  }

  /** `_get_option_bid`: the bid of the quoted contract. */
  function Bid(chain: Chain, strike: real, kind: OptionType, dte: int): (r: Result<real, ChainError>)
    ensures r.Err? <==> Quote(chain, strike, kind, dte).Err?
    ensures r.Ok? ==> exists c | c in chain :: c.strike == strike && c.kind == kind && c.dte == dte && c.bid == r.value
  {
    var c :- Quote(chain, strike, kind, dte);
    Ok(c.bid)
  }

  /** A strike chosen at a DTE the chain has for that type can always be quoted. */
  lemma {:induction false} ChosenStrikeIsQuotable(chain: Chain, t: Target, kind: OptionType, dte: int)
    requires exists c | c in chain :: c.kind == kind && c.dte == dte
    ensures FindStrike(chain, t, kind, dte).Ok?
    ensures Quote(chain, FindStrike(chain, t, kind, dte).value, kind, dte).Ok?
  {
    var c := FindContract(chain, t, kind, dte).value;
    assert c in chain && c.strike == FindStrike(chain, t, kind, dte).value && c.kind == kind && c.dte == dte;
  }
}
