/** The candidate parameter grids that label creation backtests for each
    strategy. Strikes are snapped to the 2.5 grid with a rounding function
    supplied by the caller. */
module LabelGrids {
  import opened Strategies

  /** One candidate parameter set; the fields are the keys the grid emits. */
  datatype Params =
    | CondorLegs(shortPut: real, longPut: real, shortCall: real, longCall: real, dte: int)
    | SpreadLegs(longStrike: real, shortStrike: real, dte: int)
    | StrikeDte(strike: real, dte: int)
    | ButterflyLegs(centerStrike: real, longPut: real, shortPut: real, shortCall: real, longCall: real, dte: int)
    | StrangleLegs(putStrike: real, callStrike: real, dte: int)
    | CalendarLegs(strike: real, nearDte: int, farDte: int)
    | DiagonalLegs(longStrike: real, shortStrike: real, nearDte: int, farDte: int)

  /** `round(x / 2.5) * 2.5`. */
  function Snap(round: real -> int, x: real): real {
    round(x / 2.5) as real * 2.5
  }

  /** Position `n * a + b` of a row-major listing with rows of `n` decodes to (a, b). */
  lemma RowMajor2(a: nat, b: nat, n: nat)
    requires b < n && n in {2, 3, 5, 9}
    ensures (n * a + b) / n == a && (n * a + b) % n == b
  {
    if n == 2 {
      assert (2 * a + b) / 2 == a;
    } else if n == 3 {
      assert (3 * a + b) / 3 == a;
    } else if n == 5 {
      assert (5 * a + b) / 5 == a;
    } else {
      assert (9 * a + b) / 9 == a;
    }
  }

  /** Position `9a + 3b + c` of a three-by-three-by-n listing decodes to (a, b, c). */
  lemma RowMajor3(a: nat, b: nat, c: nat)
    requires b < 3 && c < 3
    ensures (9 * a + 3 * b + c) / 9 == a && ((9 * a + 3 * b + c) / 3) % 3 == b && (9 * a + 3 * b + c) % 3 == c
  {
    RowMajor2(a, 3 * b + c, 9);
    RowMajor2(3 * a + b, c, 3);
    assert 9 * a + 3 * b + c == 3 * (3 * a + b) + c;
    RowMajor2(a, b, 3);
  }

  /** Python's `combinations[:n]`. */
  function Take(ps: seq<Params>, n: nat): (r: seq<Params>)
    ensures |r| <= n && r <= ps
    ensures |ps| <= n ==> r == ps
    ensures forall p | p in r :: p in ps
  {
    if |ps| <= n then ps else ps[..n]
  }

  // ------------------------------------------------------------ long call / put

  const LongDtes: seq<int> := [7, 14, 21]
  const LongMoneyness: seq<real> := [0.95, 0.98, 1.00, 1.02, 1.05]

  /** Grid point (a, b): the a-th DTE and the b-th moneyness; puts mirror the
      moneyness around 1. */
  function LongOptionPoint(price: real, kind: Strategy, round: real -> int, a: nat, b: nat): Params
    requires a < 3 && b < 5
  {
    var m := LongMoneyness[b];
    StrikeDte(Snap(round, if kind == LongCall then price * m else price * (2.0 - m)), LongDtes[a])
  }

  /** `generate_long_option_params`: the first ten of the fifteen grid points,
      so only the 7- and 14-day expiries are ever tried. */
  method LongOptionGrid(price: real, kind: Strategy, round: real -> int) returns (r: seq<Params>)
    ensures |r| == 10
    ensures forall k | 0 <= k < |r| :: r[k] == LongOptionPoint(price, kind, round, k / 5, k % 5)
    ensures forall k | 0 <= k < |r| :: r[k].StrikeDte? && r[k].dte in {7, 14}
  {
    var combos: seq<Params> := [];
    for a := 0 to 3
      invariant |combos| == 5 * a
      invariant forall k | 0 <= k < |combos| :: combos[k] == LongOptionPoint(price, kind, round, k / 5, k % 5)
    {
      for b := 0 to 5
        invariant |combos| == 5 * a + b
        invariant forall k | 0 <= k < |combos| :: combos[k] == LongOptionPoint(price, kind, round, k / 5, k % 5)
      {
        RowMajor2(a, b, 5);
        combos := combos + [LongOptionPoint(price, kind, round, a, b)];
      }
    }
    r := combos[..10];
  }

  // ------------------------------------------------------------ iron condor

  const CondorDtes: seq<int> := [14, 21, 30]
  const CondorDistances: seq<real> := [0.05, 0.07, 0.10]
  const CondorWings: seq<real> := [0.02, 0.03]

  /** Grid point: the a-th DTE, the b-th put distance, the c-th call distance
      and the d-th wing width, each a fraction of the price. */
  function CondorPoint(price: real, round: real -> int, a: nat, b: nat, c: nat, d: nat): Params
    requires a < 3 && b < 3 && c < 3 && d < 2
  {
    var pd := CondorDistances[b];
    var cd := CondorDistances[c];
    var w := CondorWings[d];
    CondorLegs(Snap(round, price * (1.0 - pd)), Snap(round, price * (1.0 - pd - w)),
               Snap(round, price * (1.0 + cd)), Snap(round, price * (1.0 + cd + w)), CondorDtes[a])
  }

  predicate CondorKeeps(p: Params) {
    p.CondorLegs? && p.longPut < p.shortPut && p.shortCall < p.longCall
  }

  /** The points listed before position (a, b, c, d) of the nested listing
      (DTE, then put distance, then call distance, then wing width) that
      pass the filter, in listing order. A digit one past its last value
      stands for the end of that row, so (3, 0, 0, 0) is the whole listing. */
  function CondorKeptBefore(price: real, round: real -> int, a: nat, b: nat, c: nat, d: nat): (r: seq<Params>)
    requires a <= 3 && b <= 3 && c <= 3 && d <= 2
    requires (a == 3 ==> b == c == d == 0) && (b == 3 ==> c == d == 0) && (c == 3 ==> d == 0)
    ensures |r| <= 18 * a + 6 * b + 2 * c + d
    ensures forall p | p in r :: CondorKeeps(p) && p.dte in {14, 21, 30}
    decreases a, b, c, d
  {
    if d > 0 then
      var p := CondorPoint(price, round, a, b, c, d - 1);
      CondorKeptBefore(price, round, a, b, c, d - 1) + (if CondorKeeps(p) then [p] else [])
    else if c > 0 then CondorKeptBefore(price, round, a, b, c - 1, 2)
    else if b > 0 then CondorKeptBefore(price, round, a, b - 1, 3, 0)
    else if a > 0 then CondorKeptBefore(price, round, a - 1, 3, 0, 0)
    else []
  }

  /** `generate_iron_condor_params`: the grid points whose wings lie strictly
      outside the short strikes after snapping, in listing order, cut to
      twenty. */
  method CondorGrid(price: real, round: real -> int) returns (r: seq<Params>)
    ensures r == Take(CondorKeptBefore(price, round, 3, 0, 0, 0), 20)
    ensures |r| <= 20
    ensures forall p | p in r ::
      p.CondorLegs? && p.longPut < p.shortPut && p.shortCall < p.longCall && p.dte in {14, 21, 30}
  {
    var combos: seq<Params> := [];
    for a := 0 to 3
      invariant combos == CondorKeptBefore(price, round, a, 0, 0, 0)
    {
      for b := 0 to 3
        invariant combos == CondorKeptBefore(price, round, a, b, 0, 0)
      {
        for c := 0 to 3
          invariant combos == CondorKeptBefore(price, round, a, b, c, 0)
        {
          for d := 0 to 2
            invariant combos == CondorKeptBefore(price, round, a, b, c, d)
          {
            var p := CondorPoint(price, round, a, b, c, d);
            if CondorKeeps(p) {
              combos := combos + [p];
            }
          }
        }
      }
    }
    r := Take(combos, 20);
  }

  // ------------------------------------------------------------ vertical spreads

  const SpreadDtes: seq<int> := [14, 21, 30]
  const SpreadWidths: seq<real> := [0.02, 0.03, 0.05]
  const SpreadMoneyness: seq<real> := [0.98, 1.00, 1.02]

  /** Grid point: the a-th DTE, the b-th width and the c-th moneyness; the
      short leg sits above the long leg for a bull call spread and below it
      for any other label. */
  function SpreadPoint(price: real, kind: Strategy, round: real -> int, a: nat, b: nat, c: nat): Params
    requires a < 3 && b < 3 && c < 3
  {
    var w := SpreadWidths[b];
    var m := SpreadMoneyness[c];
    SpreadLegs(Snap(round, price * m),
               Snap(round, if kind == BullCallSpread then price * m * (1.0 + w) else price * m * (1.0 - w)),
               SpreadDtes[a])
  }

  predicate SpreadKeeps(p: Params) {
    p.SpreadLegs? && p.longStrike != p.shortStrike
  }

  /** The points listed before position (a, b, c) of the nested listing (DTE,
      then width, then moneyness) whose legs differ, in listing order; a digit
      one past its last value stands for the end of that row, so (3, 0, 0) is
      the whole listing. */
  function SpreadKeptBefore(price: real, kind: Strategy, round: real -> int, a: nat, b: nat, c: nat): (r: seq<Params>)
    requires a <= 3 && b <= 3 && c <= 3
    requires (a == 3 ==> b == c == 0) && (b == 3 ==> c == 0)
    ensures |r| <= 9 * a + 3 * b + c
    ensures forall p | p in r :: SpreadKeeps(p) && p.dte in {14, 21, 30}
    decreases a, b, c
  {
    if c > 0 then
      var p := SpreadPoint(price, kind, round, a, b, c - 1);
      SpreadKeptBefore(price, kind, round, a, b, c - 1) + (if SpreadKeeps(p) then [p] else [])
    else if b > 0 then SpreadKeptBefore(price, kind, round, a, b - 1, 3)
    else if a > 0 then SpreadKeptBefore(price, kind, round, a - 1, 3, 0)
    else []
  }

  /** `generate_spread_params`: the grid points whose legs differ after
      snapping, in listing order, cut to fifteen. */
  method SpreadGrid(price: real, kind: Strategy, round: real -> int) returns (r: seq<Params>)
    ensures r == Take(SpreadKeptBefore(price, kind, round, 3, 0, 0), 15)
    ensures |r| <= 15
    ensures forall p | p in r :: p.SpreadLegs? && p.longStrike != p.shortStrike && p.dte in {14, 21, 30}
  {
    var combos: seq<Params> := [];
    for a := 0 to 3
      invariant combos == SpreadKeptBefore(price, kind, round, a, 0, 0)
    {
      for b := 0 to 3
        invariant combos == SpreadKeptBefore(price, kind, round, a, b, 0)
      {
        for c := 0 to 3
          invariant combos == SpreadKeptBefore(price, kind, round, a, b, c)
        {
          var p := SpreadPoint(price, kind, round, a, b, c);
          if SpreadKeeps(p) {
            combos := combos + [p];
          }
        }
      }
    }
    r := Take(combos, 15);
  }

  // ------------------------------------------------------------ iron butterfly

  const ButterflyDtes: seq<int> := [21, 30, 45]
  const ButterflyWings: seq<real> := [0.03, 0.05, 0.07]

  /** Grid point: the a-th DTE and the b-th wing width, centred at the money. */
  function ButterflyPoint(price: real, round: real -> int, a: nat, b: nat): Params
    requires a < 3 && b < 3
  {
    var center := Snap(round, price);
    var wing := Snap(round, price * ButterflyWings[b]);
    ButterflyLegs(center, center - wing, center, center, center + wing, ButterflyDtes[a])
  }

  /** `generate_iron_butterfly_params`: all nine grid points (the cap of
      fifteen never applies); both short legs sit at the centre and the
      wings are symmetric around it. */
  method ButterflyGrid(price: real, round: real -> int) returns (r: seq<Params>)
    ensures |r| == 9
    ensures forall k | 0 <= k < |r| :: r[k] == ButterflyPoint(price, round, k / 3, k % 3)
    ensures forall p | p in r ::
      && p.ButterflyLegs? && p.shortPut == p.shortCall == p.centerStrike
      && p.centerStrike - p.longPut == p.longCall - p.centerStrike
      && p.dte in {21, 30, 45}
  {
    var combos: seq<Params> := [];
    for a := 0 to 3
      invariant |combos| == 3 * a
      invariant forall k | 0 <= k < |combos| :: combos[k] == ButterflyPoint(price, round, k / 3, k % 3)
    {
      for b := 0 to 3
        invariant |combos| == 3 * a + b
        invariant forall k | 0 <= k < |combos| :: combos[k] == ButterflyPoint(price, round, k / 3, k % 3)
      {
        RowMajor2(a, b, 3);
        combos := combos + [ButterflyPoint(price, round, a, b)];
      }
    }
    r := combos;
    forall p | p in r
      ensures p.ButterflyLegs? && p.shortPut == p.shortCall == p.centerStrike
      ensures p.centerStrike - p.longPut == p.longCall - p.centerStrike && p.dte in {21, 30, 45}
    {
      var k :| 0 <= k < |r| && r[k] == p;
    }
  }

  // ------------------------------------------------------------ straddle

  const StraddleDtes: seq<int> := [7, 14, 21, 30]
  const StraddleMoneyness: seq<real> := [0.98, 1.00, 1.02]

  function StraddlePoint(price: real, round: real -> int, a: nat, b: nat): Params
    requires a < 4 && b < 3
  {
    StrikeDte(Snap(round, price * StraddleMoneyness[b]), StraddleDtes[a])
  }

  /** `generate_straddle_params`: the first ten of twelve grid points, so the
      30-day expiry is only tried at the lowest strike. */
  method StraddleGrid(price: real, round: real -> int) returns (r: seq<Params>)
    ensures |r| == 10
    ensures forall k | 0 <= k < |r| :: r[k] == StraddlePoint(price, round, k / 3, k % 3)
  {
    var combos: seq<Params> := [];
    for a := 0 to 4
      invariant |combos| == 3 * a
      invariant forall k | 0 <= k < |combos| :: combos[k] == StraddlePoint(price, round, k / 3, k % 3)
    {
      for b := 0 to 3
        invariant |combos| == 3 * a + b
        invariant forall k | 0 <= k < |combos| :: combos[k] == StraddlePoint(price, round, k / 3, k % 3)
      {
        RowMajor2(a, b, 3);
        combos := combos + [StraddlePoint(price, round, a, b)];
      }
    }
    r := combos[..10];
  }

  // ------------------------------------------------------------ strangle

  const StrangleDtes: seq<int> := [14, 21, 30]
  const StrangleDistances: seq<real> := [0.03, 0.05, 0.07]

  function StranglePoint(price: real, round: real -> int, a: nat, b: nat, c: nat): Params
    requires a < 3 && b < 3 && c < 3
  {
    StrangleLegs(Snap(round, price * (1.0 - StrangleDistances[b])),
                 Snap(round, price * (1.0 + StrangleDistances[c])), StrangleDtes[a])
  }

  /** `generate_strangle_params`: the first fifteen of 27 grid points, so
      only the 14- and 21-day expiries are tried. */
  method StrangleGrid(price: real, round: real -> int) returns (r: seq<Params>)
    ensures |r| == 15
    ensures forall k | 0 <= k < |r| :: r[k] == StranglePoint(price, round, k / 9, (k / 3) % 3, k % 3)
    ensures forall p | p in r :: p.StrangleLegs? && p.dte in {14, 21}
  {
    var combos: seq<Params> := [];
    for a := 0 to 3
      invariant |combos| == 9 * a
      invariant forall k | 0 <= k < |combos| :: combos[k] == StranglePoint(price, round, k / 9, (k / 3) % 3, k % 3)
    {
      for b := 0 to 3
        invariant |combos| == 9 * a + 3 * b
        invariant forall k | 0 <= k < |combos| :: combos[k] == StranglePoint(price, round, k / 9, (k / 3) % 3, k % 3)
      {
        for c := 0 to 3
          invariant |combos| == 9 * a + 3 * b + c
          invariant forall k | 0 <= k < |combos| :: combos[k] == StranglePoint(price, round, k / 9, (k / 3) % 3, k % 3)
        {
          RowMajor3(a, b, c);
          combos := combos + [StranglePoint(price, round, a, b, c)];
        }
      }
    }
    r := combos[..15];
    forall p | p in r ensures p.StrangleLegs? && p.dte in {14, 21} {
      var k :| 0 <= k < |r| && r[k] == p;
    }
  }

  // ------------------------------------------------------------ calendar

  const CalendarNearDtes: seq<int> := [14, 21]
  const CalendarFarDtes: seq<int> := [35, 45, 60]
  const CalendarMoneyness: seq<real> := [0.98, 1.00, 1.02]

  function CalendarPoint(price: real, round: real -> int, a: nat, b: nat, c: nat): Params
    requires a < 2 && b < 3 && c < 3
  {
    CalendarLegs(Snap(round, price * CalendarMoneyness[c]), CalendarNearDtes[a], CalendarFarDtes[b])
  }

  /** `generate_calendar_spread_params`: every far expiry exceeds every near
      one, so the filter keeps all eighteen points and the cap keeps the
      first twelve. */
  method CalendarGrid(price: real, round: real -> int) returns (r: seq<Params>)
    ensures |r| == 12
    ensures forall k | 0 <= k < |r| :: r[k] == CalendarPoint(price, round, k / 9, (k / 3) % 3, k % 3)
    ensures forall p | p in r :: p.CalendarLegs? && p.nearDte < p.farDte
  {
    var combos: seq<Params> := [];
    for a := 0 to 2
      invariant |combos| == 9 * a
      invariant forall k | 0 <= k < |combos| :: combos[k] == CalendarPoint(price, round, k / 9, (k / 3) % 3, k % 3)
    {
      for b := 0 to 3
        invariant |combos| == 9 * a + 3 * b
        invariant forall k | 0 <= k < |combos| :: combos[k] == CalendarPoint(price, round, k / 9, (k / 3) % 3, k % 3)
      {
        for c := 0 to 3
          invariant |combos| == 9 * a + 3 * b + c
          invariant forall k | 0 <= k < |combos| :: combos[k] == CalendarPoint(price, round, k / 9, (k / 3) % 3, k % 3)
        {
          var p := CalendarPoint(price, round, a, b, c);
          if p.farDte > p.nearDte {
            RowMajor3(a, b, c);
            combos := combos + [p];
          } else {
            assert false;
          }
        }
      }
    }
    r := combos[..12];
    forall p | p in r ensures p.CalendarLegs? && p.nearDte < p.farDte {
      var k :| 0 <= k < |r| && r[k] == p;
    }
  }

  // ------------------------------------------------------------ diagonal

  const DiagonalNearDtes: seq<int> := [14, 21]
  const DiagonalFarDtes: seq<int> := [35, 45]
  const DiagonalLongMoneyness: seq<real> := [0.98, 1.00, 1.02]
  const DiagonalShortMoneyness: seq<real> := [1.02, 1.05]

  function DiagonalPoint(price: real, round: real -> int, a: nat, b: nat, c: nat, d: nat): Params
    requires a < 2 && b < 2 && c < 3 && d < 2
  {
    DiagonalLegs(Snap(round, price * DiagonalLongMoneyness[c]), Snap(round, price * DiagonalShortMoneyness[d]),
                 DiagonalNearDtes[a], DiagonalFarDtes[b])
  }

  predicate DiagonalKeeps(p: Params) {
    p.DiagonalLegs? && p.farDte > p.nearDte && p.shortStrike > p.longStrike
  }

  /** The points listed before position (a, b, c, d) of the nested listing
      (near DTE, then far DTE, then long moneyness, then short moneyness) that
      pass the filter, in listing order; a digit one past its last value
      stands for the end of that row, so (2, 0, 0, 0) is the whole listing. */
  function DiagonalKeptBefore(price: real, round: real -> int, a: nat, b: nat, c: nat, d: nat): (r: seq<Params>)
    requires a <= 2 && b <= 2 && c <= 3 && d <= 2
    requires (a == 2 ==> b == c == d == 0) && (b == 2 ==> c == d == 0) && (c == 3 ==> d == 0)
    ensures |r| <= 12 * a + 6 * b + 2 * c + d
    ensures forall p | p in r :: DiagonalKeeps(p)
    decreases a, b, c, d
  {
    if d > 0 then
      var p := DiagonalPoint(price, round, a, b, c, d - 1);
      DiagonalKeptBefore(price, round, a, b, c, d - 1) + (if DiagonalKeeps(p) then [p] else [])
    else if c > 0 then DiagonalKeptBefore(price, round, a, b, c - 1, 2)
    else if b > 0 then DiagonalKeptBefore(price, round, a, b - 1, 3, 0)
    else if a > 0 then DiagonalKeptBefore(price, round, a - 1, 2, 0, 0)
    else []
  }

  /** `generate_diagonal_spread_params`: the grid points whose short strike
      lies above the long strike after snapping (every far expiry is beyond
      every near one), in listing order, cut to fifteen. */
  method DiagonalGrid(price: real, round: real -> int) returns (r: seq<Params>)
    ensures r == Take(DiagonalKeptBefore(price, round, 2, 0, 0, 0), 15)
    ensures |r| <= 15
    ensures forall p | p in r :: p.DiagonalLegs? && p.nearDte < p.farDte && p.longStrike < p.shortStrike
  {
    var combos: seq<Params> := [];
    for a := 0 to 2
      invariant combos == DiagonalKeptBefore(price, round, a, 0, 0, 0)
    {
      for b := 0 to 2
        invariant combos == DiagonalKeptBefore(price, round, a, b, 0, 0)
      {
        for c := 0 to 3
          invariant combos == DiagonalKeptBefore(price, round, a, b, c, 0)
        {
          for d := 0 to 2
            invariant combos == DiagonalKeptBefore(price, round, a, b, c, d)
          {
            var p := DiagonalPoint(price, round, a, b, c, d);
            if DiagonalKeeps(p) {
              combos := combos + [p];
            }
          }
        }
      }
    }
    r := Take(combos, 15);
  }
}
