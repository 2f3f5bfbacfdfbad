/** The top-k class ranking both prediction front ends show next to the
    predicted strategy: `argsort(p)[-k:][::-1]`. */
module Ranking {
  import opened Wrappers

  /** `r` lists distinct indices of `p` by non-increasing value, and no index
      left out has a larger value than any listed one. */
  predicate Ranked(p: seq<real>, r: seq<nat>) {
    && (forall i | 0 <= i < |r| :: r[i] < |p|)
    && (forall i, j | 0 <= i < j < |r| :: r[i] != r[j] && p[r[i]] >= p[r[j]])
    && (forall j | 0 <= j < |p| && j !in r :: forall i | 0 <= i < |r| :: p[j] <= p[r[i]])
  }

  /** Index `m` holds a value larger than every other entry. */
  predicate StrictMax(p: seq<real>, m: nat) {
    m < |p| && forall j | 0 <= j < |p| && j != m :: p[j] < p[m]
  }

  /** Every index of `p` is listed in `r`. */
  predicate Covers(p: seq<real>, r: seq<nat>) {
    forall j | 0 <= j < |p| :: j in r
  }

  /** The index of the largest value among the first `n` entries outside
      `taken`; on ties the later index, as reading a stable ascending sort
      backwards gives. */
  function BestOutside(p: seq<real>, taken: seq<nat>, n: nat): (r: Option<nat>)
    requires n <= |p|
    ensures r.None? <==> forall j | 0 <= j < n :: j in taken
    ensures r.Some? ==> r.value < n && r.value !in taken
    ensures r.Some? ==> forall j | 0 <= j < n && j !in taken :: p[j] <= p[r.value]
  {
    if n == 0 then None
    else
      var rest := BestOutside(p, taken, n - 1);
      if n - 1 in taken then rest
      else if rest.None? || p[n - 1] >= p[rest.value] then Some(n - 1)
      else rest
  }

  /** Appending the best index outside a ranking keeps it a ranking. */
  lemma RankedAppend(p: seq<real>, taken: seq<nat>, i: nat)
    requires Ranked(p, taken)
    requires i < |p| && i !in taken
    requires forall j | 0 <= j < |p| && j !in taken :: p[j] <= p[i]
    ensures Ranked(p, taken + [i])
  {
    var next := taken + [i];
    forall a, b | 0 <= a < b < |next| ensures next[a] != next[b] && p[next[a]] >= p[next[b]] {
      if b == |taken| {
        assert next[a] == taken[a];
      }
    }
    forall j | 0 <= j < |p| && j !in next ensures forall a | 0 <= a < |next| :: p[j] <= p[next[a]] {
      assert j !in taken;
    }
  }

  /** Extend a ranking by up to `k` further indices, best first. */
  function Extend(p: seq<real>, taken: seq<nat>, k: nat): (r: seq<nat>)
    requires Ranked(p, taken)
    ensures Ranked(p, r)
    ensures |taken| <= |r| <= |taken| + k && r[..|taken|] == taken
    ensures |r| < |taken| + k ==> Covers(p, r)
    decreases k
  {
    if k == 0 then taken
    else
      var best := BestOutside(p, taken, |p|);
      if best.None? then
        assert Covers(p, taken);
        taken
      else
        RankedAppend(p, taken, best.value);
        var next := taken + [best.value];
        var r := Extend(p, next, k - 1);
        assert r[..|taken|] == r[..|next|][..|taken|];
        assert forall j | j in taken :: j in r by {
          forall j | j in taken ensures j in r {
            assert j in r[..|taken|];
          }
        }
        r
  }

  /** The `k` indices with the largest values, largest first: as many as
      there are entries when fewer than `k`. */
  function TopK(p: seq<real>, k: nat): (r: seq<nat>)
    ensures Ranked(p, r)
    ensures |r| <= k
    ensures |r| < k ==> Covers(p, r)
    ensures |p| > 0 && k > 0 ==> |r| > 0 && forall j | 0 <= j < |p| :: p[j] <= p[r[0]]
  {
    var r := Extend(p, [], k);
    assert |p| > 0 && |r| < k ==> 0 in r;
    r
  }
}
