/** Static configuration of the delivery planner (three depots, three stores,
    the fixed distance table and cost multiplier) and the arithmetic on the
    3 x 3 depot/store grid that the builder, the reshape and the schedule share.

    The linear program has one variable per (depot, store) pair, numbered in
    depot-major order: the shipment from depot i to store j is variable 3*i + j. */
module DeliveryData {

  const Depots: nat := 3
  const Stores: nat := 3
  /** Number of LP variables, one per (depot, store) pair. */
  const Vars: nat := 9

  /** Capacity of Store 1, Store 2 and Store 3. */
  const StoreCaps: seq<int> := [2000, 3000, 2000]

  /** Miles from depot i (row) to store j (column). */
  const Distances: seq<seq<int>> := [[22, 33, 40], [27, 30, 22], [36, 20, 25]]

  const CostPerMile: int := 5

  /** Index of the LP variable for the shipment from `depot` to `store`. */
  function Var(depot: int, store: int): int
  {
    3 * depot + store
  }

  /** The depot of LP variable `k`. */
  function DepotOf(k: int): int
  {
    k / 3
  }

  /** The store of LP variable `k`. */
  function StoreOf(k: int): int
  {
    k % 3
  }

  /** Every variable index is the index of exactly one (depot, store) pair. */
  lemma VarNumbering(k: int)
    requires 0 <= k < Vars
    ensures 0 <= DepotOf(k) < Depots && 0 <= StoreOf(k) < Stores
    ensures Var(DepotOf(k), StoreOf(k)) == k
    ensures forall i, j :: 0 <= i < Depots && 0 <= j < Stores && Var(i, j) == k ==>
              i == DepotOf(k) && j == StoreOf(k)
  {
  }

  /** Every row has one entry per store. */
  predicate Rectangular(g: seq<seq<int>>)
  {
    forall i :: 0 <= i < |g| ==> |g[i]| == Stores
  }

  /** A depot x store matrix. */
  predicate IsGrid(g: seq<seq<int>>)
  {
    |g| == Depots && Rectangular(g)
  }

  function Sum(s: seq<int>): int
  {
    if |s| == 0 then 0 else s[0] + Sum(s[1..])
  }

  lemma SumOfThree(s: seq<int>)
    requires |s| == 3
    ensures Sum(s) == s[0] + s[1] + s[2]
  {
    assert s[1..][1..] == s[2..];
    assert Sum(s[2..]) == s[2] + Sum(s[3..]);
  }

  /** Inner product of a constraint row (or the cost vector) with a variable vector. */
  function Dot(a: seq<int>, x: seq<int>): int
    requires |a| == |x|
  {
    if |a| == 0 then 0 else a[0] * x[0] + Dot(a[1..], x[1..])
  }

  /** Dot over a vector of length `Vars`, written out term by term. */
  lemma DotOfNine(a: seq<int>, x: seq<int>)
    requires |a| == Vars && |x| == Vars
    ensures Dot(a, x) == a[0] * x[0] + a[1] * x[1] + a[2] * x[2]
                       + a[3] * x[3] + a[4] * x[4] + a[5] * x[5]
                       + a[6] * x[6] + a[7] * x[7] + a[8] * x[8]
  {
    DotStep(a, x, 8);
    DotStep(a, x, 7);
    DotStep(a, x, 6);
    DotStep(a, x, 5);
    DotStep(a, x, 4);
    DotStep(a, x, 3);
    DotStep(a, x, 2);
    DotStep(a, x, 1);
    DotStep(a, x, 0);
  }

  /** One unfolding of Dot on a suffix. */
  lemma DotStep(a: seq<int>, x: seq<int>, k: nat)
    requires k < |a| == |x|
    ensures Dot(a[k..], x[k..]) == a[k] * x[k] + Dot(a[k + 1..], x[k + 1..])
  {
    assert a[k..][1..] == a[k + 1..] && x[k..][1..] == x[k + 1..];
  }

  lemma {:induction false} DotAppend(a: seq<int>, b: seq<int>, x: seq<int>, y: seq<int>)
    requires |a| == |x| && |b| == |y|
    ensures Dot(a + b, x + y) == Dot(a, x) + Dot(b, y)
  {
    if |a| == 0 {
      assert a + b == b && x + y == y;
    } else {
      assert (a + b)[1..] == a[1..] + b && (x + y)[1..] == x[1..] + y;
      DotAppend(a[1..], b, x[1..], y);
    }
  }

  /** The part of `Dot(a, x)` over depot b's block of variables `3*b .. 3*b + 2`. */
  function BlockDot(a: seq<int>, x: seq<int>, b: int): int
    requires |a| == Vars && |x| == Vars && 0 <= b < Depots
  {
    Dot(a[Var(b, 0)..Var(b, 0) + 3], x[Var(b, 0)..Var(b, 0) + 3])
  }

  /** Dot over a vector of length `Vars` is the sum over the three depot blocks. */
  lemma DotOfBlocks(a: seq<int>, x: seq<int>)
    requires |a| == Vars && |x| == Vars
    ensures Dot(a, x) == BlockDot(a, x, 0) + BlockDot(a, x, 1) + BlockDot(a, x, 2)
  {
    assert a == a[0..3] + a[3..6] + a[6..9] && x == x[0..3] + x[3..6] + x[6..9];
    DotAppend(a[0..3], a[3..6], x[0..3], x[3..6]);
    DotAppend(a[0..3] + a[3..6], a[6..9], x[0..3] + x[3..6], x[6..9]);
  }

  lemma DotOfThree(a: seq<int>, x: seq<int>)
    requires |a| == 3 && |x| == 3
    ensures Dot(a, x) == a[0] * x[0] + a[1] * x[1] + a[2] * x[2]
  {
    DotStep(a, x, 2);
    DotStep(a, x, 1);
  }

  /** Row-by-row concatenation of a matrix (numpy's `flatten`). */
  function Flatten(g: seq<seq<int>>): (r: seq<int>)
    requires Rectangular(g)
    ensures |r| == 3 * |g|
    ensures forall i, j :: 0 <= i < |g| && 0 <= j < Stores ==> r[Var(i, j)] == g[i][j]
  {
    if |g| == 0 then [] else g[0] + Flatten(g[1..])
  }
}
