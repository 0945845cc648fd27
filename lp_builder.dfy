/** The arrays of the linear program handed to the solver (app.py:70-83): the
    cost vector, the store-capacity inequalities `A_store x <= store_caps`,
    the depot-supply equalities `A_depot x == depot_supply` and one
    non-negativity bound per variable. */
module LpBuilder {
  import opened DeliveryData

  datatype Option<T> = None | Some(value: T)

  /** A variable bound `(lower, upper)`; `None` is no upper bound. */
  datatype Bound = Bound(lower: int, upper: Option<int>)

  const NonNegative: Bound := Bound(0, None)

  /** Everything the solver receives: minimise `Dot(c, x)` subject to
      `aUb x <= bUb`, `aEq x == bEq` and the bounds. */
  datatype LinearProgram = LinearProgram(
    c: seq<int>,
    aUb: seq<seq<int>>, bUb: seq<int>,
    aEq: seq<seq<int>>, bEq: seq<int>,
    bounds: seq<Bound>)

  /** `x` satisfies every constraint and bound of `lp`. */
  predicate Feasible(lp: LinearProgram, x: seq<int>)
  {
    && |x| == |lp.c| && |lp.bounds| == |x|
    && |lp.aUb| == |lp.bUb|
    && (forall r :: 0 <= r < |lp.aUb| ==> |lp.aUb[r]| == |x| && Dot(lp.aUb[r], x) <= lp.bUb[r])
    && |lp.aEq| == |lp.bEq|
    && (forall r :: 0 <= r < |lp.aEq| ==> |lp.aEq[r]| == |x| && Dot(lp.aEq[r], x) == lp.bEq[r])
    && (forall k :: 0 <= k < |x| ==> Within(lp.bounds[k], x[k]))
  }

  predicate Within(b: Bound, v: int)
  {
    b.lower <= v && (b.upper.Some? ==> v <= b.upper.value)
  }

  /** Element-wise product of a matrix with a scalar (`distances * cost_per_mile`). */
  function Scale(g: seq<seq<int>>, k: int): (r: seq<seq<int>>)
    requires Rectangular(g)
    ensures |r| == |g| && Rectangular(r)
    ensures forall i, j :: 0 <= i < |g| && 0 <= j < Stores ==> r[i][j] == g[i][j] * k
  {
    seq(|g|, i requires 0 <= i < |g| => seq(Stores, j requires 0 <= j < Stores => g[i][j] * k))
  }

  /** The objective coefficients `c` (app.py:70): the per-unit cost of every
      (depot, store) pair, depot-major. */
  function CostVector(distances: seq<seq<int>>, costPerMile: int): (c: seq<int>)
    requires IsGrid(distances)
    ensures |c| == Vars
    ensures forall i, j :: 0 <= i < Depots && 0 <= j < Stores ==>
              c[Var(i, j)] == distances[i][j] * costPerMile
  {
    Flatten(Scale(distances, costPerMile))
  }

  /** Entry (j, k) of `A_store`: variable k ships into store j. */
  function StoreCoefficient(j: int, k: int): int
  {
    if StoreOf(k) == j then 1 else 0
  }

  /** Entry (i, k) of `A_depot`: variable k is one of depot i's block
      `3*i .. 3*i + 2`, i.e. it ships out of depot i. */
  function DepotCoefficient(i: int, k: int): int
  {
    if Var(i, 0) <= k < Var(i, 0) + Stores then 1 else 0
  }

  function StoreMatrix(): seq<seq<int>>
  {
    seq(Stores, j => seq(Vars, k => StoreCoefficient(j, k)))
  }

  function DepotMatrix(): seq<seq<int>>
  {
    seq(Depots, i => seq(Vars, k => DepotCoefficient(i, k)))
  }

  /** The rows of a 2-dimensional array, as values. */
  function ToRows(a: array2<int>): (rows: seq<seq<int>>)
    reads a
    ensures |rows| == a.Length0
    ensures forall r :: 0 <= r < a.Length0 ==> |rows[r]| == a.Length1
    ensures forall r, k :: 0 <= r < a.Length0 && 0 <= k < a.Length1 ==> rows[r][k] == a[r, k]
  {
    seq(a.Length0, r requires 0 <= r < a.Length0 reads a =>
      seq(a.Length1, k requires 0 <= k < a.Length1 reads a => a[r, k]))
  }

  /** `A_store` (app.py:72-75): a 3 x 9 zero matrix, then for every store j and
      depot i the cell (j, 3*i + j) is set to 1. */
  method BuildStoreMatrix() returns (a: array2<int>)
    ensures fresh(a)
    ensures a.Length0 == Stores && a.Length1 == Vars
    ensures ToRows(a) == StoreMatrix()
  {
    a := new int[Stores, Vars]((_, _) => 0);
    for j := 0 to Stores
      invariant forall r, k :: 0 <= r < Stores && 0 <= k < Vars ==>
                  a[r, k] == if r < j then StoreCoefficient(r, k) else 0
    {
      for i := 0 to Depots
        invariant forall r, k :: 0 <= r < Stores && 0 <= k < Vars ==>
                    a[r, k] == if r < j || (r == j && k < Var(i, 0)) then StoreCoefficient(r, k) else 0
      {
        a[j, Var(i, j)] := 1;
      }
    }
    SameRows(a, StoreMatrix());
  }

  /** `A_depot` (app.py:78-80): a 3 x 9 zero matrix, then for every depot i the
      slice of row i over columns 3*i .. 3*i + 2 is set to 1. */
  method BuildDepotMatrix() returns (a: array2<int>)
    ensures fresh(a)
    ensures a.Length0 == Depots && a.Length1 == Vars
    ensures ToRows(a) == DepotMatrix()
  {
    a := new int[Depots, Vars]((_, _) => 0);
    for i := 0 to Depots
      invariant forall r, k :: 0 <= r < Depots && 0 <= k < Vars ==>
                  a[r, k] == if r < i then DepotCoefficient(r, k) else 0
    {
      forall k | Var(i, 0) <= k < Var(i, 0) + Stores {
        a[i, k] := 1;
      }
    }
    SameRows(a, DepotMatrix());
  }

  lemma SameRows(a: array2<int>, m: seq<seq<int>>)
    requires |m| == a.Length0
    requires forall r :: 0 <= r < |m| ==> |m[r]| == a.Length1
    requires forall r, k :: 0 <= r < a.Length0 && 0 <= k < a.Length1 ==> a[r, k] == m[r][k]
    ensures ToRows(a) == m
  {
    var rows := ToRows(a);
    forall r | 0 <= r < |m|
      ensures rows[r] == m[r]
    {
    }
  }

  /** `bounds` (app.py:83): lower bound 0 and no upper bound on each of the 9 variables. */
  method BuildBounds() returns (bounds: seq<Bound>)
    ensures |bounds| == Vars
    ensures forall k :: 0 <= k < |bounds| ==> bounds[k].lower == 0 && bounds[k].upper.None?
  {
    bounds := [];
    for k := 0 to Vars
      invariant |bounds| == k
      invariant forall m :: 0 <= m < k ==> bounds[m] == NonNegative
    {
      bounds := bounds + [NonNegative];
    }
  }

  /** Row j of `A_store` picks out exactly the three variables that ship into store j. */
  lemma StoreRowTotal(x: seq<int>, j: int)
    requires |x| == Vars && 0 <= j < Stores
    ensures Dot(StoreMatrix()[j], x) == x[Var(0, j)] + x[Var(1, j)] + x[Var(2, j)]
  {
    var row := StoreMatrix()[j];
    DotOfBlocks(row, x);
    forall b | 0 <= b < Depots
      ensures BlockDot(row, x, b) == x[Var(b, j)]
    {
      StoreBlock(j, b);
      DotOfUnit(j, x[Var(b, 0)..Var(b, 0) + 3]);
    }
  }

  /** `[0, 0, 0]` with a 1 at position j. */
  function Unit(j: int): seq<int>
  {
    seq(Stores, t => if t == j then 1 else 0)
  }

  /** In row j of `A_store`, depot b's block of columns is `Unit(j)`. */
  lemma StoreBlock(j: int, b: int)
    requires 0 <= j < Stores && 0 <= b < Depots
    ensures StoreMatrix()[j][Var(b, 0)..Var(b, 0) + 3] == Unit(j)
  {
    var block := StoreMatrix()[j][Var(b, 0)..Var(b, 0) + 3];
    forall t | 0 <= t < 3
      ensures block[t] == Unit(j)[t]
    {
      assert block[t] == StoreCoefficient(j, Var(b, t));
    }
  }

  lemma DotOfUnit(j: int, s: seq<int>)
    requires 0 <= j < 3 && |s| == 3
    ensures Dot(Unit(j), s) == s[j]
  {
    DotOfThree(Unit(j), s);
  }

  /** Row i of `A_depot` picks out exactly the three variables that ship out of depot i. */
  lemma DepotRowTotal(x: seq<int>, i: int)
    requires |x| == Vars && 0 <= i < Depots
    ensures Dot(DepotMatrix()[i], x) == x[Var(i, 0)] + x[Var(i, 1)] + x[Var(i, 2)]
  {
    var row := DepotMatrix()[i];
    DotOfBlocks(row, x);
    forall b | 0 <= b < Depots
      ensures BlockDot(row, x, b) == if b == i then x[Var(i, 0)] + x[Var(i, 1)] + x[Var(i, 2)] else 0
    {
      DepotBlock(i, b);
      DotOfFill(b == i, x[Var(b, 0)..Var(b, 0) + 3]);
    }
  }

  /** `[1, 1, 1]` when `on`, else `[0, 0, 0]`. */
  function Fill(on: bool): seq<int>
  {
    seq(Stores, _ => if on then 1 else 0)
  }

  /** In row i of `A_depot`, depot b's block of columns is all ones if b is i, else all zeros. */
  lemma DepotBlock(i: int, b: int)
    requires 0 <= i < Depots && 0 <= b < Depots
    ensures DepotMatrix()[i][Var(b, 0)..Var(b, 0) + 3] == Fill(b == i)
  {
    var block := DepotMatrix()[i][Var(b, 0)..Var(b, 0) + 3];
    forall t | 0 <= t < 3
      ensures block[t] == Fill(b == i)[t]
    {
      assert block[t] == DepotCoefficient(i, Var(b, t));
    }
  }

  lemma DotOfFill(on: bool, s: seq<int>)
    requires |s| == 3
    ensures Dot(Fill(on), s) == if on then s[0] + s[1] + s[2] else 0
  {
    DotOfThree(Fill(on), s);
  }

  /** Each variable (i, j) appears with coefficient 1 in the constraint of store j
      and in that of depot i, and with coefficient 0 in every other row. */
  lemma VariableInOneStoreAndOneDepot(i: int, j: int, r: int)
    requires 0 <= i < Depots && 0 <= j < Stores && 0 <= r < 3
    ensures StoreMatrix()[r][Var(i, j)] == (if r == j then 1 else 0)
    ensures DepotMatrix()[r][Var(i, j)] == (if r == i then 1 else 0)
  {
  }

  /** The objective `Dot(c, x)` is the sum, over every (depot, store) pair, of
      distance times cost per mile times the quantity shipped. */
  lemma ObjectiveIsShipmentCost(distances: seq<seq<int>>, costPerMile: int, x: seq<int>)
    requires IsGrid(distances) && |x| == Vars
    ensures Dot(CostVector(distances, costPerMile), x)
         == ShipmentCost(distances, costPerMile, x)
  {
    var c := CostVector(distances, costPerMile);
    DotOfNine(c, x);
    var perDepot := seq(Depots, i requires 0 <= i < Depots =>
      Sum(seq(Stores, j requires 0 <= j < Stores => distances[i][j] * costPerMile * x[Var(i, j)])));
    forall i | 0 <= i < Depots
      ensures perDepot[i] == c[Var(i, 0)] * x[Var(i, 0)] + c[Var(i, 1)] * x[Var(i, 1)] + c[Var(i, 2)] * x[Var(i, 2)]
    {
      SumOfThree(seq(Stores, j requires 0 <= j < Stores => distances[i][j] * costPerMile * x[Var(i, j)]));
    }
    SumOfThree(perDepot);
  }

  function ShipmentCost(distances: seq<seq<int>>, costPerMile: int, x: seq<int>): int
    requires IsGrid(distances) && |x| == Vars
  {
    Sum(seq(Depots, i requires 0 <= i < Depots =>
      Sum(seq(Stores, j requires 0 <= j < Stores => distances[i][j] * costPerMile * x[Var(i, j)]))))
  }
}
