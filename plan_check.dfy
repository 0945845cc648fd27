/** What happens to the solver's answer (app.py:98-105): the 9-vector is
    reshaped into the depot x store shipment matrix, its column sums are the
    quantities delivered to each store, and the plan is refused when any store
    receives more than its capacity. */
module PlanCheck {
  import opened DeliveryData

  /** `x.reshape(3, 3)` (app.py:98): row i is the block of variables 3*i .. 3*i + 2. */
  function Reshape(flat: seq<int>): (plan: seq<seq<int>>)
    requires |flat| == Vars
    ensures IsGrid(plan)
    ensures forall i, j :: 0 <= i < Depots && 0 <= j < Stores ==> plan[i][j] == flat[Var(i, j)]
  {
    seq(Depots, i requires 0 <= i < Depots => flat[3 * i .. 3 * i + 3])
  }

  /** Reshaping undoes flattening: the two use the same variable order. */
  lemma ReshapeFlatten(plan: seq<seq<int>>)
    requires IsGrid(plan)
    ensures Reshape(Flatten(plan)) == plan
  {
    var back := Reshape(Flatten(plan));
    forall i | 0 <= i < Depots
      ensures back[i] == plan[i]
    {
    }
  }

  /** Flattening undoes reshaping. */
  lemma FlattenReshape(flat: seq<int>)
    requires |flat| == Vars
    ensures Flatten(Reshape(flat)) == flat
  {
    var back := Flatten(Reshape(flat));
    forall k | 0 <= k < Vars
      ensures back[k] == flat[k]
    {
      VarNumbering(k);
    }
  }

  /** The reshaped plan has no negative shipment exactly when the vector has no negative entry. */
  lemma ReshapeNonNegative(flat: seq<int>)
    requires |flat| == Vars
    ensures (forall k :: 0 <= k < Vars ==> flat[k] >= 0)
        <==> (forall i, j :: 0 <= i < Depots && 0 <= j < Stores ==> Reshape(flat)[i][j] >= 0)
  {
    var plan := Reshape(flat);
    forall k | 0 <= k < Vars && (forall i, j :: 0 <= i < Depots && 0 <= j < Stores ==> plan[i][j] >= 0)
      ensures flat[k] >= 0
    {
      VarNumbering(k);
      assert plan[DepotOf(k)][StoreOf(k)] >= 0;
    }
  }

  /** Column j of a plan: what each depot ships to store j. */
  function Column(plan: seq<seq<int>>, j: int): seq<int>
    requires Rectangular(plan) && 0 <= j < Stores
  {
    seq(|plan|, i requires 0 <= i < |plan| => plan[i][j])
  }

  /** `x.sum(axis=0)` (app.py:100): the quantity delivered to each store. */
  function ColumnSums(plan: seq<seq<int>>): (delivered: seq<int>)
    requires IsGrid(plan)
    ensures |delivered| == Stores
    ensures forall j :: 0 <= j < Stores ==> delivered[j] == plan[0][j] + plan[1][j] + plan[2][j]
  {
    var sums := seq(Stores, j requires 0 <= j < Stores => Sum(Column(plan, j)));
    assert forall j :: 0 <= j < Stores ==> sums[j] == plan[0][j] + plan[1][j] + plan[2][j] by {
      forall j | 0 <= j < Stores
        ensures sums[j] == plan[0][j] + plan[1][j] + plan[2][j]
      {
        SumOfThree(Column(plan, j));
      }
    }
    sums
  }

  /** `any(store_delivery > store_caps)` (app.py:103): some store receives more
      than its capacity. */
  function Exceeds(delivered: seq<int>, caps: seq<int>): (r: bool)
    requires |delivered| == |caps|
    ensures r <==> exists j :: 0 <= j < |delivered| && delivered[j] > caps[j]
  {
    if |delivered| == 0 then false
    else
      var rest := Exceeds(delivered[1..], caps[1..]);
      assert rest ==> exists j :: 0 <= j < |delivered| && delivered[j] > caps[j] by {
        if rest {
          var j :| 0 <= j < |delivered| - 1 && delivered[1..][j] > caps[1..][j];
          assert delivered[j + 1] > caps[j + 1];
        }
      }
      assert (forall j :: 1 <= j < |delivered| ==> delivered[j] <= caps[j]) ==> !rest by {
        if forall j :: 1 <= j < |delivered| ==> delivered[j] <= caps[j] {
          forall j | 0 <= j < |delivered| - 1
            ensures delivered[1..][j] <= caps[1..][j]
          {
            assert delivered[1..][j] == delivered[j + 1];
          }
        }
      }
      delivered[0] > caps[0] || rest
  }

  /** What depot i ships in total: the sum of its row. */
  function DepotTotal(plan: seq<seq<int>>, i: int): int
    requires IsGrid(plan) && 0 <= i < Depots
  {
    Sum(plan[i])
  }

  /** Everything delivered to the stores is everything shipped out of the depots. */
  lemma TotalDelivered(plan: seq<seq<int>>)
    requires IsGrid(plan)
    ensures Sum(ColumnSums(plan)) == DepotTotal(plan, 0) + DepotTotal(plan, 1) + DepotTotal(plan, 2)
  {
    SumOfThree(ColumnSums(plan));
    SumOfThree(plan[0]);
    SumOfThree(plan[1]);
    SumOfThree(plan[2]);
  }

  /** A shipment plan as the planner means it: no negative shipment, no store
      above its capacity, and every depot ships exactly its supply. */
  predicate ValidShipment(plan: seq<seq<int>>, supply: seq<int>, caps: seq<int>)
    requires IsGrid(plan) && |supply| == Depots && |caps| == Stores
  {
    && (forall i, j :: 0 <= i < Depots && 0 <= j < Stores ==> plan[i][j] >= 0)
    && (forall j :: 0 <= j < Stores ==> ColumnSums(plan)[j] <= caps[j])
    && (forall i :: 0 <= i < Depots ==> DepotTotal(plan, i) == supply[i])
  }

  /** In a valid plan, a depot with supply 0 ships nothing to any store. */
  lemma EmptyDepotShipsNothing(plan: seq<seq<int>>, supply: seq<int>, caps: seq<int>, i: int)
    requires IsGrid(plan) && |supply| == Depots && |caps| == Stores && 0 <= i < Depots
    requires ValidShipment(plan, supply, caps) && supply[i] == 0
    ensures forall j :: 0 <= j < Stores ==> plan[i][j] == 0
  {
    SumOfThree(plan[i]);
    assert DepotTotal(plan, i) == 0;
  }
}
