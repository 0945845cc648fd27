/** One press of "Calculate" (app.py:57-105): refuse an oversupplied request
    before solving, otherwise build the linear program, hand it to the solver,
    reshape its answer into a shipment plan and refuse the plan if a store is
    oversupplied.

    The solver (scipy's `linprog` with HiGHS) is not modelled: it is a
    parameter, a function from the program to an answer, about which only its
    interface is assumed (see `Honours`). */
module DeliverySchedule {
  import opened DeliveryData
  import opened LpBuilder
  import opened PlanCheck

  /** What the solver returns: `res.success` with the (already integer)
      solution vector and objective value, or a failure with `res.message`. */
  datatype SolverAnswer =
    | Solved(x: seq<int>, objective: int)
    | Failed(message: string)

  /** The solver's interface: a solution has one entry per variable of the
      program, respects every variable bound, and reports as objective value
      the cost `Dot(c, x)` of the vector it returns. */
  predicate Honours(lp: LinearProgram, answer: SolverAnswer)
  {
    answer.Solved? ==>
      && |answer.x| == |lp.c| == |lp.bounds|
      && (forall k :: 0 <= k < |answer.x| ==> Within(lp.bounds[k], answer.x[k]))
      && answer.objective == Dot(lp.c, answer.x)
  }

  /** How a request ends. `Oversupply` and `StoreOversupplied` are the two
      `st.error` + `st.stop()` exits; `SolverFailed` carries the solver's message. */
  datatype Outcome =
    | Oversupply(totalSupply: int, totalDemand: int)
    | SolverFailed(message: string)
    | StoreOversupplied(shipments: seq<seq<int>>, delivered: seq<int>)
    | Scheduled(shipments: seq<seq<int>>, delivered: seq<int>, totalCost: int)

  /** The program handed to the solver for the given depot supplies (app.py:70-93). */
  function Program(supply: seq<int>): LinearProgram
    requires |supply| == Depots
  {
    LinearProgram(
      CostVector(Distances, CostPerMile),
      StoreMatrix(), StoreCaps,
      DepotMatrix(), supply,
      seq(Vars, _ => NonNegative))
  }

  /** A solver answer for `Program(supply)` under the solver's interface: a
      solution has one non-negative entry per (depot, store) pair, and its
      objective value is the shipping cost of that plan. */
  predicate WellFormed(answer: SolverAnswer)
  {
    answer.Solved? ==>
      && |answer.x| == Vars
      && (forall k :: 0 <= k < Vars ==> answer.x[k] >= 0)
      && answer.objective == ShipmentCost(Distances, CostPerMile, answer.x)
  }

  /** The program has nine variables, each bounded below by 0 only, and its
      objective is the shipping cost, so an answer that honours it is exactly a
      well-formed one. */
  lemma HonoursProgram(supply: seq<int>, answer: SolverAnswer)
    requires |supply| == Depots
    ensures Honours(Program(supply), answer) <==> WellFormed(answer)
  {
    if answer.Solved? && |answer.x| == Vars {
      ObjectiveIsShipmentCost(Distances, CostPerMile, answer.x);
    }
  }

  /** The outcome of a request with depot supplies `supply`, when the solver
      would answer `answer` to `Program(supply)`. */
  function Schedule(supply: seq<int>, answer: SolverAnswer): (r: Outcome)
    requires |supply| == Depots
    requires WellFormed(answer)
    // the pre-check refuses exactly the requests whose total supply exceeds total capacity
    ensures r.Oversupply? <==> Sum(supply) > Sum(StoreCaps)
    ensures r.Oversupply? ==> r.totalSupply == Sum(supply) && r.totalDemand == Sum(StoreCaps)
    // a solver failure is passed on unchanged
    ensures r.SolverFailed? ==> answer == Failed(r.message)
    // a reported plan is the solver's vector, reshaped, with its column sums as deliveries
    ensures (r.Scheduled? || r.StoreOversupplied?) ==>
              && answer.Solved?
              && IsGrid(r.shipments)
              && Flatten(r.shipments) == answer.x
              && r.delivered == ColumnSums(r.shipments)
    // the post-solve check refuses exactly the plans with some store over capacity
    ensures r.Scheduled? ==> forall j :: 0 <= j < Stores ==> r.delivered[j] <= StoreCaps[j]
    ensures r.Scheduled? ==> r.totalCost == answer.objective
    ensures r.Scheduled? ==> r.totalCost == ShipmentCost(Distances, CostPerMile, Flatten(r.shipments))
    ensures r.StoreOversupplied? ==> exists j :: 0 <= j < Stores && r.delivered[j] > StoreCaps[j]
  {
    var totalSupply := Sum(supply);
    var totalDemand := Sum(StoreCaps);
    if totalSupply > totalDemand then
      Oversupply(totalSupply, totalDemand)
    else
      match answer
      case Failed(message) => SolverFailed(message)
      case Solved(x, objective) =>
        var shipments := Reshape(x);
        var delivered := ColumnSums(shipments);
        FlattenReshape(x);
        if Exceeds(delivered, StoreCaps) then StoreOversupplied(shipments, delivered)
        else Scheduled(shipments, delivered, objective)
  }

  /** The request as the page runs it: the pre-check, then the arrays built by
      the builder loops, then the solve and the post-solve check. */
  method Submit(supply: seq<int>, solver: LinearProgram -> SolverAnswer) returns (outcome: Outcome)
    requires |supply| == Depots
    requires forall lp :: Honours(lp, solver(lp))
    ensures WellFormed(solver(Program(supply)))
    ensures outcome == Schedule(supply, solver(Program(supply)))
  {
    HonoursProgram(supply, solver(Program(supply)));
    var totalSupply := Sum(supply);
    var totalDemand := Sum(StoreCaps);
    if totalSupply > totalDemand {
      return Oversupply(totalSupply, totalDemand);
    }
    var c := CostVector(Distances, CostPerMile);
    var aStore := BuildStoreMatrix();
    var aDepot := BuildDepotMatrix();
    var bounds := BuildBounds();
    assert bounds == seq(Vars, _ => NonNegative);
    var lp := LinearProgram(c, ToRows(aStore), StoreCaps, ToRows(aDepot), supply, bounds);
    assert lp == Program(supply);
    var answer := solver(lp);
    match answer {
      case Failed(message) =>
        outcome := SolverFailed(message);
      case Solved(x, objective) =>
        var shipments := Reshape(x);
        var delivered := ColumnSums(shipments);
        if Exceeds(delivered, StoreCaps) {
          outcome := StoreOversupplied(shipments, delivered);
        } else {
          outcome := Scheduled(shipments, delivered, objective);
        }
    }
  }

  /** `(A_store x)[j]` is the column sum of the reshaped plan: what store j receives. */
  lemma StoreConstraintsAreDeliveries(x: seq<int>)
    requires |x| == Vars
    ensures forall j :: 0 <= j < Stores ==> Dot(StoreMatrix()[j], x) == ColumnSums(Reshape(x))[j]
  {
    forall j | 0 <= j < Stores
      ensures Dot(StoreMatrix()[j], x) == ColumnSums(Reshape(x))[j]
    {
      StoreRowTotal(x, j);
    }
  }

  /** `(A_depot x)[i]` is the row sum of the reshaped plan: what depot i ships. */
  lemma DepotConstraintsAreDepotTotals(x: seq<int>)
    requires |x| == Vars
    ensures forall i :: 0 <= i < Depots ==> Dot(DepotMatrix()[i], x) == DepotTotal(Reshape(x), i)
  {
    forall i | 0 <= i < Depots
      ensures Dot(DepotMatrix()[i], x) == DepotTotal(Reshape(x), i)
    {
      DepotRowTotal(x, i);
      SumOfThree(Reshape(x)[i]);
    }
  }

  /** The program's constraints say exactly that the reshaped vector is a valid
      shipment plan for these supplies and the store capacities. */
  lemma ProgramEncodesShipmentPlan(supply: seq<int>, x: seq<int>)
    requires |supply| == Depots && |x| == Vars
    ensures Feasible(Program(supply), x) <==> ValidShipment(Reshape(x), supply, StoreCaps)
  {
    EncodesShipmentPlan(Program(supply), supply, x);
  }

  /** `ProgramEncodesShipmentPlan` for any program with these constraint arrays,
      whatever its cost vector. */
  lemma EncodesShipmentPlan(lp: LinearProgram, supply: seq<int>, x: seq<int>)
    requires |supply| == Depots && |x| == Vars && |lp.c| == Vars
    requires lp.aUb == StoreMatrix() && lp.bUb == StoreCaps
    requires lp.aEq == DepotMatrix() && lp.bEq == supply
    requires lp.bounds == seq(Vars, _ => NonNegative)
    ensures Feasible(lp, x) <==> ValidShipment(Reshape(x), supply, StoreCaps)
  {
    var plan := Reshape(x);
    assert (forall r :: 0 <= r < |lp.aUb| ==> |lp.aUb[r]| == |x| && Dot(lp.aUb[r], x) <= lp.bUb[r])
       <==> (forall j :: 0 <= j < Stores ==> ColumnSums(plan)[j] <= StoreCaps[j]) by {
      StoreConstraintsAreDeliveries(x);
    }
    assert (forall r :: 0 <= r < |lp.aEq| ==> |lp.aEq[r]| == |x| && Dot(lp.aEq[r], x) == lp.bEq[r])
       <==> (forall i :: 0 <= i < Depots ==> DepotTotal(plan, i) == supply[i]) by {
      DepotConstraintsAreDepotTotals(x);
    }
    ReshapeNonNegative(x);
  }

  /** When total supply exceeds total capacity the solver is never consulted:
      the outcome is the same whatever the solver would have answered. */
  lemma SolverNotReachedOnOversupply(supply: seq<int>, a1: SolverAnswer, a2: SolverAnswer)
    requires |supply| == Depots && Sum(supply) > Sum(StoreCaps)
    requires WellFormed(a1) && WellFormed(a2)
    ensures Schedule(supply, a1) == Schedule(supply, a2) == Oversupply(Sum(supply), Sum(StoreCaps))
  {
  }

  /** The post-solve check accepts a solution exactly when it satisfies the
      program's store-capacity inequalities `A_store x <= store_caps`. */
  lemma ValidationIsStoreConstraint(supply: seq<int>, x: seq<int>, objective: int)
    requires |supply| == Depots && Sum(supply) <= Sum(StoreCaps)
    requires WellFormed(Solved(x, objective))
    ensures Schedule(supply, Solved(x, objective)).Scheduled?
        <==> forall j :: 0 <= j < Stores ==> Dot(StoreMatrix()[j], x) <= StoreCaps[j]
  {
    StoreConstraintsAreDeliveries(x);
  }

  /** The pre-check loses no request the program could satisfy: a request whose
      total supply exceeds total store capacity has no feasible vector. */
  lemma PreCheckKeepsFeasibleRequests(supply: seq<int>, x: seq<int>)
    requires |supply| == Depots && |x| == Vars
    ensures Sum(supply) > Sum(StoreCaps) ==> !Feasible(Program(supply), x)
  {
    if Feasible(Program(supply), x) {
      var plan := Reshape(x);
      ProgramEncodesShipmentPlan(supply, x);
      TotalDelivered(plan);
      SumOfThree(ColumnSums(plan));
      SumOfThree(StoreCaps);
      SumOfThree(supply);
    }
  }

  /** A vector whose reshape is a valid shipment plan, returned with its cost,
      passes the post-solve check once the pre-check is passed; the reported
      plan delivers the whole supply. */
  lemma ValidPlanIsScheduled(supply: seq<int>, x: seq<int>, objective: int)
    requires |supply| == Depots && |x| == Vars && Sum(supply) <= Sum(StoreCaps)
    requires ValidShipment(Reshape(x), supply, StoreCaps)
    requires objective == ShipmentCost(Distances, CostPerMile, x)
    ensures WellFormed(Solved(x, objective))
    ensures Schedule(supply, Solved(x, objective)) == Scheduled(Reshape(x), ColumnSums(Reshape(x)), objective)
    ensures Sum(ColumnSums(Reshape(x))) == Sum(supply)
  {
    var plan := Reshape(x);
    ReshapeNonNegative(x);
    assert !Exceeds(ColumnSums(plan), StoreCaps);
    TotalDelivered(plan);
    SumOfThree(supply);
  }

  /** A vector that satisfies every constraint of the program always passes the
      pre-check and the post-solve check: the reported plan ships each depot's
      supply exactly, keeps each store within capacity, and delivers the whole
      supply. */
  lemma FeasibleAnswerIsScheduled(supply: seq<int>, x: seq<int>, objective: int)
    requires |supply| == Depots && |x| == Vars
    requires Feasible(Program(supply), x)
    requires objective == ShipmentCost(Distances, CostPerMile, x)
    ensures WellFormed(Solved(x, objective))
    ensures Schedule(supply, Solved(x, objective)).Scheduled?
    ensures ValidShipment(Schedule(supply, Solved(x, objective)).shipments, supply, StoreCaps)
    ensures Sum(Schedule(supply, Solved(x, objective)).delivered) == Sum(supply)
  {
    PreCheckKeepsFeasibleRequests(supply, x);
    ProgramEncodesShipmentPlan(supply, x);
    ValidPlanIsScheduled(supply, x, objective);
  }

  /** The page's default request, 2500 + 3100 + 1250 = 6850, fits the 7000 units
      of store capacity; raising D2 to 3600 (7350 in all) is refused before any
      solve. */
  lemma DefaultRequests(answer: SolverAnswer)
    requires WellFormed(answer)
    ensures !Schedule([2500, 3100, 1250], answer).Oversupply?
    ensures Schedule([2500, 3600, 1250], answer) == Oversupply(7350, 7000)
  {
    SumOfThree([2500, 3100, 1250]);
    SumOfThree([2500, 3600, 1250]);
    SumOfThree(StoreCaps);
  }

  /** Equal totals are not oversupply. */
  lemma TightSupplyPassesPreCheck(supply: seq<int>, answer: SolverAnswer)
    requires |supply| == Depots && Sum(supply) == Sum(StoreCaps)
    requires WellFormed(answer)
    ensures !Schedule(supply, answer).Oversupply?
  {
  }
}
