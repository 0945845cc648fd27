# Delivery optimisation: the planning core, in Dafny

The delivery page lets a user enter how many TVs each of three depots (D1, D2, D3)
holds. It then plans how many to send to each of three stores, whose capacities are
2000, 3000 and 2000. The cheapest plan is found with a linear program. Each unit
costs distance times 5 per mile, using the fixed depot-to-store distance table.

This project models the integer core of that planning step:

- **Pre-check** (`DeliverySchedule.Schedule`). If the total depot supply is above the
  total store capacity, the request stops before any solve. Equal totals pass.
- **LP arrays** (`LpBuilder`):
  - the cost vector `c`, flattened depot-major;
  - the 3 x 9 store-capacity matrix `A_store` and the 3 x 9 depot-supply matrix
    `A_depot`, both built by loops over a zero-initialised 2-dimensional array;
  - the nine `(0, None)` variable bounds, built by a loop.
- **Reshape and column sums** (`PlanCheck`). The solver's 9-vector becomes the 3 x 3
  shipment matrix, with `x[i][j] = flat[3*i + j]`. Its column sums are the quantities
  delivered to each store.
- **Post-solve check** (`PlanCheck.Exceeds`, `DeliverySchedule.Schedule`). The plan is
  refused if any store receives more than its capacity.

The solver is not modelled. `Schedule` takes the solver's answer as a parameter.
`Submit` takes the solver itself as a function from the program to an answer. The only
thing assumed about the solver is its interface (`Honours`): a solution has one entry
per variable, respects the bounds, and reports `c . x` as its objective value.

Files and modules:

- `data.dfy`, module `DeliveryData`: the constants; the variable numbering
  `Var(i, j) = 3*i + j`; and `Sum`, `Dot` and `Flatten`.
- `lp_builder.dfy`, module `LpBuilder`: the cost vector, the builder methods, the
  `LinearProgram` value and its `Feasible` predicate. It also proves what each
  constraint row computes.
- `plan_check.dfy`, module `PlanCheck`: reshape, column sums, the oversupply test, and
  the `ValidShipment` predicate (the plan invariant: non-negative shipments, stores
  within capacity, depots shipping exactly their supply).
- `schedule.dfy`, module `DeliverySchedule`: the request outcome, the `Submit` method,
  and the lemmas that link the program to the plan.

## Model

| member | source | states |
|---|---|---|
| `DeliveryData.VarNumbering` | app.py:70 | every variable index 0..8 is `3*i + j` for exactly one depot i and store j, so the depot-major numbering covers the nine pairs once each |
| `DeliveryData.Flatten` | app.py:70 | flattening a matrix with three columns places entry (i, j) at index `3*i + j` and has three entries per row |
| `LpBuilder.Scale` | app.py:70 | `distances * cost_per_mile` multiplies every entry of the distance table by the cost per mile and keeps its shape |
| `LpBuilder.CostVector` | app.py:70 | the cost vector has 9 entries and entry `3*i + j` is `distances[i][j] * cost_per_mile` (depot-major) |
| `LpBuilder.BuildStoreMatrix` | app.py:72-75 | the nested loops over a fresh 3 x 9 zero array leave exactly `StoreMatrix()`: row j has a 1 in the columns of variables (i, j) and 0 in every other cell |
| `LpBuilder.BuildDepotMatrix` | app.py:78-80 | the slice assignments over a fresh 3 x 9 zero array leave exactly `DepotMatrix()`: row i has a 1 in columns `3*i .. 3*i+2` and 0 in every other cell |
| `LpBuilder.BuildBounds` | app.py:83 | there are exactly 9 bounds, and each has lower bound 0 and no upper bound |
| `LpBuilder.StoreRowTotal` | app.py:72-76 | `(A_store x)[j] = x[j] + x[3+j] + x[6+j]`: the store-j constraint sums what the three depots ship to store j |
| `LpBuilder.DepotRowTotal` | app.py:78-81 | `(A_depot x)[i] = x[3i] + x[3i+1] + x[3i+2]`: the depot-i constraint sums what depot i ships to the three stores |
| `LpBuilder.VariableInOneStoreAndOneDepot` | app.py:72-80 | variable (i, j) has coefficient 1 in store row j and in depot row i, and 0 in every other row of either matrix |
| `LpBuilder.ObjectiveIsShipmentCost` | app.py:70 | the objective `c . x` equals the sum over all pairs of distance x cost per mile x quantity shipped |
| `PlanCheck.Reshape` | app.py:98 | reshaping gives a 3 x 3 matrix whose entry (i, j) is `flat[3*i + j]` |
| `PlanCheck.ReshapeFlatten` | app.py:98 | reshaping a flattened 3 x 3 matrix gives the matrix back |
| `PlanCheck.FlattenReshape` | app.py:98 | flattening a reshaped 9-vector gives the vector back: reshape and cost vector use the same order |
| `PlanCheck.ColumnSums` | app.py:100 | delivered total j is the sum of column j over the three depots |
| `PlanCheck.Exceeds` | app.py:103 | true exactly when some store's delivered total is above its capacity |
| `PlanCheck.ReshapeNonNegative` | app.py:83 | the reshaped plan has no negative shipment exactly when the solution vector has no negative entry (the bounds, seen on the plan) |
| `PlanCheck.EmptyDepotShipsNothing` | app.py:78-81 | in a valid plan, a depot with supply 0 ships nothing to any store |
| `PlanCheck.TotalDelivered` | app.py:100 | the sum of the store totals equals the sum of the depot row totals |
| `DeliverySchedule.HonoursProgram` | app.py:83-93 | for this program, an answer respects the solver's interface exactly when it is a failure or a non-negative 9-vector whose objective is its shipping cost |
| `DeliverySchedule.Schedule` | app.py:57-105 | oversupply is reported exactly when total supply exceeds total capacity, with both totals; a solver failure passes its message on; a plan is the solver's vector reshaped, with its column sums as deliveries; it is reported (with the solver's objective, which is the plan's shipping cost) only if every store is within capacity, and otherwise refused with a store over capacity |
| `DeliverySchedule.Submit` | app.py:57-105 | running the pre-check, the builder loops, the solver and the post-solve check gives exactly `Schedule` applied to the solver's answer for `Program(supply)`, the `linprog` argument list of app.py:85-93 (cost vector, `A_store`, `store_caps`, `A_depot`, `depot_supply`, bounds) |
| `DeliverySchedule.StoreConstraintsAreDeliveries` | app.py:72-100 | for every j, `(A_store x)[j]` equals `store_delivery[j]` of the reshaped x |
| `DeliverySchedule.DepotConstraintsAreDepotTotals` | app.py:78-81 | for every i, `(A_depot x)[i]` equals the row-i total of the reshaped x |
| `DeliverySchedule.ProgramEncodesShipmentPlan` | app.py:70-93 | a 9-vector satisfies every constraint and bound of the program if and only if its reshape is a valid shipment plan for the supplies and capacities |
| `DeliverySchedule.EncodesShipmentPlan` | app.py:72-83 | for any program with these constraint matrices, right-hand sides and bounds, a 9-vector is feasible if and only if its reshape is a valid shipment plan |
| `DeliverySchedule.SolverNotReachedOnOversupply` | app.py:59-67 | when supply exceeds capacity the outcome is `Oversupply(total, capacity)` whatever the solver would answer |
| `DeliverySchedule.ValidationIsStoreConstraint` | app.py:100-105 | after a successful solve, the plan is accepted if and only if x satisfies `A_store x <= store_caps` |
| `DeliverySchedule.PreCheckKeepsFeasibleRequests` | app.py:59-67 | a request refused by the pre-check (supply above capacity) has no vector satisfying the program, so the early refusal loses no solvable request |
| `DeliverySchedule.ValidPlanIsScheduled` | app.py:98-105 | once the pre-check is passed, a vector whose reshape is a valid shipment plan, returned with its cost, is scheduled as that plan, and its deliveries add up to the whole supply |
| `DeliverySchedule.FeasibleAnswerIsScheduled` | app.py:85-105 | any vector that satisfies the program, returned with its cost, passes both the pre-check and the post-solve check; the reported plan ships each depot's supply exactly, keeps each store within capacity, and delivers the whole supply |
| `DeliverySchedule.DefaultRequests` | app.py:46-67 | the default request (2500, 3100, 1250) passes the pre-check; (2500, 3600, 1250) is refused with totals 7350 and 7000 |
| `DeliverySchedule.TightSupplyPassesPreCheck` | app.py:62 | total supply equal to total capacity is not refused |

## Left out

- The Streamlit page is not modelled. That covers the title, the form and number
  inputs, the columns, the data frames and their styling, the HTML output, and the
  Google Analytics embed. `st.error` followed by `st.stop()` becomes an `Oversupply` or
  `StoreOversupplied` outcome.
- The solve itself (`linprog` with HiGHS) is a foreign library working in floating
  point. It is a parameter here. Optimality of its answer is not modelled, and it is
  assumed to meet its interface (`Honours`).
- `np.round(res.x).astype(int)` is not modelled, because it is a floating-point
  operation. The solver's answer is taken as already integer. As a result the model
  cannot show the post-solve check catching a rounding effect. Within the model,
  `ValidationIsStoreConstraint` shows that only a vector breaking a store constraint is
  refused.
- `int(res.fun)` is not modelled as a float conversion. The solver's interface
  (`Honours`) requires the objective value to be `c . x` for the returned vector, and
  `ObjectiveIsShipmentCost` turns that into the shipping cost, so a `Scheduled` outcome's
  total cost is the cost of its plan.
- The numpy matrices hold floats `0.0` and `1.0`; here they are the integers 0 and 1.
  Integers are unbounded. At these magnitudes numpy's 64-bit integers do not wrap.
- The text of the failure message for a failed solve is passed through unchanged. The
  text of the two error messages is not modelled.
- The post-solve check in the source tests store capacities only. It does not re-check
  that each depot ships exactly its supply, and the model does the same.
