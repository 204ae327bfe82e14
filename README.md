# Depot allocation of construction projects, modelled in Dafny

Three Python scripts decide which construction projects ("obras") a utility
company can carry out from the stock held in its depots:

- `otimizacao_com_transporte.py` builds one mixed-integer program for all
  depots. It has binary `x[obra, d]` and continuous transfers `t[d1, d2, m]`.
  It maximises the weight of executed obras minus a random transport cost
  and then writes a per-depot report, a shipment ledger and the map from each
  depot to the obras it executes.
- `otimizacao_individual.py` gives every depot its own 0/1 multidimensional
  knapsack, built by a `Deposito` object. `Deposito.solve` records the
  solution in the object's fields. A driver builds one object per depot,
  solves each in turn and merges the results.
- `solucao_empresa.py` summarises the company's own allocation, the obras
  flagged `ATEND_OBRA == 1`, in the same per-depot form.

The model takes clean rows as input: `ObraRow` for the obras sheet and
`StockRow` for the stock sheet. Its modules follow the scripts:

- `Common`: the pandas operations the scripts use, as functions on sequences
  with their properties proved:
  - `unique()` in order of first appearance;
  - sorted group keys;
  - boolean masks;
  - `nunique()`;
  - `groupby(...).first().sum()`.
- `LinearProgram`: what the scripts hand to the solver (variables, a linear
  objective, named constraints) and what "an assignment satisfies it" means.
  The solver is an uninterpreted function from programs to results: either
  `Optimal` with the objective value and the variable values, or `NotOptimal`.
- `TransportModel`:
  - the dictionaries `Q`, `q` and `C`;
  - the loops that add the variables, the objective and the three
    constraint families;
  - what each family means for an assignment.
- `TransportReport`: the optimal-only report loop, proved against a
  function `ReportOf`, and the facts the report states.
- `Individual`:
  - the class `Deposito`, with the script's fields, `FromDataframes`,
    `Solve` and `Relacionamento`;
  - the knapsack program;
  - the two driver loops, proved against the pure function `Run`.
- `Baseline`: the loop of `solucao_empresa.py`, and lemmas relating it to the
  knapsack mode's counters.

The scripts crash in some cases. The model returns those crashes as error
values:

- `pivot` rejects an (OBRA, COD_MAT) pair that two rows share
  (`DuplicatePivotEntry`).
- `solve` reads past the end of `q` when some obra of the depot has no row
  for a stocked material (`DemandIndexOutOfRange`).
- `gerar_relacionamento_obras` indexes `x` after a non-optimal solve
  (`NoSolution`).
- The transport model indexes `x[obra, depo_origem]` for an origin that is
  not a depot of the stock sheet (`UnknownOrigin`).

The model does not assume any of these away. The driver stops at the first
error, as the script does.

## Model

| member | source | states |
|---|---|---|
| Common.Unique | otimizacao_com_transporte.py:23-25 | `unique()` returns each value of the input exactly once, and nothing else |
| Common.UniqueFirstAppearance | otimizacao_com_transporte.py:23-25 | `unique()` lists values in the order of their first occurrence in the input |
| Common.SortedKeys | otimizacao_individual.py:28 | group keys are strictly increasing and are exactly the values present |
| Common.SortedUniqueness | otimizacao_individual.py:28-34 | two strictly increasing key lists with the same values are equal, so `groupby` and `pivot` index the same obras when they see the same obras |
| Common.Filter | otimizacao_individual.py:25-26 | a boolean mask keeps exactly the rows that satisfy it, and never adds rows |
| Common.RowsAt | otimizacao_individual.py:25 | `df[df['COD_DEP'] == d]` holds exactly the rows whose COD_DEP is d |
| Common.Others | otimizacao_com_transporte.py:104-105 | the depots visited under `if d != depo_origem` are exactly the other depots |
| Common.OthersCount | otimizacao_com_transporte.py:104-105 | with distinct depots, there are one fewer of them than depots when d is a depot |
| TransportModel.FirstWinsLookup | otimizacao_com_transporte.py:32-42 | a key is in the filled dictionary iff some entry has it, and its value is that of the first such entry |
| TransportModel.FillFirstWins | otimizacao_com_transporte.py:33-35 | the filling loop builds exactly the first-entry-wins dictionary |
| TransportModel.StockTableFirstRow | otimizacao_com_transporte.py:32-35 | Q has a (d, m) key iff some stock row has it, and then holds ESTOQ_DPST of the first such row |
| TransportModel.CostTable | otimizacao_com_transporte.py:45-46 | C has a key exactly for each (d1, d2, m) with d1 != d2, each value an integer in [1, 4], for any random draw in that range |
| TransportModel.LoadTables | otimizacao_com_transporte.py:23-46 | the loaded tables are valid: obras, depositos and materiais are the unique lists, Q and q are first-entry-wins, C is a valid cost table |
| TransportModel.AddPairConstraints | otimizacao_com_transporte.py:77-92 | the inner loop emits one capacity constraint of (d1, m) per material, named after (d1, d2, m) |
| TransportModel.AddDepotConstraints | otimizacao_com_transporte.py:75-92 | the middle loop emits the constraints for every d2 other than d1 |
| TransportModel.AddCapacityConstraints | otimizacao_com_transporte.py:74-92 | the nested loops emit family A in loop order |
| TransportModel.TransportKeysMembers | otimizacao_com_transporte.py:74-78 | the loops visit exactly the (d1, d2, m) with d1 a depot, d2 a different depot and m a material |
| TransportModel.TransportKeysCount | otimizacao_com_transporte.py:74-78 | with distinct depots, the loops visit \|D\|·(\|D\|-1)·\|M\| keys |
| TransportModel.CapacityFamilyCount | otimizacao_com_transporte.py:74-92 | with distinct depots, family A has \|D\|·(\|D\|-1)·\|M\| constraints |
| TransportModel.CapacityFamilyMembers | otimizacao_com_transporte.py:74-92 | every member of family A is the constraint of some (d1, d2, m) with d1 != d2, and every such triple has its constraint in the family |
| TransportModel.CapacityCopiesIdentical | otimizacao_com_transporte.py:78-92 | any two constraints of the family for the same (d1, m) have the same left side, sense and right side, whatever d2 is |
| TransportModel.CapacityBodyMeaning | otimizacao_com_transporte.py:79-90 | the body of a capacity constraint holds iff demand at (d, m) is at most stock plus inflow minus outflow, with missing q and Q read as 0 |
| TransportModel.CapacityFamilyMeaning | otimizacao_com_transporte.py:74-92 | with two or more distinct depots, an assignment satisfies family A iff every depot and material meets its capacity condition |
| TransportModel.SingleDepotHasNoCapacity | otimizacao_com_transporte.py:74-76 | with a single depot, family A is empty |
| TransportModel.MinimalCapacityCount | otimizacao_com_transporte.py:74-92 | the family written once per (depot, material) has \|D\|·\|M\| constraints |
| TransportModel.MinimalCapacityMeaning | otimizacao_com_transporte.py:79-90 | the family written once per (depot, material) states every capacity condition, for any number of depots |
| TransportModel.CapacityFamilyEquivalentToMinimal | otimizacao_com_transporte.py:74-92 | with two or more depots, the emitted family and the minimal one accept the same assignments |
| TransportModel.AddNoAllocationConstraints | otimizacao_com_transporte.py:104-106 | the inner loop emits `x[obra, d] == 0` for every depot d other than the origin, in depot order |
| TransportModel.AddOriginLockConstraints | otimizacao_com_transporte.py:99-106 | the loop builds family B, or fails at the first obra whose origin is not a depot |
| TransportModel.OriginLockErrPersists | otimizacao_com_transporte.py:99-101 | once an obra fails, later obras do not change the error |
| TransportModel.OriginLockOfMeaning | otimizacao_com_transporte.py:101-106 | the constraints of one obra hold iff its x is at most 1 at its origin and 0 at every other depot |
| TransportModel.OriginLockResult | otimizacao_com_transporte.py:99-101 | family B is built iff every origin is a depot; otherwise the error names the first obra whose origin is not one |
| TransportModel.OriginLockMeaning | otimizacao_com_transporte.py:99-106 | an assignment satisfies family B iff every obra is at most 1 at its origin and 0 at every other depot |
| TransportModel.OriginLockCount | otimizacao_com_transporte.py:99-106 | family B has \|D\| constraints per obra |
| TransportModel.AddAtMostOneConstraints | otimizacao_com_transporte.py:113-114 | the loop builds family C, one constraint per obra |
| TransportModel.AtMostOneMeaning | otimizacao_com_transporte.py:113-114 | an assignment satisfies family C iff each obra's x summed over the depots is at most 1, and C has one constraint per obra |
| TransportModel.VariablesMembers | otimizacao_com_transporte.py:55-56 | the declared variables are exactly x over obras × depots and t over depots × depots × materials, the diagonal included |
| TransportModel.ObjectiveValue | otimizacao_com_transporte.py:63-67 | the objective is Σ w[obra]·x[obra, d] minus Σ over d1 != d2 and m of C[d1, d2, m]·t[d1, d2, m] |
| TransportModel.BuildTransportModel | otimizacao_com_transporte.py:52-114 | building adds the variables, the objective and families A, B, C in order, or fails as the origin lock does |
| TransportModel.TransportProgramFails | otimizacao_com_transporte.py:99-101 | building fails iff some obra's origin is not a depot, and the error names such an obra and its origin |
| TransportModel.TransportProgramCount | otimizacao_com_transporte.py:74-114 | the program has \|D\|·(\|D\|-1)·\|M\| + \|O\|·\|D\| + \|O\| constraints |
| TransportModel.FeasibleOnlyAtOrigin | otimizacao_com_transporte.py:99-114 | in a feasible assignment every obra is 0 away from its origin, at most 1 at its origin, and its total allocation is its origin's x |
| TransportModel.ObjectiveAtOrigin | otimizacao_com_transporte.py:63-67 | under the constraints, the objective is Σ_obra w[obra]·x[obra, origin] minus the transport cost |
| TransportModel.WeightedAllocationAtOrigin | otimizacao_com_transporte.py:63-64 | when every obra is 0 away from its origin, the weighted allocation is the sum over obras of w times the origin's x |
| TransportModel.DiagonalTransportInert | otimizacao_com_transporte.py:56-67 | t[d, d, m] is declared for every depot and material, but changing it changes neither the objective nor any constraint's truth |
| TransportModel.SingleDepotStockUnenforced | otimizacao_com_transporte.py:74-92 | counterexample: with one depot, a feasible assignment executes an obra whose demand the depot's stock does not cover |
| TransportModel.SingleDepotInstance | otimizacao_com_transporte.py:23-24 | the counterexample's tables are valid and its program is built |
| TransportModel.FeasibleParts | otimizacao_com_transporte.py:55-114 | in the counterexample, the assignment with x[1, 3] = 1 and everything else 0 is feasible |
| TransportModel.CorrectedProgramEnforcesCapacity | otimizacao_com_transporte.py:74-92 | every assignment the corrected program accepts meets the capacity condition of every depot and material, with one depot or many |
| TransportModel.CorrectedProgramAgrees | otimizacao_com_transporte.py:74-92 | with two or more depots, the program as written and the corrected one are built together and accept the same assignments |
| TransportReport.AccumulatePair | otimizacao_com_transporte.py:152-164 | the material loop adds up what d receives from and sends to d1, and records each positive shipment in order |
| TransportReport.AccumulateDepot | otimizacao_com_transporte.py:150-164 | the loop over d1 != d computes MATERIAL_RECEBIDO, MATERIAL_ENVIADO and the ledger entries of depot d |
| TransportReport.ExtractReport | otimizacao_com_transporte.py:134-188 | no report unless the status is optimal; otherwise exactly the records, ledger and executed map that `ReportOf` defines |
| TransportReport.ReportShape | otimizacao_com_transporte.py:140-188 | one record per depot in `depositos` order, then one closing record with objVal and the total transported; the map has exactly the depots as keys |
| TransportReport.DepotRecords | otimizacao_com_transporte.py:166-188 | the first \|D\| records are the depots' statistics in `depositos` order, and the last is the closing record with objVal and the total transported |
| TransportReport.ExecutedAtMembers | otimizacao_com_transporte.py:142 | a depot's executed list holds each obra at most once, exactly those whose x at that depot exceeds 0.5 |
| TransportReport.ExecutedOnlyAtOrigin | otimizacao_com_transporte.py:142 | in a feasible solution an obra is listed only at its origin, so two depots never list the same obra |
| TransportReport.ExecutedIsAssociated | otimizacao_com_transporte.py:142-146 | in a feasible solution an executed obra is associated with the depot, and its w is its first PESO among the depot's rows |
| TransportReport.ExecutedWithinAssociated | otimizacao_com_transporte.py:142-146 | in a feasible solution OBRAS_EXECUTADAS ≤ NUM_OBRAS_ASSOCIADAS, and with non-negative PESO, SOMA_PRIORIDADES_EXECUTADAS ≤ SOMA_PRIORIDADES |
| TransportReport.LedgerMembers | otimizacao_com_transporte.py:158-164 | a ledger entry is recorded for a visited key exactly when its t is positive, and it carries that t |
| TransportReport.LedgerEntries | otimizacao_com_transporte.py:150-164 | every shipment goes between two different depots, for an instance material, with positive quantity equal to t; every positive off-diagonal t is in the ledger |
| TransportReport.LedgerTotal | otimizacao_com_transporte.py:155-164 | with non-negative t, the accumulated total equals the sum of the ledger quantities |
| TransportReport.LedgerFromOrigin | otimizacao_com_transporte.py:150-164 | the ledger entries leaving d are exactly those recorded while d is the outer depot, and there are none for a depot not visited |
| TransportReport.SentMatchesLedger | otimizacao_com_transporte.py:147-164 | for a solution within the variables' bounds, MATERIAL_ENVIADO of depot d equals the sum of QUANTIDADE over the shipments whose origin is d |
| TransportReport.TotalMatchesLedger | otimizacao_com_transporte.py:155-164 | for a solution within the variables' bounds, total_material_transportado equals the sum of the ledger's QUANTIDADE |
| TransportReport.Conservation | otimizacao_com_transporte.py:153-154 | summed over the depots, what is received equals what is sent |
| TransportReport.ReportTotals | otimizacao_com_transporte.py:147-188 | the closing record's total is the sum of MATERIAL_ENVIADO over the depot records, which equals the sum of MATERIAL_RECEBIDO |
| Individual.Indices | otimizacao_individual.py:55 | `range(n)`: n indices, the i-th being i |
| Individual.Pick | otimizacao_individual.py:90 | the comprehension over `x[i] > 0` keeps at most as many elements as it is given |
| Individual.PickMembers | otimizacao_individual.py:89-91 | an element is picked iff some position holding it has a positive x |
| Individual.PickAppend | otimizacao_individual.py:90 | the comprehension keeps index order: picking from two consecutive stretches is picking from each in turn, and one position contributes its element exactly when its x is positive |
| Individual.BinarySumCounts | otimizacao_individual.py:74 | for a 0/1 vector, sum(x) is the number of picked positions |
| Individual.PickedWeightLe | otimizacao_individual.py:75 | with non-negative weights, the picked weights sum to at most the total weight |
| Individual.StockAt | otimizacao_individual.py:26 | the depot's stock rows are exactly the stock rows with its COD_DEP |
| Individual.CommonRows | otimizacao_individual.py:32-33 | the stocked rows are exactly the depot's rows whose COD_MAT the depot stocks |
| Individual.CellOfRow | otimizacao_individual.py:34 | a pivot cell holds the QTD_PEND of the unique row for its (OBRA, COD_MAT) |
| Individual.CellAbsent | otimizacao_individual.py:34-37 | a cell with no row reads as 0 (`fillna(0)`, `fill_value=0`) |
| Individual.WeightsAligned | otimizacao_individual.py:28 | w has one entry per distinct obra of the depot, aligned with the group-key obras, each being that obra's first PESO |
| Individual.AssociatedWeight | otimizacao_individual.py:45-46 | soma_prioridades_assoc equals the sum of first PESO over the depot's distinct obras |
| Individual.DemandShape | otimizacao_individual.py:29-37 | Q has one entry per stock row, every row of q is as wide as Q, and q has at most one row per weight |
| Individual.DemandAligned | otimizacao_individual.py:32-37 | when every obra has a stocked row, q has one row per obra in w's order, and q[i][t] is obra i's QTD_PEND for the t-th stock material (0 if absent) |
| Individual.DemandDropsUncovered | otimizacao_individual.py:32-37 | if some obra has no stocked row, q has fewer rows than w |
| Individual.ExtractWellFormed | otimizacao_individual.py:24-48 | every successful from_dataframes has the requested id and one obra code per weight |
| Individual.AsWrittenAgreesWhenSorted | otimizacao_individual.py:40 | when the depot's obras first appear in increasing order, the script's `obras` equals the group keys |
| Individual.AsWrittenSameRecord | otimizacao_individual.py:40-118 | the script's `obras` order changes only the obras the map lists: extraction fails alike, and solving gives the same error, or the same record and as many executed obras |
| Individual.AsWrittenMislabels | otimizacao_individual.py:28-40 | counterexample: the script's `obras` is out of step with w, so a solution choosing item 0 reports the wrong obra |
| Individual.MislabelPick | otimizacao_individual.py:89-91 | with x = [1, 0], the list in appearance order yields obra 20 and the list in key order yields obra 10 |
| Individual.MislabelInstance | otimizacao_individual.py:24-40 | the pieces of from_dataframes on the counterexample: rows, unique order, group keys and weights |
| Individual.ReadX | otimizacao_individual.py:72 | the solution read back has one value per item, each being that item's value |
| Individual.MaterialHolds | otimizacao_individual.py:62-65 | constraint Material_t holds iff Σ_i q[i][t]·x[i] ≤ Q[t] |
| Individual.KnapsackNames | otimizacao_individual.py:61-65 | the loop adds exactly T constraints, named Material_0 … Material_{T-1} |
| Individual.KnapsackMeaning | otimizacao_individual.py:61-65 | an assignment satisfies the material constraints iff no material is over-used by the chosen obras |
| Individual.ObjectiveValue | otimizacao_individual.py:58 | the objective is Σ_i w[i]·x[i] |
| Individual.DomainBinary | otimizacao_individual.py:55 | binary variables read back as 0 or 1 |
| Individual.ObjectiveIsExecutedWeight | otimizacao_individual.py:58-75 | for a 0/1 solution, the objective value equals soma_prioridades_executadas |
| Individual.AddMaterialConstraints | otimizacao_individual.py:61-65 | the loop builds the T material constraints in order |
| Individual.BuildAndOptimize | otimizacao_individual.py:52-68 | the solver is handed exactly the knapsack of w, Q and q |
| Individual.Deposito.constructor | otimizacao_individual.py:8-21 | the fields hold the arguments, M and T their sizes, no solution and zero counters; the object is valid iff there is one obra code per weight |
| Individual.Deposito.FromDataframes | otimizacao_individual.py:24-48 | either the pivot's error, or a fresh valid object in the state from_dataframes leaves, except that `obras` is in group-key order (see Findings) |
| Individual.Deposito.FromExtracted | otimizacao_individual.py:43-46 | the constructor followed by setting num_obras_associadas and soma_prioridades_assoc gives the from_dataframes state |
| Individual.Deposito.Solve | otimizacao_individual.py:50-78 | fails when q lacks an index solve reads, otherwise records the solver's result; w, Q, q, obras and the associated counters are unchanged |
| Individual.Deposito.Record | otimizacao_individual.py:70-78 | on OPTIMAL: x, obj_val, num_obras_executadas = Σ x and soma_prioridades_executadas = Σ w[i] over x[i] > 0; otherwise x and obj_val become None and the counters are kept |
| Individual.Deposito.Relacionamento | otimizacao_individual.py:89-91 | a one-key map from the depot to exactly the obras with positive x; it fails iff there is no solution and at least one obra |
| Individual.Outcome | otimizacao_individual.py:108-118 | a depot's record carries its own id and associated count, and an error names that depot |
| Individual.OutcomeWithinAssociated | otimizacao_individual.py:70-75 | with a 0/1 solution: OBRAS_EXECUTADAS is the length of the relationship list and at most NUM_OBRAS_ASSOCIADAS; SOMA_PRIORIDADES_EXECUTADAS is the objective value and, with non-negative PESO, at most SOMA_PRIORIDADES_ASSOCIADAS |
| Individual.ExtractAllWellFormed | otimizacao_individual.py:101-103 | the first loop builds one object per depot id, each its own from_dataframes result |
| Individual.ExtractAllPrefixErr | otimizacao_individual.py:101-103 | the first failing depot's error is the loop's error |
| Individual.SolveAllPrefixErr | otimizacao_individual.py:108-118 | the first failing solve's error is the loop's error |
| Individual.SolveAllKeys | otimizacao_individual.py:106-118 | one record per depot, and the merged map's keys are exactly the depot ids |
| Individual.SolveAllShape | otimizacao_individual.py:106-118 | with distinct ids, each record and each map entry is that depot's own outcome; no depot overwrites another's entry |
| Individual.RunShape | otimizacao_individual.py:101-118 | one depot per distinct COD_DEP in first-appearance order; each record and map entry is that depot's own outcome |
| Individual.SolveDeposito | otimizacao_individual.py:109-118 | solving a freshly built object and generating its map gives exactly that depot's Outcome |
| Individual.AppendDeposito | otimizacao_individual.py:102-103 | one pass of the first loop appends a fresh object in its from_dataframes state, with `obras` in group-key order, or stops with its error |
| Individual.BuildDepositos | otimizacao_individual.py:101-103 | the first loop builds distinct fresh objects, one per depot id, each in its from_dataframes state with `obras` in group-key order, or stops at the first error |
| Individual.SolveNext | otimizacao_individual.py:108-118 | one pass of the second loop extends the results exactly as the pure fold does, leaving later objects untouched |
| Individual.RunIndividual | otimizacao_individual.py:101-118 | the driver's records and merged map, or its first error, are exactly `Run` |
| Baseline.AtendidasAt | solucao_empresa.py:22 | the flagged rows are exactly the depot's rows with ATEND_OBRA == 1 |
| Baseline.SolucaoEmpresa | solucao_empresa.py:14-40 | one record per depot id in order, each carrying that depot's counts and sums |
| Baseline.ReportedDepots | solucao_empresa.py:14 | the reported depots are exactly the COD_DEP values of the obras, each once, in order of first appearance |
| Baseline.ExecutedObra | solucao_empresa.py:22-25 | an obra is executed at a depot iff some row of that depot for that obra is flagged |
| Baseline.ExecutedAmongAssociated | solucao_empresa.py:19-25 | the executed obras are exactly the flagged ones, all among the associated ones, so OBRAS_EXECUTADAS ≤ NUM_OBRAS_ASSOCIADAS |
| Baseline.FirstPesoAgrees | solucao_empresa.py:28-31 | when an obra's rows agree on PESO, its first flagged row and its first row carry the same PESO |
| Baseline.ExecutedWeightWithinTotal | solucao_empresa.py:28-31 | with non-negative PESO that agrees across an obra's rows, SOMA_PRIORIDADES_EXECUTADAS ≤ SOMA_PRIORIDADES |
| Baseline.AssociatedAgreesWithKnapsack | solucao_empresa.py:19-31 | NUM_OBRAS_ASSOCIADAS and SOMA_PRIORIDADES equal the knapsack mode's num_obras_associadas and soma_prioridades_assoc for the same depot |

## Left out

- Reading the Excel sheets and the comma-to-dot decimal coercion. The model takes clean rows.
- The no-op `set_index` calls of otimizacao_com_transporte.py:16-17.
- Timing, `print`, `print_solution`, and writing CSV and JSON.
- The Gurobi solve is an uninterpreted function. The model states nothing about optimality, only what is done with the status and values it returns.
- Branch-and-bound is not modelled.
- The `model.status` print of lines 127-131 is left out.
- `np.random.randint(1, 5)` under seed 42 is a parameter `draw` that only satisfies the bounds [1, 4].
- Floating point: every quantity is a Dafny `real`. The 0.5 and > 0 thresholds are plain comparisons, and solver tolerances are not modelled.
- Keys are `str(d)` in the JSON maps of both scripts. The model keys the maps by depot id, which is a one-to-one renaming.
- The summary record's mix of strings and numbers (lines 180-188) is the datatype `ObjectiveRow(objVal, totalTransportado)`.
- pandas' handling of missing cells: NaN keys dropped by `groupby`, and dtypes. Rows are total records.
- The `int(...)` casts on COD_MAT (otimizacao_com_transporte.py:35 and :42) are the identity, because ids are integers.
- The attribute `df_obras_filtrado` that from_dataframes stores on the object (otimizacao_individual.py:44) is read by nothing, so it is not modelled.
- The `depositos` dict of the individual driver is the list of objects in id order. Ids are distinct, so its insertion order is that list's order.
- Individual.ObjectiveIsExecutedWeight: holds for 0/1 solutions only. Near-integral values within a solver tolerance are not modelled.
- Individual.OutcomeWithinAssociated: assumes the solver's values lie in the variables' domain, that is 0/1 for x.
- Baseline.ExecutedWeightWithinTotal: assumes every row of an obra carries the same PESO. Without that, the first flagged row can carry a larger PESO than the first row, and the bound can fail.
- Individual.Extract: `obras` is taken in group-key order, which is the order w and q use. The order the script uses is kept in `ExtractAsWritten` (see Findings). Where the two agree, `AsWrittenAgreesWhenSorted` states so. `AsWrittenSameRecord` shows that only the obra lists of the map differ.
- Individual.Deposito.FromDataframes: the new object's `obras` is in group-key order, not the unique() order the script stores. The other fields are as the script leaves them.
- Individual.AppendDeposito: the appended object's `obras` is in group-key order, as for `FromDataframes`.
- Individual.BuildDepositos: every built object's `obras` is in group-key order, as for `FromDataframes`.
- Individual.RunIndividual: the records are the script's, but the merged map lists executed obras as the corrected extraction names them. Where obras are listed out of order, the script's JSON names other obras (see Findings).
- TransportModel.SingleDepotInstance: a helper for the counterexample below. It states only that the instance's tables are valid and its program is built.

## Findings

| source | as written | input that shows it | evidently intended | confidence | as-written member | corrected member |
|---|---|---|---|---|---|---|
| otimizacao_com_transporte.py:74-92 | the capacity constraint of (d1, m) is emitted only inside `for d2 ... if d1 != d2`, so with a single depot no stock limit is stated | one depot 3 stocking 0 of material 7; one obra at depot 3 of weight 1 needing 5 of material 7; x = 1 is feasible | every depot's stock bounds its demand, for any number of depots (one constraint per depot and material) | not executed | TransportModel.SingleDepotStockUnenforced | TransportModel.CorrectedProgramEnforcesCapacity |
| otimizacao_individual.py:28-40 | `obras` comes from `unique()` (appearance order) while w, q and x follow the sorted group keys, so `gerar_relacionamento_obras` pairs x[i] with the wrong obra | depot 5 with rows for obra 20 (PESO 3.0) then obra 10 (PESO 1.0), one stocked material; a solution choosing item 0 (obra 10) is reported as obra 20 | `obras` listed in the group-key order of w and q | not executed | Individual.AsWrittenMislabels | Individual.WeightsAligned |
