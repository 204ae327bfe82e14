/** otimizacao_individual.py: every depot, on its own, solves a 0/1
    multidimensional knapsack over the obras whose origin it is, with its own
    stock as the capacities. Nothing moves between depots. */
module Individual {
  import opened Common
  import opened LinearProgram

  // ---------------------------------------------------------------------------
  // Index sequences, Python's sum, and list comprehensions over range(M)

  /** range(n) */
  function Indices(n: nat): (r: seq<nat>)
    ensures |r| == n
    ensures forall i :: 0 <= i < n ==> r[i] == i
  {
    if n == 0 then [] else Indices(n - 1) + [n - 1]
  }

  function RealValue(r: real): real
  {
    r
  }

  /** Python's sum over a list of reals. */
  function SumSeq(xs: seq<real>): real
  {
    Sum(xs, RealValue)
  }

  /** `[xs[i] for i in range(len(x)) if x[i] > 0]` */
  function Pick<T>(xs: seq<T>, x: seq<real>): (r: seq<T>)
    requires |xs| == |x|
    ensures |r| <= |xs|
  {
    if xs == [] then []
    else Pick(Init(xs), Init(x)) + (if Last(x) > 0.0 then [Last(xs)] else [])
  }

  predicate Binary(x: seq<real>)
  {
    forall i :: 0 <= i < |x| ==> x[i] == 0.0 || x[i] == 1.0
  }

  /** Some position holding y has a positive x. */
  ghost predicate Chosen<T>(xs: seq<T>, x: seq<real>, y: T)
    requires |xs| == |x|
  {
    exists i :: 0 <= i < |xs| && xs[i] == y && x[i] > 0.0
  }

  /** An element is picked exactly when some position holding it has a positive x. */
  lemma {:induction false} PickMembers<T>(xs: seq<T>, x: seq<real>)
    requires |xs| == |x|
    ensures forall y :: y in Pick(xs, x) <==> Chosen(xs, x, y)
  {
    if xs != [] {
      var p, px := Init(xs), Init(x);
      PickMembers(p, px);
      forall y ensures y in Pick(xs, x) <==> Chosen(xs, x, y) {
        if y in Pick(p, px) {
          var i :| 0 <= i < |p| && p[i] == y && px[i] > 0.0;
          assert xs[i] == y && x[i] > 0.0;
        }
        if Chosen(xs, x, y) {
          var i :| 0 <= i < |xs| && xs[i] == y && x[i] > 0.0;
          if i < |p| {
            assert p[i] == y && px[i] > 0.0;
            assert Chosen(p, px, y);
          }
        }
      }
    }
  }

  /** The comprehension keeps index order: picking from two consecutive
      stretches of positions is picking from each in turn, and a single
      position contributes its element exactly when its x is positive. */
  lemma {:induction false} PickAppend<T>(xs: seq<T>, x: seq<real>, ys: seq<T>, y: seq<real>)
    requires |xs| == |x| && |ys| == |y|
    ensures Pick(xs + ys, x + y) == Pick(xs, x) + Pick(ys, y)
    ensures |ys| == 1 ==> Pick(ys, y) == if y[0] > 0.0 then [ys[0]] else []
    decreases |ys|
  {
    if ys == [] {
      assert xs + ys == xs && x + y == x;
    } else {
      assert Init(xs + ys) == xs + Init(ys) && Last(xs + ys) == Last(ys);
      assert Init(x + y) == x + Init(y) && Last(x + y) == Last(y);
      PickAppend(xs, x, Init(ys), Init(y));
    }
  }

  /** For a 0/1 vector, sum(x) is the number of picked positions. */
  lemma {:induction false} BinarySumCounts<T>(xs: seq<T>, x: seq<real>)
    requires |xs| == |x| && Binary(x)
    ensures SumSeq(x) == |Pick(xs, x)| as real
  {
    if xs != [] {
      assert Binary(Init(x));
      BinarySumCounts(Init(xs), Init(x));
      assert x[|x| - 1] == 0.0 || x[|x| - 1] == 1.0;
    }
  }

  /** Dropping some of the non-negative weights never increases their sum. */
  lemma {:induction false} PickedWeightLe(w: seq<real>, x: seq<real>)
    requires |w| == |x|
    requires forall i :: 0 <= i < |w| ==> w[i] >= 0.0
    ensures SumSeq(Pick(w, x)) <= SumSeq(w)
  {
    if w != [] {
      PickedWeightLe(Init(w), Init(x));
      if Last(x) > 0.0 {
        SumSnoc(Pick(Init(w), Init(x)), Last(w), RealValue);
      } else {
        assert Pick(w, x) == Pick(Init(w), Init(x)) + [];
        assert Pick(Init(w), Init(x)) + [] == Pick(Init(w), Init(x));
      }
    }
  }

  // ---------------------------------------------------------------------------
  // What from_dataframes reads off the two sheets

  /** `df_depositos[df_depositos['COD_DEP'] == d]` */
  function StockAt(stock: seq<StockRow>, d: DepotId): (r: seq<StockRow>)
    ensures forall s :: s in r <==> s in stock && s.dep == d
  {
    Filter(stock, StockOfDepot(d))
  }

  function StockOfDepot(d: DepotId): StockRow -> bool
  {
    (s: StockRow) => s.dep == d
  }

  function EstoqueOf(s: StockRow): real
  {
    s.estoque
  }

  function MatOf(s: StockRow): MatId
  {
    s.mat
  }

  /** The depot's rows whose COD_MAT occurs among its stock rows (the isin mask). */
  function CommonRows(rs: seq<ObraRow>, mats: seq<MatId>): (r: seq<ObraRow>)
    ensures forall x :: x in r <==> x in rs && x.mat in mats
  {
    Filter(rs, Stocked(mats))
  }

  function Stocked(mats: seq<MatId>): ObraRow -> bool
  {
    (x: ObraRow) => x.mat in mats
  }

  /** pivot refuses an (OBRA, COD_MAT) pair that two rows share. */
  predicate HasDuplicatePair(rows: seq<ObraRow>)
  {
    exists i, j :: 0 <= i < j < |rows| && rows[i].obra == rows[j].obra && rows[i].mat == rows[j].mat
  }

  /** The pivot cell (o, m): QTD_PEND of the row for that pair, 0 when there
      is none (fillna(0) and the fill_value of reindex). */
  function Cell(rows: seq<ObraRow>, o: ObraId, m: MatId): real
  {
    if rows == [] then 0.0
    else if rows[0].obra == o && rows[0].mat == m then rows[0].qtdPend
    else Cell(rows[1..], o, m)
  }

  /** The cell of the unique row for (o, m) is that row's QTD_PEND. */
  lemma {:induction false} CellOfRow(rows: seq<ObraRow>, k: nat)
    requires k < |rows| && !HasDuplicatePair(rows)
    ensures Cell(rows, rows[k].obra, rows[k].mat) == rows[k].qtdPend
  {
    if k > 0 {
      assert !(rows[0].obra == rows[k].obra && rows[0].mat == rows[k].mat);
      assert !HasDuplicatePair(rows[1..]) by {
        forall i, j | 0 <= i < j < |rows| - 1
          ensures !(rows[1..][i].obra == rows[1..][j].obra && rows[1..][i].mat == rows[1..][j].mat)
        {
          assert rows[1..][i] == rows[i + 1] && rows[1..][j] == rows[j + 1];
        }
      }
      CellOfRow(rows[1..], k - 1);
    }
  }

  /** A pair without a row reads as 0. */
  lemma {:induction false} CellAbsent(rows: seq<ObraRow>, o: ObraId, m: MatId)
    requires forall k :: 0 <= k < |rows| ==> !(rows[k].obra == o && rows[k].mat == m)
    ensures Cell(rows, o, m) == 0.0
  {
    if rows != [] {
      assert forall k :: 0 <= k < |rows| - 1 ==> rows[1..][k] == rows[k + 1];
      CellAbsent(rows[1..], o, m);
    }
  }

  function CellOf(rows: seq<ObraRow>, o: ObraId): MatId -> real
  {
    (m: MatId) => Cell(rows, o, m)
  }

  /** One row of q: the obra's cells for the stock's materials, in stock order. */
  function DemandRow(rows: seq<ObraRow>, mats: seq<MatId>): ObraId -> seq<real>
  {
    (o: ObraId) => MapSeq(mats, CellOf(rows, o))
  }

  /** What from_dataframes hands to the constructor, plus the two counters it
      sets afterwards. */
  datatype Extracted = Extracted(id: DepotId, w: seq<real>, Q: seq<real>, q: seq<seq<real>>, obras: seq<ObraId>,
                                 numObrasAssociadas: nat, somaPrioridadesAssoc: real)

  datatype RunError =
    | DuplicatePivotEntry(dep: DepotId)    // ValueError from pivot
    | DemandIndexOutOfRange(dep: DepotId)  // IndexError on q[i][t] in solve
    | NoSolution(dep: DepotId)             // TypeError on x[i] with x None in gerar_relacionamento_obras

  /** COD_MAT of the depot's stock rows, in sheet order. */
  function Materials(stock: seq<StockRow>, d: DepotId): seq<MatId>
  {
    MapSeq(StockAt(stock, d), MatOf)
  }

  /** df_obras_filtrado_comum */
  function CommonAt(rows: seq<ObraRow>, stock: seq<StockRow>, d: DepotId): seq<ObraRow>
  {
    CommonRows(RowsAt(rows, d), Materials(stock, d))
  }

  /** The group keys of `groupby('OBRA')` on the depot's rows. */
  function GroupKeys(rows: seq<ObraRow>, d: DepotId): seq<ObraId>
  {
    SortedKeys(ObrasOf(RowsAt(rows, d)))
  }

  /** The pivot's index: the sorted OBRA of the stocked rows. */
  function PivotKeys(rows: seq<ObraRow>, stock: seq<StockRow>, d: DepotId): seq<ObraId>
  {
    SortedKeys(ObrasOf(CommonAt(rows, stock, d)))
  }

  /** w: the first PESO of every obra, in group-key order. */
  function Weights(rows: seq<ObraRow>, d: DepotId): seq<real>
  {
    MapSeq(GroupKeys(rows, d), FirstPesoIn(RowsAt(rows, d)))
  }

  /** What from_dataframes builds once the pivot succeeds, with `obras` in
      the group-key order that w and q use (see ExtractAsWritten for the
      order the script uses). */
  function Built(rows: seq<ObraRow>, stock: seq<StockRow>, d: DepotId): Extracted
  {
    Extracted(d, Weights(rows, d), MapSeq(StockAt(stock, d), EstoqueOf),
              MapSeq(PivotKeys(rows, stock, d), DemandRow(CommonAt(rows, stock, d), Materials(stock, d))),
              GroupKeys(rows, d), NumDistinctObras(RowsAt(rows, d)), SumSeq(Weights(rows, d)))
  }

  /** from_dataframes for depot d: fails where the pivot does. */
  function Extract(rows: seq<ObraRow>, stock: seq<StockRow>, d: DepotId): Result<Extracted, RunError>
  {
    if HasDuplicatePair(CommonAt(rows, stock, d)) then Err(DuplicatePivotEntry(d)) else Ok(Built(rows, stock, d))
  }

  /** from_dataframes as written: `obras` in order of first appearance. */
  function ExtractAsWritten(rows: seq<ObraRow>, stock: seq<StockRow>, d: DepotId): Result<Extracted, RunError>
  {
    match Extract(rows, stock, d)
    case Err(e) => Err(e)
    case Ok(e) => Ok(e.(obras := Unique(ObrasOf(RowsAt(rows, d)))))
  }

  /** Where the depot's obras first appear in increasing order, the script's
      `obras` agrees with the group keys, and so with w and q. */
  lemma AsWrittenAgreesWhenSorted(rows: seq<ObraRow>, stock: seq<StockRow>, d: DepotId)
    requires StrictlySorted(Unique(ObrasOf(RowsAt(rows, d))))
    ensures ExtractAsWritten(rows, stock, d) == Extract(rows, stock, d)
  {
    SortedUniqueness(GroupKeys(rows, d), Unique(ObrasOf(RowsAt(rows, d))));
  }

  /** Picking with the same x from two lists of the same length picks as many elements. */
  lemma {:induction false} PickSameLength<T, U>(xs: seq<T>, ys: seq<U>, x: seq<real>)
    requires |xs| == |x| && |ys| == |x|
    ensures |Pick(xs, x)| == |Pick(ys, x)|
  {
    if x != [] {
      PickSameLength(Init(xs), Init(ys), Init(x));
    }
  }

  /** The script's `obras` order changes only which obras the relationship
      map lists: the extraction succeeds or fails alike, and solving either
      object gives the same error, or the same record and as many executed
      obras. */
  lemma AsWrittenSameRecord(rows: seq<ObraRow>, stock: seq<StockRow>, d: DepotId, solver: Solver)
    ensures ExtractAsWritten(rows, stock, d).Err? <==> Extract(rows, stock, d).Err?
    ensures Extract(rows, stock, d).Ok? ==>
      var e, ew := Extract(rows, stock, d).value, ExtractAsWritten(rows, stock, d).value;
      && WellFormed(e) && WellFormed(ew)
      && (Outcome(ew, solver).Err? <==> Outcome(e, solver).Err?)
      && (Outcome(e, solver).Err? ==> Outcome(ew, solver).error == Outcome(e, solver).error)
      && (Outcome(e, solver).Ok? ==>
            && Outcome(ew, solver).value.0 == Outcome(e, solver).value.0
            && |Outcome(ew, solver).value.1| == |Outcome(e, solver).value.1|)
  {
    if Extract(rows, stock, d).Ok? {
      var e := Extract(rows, stock, d).value;
      var order := Unique(ObrasOf(RowsAt(rows, d)));
      var ew := e.(obras := order);
      assert ExtractAsWritten(rows, stock, d) == Ok(ew);
      ExtractWellFormed(rows, stock, d);
      SortedIsDistinct(GroupKeys(rows, d));
      SameElementsLength(order, GroupKeys(rows, d));
      assert WellFormed(ew);
      var M := |e.w|;
      if Shaped(e.q, M, |e.Q|) {
        match solver(KnapsackProgram(e.w, e.Q, e.q))
        case Optimal(_, a) =>
          PickSameLength(ew.obras, e.obras, ReadX(a, M));
        case NotOptimal(_) =>
      }
    }
  }

  /** Two obras of depot 5 listed out of order: the script's `obras` is
      [20, 10] while w, q and x follow [10, 20]. Item 0 is obra 10 with
      weight 1.0, yet the script pairs it with obra 20 (weight 3.0), and a
      solution that picks item 0 is reported as obra 20. */
  lemma AsWrittenMislabels(rows: seq<ObraRow>, stock: seq<StockRow>)
    requires rows == [ObraRow(20, 1, 5, 3.0, 1.0, 0), ObraRow(10, 1, 5, 1.0, 1.0, 0)]
    requires stock == [StockRow(5, 1, 1.0)]
    ensures
      var e := ExtractAsWritten(rows, stock, 5);
      var c := Extract(rows, stock, 5);
      && e.Ok? && c.Ok? && e.value.obras == [20, 10] && c.value.obras == [10, 20] && e.value.w == c.value.w == [1.0, 3.0]
      && e.value.w[0] != FirstPeso(rows, e.value.obras[0]) && c.value.w[0] == FirstPeso(rows, c.value.obras[0])
      && Pick(e.value.obras, [1.0, 0.0]) == [20] && Pick(c.value.obras, [1.0, 0.0]) == [10]
  {
    MislabelInstance(rows, stock);
    var b := Built(rows, stock, 5);
    assert Extract(rows, stock, 5) == Ok(b);
    assert b.obras == [10, 20] && b.w == [1.0, 3.0];
    assert ExtractAsWritten(rows, stock, 5) == Ok(b.(obras := [20, 10]));
    MislabelPick();
  }

  lemma MislabelPick()
    ensures Pick([20, 10], [1.0, 0.0]) == [20] && Pick([10, 20], [1.0, 0.0]) == [10]
  {
    assert Init([20, 10]) == [20] && Init([10, 20]) == [10] && Init([1.0, 0.0]) == [1.0];
  }

  /** The pieces of from_dataframes on the instance above. */
  lemma MislabelInstance(rows: seq<ObraRow>, stock: seq<StockRow>)
    requires rows == [ObraRow(20, 1, 5, 3.0, 1.0, 0), ObraRow(10, 1, 5, 1.0, 1.0, 0)]
    requires stock == [StockRow(5, 1, 1.0)]
    ensures !HasDuplicatePair(CommonAt(rows, stock, 5))
    ensures RowsAt(rows, 5) == rows
    ensures Unique(ObrasOf(rows)) == [20, 10]
    ensures GroupKeys(rows, 5) == [10, 20]
    ensures Weights(rows, 5) == [1.0, 3.0]
    ensures FirstPeso(rows, 10) == 1.0 && FirstPeso(rows, 20) == 3.0
  {
    MislabelCommon(rows, stock);
    MislabelKeys(rows);
    MislabelGroupKeys(rows);
    MislabelWeights(rows);
  }

  lemma MislabelCommon(rows: seq<ObraRow>, stock: seq<StockRow>)
    requires rows == [ObraRow(20, 1, 5, 3.0, 1.0, 0), ObraRow(10, 1, 5, 1.0, 1.0, 0)]
    requires stock == [StockRow(5, 1, 1.0)]
    ensures RowsAt(rows, 5) == rows && CommonAt(rows, stock, 5) == rows
    ensures !HasDuplicatePair(CommonAt(rows, stock, 5))
  {
    FilterAll(rows, AtDepot(5));
    FilterAll(stock, StockOfDepot(5));
    assert Materials(stock, 5) == [1];
    FilterAll(rows, Stocked([1]));
  }

  lemma MislabelGroupKeys(rows: seq<ObraRow>)
    requires rows == [ObraRow(20, 1, 5, 3.0, 1.0, 0), ObraRow(10, 1, 5, 1.0, 1.0, 0)]
    requires RowsAt(rows, 5) == rows
    ensures GroupKeys(rows, 5) == [10, 20]
  {
    assert ObrasOf(rows) == [20, 10];
    SortedUniqueness(GroupKeys(rows, 5), [10, 20]);
  }

  lemma MislabelKeys(rows: seq<ObraRow>)
    requires rows == [ObraRow(20, 1, 5, 3.0, 1.0, 0), ObraRow(10, 1, 5, 1.0, 1.0, 0)]
    ensures Unique(ObrasOf(rows)) == [20, 10]
  {
    var obras := ObrasOf(rows);
    assert obras == [20, 10];
    assert Init(obras) == [20];
    assert Unique([20]) == [20];
  }

  lemma MislabelWeights(rows: seq<ObraRow>)
    requires rows == [ObraRow(20, 1, 5, 3.0, 1.0, 0), ObraRow(10, 1, 5, 1.0, 1.0, 0)]
    requires RowsAt(rows, 5) == rows && GroupKeys(rows, 5) == [10, 20]
    ensures FirstPeso(rows, 10) == 1.0 && FirstPeso(rows, 20) == 3.0
    ensures Weights(rows, 5) == [1.0, 3.0]
  {
    assert FirstRowIndex(rows, 20) == 0;
    assert FirstRowIndex(rows, 10) == 1;
  }

  /** Two distinct sequences with the same elements have the same length. */
  lemma SameElementsLength<T>(xs: seq<T>, ys: seq<T>)
    requires Distinct(xs) && Distinct(ys)
    requires forall z :: z in xs <==> z in ys
    ensures |xs| == |ys|
  {
    SumSubsetLe(xs, ys, (z: T) => 0.0);
    SumSubsetLe(ys, xs, (z: T) => 0.0);
  }

  /** One weight and one obra per distinct obra of the depot, and each
      weight is that obra's first PESO. */
  lemma WeightsAligned(rows: seq<ObraRow>, stock: seq<StockRow>, d: DepotId)
    ensures var e := Built(rows, stock, d);
      && |e.w| == |e.obras| == e.numObrasAssociadas
      && forall i :: 0 <= i < |e.w| ==> e.obras[i] in ObrasOf(RowsAt(rows, d)) && e.w[i] == FirstPeso(RowsAt(rows, d), e.obras[i])
  {
    var keys := GroupKeys(rows, d);
    SortedIsDistinct(keys);
    SameElementsLength(keys, Unique(ObrasOf(RowsAt(rows, d))));
  }

  /** soma_prioridades_assoc, a sum over the sorted group keys, equals the
      sum of first weights over the obras in order of appearance. */
  lemma AssociatedWeight(rows: seq<ObraRow>, stock: seq<StockRow>, d: DepotId)
    ensures Built(rows, stock, d).somaPrioridadesAssoc == SomaPrioridades(RowsAt(rows, d))
  {
    var rs := RowsAt(rows, d);
    var keys := GroupKeys(rows, d);
    SortedIsDistinct(keys);
    SumSameElements(keys, Unique(ObrasOf(rs)), FirstPesoIn(rs));
    SumMapSeq(keys, FirstPesoIn(rs), RealValue, FirstPesoIn(rs));
  }

  /** One capacity per stock row, every row of q as wide as Q, and at most
      one row of q per obra. */
  lemma DemandShape(rows: seq<ObraRow>, stock: seq<StockRow>, d: DepotId)
    ensures var e := Built(rows, stock, d);
      && |e.Q| == |StockAt(stock, d)|
      && |e.q| <= |e.w|
      && forall i :: 0 <= i < |e.q| ==> |e.q[i]| == |e.Q|
  {
    var keys := GroupKeys(rows, d);
    var pk := PivotKeys(rows, stock, d);
    SortedIsDistinct(keys);
    SortedIsDistinct(pk);
    ObrasOfSubset(CommonAt(rows, stock, d), RowsAt(rows, d));
    SumSubsetLe(pk, keys, (z: ObraId) => 0.0);
  }

  /** When every obra of the depot has a row for a stocked material, q has
      one row per obra, in the same order as w and obras, and q[i][t] is the
      QTD_PEND of obra i for the t-th stock row's material (0 when it has no
      such row). */
  lemma DemandAligned(rows: seq<ObraRow>, stock: seq<StockRow>, d: DepotId)
    requires forall o :: o in ObrasOf(RowsAt(rows, d)) ==> o in ObrasOf(CommonAt(rows, stock, d))
    ensures var e := Built(rows, stock, d);
      && |e.q| == |e.w|
      && forall i, t :: 0 <= i < |e.q| && 0 <= t < |StockAt(stock, d)| ==>
           |e.q[i]| == |e.Q| && e.q[i][t] == Cell(CommonAt(rows, stock, d), e.obras[i], StockAt(stock, d)[t].mat)
  {
    var common, mats, sa := CommonAt(rows, stock, d), Materials(stock, d), StockAt(stock, d);
    var pk, gk := PivotKeys(rows, stock, d), GroupKeys(rows, d);
    ObrasOfSubset(common, RowsAt(rows, d));
    SortedUniqueness(pk, gk);
    var e := Built(rows, stock, d);
    assert e.q == MapSeq(pk, DemandRow(common, mats)) && e.obras == gk && e.Q == MapSeq(sa, EstoqueOf);
    forall i, t | 0 <= i < |e.q| && 0 <= t < |sa|
      ensures |e.q[i]| == |e.Q| && e.q[i][t] == Cell(common, e.obras[i], sa[t].mat)
    {
      assert e.q[i] == MapSeq(mats, CellOf(common, pk[i]));
      assert mats[t] == sa[t].mat;
    }
  }

  /** If some obra of the depot has no row for a stocked material, q has
      fewer rows than there are weights. */
  lemma DemandDropsUncovered(rows: seq<ObraRow>, stock: seq<StockRow>, d: DepotId, o: ObraId)
    requires o in ObrasOf(RowsAt(rows, d)) && o !in ObrasOf(CommonAt(rows, stock, d))
    ensures |Built(rows, stock, d).q| < |Built(rows, stock, d).w|
  {
    var keys := GroupKeys(rows, d);
    var pk := PivotKeys(rows, stock, d);
    SortedIsDistinct(keys);
    SortedIsDistinct(pk);
    var k :| 0 <= k < |keys| && keys[k] == o;
    var rest := keys[..k] + keys[k + 1..];
    RemoveAtDistinct(keys, k);
    ObrasOfSubset(CommonAt(rows, stock, d), RowsAt(rows, d));
    forall z | z in pk ensures z in rest {
      assert z in keys && z != o;
    }
    SumSubsetLe(pk, rest, (z: ObraId) => 0.0);
  }

  /** Every from_dataframes result is well formed for the driver. */
  lemma ExtractWellFormed(rows: seq<ObraRow>, stock: seq<StockRow>, d: DepotId)
    ensures Extract(rows, stock, d).Ok? ==> Extract(rows, stock, d).value.id == d && WellFormed(Extract(rows, stock, d).value)
  {
    WeightsAligned(rows, stock, d);
  }

  // ---------------------------------------------------------------------------
  // The knapsack of one depot, as solve states it

  function ItemOf(i: nat): Var
  {
    Item(i)
  }

  /** q[i][t], read as 0 outside the matrix; solve only builds the program
      once every such index exists (Shaped). */
  function Coef(q: seq<seq<real>>, i: nat, t: nat): real
  {
    if i < |q| && t < |q[i]| then q[i][t] else 0.0
  }

  function WeightAt(w: seq<real>, i: nat): real
  {
    if i < |w| then w[i] else 0.0
  }

  function DemandTermOf(q: seq<seq<real>>, t: nat): nat -> Term
  {
    (i: nat) => Term(Coef(q, i, t), Item(i))
  }

  function WeightTermOf(w: seq<real>): nat -> Term
  {
    (i: nat) => Term(WeightAt(w, i), Item(i))
  }

  /** Material_t: Σ_i q[i][t] · x[i] <= Q[t] */
  function MaterialConstraint(w: seq<real>, Q: seq<real>, q: seq<seq<real>>, t: nat): Constraint
    requires t < |Q|
  {
    Constraint(Material(t), LinExpr(MapSeq(Indices(|w|), DemandTermOf(q, t)), 0.0), Le, LinExpr([], Q[t]))
  }

  /** The first n material constraints, in the order the loop adds them. */
  function KnapsackConstraints(w: seq<real>, Q: seq<real>, q: seq<seq<real>>, n: nat): seq<Constraint>
    requires n <= |Q|
  {
    if n == 0 then [] else KnapsackConstraints(w, Q, q, n - 1) + [MaterialConstraint(w, Q, q, n - 1)]
  }

  /** x[0], ..., x[M-1], all binary. */
  function KnapsackVars(M: nat): seq<Var>
  {
    MapSeq(Indices(M), ItemOf)
  }

  function KnapsackObjective(w: seq<real>): LinExpr
  {
    LinExpr(MapSeq(Indices(|w|), WeightTermOf(w)), 0.0)
  }

  /** The model of one depot: M binary variables, maximise Σ w[i]·x[i], one
      capacity constraint per material. */
  function KnapsackProgram(w: seq<real>, Q: seq<real>, q: seq<seq<real>>): Program
  {
    Program(KnapsackVars(|w|), KnapsackObjective(w), KnapsackConstraints(w, Q, q, |Q|))
  }

  /** Every q[i][t] that solve reads exists (there is nothing to read when T is 0). */
  predicate Shaped(q: seq<seq<real>>, M: nat, T: nat)
  {
    T == 0 || forall i :: 0 <= i < M ==> i < |q| && T <= |q[i]|
  }

  /** The solution as read back: `[x[i].x for i in range(M)]` */
  function ReadX(a: Assignment, n: nat): (x: seq<real>)
    ensures |x| == n
    ensures forall i :: 0 <= i < n ==> x[i] == a(Item(i))
  {
    if n == 0 then [] else ReadX(a, n - 1) + [a(Item(n - 1))]
  }

  /** The value of the term q[i][t]·x[i]. */
  function Load(q: seq<seq<real>>, t: nat, a: Assignment): nat -> real
  {
    (i: nat) => TermValue(a)(DemandTermOf(q, t)(i))
  }

  /** The value of the term w[i]·x[i]. */
  function Gain(w: seq<real>, a: Assignment): nat -> real
  {
    (i: nat) => TermValue(a)(WeightTermOf(w)(i))
  }

  /** With x[i] in {0, 1}, the term w[i]·x[i] is w[i] or 0. */
  lemma GainAt(w: seq<real>, a: Assignment, i: nat)
    requires i < |w| && (a(Item(i)) == 0.0 || a(Item(i)) == 1.0)
    ensures Gain(w, a)(i) == if a(Item(i)) > 0.0 then w[i] else 0.0
  {
    var c, v := w[i], a(Item(i));
    assert WeightTermOf(w)(i) == Term(c, Item(i));
    assert Gain(w, a)(i) == c * v;
  }

  /** Material t is not over-used: Σ_i q[i][t]·x[i] <= Q[t]. */
  ghost predicate WithinStock(w: seq<real>, Q: seq<real>, q: seq<seq<real>>, t: nat, a: Assignment)
    requires t < |Q|
  {
    Sum(Indices(|w|), Load(q, t, a)) <= Q[t]
  }

  lemma MaterialHolds(w: seq<real>, Q: seq<real>, q: seq<seq<real>>, t: nat, a: Assignment)
    requires t < |Q|
    ensures Holds(MaterialConstraint(w, Q, q, t), a) <==> WithinStock(w, Q, q, t, a)
  {
    var c := MaterialConstraint(w, Q, q, t);
    var g, h := DemandTermOf(q, t), Load(q, t, a);
    TermsValueMap(Indices(|w|), g, a, h);
    assert Eval(c.lhs, a) == Sum(Indices(|w|), h);
    assert Eval(c.rhs, a) == Q[t] by {
      assert TermsValue([], a) == 0.0;
    }
  }

  /** Exactly n constraints, named Material_0 ... Material_{n-1}. */
  lemma {:induction false} KnapsackNames(w: seq<real>, Q: seq<real>, q: seq<seq<real>>, n: nat)
    requires n <= |Q|
    ensures |KnapsackConstraints(w, Q, q, n)| == n
    ensures forall t :: 0 <= t < n ==> KnapsackConstraints(w, Q, q, n)[t].name == Material(t)
  {
    if n > 0 {
      KnapsackNames(w, Q, q, n - 1);
    }
  }

  /** An assignment satisfies the first n material constraints iff no
      material t < n is over-used by the chosen obras. */
  lemma {:induction false} KnapsackMeaning(w: seq<real>, Q: seq<real>, q: seq<seq<real>>, n: nat, a: Assignment)
    requires n <= |Q|
    ensures Satisfies(a, KnapsackConstraints(w, Q, q, n)) <==> forall t :: 0 <= t < n ==> WithinStock(w, Q, q, t, a)
  {
    if n > 0 {
      var cs := KnapsackConstraints(w, Q, q, n - 1);
      KnapsackMeaning(w, Q, q, n - 1, a);
      SatisfiesAppend(a, cs, [MaterialConstraint(w, Q, q, n - 1)]);
      MaterialHolds(w, Q, q, n - 1, a);
      var c := MaterialConstraint(w, Q, q, n - 1);
      assert Satisfies(a, [c]) <==> Holds(c, a) by {
        assert [c][0] == c;
      }
    }
  }

  /** The objective is Σ_i w[i]·x[i]. */
  lemma ObjectiveValue(w: seq<real>, a: Assignment)
    ensures Eval(KnapsackObjective(w), a) == Sum(Indices(|w|), Gain(w, a))
  {
    TermsValueMap(Indices(|w|), WeightTermOf(w), a, Gain(w, a));
  }

  predicate BinaryItems(a: Assignment, n: nat)
  {
    forall i :: 0 <= i < n ==> a(Item(i)) == 0.0 || a(Item(i)) == 1.0
  }

  /** The picked weights of the first n items, one item at a time. */
  lemma PickedPrefixStep(w: seq<real>, a: Assignment, n: nat)
    requires 0 < n <= |w|
    ensures SumSeq(Pick(w[..n], ReadX(a, n))) ==
      SumSeq(Pick(w[..n - 1], ReadX(a, n - 1))) + (if a(Item(n - 1)) > 0.0 then w[n - 1] else 0.0)
  {
    assert Init(w[..n]) == w[..n - 1] && Last(w[..n]) == w[n - 1];
    assert Init(ReadX(a, n)) == ReadX(a, n - 1) && Last(ReadX(a, n)) == a(Item(n - 1));
    var p := Pick(w[..n - 1], ReadX(a, n - 1));
    assert Pick(w[..n], ReadX(a, n)) == p + (if a(Item(n - 1)) > 0.0 then [w[n - 1]] else []);
    if a(Item(n - 1)) > 0.0 {
      SumSnoc(p, w[n - 1], RealValue);
    } else {
      assert p + [] == p;
    }
  }

  lemma {:induction false} GainPrefix(w: seq<real>, a: Assignment, n: nat)
    requires n <= |w| && BinaryItems(a, n)
    ensures Sum(Indices(n), Gain(w, a)) == SumSeq(Pick(w[..n], ReadX(a, n)))
  {
    if n > 0 {
      GainPrefix(w, a, n - 1);
      GainAt(w, a, n - 1);
      PickedPrefixStep(w, a, n);
      var g := Gain(w, a);
      var v := if a(Item(n - 1)) > 0.0 then w[n - 1] else 0.0;
      assert Init(Indices(n)) == Indices(n - 1) && Last(Indices(n)) == n - 1;
      assert g(n - 1) == v;
      calc {
        Sum(Indices(n), g);
        Sum(Indices(n - 1), g) + g(n - 1);
        SumSeq(Pick(w[..n - 1], ReadX(a, n - 1))) + v;
        SumSeq(Pick(w[..n], ReadX(a, n)));
      }
    }
  }

  /** Binary variables read back as 0 or 1. */
  lemma DomainBinary(n: nat, a: Assignment)
    requires InDomain(a, KnapsackVars(n))
    ensures BinaryItems(a, n) && Binary(ReadX(a, n))
  {
    var idx := Indices(n);
    var vs := KnapsackVars(n);
    forall i | 0 <= i < n ensures a(Item(i)) == 0.0 || a(Item(i)) == 1.0 {
      assert idx[i] == i;
      assert vs[i] == ItemOf(idx[i]) == Item(i);
      assert IsBinary(vs[i]);
    }
  }

  /** For a 0/1 solution the objective value is the sum of the weights of
      the chosen obras, which is what soma_prioridades_executadas records. */
  lemma ObjectiveIsExecutedWeight(w: seq<real>, Q: seq<real>, q: seq<seq<real>>, a: Assignment)
    requires BinaryItems(a, |w|)
    ensures Eval(KnapsackProgram(w, Q, q).objective, a) == SumSeq(Pick(w, ReadX(a, |w|)))
  {
    var objective := KnapsackProgram(w, Q, q).objective;
    assert objective == KnapsackObjective(w);
    ObjectiveValue(w, a);
    GainPrefix(w, a, |w|);
    assert w[..|w|] == w;
    assert Eval(objective, a) == Sum(Indices(|w|), Gain(w, a));
  }

  // ---------------------------------------------------------------------------
  // The Deposito class

  /** The loop of solve that adds one capacity constraint per material. */
  method AddMaterialConstraints(w: seq<real>, Q: seq<real>, q: seq<seq<real>>) returns (constraints: seq<Constraint>)
    ensures constraints == KnapsackConstraints(w, Q, q, |Q|)
  {
    constraints := [];
    var t := 0;
    while t < |Q|
      invariant t <= |Q|
      invariant constraints == KnapsackConstraints(w, Q, q, t)
    {
      constraints := constraints + [MaterialConstraint(w, Q, q, t)];
      t := t + 1;
    }
  }

  /** The model-building part of solve followed by model.optimize(). */
  method BuildAndOptimize(w: seq<real>, Q: seq<real>, q: seq<seq<real>>, solver: Solver) returns (res: SolveResult)
    ensures res == solver(KnapsackProgram(w, Q, q))
  {
    var constraints := AddMaterialConstraints(w, Q, q);
    res := solver(Program(KnapsackVars(|w|), KnapsackObjective(w), constraints));
  }

  class Deposito {
    var id: DepotId
    var w: seq<real>
    var Q: seq<real>
    var q: seq<seq<real>>
    var M: nat
    var T: nat
    var x: Option<seq<real>>
    var objVal: Option<real>
    var obras: seq<ObraId>
    var numObrasAssociadas: nat
    var numObrasExecutadas: real
    var somaPrioridadesExecutadas: real
    var somaPrioridadesAssoc: real

    /** M and T are the sizes of w and Q, obras has one code per weight, and a
        solution has one value per obra. */
    ghost predicate Valid()
      reads this
    {
      M == |w| && T == |Q| && |obras| == M && (x.Some? ==> |x.value| == M)
    }

    /** The object right after from_dataframes. */
    ghost predicate IsInitial(e: Extracted)
      reads this
    {
      && id == e.id && w == e.w && Q == e.Q && q == e.q && obras == e.obras
      && numObrasAssociadas == e.numObrasAssociadas && somaPrioridadesAssoc == e.somaPrioridadesAssoc
      && x == None && objVal == None && numObrasExecutadas == 0.0 && somaPrioridadesExecutadas == 0.0
    }

    constructor (id: DepotId, w: seq<real>, Q: seq<real>, q: seq<seq<real>>, obras: seq<ObraId>)
      ensures Valid() <==> |obras| == |w|
      ensures this.id == id && this.w == w && this.Q == Q && this.q == q && this.obras == obras
      ensures M == |w| && T == |Q| && x == None && objVal == None
      ensures numObrasAssociadas == 0 && numObrasExecutadas == 0.0
      ensures somaPrioridadesExecutadas == 0.0 && somaPrioridadesAssoc == 0.0
    {
      this.id := id;
      this.w := w;
      this.Q := Q;
      this.q := q;
      M := |w|;
      T := |Q|;
      x := None;
      objVal := None;
      this.obras := obras;
      numObrasAssociadas := 0;
      numObrasExecutadas := 0.0;
      somaPrioridadesExecutadas := 0.0;
      somaPrioridadesAssoc := 0.0;
    }

    /** from_dataframes: the error of Extract, or a new object built from it. */
    static method FromDataframes(rows: seq<ObraRow>, stock: seq<StockRow>, d: DepotId) returns (r: Result<Deposito, RunError>)
      ensures Extract(rows, stock, d).Err? ==> r == Err(Extract(rows, stock, d).error)
      ensures Extract(rows, stock, d).Ok? ==>
        r.Ok? && fresh(r.value) && r.value.Valid() && r.value.IsInitial(Extract(rows, stock, d).value)
    {
      var ex := Extract(rows, stock, d);
      if ex.Err? {
        return Err(ex.error);
      }
      ExtractWellFormed(rows, stock, d);
      var deposito := FromExtracted(ex.value);
      return Ok(deposito);
    }

    /** The object from_dataframes returns: built by the constructor, then
        given its two associated-obra counters. */
    static method FromExtracted(e: Extracted) returns (deposito: Deposito)
      requires WellFormed(e)
      ensures fresh(deposito) && deposito.Valid() && deposito.IsInitial(e)
    {
      deposito := new Deposito(e.id, e.w, e.Q, e.q, e.obras);
      deposito.numObrasAssociadas := e.numObrasAssociadas;
      deposito.somaPrioridadesAssoc := e.somaPrioridadesAssoc;
    }

    /** solve: builds the knapsack (failing as the IndexError on q does),
        hands it to the solver and records the solution when it is optimal;
        otherwise x and obj_val become None and the counters keep their values. */
    method Solve(solver: Solver) returns (r: Result<(), RunError>)
      requires Valid()
      modifies this
      ensures Valid()
      ensures id == old(id) && w == old(w) && Q == old(Q) && q == old(q) && M == old(M) && T == old(T)
      ensures obras == old(obras) && numObrasAssociadas == old(numObrasAssociadas)
      ensures somaPrioridadesAssoc == old(somaPrioridadesAssoc)
      ensures !Shaped(q, M, T) ==> r == Err(DemandIndexOutOfRange(id)) && unchanged(this)
      ensures Shaped(q, M, T) ==> r == Ok(())
      ensures Shaped(q, M, T) && solver(KnapsackProgram(w, Q, q)).Optimal? ==>
        var res := solver(KnapsackProgram(w, Q, q));
        && x == Some(ReadX(res.values, M)) && objVal == Some(res.objVal)
        && numObrasExecutadas == SumSeq(ReadX(res.values, M))
        && somaPrioridadesExecutadas == SumSeq(Pick(w, ReadX(res.values, M)))
      ensures Shaped(q, M, T) && solver(KnapsackProgram(w, Q, q)).NotOptimal? ==>
        && x == None && objVal == None
        && numObrasExecutadas == old(numObrasExecutadas)
        && somaPrioridadesExecutadas == old(somaPrioridadesExecutadas)
    {
      if !Shaped(q, M, T) {
        return Err(DemandIndexOutOfRange(id));
      }
      var res := BuildAndOptimize(w, Q, q, solver);
      Record(res);
      r := Ok(());
    }

    /** The tail of solve: reads x and the objective back when the status is
        OPTIMAL, and sets both to None otherwise. */
    method Record(res: SolveResult)
      requires Valid()
      modifies this
      ensures Valid()
      ensures id == old(id) && w == old(w) && Q == old(Q) && q == old(q) && M == old(M) && T == old(T)
      ensures obras == old(obras) && numObrasAssociadas == old(numObrasAssociadas)
      ensures somaPrioridadesAssoc == old(somaPrioridadesAssoc)
      ensures res.Optimal? ==>
        && x == Some(ReadX(res.values, M)) && objVal == Some(res.objVal)
        && numObrasExecutadas == SumSeq(ReadX(res.values, M))
        && somaPrioridadesExecutadas == SumSeq(Pick(w, ReadX(res.values, M)))
      ensures res.NotOptimal? ==>
        && x == None && objVal == None
        && numObrasExecutadas == old(numObrasExecutadas)
        && somaPrioridadesExecutadas == old(somaPrioridadesExecutadas)
    {
      if res.Optimal? {
        var xs := ReadX(res.values, M);
        x, objVal := Some(xs), Some(res.objVal);
        numObrasExecutadas, somaPrioridadesExecutadas := SumSeq(xs), SumSeq(Pick(w, xs));
      } else {
        x, objVal := None, None;
      }
    }

    /** gerar_relacionamento_obras: a one-entry map from the depot to the
        obras whose x is positive, in index order. It fails when there is no
        solution to read and at least one obra. */
    function Relacionamento(): (r: Result<map<DepotId, seq<ObraId>>, RunError>)
      reads this
      requires Valid()
      ensures r.Ok? <==> x.Some? || M == 0
      ensures r.Err? ==> r.error == NoSolution(id)
      ensures r.Ok? ==> r.value.Keys == {id}
      ensures r.Ok? && x.Some? ==>
        forall o :: o in r.value[id] <==> Chosen(obras, x.value, o)
      ensures r.Ok? && x.None? ==> r.value[id] == []
    {
      match x
      case None => if M == 0 then Ok(map[id := []]) else Err(NoSolution(id))
      case Some(xs) =>
        PickMembers(obras, xs);
        Ok(map[id := Pick(obras, xs)])
    }
  }

  // ---------------------------------------------------------------------------
  // The driver: build one Deposito per depot, then solve each and merge

  /** One entry of `resultados`. */
  datatype Record = Record(codDep: DepotId, numObrasAssociadas: nat, obrasExecutadas: real,
                           somaPrioridadesExecutadas: real, somaPrioridadesAssociadas: real)

  predicate WellFormed(e: Extracted)
  {
    |e.obras| == |e.w|
  }

  /** What solving a freshly built depot yields: its record and its executed obras. */
  function Outcome(e: Extracted, solver: Solver): (r: Result<(Record, seq<ObraId>), RunError>)
    requires WellFormed(e)
    ensures r.Ok? ==> r.value.0.codDep == e.id && r.value.0.numObrasAssociadas == e.numObrasAssociadas
    ensures r.Err? ==> r.error.dep == e.id
  {
    var M := |e.w|;
    if !Shaped(e.q, M, |e.Q|) then Err(DemandIndexOutOfRange(e.id))
    else
      match solver(KnapsackProgram(e.w, e.Q, e.q))
      case Optimal(_, a) =>
        var xs := ReadX(a, M);
        Ok((Record(e.id, e.numObrasAssociadas, SumSeq(xs), SumSeq(Pick(e.w, xs)), e.somaPrioridadesAssoc),
            Pick(e.obras, xs)))
      case NotOptimal(_) =>
        if M == 0 then Ok((Record(e.id, e.numObrasAssociadas, 0.0, 0.0, e.somaPrioridadesAssoc), []))
        else Err(NoSolution(e.id))
  }

  /** The first loop: one object per depot, stopping at the first failure. */
  function ExtractAll(rows: seq<ObraRow>, stock: seq<StockRow>, ds: seq<DepotId>): Result<seq<Extracted>, RunError>
  {
    if ds == [] then Ok([])
    else
      match ExtractAll(rows, stock, Init(ds))
      case Err(e) => Err(e)
      case Ok(es) =>
        match Extract(rows, stock, Last(ds))
        case Err(e) => Err(e)
        case Ok(e) => Ok(es + [e])
  }

  /** What the second loop does with one depot: its record and executed
      obras, or the error it raises. */
  type Step = Extracted --> Result<(Record, seq<ObraId>), RunError>

  /** The step of the script: solve, then gerar_relacionamento_obras. */
  function OutcomeOf(solver: Solver): Step
  {
    (e: Extracted) requires WellFormed(e) => Outcome(e, solver)
  }

  /** The second loop: take each depot in turn, append its record, merge its
      relationship map. */
  function SolveAll(es: seq<Extracted>, step: Step): Result<(seq<Record>, map<DepotId, seq<ObraId>>), RunError>
    requires forall e :: e in es ==> step.requires(e)
  {
    if es == [] then Ok(([], map[]))
    else
      match SolveAll(Init(es), step)
      case Err(err) => Err(err)
      case Ok(acc) =>
        match step(Last(es))
        case Err(err) => Err(err)
        case Ok(out) => Ok((acc.0 + [out.0], acc.1[Last(es).id := out.1]))
  }

  lemma {:induction false} ExtractAllWellFormed(rows: seq<ObraRow>, stock: seq<StockRow>, ds: seq<DepotId>)
    ensures ExtractAll(rows, stock, ds).Ok? ==>
      var es := ExtractAll(rows, stock, ds).value;
      && |es| == |ds|
      && forall i :: 0 <= i < |ds| ==> Extract(rows, stock, ds[i]) == Ok(es[i]) && WellFormed(es[i]) && es[i].id == ds[i]
  {
    if ds != [] && ExtractAll(rows, stock, ds).Ok? {
      var p, d := Init(ds), Last(ds);
      ExtractAllWellFormed(rows, stock, p);
      ExtractWellFormed(rows, stock, d);
      var es', e := ExtractAll(rows, stock, p).value, Extract(rows, stock, d).value;
      assert ExtractAll(rows, stock, ds).value == es' + [e];
      forall i | 0 <= i < |ds| ensures Extract(rows, stock, ds[i]) == Ok((es' + [e])[i]) {
        if i < |p| {
          assert ds[i] == p[i] && (es' + [e])[i] == es'[i];
        } else {
          assert ds[i] == d && (es' + [e])[i] == e;
        }
      }
    }
  }

  /** The whole run: the records and the merged map, or the first failure. */
  function Run(rows: seq<ObraRow>, stock: seq<StockRow>, solver: Solver): Result<(seq<Record>, map<DepotId, seq<ObraId>>), RunError>
  {
    var ds := DepotIds(rows);
    match ExtractAll(rows, stock, ds)
    case Err(e) => Err(e)
    case Ok(es) =>
      ExtractAllWellFormed(rows, stock, ds);
      SolveAll(es, OutcomeOf(solver))
  }

  lemma {:induction false} ExtractAllPrefixErr(rows: seq<ObraRow>, stock: seq<StockRow>, ds: seq<DepotId>, n: nat)
    requires n <= |ds| && ExtractAll(rows, stock, ds[..n]).Err?
    ensures ExtractAll(rows, stock, ds) == ExtractAll(rows, stock, ds[..n])
    decreases |ds| - n
  {
    if n < |ds| {
      PrefixStep(ds, n);
      ExtractAllPrefixErr(rows, stock, ds, n + 1);
    } else {
      assert ds[..n] == ds;
    }
  }

  lemma ExtractAllStep(rows: seq<ObraRow>, stock: seq<StockRow>, ds: seq<DepotId>, i: nat, es: seq<Extracted>)
    requires i < |ds| && ExtractAll(rows, stock, ds[..i]) == Ok(es)
    ensures Extract(rows, stock, ds[i]).Err? ==> ExtractAll(rows, stock, ds[..i + 1]) == Err(Extract(rows, stock, ds[i]).error)
    ensures Extract(rows, stock, ds[i]).Ok? ==> ExtractAll(rows, stock, ds[..i + 1]) == Ok(es + [Extract(rows, stock, ds[i]).value])
  {
    PrefixStep(ds, i);
  }

  /** One more depot of the second loop, with its map merged as `dict.update`
      does: a one-entry update of the map so far. */
  lemma SolveAllStep(es: seq<Extracted>, step: Step, i: nat, recs: seq<Record>, m: map<DepotId, seq<ObraId>>)
    requires i < |es| && forall e :: e in es ==> step.requires(e)
    requires SolveAll(es[..i], step) == Ok((recs, m))
    ensures step(es[i]).Err? ==> SolveAll(es[..i + 1], step) == Err(step(es[i]).error)
    ensures step(es[i]).Ok? ==>
      var out := step(es[i]).value;
      SolveAll(es[..i + 1], step) == Ok((recs + [out.0], m + map[es[i].id := out.1]))
  {
    PrefixStep(es, i);
    if step(es[i]).Ok? {
      var k, v := es[i].id, step(es[i]).value.1;
      assert m + map[k := v] == m[k := v];
    }
  }

  lemma {:induction false} SolveAllPrefixErr(es: seq<Extracted>, step: Step, n: nat)
    requires n <= |es| && forall e :: e in es ==> step.requires(e)
    requires SolveAll(es[..n], step).Err?
    ensures SolveAll(es, step) == SolveAll(es[..n], step)
    decreases |es| - n
  {
    if n < |es| {
      PrefixStep(es, n);
      SolveAllPrefixErr(es, step, n + 1);
    } else {
      assert es[..n] == es;
    }
  }

  function IdOf(e: Extracted): DepotId
  {
    e.id
  }

  /** One record per depot, and one map key per depot id. */
  lemma {:induction false} SolveAllKeys(es: seq<Extracted>, step: Step)
    requires forall e :: e in es ==> step.requires(e)
    ensures SolveAll(es, step).Ok? ==>
      && |SolveAll(es, step).value.0| == |es|
      && forall d :: d in SolveAll(es, step).value.1 <==> d in MapSeq(es, IdOf)
  {
    if es != [] && SolveAll(es, step).Ok? {
      var p, e := Init(es), Last(es);
      assert es == p + [e];
      MapSeqSnoc(p, e, IdOf);
      SolveAllKeys(p, step);
      var (recs, m) := SolveAll(p, step).value;
      var out := step(e).value;
      assert SolveAll(es, step).value == (recs + [out.0], m[e.id := out.1]);
    }
  }

  /** Each record and each map entry is that depot's own outcome: the ids
      being distinct, no later depot overwrites an earlier entry. */
  lemma {:induction false} SolveAllShape(es: seq<Extracted>, step: Step)
    requires forall e :: e in es ==> step.requires(e)
    requires Distinct(MapSeq(es, IdOf))
    ensures SolveAll(es, step).Ok? ==>
      var (recs, m) := SolveAll(es, step).value;
      && |recs| == |es|
      && (forall d :: d in m <==> d in MapSeq(es, IdOf))
      && forall i :: 0 <= i < |es| ==> step(es[i]) == Ok((recs[i], m[es[i].id]))
  {
    SolveAllKeys(es, step);
    if es != [] && SolveAll(es, step).Ok? {
      var p, e := Init(es), Last(es);
      assert es == p + [e];
      MapSeqSnoc(p, e, IdOf);
      SolveAllShape(p, step);
      SolveAllKeys(p, step);
      var (recs, m) := SolveAll(p, step).value;
      var out := step(e).value;
      assert SolveAll(es, step).value == (recs + [out.0], m[e.id := out.1]);
      assert e.id !in MapSeq(p, IdOf) by {
        forall i | 0 <= i < |p| ensures MapSeq(p, IdOf)[i] != e.id {
          assert MapSeq(es, IdOf)[i] == MapSeq(p, IdOf)[i];
          assert MapSeq(es, IdOf)[|p|] == e.id;
        }
      }
      var m' := m[e.id := out.1];
      forall i | 0 <= i < |es| ensures step(es[i]) == Ok(((recs + [out.0])[i], m'[es[i].id])) {
        if i < |p| {
          assert es[i] == p[i] && MapSeq(p, IdOf)[i] == p[i].id;
        }
      }
    }
  }

  /** The driver builds exactly one depot per distinct COD_DEP of the obras,
      in order of first appearance; on success it yields one record per depot
      in that order, and the merged map has one key per depot (no key is
      overwritten by another depot); each record and each map entry is
      exactly that depot's own outcome, independent of the others. */
  lemma RunShape(rows: seq<ObraRow>, stock: seq<StockRow>, solver: Solver)
    ensures Run(rows, stock, solver).Ok? ==>
      var (recs, m) := Run(rows, stock, solver).value;
      var ds := DepotIds(rows);
      && |recs| == |ds|
      && (forall d :: d in m <==> d in MapSeq(rows, DepOf))
      && forall i :: 0 <= i < |ds| ==>
           && recs[i].codDep == ds[i]
           && Extract(rows, stock, ds[i]).Ok?
           && WellFormed(Extract(rows, stock, ds[i]).value)
           && Outcome(Extract(rows, stock, ds[i]).value, solver) == Ok((recs[i], m[ds[i]]))
  {
    var ds := DepotIds(rows);
    if Run(rows, stock, solver).Ok? {
      ExtractAllWellFormed(rows, stock, ds);
      var es := ExtractAll(rows, stock, ds).value;
      assert MapSeq(es, IdOf) == ds;
      SolveAllShape(es, OutcomeOf(solver));
      var (recs, m) := Run(rows, stock, solver).value;
      forall i | 0 <= i < |ds| ensures recs[i].codDep == ds[i] {
        assert OutcomeOf(solver)(es[i]) == Outcome(es[i], solver);
      }
    }
  }

  /** With a 0/1 solution: OBRAS_EXECUTADAS is the number of obras in the
      relationship list, at most NUM_OBRAS_ASSOCIADAS; SOMA_PRIORIDADES_EXECUTADAS
      is the objective value; and with non-negative weights it is at most
      SOMA_PRIORIDADES_ASSOCIADAS. */
  lemma OutcomeWithinAssociated(rows: seq<ObraRow>, stock: seq<StockRow>, d: DepotId, solver: Solver)
    requires Extract(rows, stock, d).Ok?
    requires var e := Extract(rows, stock, d).value;
      var p := KnapsackProgram(e.w, e.Q, e.q);
      solver(p).Optimal? && InDomain(solver(p).values, p.vars)
    ensures var e := Extract(rows, stock, d).value;
      WellFormed(e) && (Outcome(e, solver).Ok? ==>
        var (rec, executed) := Outcome(e, solver).value;
        var p := KnapsackProgram(e.w, e.Q, e.q);
        && rec.obrasExecutadas == |executed| as real
        && rec.obrasExecutadas <= rec.numObrasAssociadas as real
        && rec.somaPrioridadesExecutadas == Eval(p.objective, solver(p).values)
        && (NonNegativeWeights(rows) ==> rec.somaPrioridadesExecutadas <= rec.somaPrioridadesAssociadas))
  {
    var e := Extract(rows, stock, d).value;
    WeightsAligned(rows, stock, d);
    if Outcome(e, solver).Ok? {
      var p := KnapsackProgram(e.w, e.Q, e.q);
      var a := solver(p).values;
      var xs := ReadX(a, |e.w|);
      DomainBinary(|e.w|, a);
      BinarySumCounts(e.obras, xs);
      BinarySumCounts(e.w, xs);
      ObjectiveIsExecutedWeight(e.w, e.Q, e.q, a);
      if NonNegativeWeights(rows) {
        var rs := RowsAt(rows, d);
        forall i | 0 <= i < |e.w| ensures e.w[i] >= 0.0 {
          var o := e.obras[i];
          var k := FirstRowIndex(rs, o);
          FirstRowExists(rs, o);
          assert rs[k] in rows;
        }
        PickedWeightLe(e.w, xs);
      }
    }
  }

  /** One pass of the second loop: solve the depot, build its record, and
      generate its relationship map; the result is that depot's Outcome. */
  method SolveDeposito(deposito: Deposito, ghost e: Extracted, solver: Solver)
    returns (r: Result<(Record, map<DepotId, seq<ObraId>>), RunError>)
    requires deposito.Valid() && deposito.IsInitial(e)
    modifies deposito
    ensures WellFormed(e)
    ensures Outcome(e, solver).Err? ==> r == Err(Outcome(e, solver).error)
    ensures Outcome(e, solver).Ok? ==>
      r == Ok((Outcome(e, solver).value.0, map[e.id := Outcome(e, solver).value.1]))
  {
    var solved := deposito.Solve(solver);
    if solved.Err? {
      return Err(solved.error);
    }
    var registro := Record(deposito.id, deposito.numObrasAssociadas, deposito.numObrasExecutadas,
                           deposito.somaPrioridadesExecutadas, deposito.somaPrioridadesAssoc);
    var relacionamento := deposito.Relacionamento();
    if relacionamento.Err? {
      return Err(relacionamento.error);
    }
    return Ok((registro, relacionamento.value));
  }

  /** Every Deposito of ds from index `from` on is as from_dataframes left it
      for the matching extracted data. */
  ghost predicate InitialFrom(ds: seq<Deposito>, es: seq<Extracted>, from: nat)
    reads ds
  {
    |ds| == |es| && from <= |ds| &&
    forall j :: from <= j < |ds| ==> ds[j].Valid() && ds[j].IsInitial(es[j])
  }

  lemma InitialSnoc(ds: seq<Deposito>, es: seq<Extracted>, d: Deposito, e: Extracted)
    requires InitialFrom(ds, es, 0) && d.Valid() && d.IsInitial(e)
    ensures InitialFrom(ds + [d], es + [e], 0)
  {
    var ds', es' := ds + [d], es + [e];
    forall j | 0 <= j < |ds'| ensures ds'[j].Valid() && ds'[j].IsInitial(es'[j]) {
      if j < |ds| {
        assert ds'[j] == ds[j] && es'[j] == es[j];
      }
    }
  }

  lemma DistinctSnoc<T>(xs: seq<T>, x: T)
    requires Distinct(xs) && x !in xs
    ensures Distinct(xs + [x])
  {
    var ys := xs + [x];
    forall i, j | 0 <= i < j < |ys| ensures ys[i] != ys[j] {
      assert ys[i] == xs[i];
      if j < |xs| {
        assert ys[j] == xs[j];
      }
    }
  }

  /** One pass of the first loop: from_dataframes for ids[i], appended to
      the list built so far. */
  method AppendDeposito(rows: seq<ObraRow>, stock: seq<StockRow>, ids: seq<DepotId>, i: nat,
                        depositos: seq<Deposito>, ghost es: seq<Extracted>)
    returns (r: Result<seq<Deposito>, RunError>, ghost es': seq<Extracted>)
    requires i < |ids| && ExtractAll(rows, stock, ids[..i]) == Ok(es)
    requires InitialFrom(depositos, es, 0) && Distinct(depositos)
    ensures ExtractAll(rows, stock, ids[..i + 1]).Err? ==> r == Err(ExtractAll(rows, stock, ids[..i + 1]).error)
    ensures ExtractAll(rows, stock, ids[..i + 1]).Ok? ==>
      && ExtractAll(rows, stock, ids[..i + 1]) == Ok(es') && r.Ok?
      && |r.value| == |depositos| + 1 && r.value[..|depositos|] == depositos && fresh(r.value[|depositos|])
      && InitialFrom(r.value, es', 0) && Distinct(r.value)
  {
    ExtractAllStep(rows, stock, ids, i, es);
    es' := es;
    var made := Deposito.FromDataframes(rows, stock, ids[i]);
    if made.Err? {
      return Err(made.error), es';
    }
    var deposito := made.value;
    ghost var e := Extract(rows, stock, ids[i]).value;
    InitialSnoc(depositos, es, deposito, e);
    DistinctSnoc(depositos, deposito);
    r, es' := Ok(depositos + [deposito]), es + [e];
    assert r.value[..|depositos|] == depositos;
  }

  /** The first loop: one Deposito per depot id, or the first failure. */
  method BuildDepositos(rows: seq<ObraRow>, stock: seq<StockRow>, ids: seq<DepotId>)
    returns (r: Result<seq<Deposito>, RunError>, ghost es: seq<Extracted>)
    ensures ExtractAll(rows, stock, ids).Err? ==> r == Err(ExtractAll(rows, stock, ids).error)
    ensures ExtractAll(rows, stock, ids).Ok? ==>
      && ExtractAll(rows, stock, ids) == Ok(es) && r.Ok?
      && (forall j :: 0 <= j < |r.value| ==> fresh(r.value[j]))
      && InitialFrom(r.value, es, 0) && Distinct(r.value)
  {
    var depositos: seq<Deposito> := [];
    es := [];
    var i := 0;
    while i < |ids|
      invariant i <= |ids| && |depositos| == i
      invariant ExtractAll(rows, stock, ids[..i]) == Ok(es)
      invariant forall j :: 0 <= j < i ==> fresh(depositos[j])
      invariant InitialFrom(depositos, es, 0) && Distinct(depositos)
    {
      var next, es' := AppendDeposito(rows, stock, ids, i, depositos, es);
      if next.Err? {
        ExtractAllPrefixErr(rows, stock, ids, i + 1);
        return Err(next.error), es;
      }
      forall j | 0 <= j < i ensures fresh(next.value[j]) {
        assert next.value[j] == next.value[..i][j];
      }
      depositos, es := next.value, es';
      i := i + 1;
    }
    assert ids[..i] == ids;
    r := Ok(depositos);
  }

  /** One pass of the second loop: solve depot i, append its record and
      merge its relationship map into what the earlier depots gave. */
  method SolveNext(depositos: seq<Deposito>, ghost es: seq<Extracted>, i: nat, solver: Solver,
                   resultados: seq<Record>, obrasExecutadas: map<DepotId, seq<ObraId>>)
    returns (r: Result<(seq<Record>, map<DepotId, seq<ObraId>>), RunError>)
    requires i < |depositos| && Distinct(depositos) && InitialFrom(depositos, es, i)
    requires forall e :: e in es ==> WellFormed(e)
    requires SolveAll(es[..i], OutcomeOf(solver)) == Ok((resultados, obrasExecutadas))
    modifies depositos[i]
    ensures r == SolveAll(es[..i + 1], OutcomeOf(solver))
    ensures InitialFrom(depositos, es, i + 1)
  {
    SolveAllStep(es, OutcomeOf(solver), i, resultados, obrasExecutadas);
    var deposito := depositos[i];
    ghost var outcome := Outcome(es[i], solver);
    assert OutcomeOf(solver)(es[i]) == outcome;
    label BeforeSolve:
    var step := SolveDeposito(deposito, es[i], solver);
    forall j | i + 1 <= j < |depositos| ensures depositos[j].Valid() && depositos[j].IsInitial(es[j]) {
      assert depositos[j] != deposito;
      assert old@BeforeSolve(depositos[j].Valid() && depositos[j].IsInitial(es[j]));
      assert unchanged@BeforeSolve(depositos[j]);
    }
    if step.Err? {
      return Err(step.error);
    }
    var (registro, relacionamento) := step.value;
    r := Ok((resultados + [registro], obrasExecutadas + relacionamento));
  }

  /** The driver: build every depot, then solve them one after the other,
      collecting the records and merging the relationship maps. */
  method RunIndividual(rows: seq<ObraRow>, stock: seq<StockRow>, solver: Solver)
    returns (r: Result<(seq<Record>, map<DepotId, seq<ObraId>>), RunError>)
    ensures r == Run(rows, stock, solver)
  {
    var ids := DepotIds(rows);
    var built, es := BuildDepositos(rows, stock, ids);
    if built.Err? {
      return Err(built.error);
    }
    var depositos := built.value;
    ExtractAllWellFormed(rows, stock, ids);

    var resultados: seq<Record> := [];
    var obrasExecutadas: map<DepotId, seq<ObraId>> := map[];
    var i := 0;
    while i < |depositos|
      invariant i <= |depositos| == |es|
      invariant forall d :: d in depositos ==> fresh(d)
      invariant SolveAll(es[..i], OutcomeOf(solver)) == Ok((resultados, obrasExecutadas))
      invariant Distinct(depositos) && InitialFrom(depositos, es, i)
    {
      assert depositos[i] in depositos;
      var next := SolveNext(depositos, es, i, solver, resultados, obrasExecutadas);
      if next.Err? {
        SolveAllPrefixErr(es, OutcomeOf(solver), i + 1);
        return Err(next.error);
      }
      resultados, obrasExecutadas := next.value.0, next.value.1;
      i := i + 1;
    }
    assert es[..i] == es;
    return Ok((resultados, obrasExecutadas));
  }
}
