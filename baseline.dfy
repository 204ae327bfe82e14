/** The company's own allocation, summarised per depot (solucao_empresa.py):
    an obra counts as executed when one of its rows carries ATEND_OBRA == 1. */
module Baseline {
  import opened Common
  import Individual

  /** One entry of `resultados`. */
  datatype Summary = Summary(codDep: DepotId, numObrasAssociadas: nat, obrasExecutadas: nat,
                             somaPrioridadesExecutadas: real, somaPrioridades: real)

  function Atendida(r: ObraRow): bool
  {
    r.atend == 1
  }

  /** df_obras_atendidas: the depot's rows flagged ATEND_OBRA == 1. */
  function AtendidasAt(rows: seq<ObraRow>, d: DepotId): (r: seq<ObraRow>)
    ensures forall x :: x in r <==> x in rows && x.dep == d && x.atend == 1
  {
    Filter(RowsAt(rows, d), Atendida)
  }

  /** The record one pass of the loop appends for depot d. */
  function SummaryAt(rows: seq<ObraRow>): DepotId -> Summary
  {
    (d: DepotId) =>
      Summary(d, NumDistinctObras(RowsAt(rows, d)), NumDistinctObras(AtendidasAt(rows, d)),
              SomaPrioridades(AtendidasAt(rows, d)), SomaPrioridades(RowsAt(rows, d)))
  }

  function CodDepOf(s: Summary): DepotId
  {
    s.codDep
  }

  /** The loop over `df_obras['COD_DEP'].unique()`, one record per depot. */
  method SolucaoEmpresa(rows: seq<ObraRow>) returns (resultados: seq<Summary>)
    ensures resultados == MapSeq(DepotIds(rows), SummaryAt(rows))
  {
    var ids := DepotIds(rows);
    resultados := [];
    for i := 0 to |ids|
      invariant resultados == MapSeq(ids[..i], SummaryAt(rows))
    {
      var depositoId := ids[i];
      var filtrado := RowsAt(rows, depositoId);
      var numObrasAssociadas := NumDistinctObras(filtrado);
      var atendidas := Filter(filtrado, Atendida);
      var numObrasExecutadas := NumDistinctObras(atendidas);
      var somaPrioridadesExecutadas := SomaPrioridades(atendidas);
      var somaPrioridades := SomaPrioridades(filtrado);
      MapSeqStep(ids, i, SummaryAt(rows));
      resultados := resultados + [Summary(depositoId, numObrasAssociadas, numObrasExecutadas,
                                          somaPrioridadesExecutadas, somaPrioridades)];
    }
    assert ids[..|ids|] == ids;
  }

  /** The depots reported are exactly the COD_DEP values of the obras, each
      once, in order of first appearance, one record per depot. */
  lemma ReportedDepots(rows: seq<ObraRow>)
    ensures var res := MapSeq(DepotIds(rows), SummaryAt(rows));
      && (forall d :: d in MapSeq(res, CodDepOf) <==> exists k :: 0 <= k < |rows| && rows[k].dep == d)
      && Distinct(MapSeq(res, CodDepOf))
      && forall i, j :: 0 <= i < j < |res| ==>
           IndexOf(MapSeq(rows, DepOf), res[i].codDep) < IndexOf(MapSeq(rows, DepOf), res[j].codDep)
  {
    var ds := DepotIds(rows);
    var res := MapSeq(ds, SummaryAt(rows));
    assert MapSeq(res, CodDepOf) == ds;
    UniqueFirstAppearance(MapSeq(rows, DepOf));
    forall d ensures d in ds <==> exists k :: 0 <= k < |rows| && rows[k].dep == d {
      if d in ds {
        var k :| 0 <= k < |rows| && MapSeq(rows, DepOf)[k] == d;
      }
      if exists k :: 0 <= k < |rows| && rows[k].dep == d {
        var k :| 0 <= k < |rows| && rows[k].dep == d;
        assert MapSeq(rows, DepOf)[k] == d;
      }
    }
  }

  /** The executed obras of a depot are exactly the obras with a flagged row
      at that depot; they are among its associated obras, so
      OBRAS_EXECUTADAS <= NUM_OBRAS_ASSOCIADAS. */
  lemma ExecutedAmongAssociated(rows: seq<ObraRow>, d: DepotId)
    ensures forall o :: o in Unique(ObrasOf(AtendidasAt(rows, d))) <==>
              exists k :: 0 <= k < |rows| && rows[k].dep == d && rows[k].obra == o && rows[k].atend == 1
    ensures forall o :: o in Unique(ObrasOf(AtendidasAt(rows, d))) ==> o in Unique(ObrasOf(RowsAt(rows, d)))
    ensures SummaryAt(rows)(d).obrasExecutadas <= SummaryAt(rows)(d).numObrasAssociadas
  {
    var a, r := AtendidasAt(rows, d), RowsAt(rows, d);
    forall o ensures o in ObrasOf(a) <==> exists k :: 0 <= k < |rows| && rows[k].dep == d && rows[k].obra == o && rows[k].atend == 1 {
      ExecutedObra(rows, d, o);
    }
    ObrasOfSubset(a, r);
    SumSubsetLe(Unique(ObrasOf(a)), Unique(ObrasOf(r)), (o: ObraId) => 0.0);
  }

  lemma ExecutedObra(rows: seq<ObraRow>, d: DepotId, o: ObraId)
    ensures o in ObrasOf(AtendidasAt(rows, d)) <==>
      exists k :: 0 <= k < |rows| && rows[k].dep == d && rows[k].obra == o && rows[k].atend == 1
  {
    var a := AtendidasAt(rows, d);
    if o in ObrasOf(a) {
      var i :| 0 <= i < |a| && ObrasOf(a)[i] == o;
      assert a[i] in a;
      var k :| 0 <= k < |rows| && rows[k] == a[i];
    }
    if exists k :: 0 <= k < |rows| && rows[k].dep == d && rows[k].obra == o && rows[k].atend == 1 {
      var k :| 0 <= k < |rows| && rows[k].dep == d && rows[k].obra == o && rows[k].atend == 1;
      assert rows[k] in a;
      var i :| 0 <= i < |a| && a[i] == rows[k];
      assert ObrasOf(a)[i] == o;
    }
  }

  /** Every row of an obra carries the same PESO. */
  predicate ConsistentWeights(rows: seq<ObraRow>)
  {
    forall i, j :: 0 <= i < |rows| && 0 <= j < |rows| && rows[i].obra == rows[j].obra ==> rows[i].peso == rows[j].peso
  }

  /** An obra's first flagged row has the same PESO as its first row. */
  lemma FirstPesoAgrees(rows: seq<ObraRow>, d: DepotId, o: ObraId)
    requires ConsistentWeights(rows)
    requires o in ObrasOf(AtendidasAt(rows, d))
    ensures FirstPeso(AtendidasAt(rows, d), o) == FirstPeso(RowsAt(rows, d), o)
  {
    var a, r := AtendidasAt(rows, d), RowsAt(rows, d);
    FirstRowExists(a, o);
    ObrasOfSubset(a, r);
    FirstRowExists(r, o);
    var ka, kr := FirstRowIndex(a, o), FirstRowIndex(r, o);
    assert a[ka] in a && r[kr] in r;
    var i :| 0 <= i < |rows| && rows[i] == a[ka];
    var j :| 0 <= j < |rows| && rows[j] == r[kr];
  }

  /** With non-negative weights that agree across an obra's rows,
      SOMA_PRIORIDADES_EXECUTADAS <= SOMA_PRIORIDADES. */
  lemma ExecutedWeightWithinTotal(rows: seq<ObraRow>, d: DepotId)
    requires NonNegativeWeights(rows) && ConsistentWeights(rows)
    ensures SummaryAt(rows)(d).somaPrioridadesExecutadas <= SummaryAt(rows)(d).somaPrioridades
  {
    var a, r := AtendidasAt(rows, d), RowsAt(rows, d);
    var ua, ur := Unique(ObrasOf(a)), Unique(ObrasOf(r));
    forall o | o in ua ensures FirstPesoIn(a)(o) == FirstPesoIn(r)(o) {
      FirstPesoAgrees(rows, d, o);
    }
    SumExt(ua, FirstPesoIn(a), FirstPesoIn(r));
    ExecutedAmongAssociated(rows, d);
    assert NonNegativeWeights(r) by {
      forall i | 0 <= i < |r| ensures r[i].peso >= 0.0 {
        assert r[i] in r;
        var k :| 0 <= k < |rows| && rows[k] == r[i];
      }
    }
    forall o | o in ur ensures FirstPesoIn(r)(o) >= 0.0 {
      FirstPesoNonNegative(r, o);
    }
    SumSubsetLe(ua, ur, FirstPesoIn(r));
  }

  /** The per-depot Deposito objects of the knapsack mode start from the same
      associated counters as the baseline: NUM_OBRAS_ASSOCIADAS and
      SOMA_PRIORIDADES agree with num_obras_associadas and
      soma_prioridades_assoc. */
  lemma AssociatedAgreesWithKnapsack(rows: seq<ObraRow>, stock: seq<StockRow>, d: DepotId)
    ensures var e := Individual.Built(rows, stock, d);
      && e.numObrasAssociadas == SummaryAt(rows)(d).numObrasAssociadas
      && e.somaPrioridadesAssoc == SummaryAt(rows)(d).somaPrioridades
  {
    Individual.AssociatedWeight(rows, stock, d);
  }
}
