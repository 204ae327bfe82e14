/** The report of otimizacao_com_transporte.py: per-depot
    statistics, the shipment ledger, the total moved and the map from each
    depot to the obras it executes, read off an optimal solution. */
module TransportReport {
  import opened Common
  import opened LinearProgram
  import opened TransportModel

  /** One record of `resultados`: a depot's statistics, or the closing record
      with the objective value and the total transported. */
  datatype ResultRow =
    | DepotRow(dep: DepotId, numAssociadas: nat, numExecutadas: nat, somaExecutadas: real,
               somaAssociadas: real, recebido: real, enviado: real)
    | ObjectiveRow(objVal: real, totalTransportado: real)

  /** One record of `transportes`. */
  datatype Shipment = Shipment(origem: DepotId, material: MatId, destino: DepotId, quantidade: real)

  datatype Report = Report(resultados: seq<ResultRow>, transportes: seq<Shipment>, obrasExecutadas: map<DepotId, seq<ObraId>>)

  // ---------------------------------------------------------------------------
  // What each part of the report is

  /** obras_executadas: the obras whose x at d exceeds 0.5, in `obras` order. */
  function ExecutedAt(tb: Tables, a: Assignment, d: DepotId): seq<ObraId>
  {
    Filter(tb.obras, IsExecuted(a, d))
  }

  function IsExecuted(a: Assignment, d: DepotId): ObraId -> bool
  {
    (o: ObraId) => a(X(o, d)) > 0.5
  }

  function WOf(tb: Tables): ObraId -> real
  {
    (o: ObraId) => W(tb, o)
  }

  /** t[d, d1, m] for the key (d, d1, m). */
  function SentValue(a: Assignment): ((DepotId, DepotId, MatId)) -> real
  {
    (k: (DepotId, DepotId, MatId)) => a(T(k.0, k.1, k.2))
  }

  /** t[d1, d, m] for the key (d, d1, m). */
  function RecvValue(a: Assignment): ((DepotId, DepotId, MatId)) -> real
  {
    (k: (DepotId, DepotId, MatId)) => a(T(k.1, k.0, k.2))
  }

  /** material_enviado: Σ_{d1 != d, m} t[d, d1, m] */
  function Sent(tb: Tables, a: Assignment, d: DepotId): real
  {
    Sum(DepotKeys(d, tb.depositos, tb.materiais), SentValue(a))
  }

  /** material_recebido: Σ_{d1 != d, m} t[d1, d, m] */
  function Received(tb: Tables, a: Assignment, d: DepotId): real
  {
    Sum(DepotKeys(d, tb.depositos, tb.materiais), RecvValue(a))
  }

  function SentAt(tb: Tables, a: Assignment): DepotId -> real
  {
    (d: DepotId) => Sent(tb, a, d)
  }

  function ReceivedAt(tb: Tables, a: Assignment): DepotId -> real
  {
    (d: DepotId) => Received(tb, a, d)
  }

  /** total_material_transportado: t[d, d1, m] summed over every d1 != d and m. */
  function TotalTransported(tb: Tables, a: Assignment): real
  {
    Sum(TransportKeys(tb.depositos, tb.depositos, tb.materiais), SentValue(a))
  }

  /** The record of depot d. */
  function StatsOf(tb: Tables, a: Assignment, d: DepotId): ResultRow
  {
    var executed := ExecutedAt(tb, a, d);
    DepotRow(d, NumDistinctObras(RowsAt(tb.rows, d)), |executed|, Sum(executed, WOf(tb)),
             SomaPrioridades(RowsAt(tb.rows, d)), Received(tb, a, d), Sent(tb, a, d))
  }

  function StatsAt(tb: Tables, a: Assignment): DepotId -> ResultRow
  {
    (d: DepotId) => StatsOf(tb, a, d)
  }

  function ShipmentOf(a: Assignment, k: (DepotId, DepotId, MatId)): Shipment
  {
    Shipment(k.0, k.2, k.1, a(T(k.0, k.1, k.2)))
  }

  /** The shipments recorded while visiting `keys` in order: one per key
      whose t is positive. */
  function Ledger(a: Assignment, keys: seq<(DepotId, DepotId, MatId)>): seq<Shipment>
  {
    if keys == [] then []
    else Ledger(a, Init(keys)) + (if a(T(Last(keys).0, Last(keys).1, Last(keys).2)) > 0.0 then [ShipmentOf(a, Last(keys))] else [])
  }

  function ExecutedMap(tb: Tables, a: Assignment, ds: seq<DepotId>): map<DepotId, seq<ObraId>>
  {
    map d | d in ds :: ExecutedAt(tb, a, d)
  }

  /** The whole report of an optimal solution. */
  function ReportOf(tb: Tables, objVal: real, a: Assignment): Report
  {
    Report(MapSeq(tb.depositos, StatsAt(tb, a)) + [ObjectiveRow(objVal, TotalTransported(tb, a))],
           Ledger(a, TransportKeys(tb.depositos, tb.depositos, tb.materiais)),
           ExecutedMap(tb, a, tb.depositos))
  }

  // ---------------------------------------------------------------------------
  // The loops that build it

  lemma LedgerAppend(a: Assignment, xs: seq<(DepotId, DepotId, MatId)>, ys: seq<(DepotId, DepotId, MatId)>)
    ensures Ledger(a, xs + ys) == Ledger(a, xs) + Ledger(a, ys)
    decreases |ys|
  {
    if ys != [] {
      assert Init(xs + ys) == xs + Init(ys);
      LedgerAppend(a, xs, Init(ys));
    } else {
      assert xs + ys == xs;
    }
  }

  /** The innermost report loop: every material for the pair (d, d1). */
  method AccumulatePair(a: Assignment, d: DepotId, d1: DepotId, ms: seq<MatId>)
    returns (recebido: real, enviado: real, shipments: seq<Shipment>)
    ensures recebido == Sum(PairKeys(d, d1, ms), RecvValue(a))
    ensures enviado == Sum(PairKeys(d, d1, ms), SentValue(a))
    ensures shipments == Ledger(a, PairKeys(d, d1, ms))
  {
    recebido, enviado, shipments := 0.0, 0.0, [];
    var k := 0;
    while k < |ms|
      invariant 0 <= k <= |ms|
      invariant recebido == Sum(PairKeys(d, d1, ms[..k]), RecvValue(a))
      invariant enviado == Sum(PairKeys(d, d1, ms[..k]), SentValue(a))
      invariant shipments == Ledger(a, PairKeys(d, d1, ms[..k]))
    {
      var m := ms[k];
      PrefixStep(ms, k);
      var keys := PairKeys(d, d1, ms[..k]);
      SumSnoc(keys, (d, d1, m), RecvValue(a));
      SumSnoc(keys, (d, d1, m), SentValue(a));
      InitAppend(keys, (d, d1, m));
      recebido := recebido + a(T(d1, d, m));
      enviado := enviado + a(T(d, d1, m));
      if a(T(d, d1, m)) > 0.0 {
        shipments := shipments + [Shipment(d, m, d1, a(T(d, d1, m)))];
      }
      k := k + 1;
    }
    assert ms[..k] == ms;
  }

  lemma DepotKeysStep(d: DepotId, ds: seq<DepotId>, ms: seq<MatId>, j: nat)
    requires j < |ds|
    ensures DepotKeys(d, ds[..j + 1], ms) == DepotKeys(d, ds[..j], ms) + (if ds[j] != d then PairKeys(d, ds[j], ms) else [])
  {
    PrefixStep(ds, j);
  }

  /** Visiting depot ds[j] adds its pair's keys to the sums and the ledger,
      unless it is d itself. */
  lemma DepotKeysAccumulate(a: Assignment, d: DepotId, ds: seq<DepotId>, ms: seq<MatId>, j: nat)
    requires j < |ds|
    ensures var keys, next, pair := DepotKeys(d, ds[..j], ms), DepotKeys(d, ds[..j + 1], ms), PairKeys(d, ds[j], ms);
      if ds[j] != d then
        && Sum(next, RecvValue(a)) == Sum(keys, RecvValue(a)) + Sum(pair, RecvValue(a))
        && Sum(next, SentValue(a)) == Sum(keys, SentValue(a)) + Sum(pair, SentValue(a))
        && Ledger(a, next) == Ledger(a, keys) + Ledger(a, pair)
      else
        next == keys
  {
    var keys, pair := DepotKeys(d, ds[..j], ms), PairKeys(d, ds[j], ms);
    DepotKeysStep(d, ds, ms, j);
    if ds[j] != d {
      SumAppend(keys, pair, RecvValue(a));
      SumAppend(keys, pair, SentValue(a));
      LedgerAppend(a, keys, pair);
    } else {
      assert keys + [] == keys;
    }
  }

  /** The middle report loop for one depot d: every other depot d1. */
  method AccumulateDepot(a: Assignment, d: DepotId, ds: seq<DepotId>, ms: seq<MatId>)
    returns (recebido: real, enviado: real, shipments: seq<Shipment>)
    ensures recebido == Sum(DepotKeys(d, ds, ms), RecvValue(a))
    ensures enviado == Sum(DepotKeys(d, ds, ms), SentValue(a))
    ensures shipments == Ledger(a, DepotKeys(d, ds, ms))
  {
    recebido, enviado, shipments := 0.0, 0.0, [];
    var j := 0;
    while j < |ds|
      invariant 0 <= j <= |ds|
      invariant recebido == Sum(DepotKeys(d, ds[..j], ms), RecvValue(a))
      invariant enviado == Sum(DepotKeys(d, ds[..j], ms), SentValue(a))
      invariant shipments == Ledger(a, DepotKeys(d, ds[..j], ms))
    {
      var d1 := ds[j];
      DepotKeysAccumulate(a, d, ds, ms, j);
      if d != d1 {
        var r, e, s := AccumulatePair(a, d, d1, ms);
        recebido := recebido + r;
        enviado := enviado + e;
        shipments := shipments + s;
      }
      j := j + 1;
    }
    assert ds[..j] == ds;
  }

  lemma ExecutedMapStep(tb: Tables, a: Assignment, ds: seq<DepotId>, i: nat)
    requires i < |ds|
    ensures ExecutedMap(tb, a, ds[..i + 1]) == ExecutedMap(tb, a, ds[..i])[ds[i] := ExecutedAt(tb, a, ds[i])]
  {
    assert ds[..i + 1] == ds[..i] + [ds[i]];
  }

  lemma ReportStep(tb: Tables, a: Assignment, i: nat)
    requires i < |tb.depositos|
    ensures var ds, ms, d := tb.depositos, tb.materiais, tb.depositos[i];
      && MapSeq(ds[..i + 1], StatsAt(tb, a)) == MapSeq(ds[..i], StatsAt(tb, a)) + [StatsOf(tb, a, d)]
      && Sum(TransportKeys(ds[..i + 1], ds, ms), SentValue(a)) == Sum(TransportKeys(ds[..i], ds, ms), SentValue(a)) + Sent(tb, a, d)
      && Ledger(a, TransportKeys(ds[..i + 1], ds, ms)) == Ledger(a, TransportKeys(ds[..i], ds, ms)) + Ledger(a, DepotKeys(d, ds, ms))
      && ExecutedMap(tb, a, ds[..i + 1]) == ExecutedMap(tb, a, ds[..i])[d := ExecutedAt(tb, a, d)]
  {
    var ds, ms, d := tb.depositos, tb.materiais, tb.depositos[i];
    var prefix := TransportKeys(ds[..i], ds, ms);
    PrefixStep(ds, i);
    assert TransportKeys(ds[..i + 1], ds, ms) == prefix + DepotKeys(d, ds, ms);
    MapSeqStep(ds, i, StatsAt(tb, a));
    SumAppend(prefix, DepotKeys(d, ds, ms), SentValue(a));
    LedgerAppend(a, prefix, DepotKeys(d, ds, ms));
    ExecutedMapStep(tb, a, ds, i);
  }

  /** The report: nothing unless the status is optimal; otherwise one record
      per depot in `depositos` order, then the closing record, the ledger and
      the depot -> executed obras map. */
  method ExtractReport(tb: Tables, res: SolveResult) returns (out: Option<Report>)
    ensures res.NotOptimal? ==> out == None
    ensures res.Optimal? ==> out == Some(ReportOf(tb, res.objVal, res.values))
  {
    if res.NotOptimal? {
      return None;
    }
    var a := res.values;
    var ds, ms := tb.depositos, tb.materiais;
    var resultados: seq<ResultRow> := [];
    var transportes: seq<Shipment> := [];
    var executadas: map<DepotId, seq<ObraId>> := map[];
    var total := 0.0;
    var i := 0;
    while i < |ds|
      invariant 0 <= i <= |ds|
      invariant resultados == MapSeq(ds[..i], StatsAt(tb, a))
      invariant transportes == Ledger(a, TransportKeys(ds[..i], ds, ms))
      invariant total == Sum(TransportKeys(ds[..i], ds, ms), SentValue(a))
      invariant executadas == ExecutedMap(tb, a, ds[..i])
    {
      var d := ds[i];
      var obrasExecutadas := ExecutedAt(tb, a, d);
      var numExecutadas := |obrasExecutadas|;
      var somaExecutadas := Sum(obrasExecutadas, WOf(tb));
      var numAssociadas := NumDistinctObras(RowsAt(tb.rows, d));
      var somaAssociadas := SomaPrioridades(RowsAt(tb.rows, d));
      var recebido, enviado, shipments := AccumulateDepot(a, d, ds, ms);
      ReportStep(tb, a, i);
      total := total + enviado;
      transportes := transportes + shipments;
      resultados := resultados + [DepotRow(d, numAssociadas, numExecutadas, somaExecutadas, somaAssociadas, recebido, enviado)];
      executadas := executadas[d := obrasExecutadas];
      i := i + 1;
    }
    assert ds[..i] == ds;
    resultados := resultados + [ObjectiveRow(res.objVal, total)];
    out := Some(Report(resultados, transportes, executadas));
  }

  // ---------------------------------------------------------------------------
  // What the report states

  function EnviadoOf(r: ResultRow): real
  {
    if r.DepotRow? then r.enviado else 0.0
  }

  function RecebidoOf(r: ResultRow): real
  {
    if r.DepotRow? then r.recebido else 0.0
  }

  /** One record per depot in `depositos` order and then exactly one closing
      record carrying objVal and the total transported; the map has an entry
      for exactly the depots. */
  lemma ReportShape(tb: Tables, objVal: real, a: Assignment)
    ensures var r := ReportOf(tb, objVal, a);
      && |r.resultados| == |tb.depositos| + 1
      && (forall i :: 0 <= i < |tb.depositos| ==> r.resultados[i].DepotRow? && r.resultados[i].dep == tb.depositos[i])
      && r.resultados[|tb.depositos|] == ObjectiveRow(objVal, TotalTransported(tb, a))
      && (forall d :: d in r.obrasExecutadas <==> d in tb.depositos)
  {
    var r := ReportOf(tb, objVal, a);
    var stats := MapSeq(tb.depositos, StatsAt(tb, a));
    assert r.resultados == stats + [ObjectiveRow(objVal, TotalTransported(tb, a))];
    forall i | 0 <= i < |tb.depositos| ensures r.resultados[i].DepotRow? && r.resultados[i].dep == tb.depositos[i] {
      assert r.resultados[i] == stats[i] == StatsOf(tb, a, tb.depositos[i]);
    }
    assert r.obrasExecutadas == ExecutedMap(tb, a, tb.depositos);
  }

  /** obras_executadas lists each obra at most once, and exactly those whose
      x at d exceeds 0.5. */
  lemma ExecutedAtMembers(tb: Tables, a: Assignment, d: DepotId)
    requires Distinct(tb.obras)
    ensures Distinct(ExecutedAt(tb, a, d))
    ensures forall o :: o in ExecutedAt(tb, a, d) <==> o in tb.obras && a(X(o, d)) > 0.5
  {
    FilterDistinct(tb.obras, IsExecuted(a, d));
  }

  /** In a feasible solution an obra is executed only at its origin, so the
      executed lists of two different depots are disjoint. */
  lemma ExecutedOnlyAtOrigin(tb: Tables, p: Program, a: Assignment)
    requires Distinct(tb.depositos)
    requires forall o :: o in tb.obras ==> o in ObrasOf(tb.rows)
    requires TransportProgram(tb) == Ok(p) && Satisfies(a, p.constraints)
    ensures forall d, o :: d in tb.depositos && o in ExecutedAt(tb, a, d) ==> d == Origin(tb, o)
    ensures forall d1, d2, o :: d1 in tb.depositos && d2 in tb.depositos && o in ExecutedAt(tb, a, d1) && o in ExecutedAt(tb, a, d2) ==> d1 == d2
  {
    FeasibleOnlyAtOrigin(tb, p, a);
  }

  lemma FirstPesoAtNonNegative(rows: seq<ObraRow>, d: DepotId, o: ObraId)
    requires NonNegativeWeights(rows)
    ensures FirstPeso(RowsAt(rows, d), o) >= 0.0
  {
    var rs := RowsAt(rows, d);
    var i := FirstRowIndex(rs, o);
    if i < |rs| {
      assert rs[i] in rows;
    }
  }

  /** An obra executed at d in a feasible solution is one of d's associated
      obras, and its weight is the weight on its first row at d. */
  lemma ExecutedIsAssociated(tb: Tables, p: Program, a: Assignment, d: DepotId, o: ObraId)
    requires Distinct(tb.depositos) && tb.obras == Unique(ObrasOf(tb.rows))
    requires TransportProgram(tb) == Ok(p) && Satisfies(a, p.constraints)
    requires d in tb.depositos && o in ExecutedAt(tb, a, d)
    ensures o in Unique(ObrasOf(RowsAt(tb.rows, d)))
    ensures W(tb, o) == FirstPeso(RowsAt(tb.rows, d), o)
  {
    var rs := RowsAt(tb.rows, d);
    ExecutedAtMembers(tb, a, d);
    assert o in tb.obras && a(X(o, d)) > 0.5;
    FeasibleOnlyAtOrigin(tb, p, a);
    assert d == Origin(tb, o);
    FirstRowExists(tb.rows, o);
    assert AtDepot(d)(tb.rows[FirstRowIndex(tb.rows, o)]);
    FirstRowOfFilter(tb.rows, AtDepot(d), o);
    var k := FirstRowIndex(rs, o);
    assert ObrasOf(rs)[k] == o;
  }

  /** In a feasible solution the obras executed at d are among the obras
      associated with d, so OBRAS_EXECUTADAS <= NUM_OBRAS_ASSOCIADAS and,
      for non-negative weights, SOMA_PRIORIDADES_EXECUTADAS <=
      SOMA_PRIORIDADES. */
  lemma ExecutedWithinAssociated(tb: Tables, p: Program, a: Assignment, d: DepotId)
    requires Distinct(tb.depositos) && tb.obras == Unique(ObrasOf(tb.rows)) && d in tb.depositos
    requires TransportProgram(tb) == Ok(p) && Satisfies(a, p.constraints)
    ensures |ExecutedAt(tb, a, d)| <= NumDistinctObras(RowsAt(tb.rows, d))
    ensures NonNegativeWeights(tb.rows) ==> Sum(ExecutedAt(tb, a, d), WOf(tb)) <= SomaPrioridades(RowsAt(tb.rows, d))
  {
    var ex := ExecutedAt(tb, a, d);
    var rs := RowsAt(tb.rows, d);
    var assoc := Unique(ObrasOf(rs));
    ExecutedAtMembers(tb, a, d);
    forall o | o in ex ensures o in assoc && WOf(tb)(o) == FirstPesoIn(rs)(o) {
      ExecutedIsAssociated(tb, p, a, d, o);
    }
    SumSubsetLe(ex, assoc, (o: ObraId) => 1.0);
    if NonNegativeWeights(tb.rows) {
      forall o | o in assoc ensures FirstPesoIn(rs)(o) >= 0.0 {
        FirstPesoAtNonNegative(tb.rows, d, o);
      }
      SumExt(ex, WOf(tb), FirstPesoIn(rs));
      SumSubsetLe(ex, assoc, FirstPesoIn(rs));
    }
  }

  function QuantityOf(s: Shipment): real
  {
    s.quantidade
  }

  /** A ledger entry is recorded for a visited key exactly when its t is
      positive, and carries that t. */
  lemma {:induction false} LedgerMembers(a: Assignment, keys: seq<(DepotId, DepotId, MatId)>)
    ensures forall s :: s in Ledger(a, keys) ==>
      (s.origem, s.destino, s.material) in keys && s.quantidade == a(T(s.origem, s.destino, s.material)) && s.quantidade > 0.0
    ensures forall k :: k in keys && a(T(k.0, k.1, k.2)) > 0.0 ==> ShipmentOf(a, k) in Ledger(a, keys)
  {
    if keys != [] {
      LedgerMembers(a, Init(keys));
      assert keys == Init(keys) + [Last(keys)];
    }
  }

  /** Every shipment of the report goes between two different depots, for a
      material of the instance, with a positive quantity equal to its t; and
      every positive t[d1, d2, m] with d1 != d2 is in the ledger. */
  lemma LedgerEntries(tb: Tables, a: Assignment)
    ensures forall s :: s in ReportOf(tb, 0.0, a).transportes ==>
      && s.origem in tb.depositos && s.destino in tb.depositos && s.origem != s.destino
      && s.material in tb.materiais && s.quantidade > 0.0 && s.quantidade == a(T(s.origem, s.destino, s.material))
    ensures forall d1, d2, m :: d1 in tb.depositos && d2 in tb.depositos && d1 != d2 && m in tb.materiais && a(T(d1, d2, m)) > 0.0 ==>
      Shipment(d1, m, d2, a(T(d1, d2, m))) in ReportOf(tb, 0.0, a).transportes
  {
    var keys := TransportKeys(tb.depositos, tb.depositos, tb.materiais);
    LedgerMembers(a, keys);
    TransportKeysMembers(tb.depositos, tb.depositos, tb.materiais);
    forall d1, d2, m | d1 in tb.depositos && d2 in tb.depositos && d1 != d2 && m in tb.materiais && a(T(d1, d2, m)) > 0.0
      ensures Shipment(d1, m, d2, a(T(d1, d2, m))) in Ledger(a, keys)
    {
      assert ShipmentOf(a, (d1, d2, m)) in Ledger(a, keys);
    }
  }

  /** With non-negative t the total over the visited keys is the sum of the
      ledger's quantities. */
  lemma {:induction false} LedgerTotal(a: Assignment, keys: seq<(DepotId, DepotId, MatId)>)
    requires forall k :: k in keys ==> a(T(k.0, k.1, k.2)) >= 0.0
    ensures Sum(keys, SentValue(a)) == Sum(Ledger(a, keys), QuantityOf)
  {
    if keys != [] {
      var p, k := Init(keys), Last(keys);
      assert keys == p + [k];
      LedgerTotal(a, p);
      SumSnoc(p, k, SentValue(a));
      assert k in keys;
      if a(T(k.0, k.1, k.2)) > 0.0 {
        SumSnoc(Ledger(a, p), ShipmentOf(a, k), QuantityOf);
      } else {
        assert SentValue(a)(k) == 0.0;
        assert Ledger(a, keys) == Ledger(a, p) + [];
        assert Ledger(a, p) + [] == Ledger(a, p);
      }
    }
  }

  /** For a solution in the variables' domain, total_material_transportado is
      the sum of the quantities of the shipment ledger. */
  lemma TotalMatchesLedger(tb: Tables, p: Program, a: Assignment)
    requires forall o :: o in tb.obras ==> o in ObrasOf(tb.rows)
    requires TransportProgram(tb) == Ok(p) && InDomain(a, p.vars)
    ensures TotalTransported(tb, a) == Sum(ReportOf(tb, 0.0, a).transportes, QuantityOf)
  {
    var keys := TransportKeys(tb.depositos, tb.depositos, tb.materiais);
    TransportKeysMembers(tb.depositos, tb.depositos, tb.materiais);
    VariablesMembers(tb);
    forall k | k in keys ensures a(T(k.0, k.1, k.2)) >= 0.0 {
      assert T(k.0, k.1, k.2) in p.vars;
      var i :| 0 <= i < |p.vars| && p.vars[i] == T(k.0, k.1, k.2);
    }
    LedgerTotal(a, keys);
  }

  /** The shipments leaving depot d. */
  function FromOrigin(d: DepotId): Shipment -> bool
  {
    (s: Shipment) => s.origem == d
  }

  /** The shipments recorded while d1 is the outer depot all leave d1, so the
      shipments leaving d are all of them when d1 is d, and none otherwise. */
  lemma BlockFromOrigin(a: Assignment, d: DepotId, d1: DepotId, ds: seq<DepotId>, ms: seq<MatId>)
    ensures var block := Ledger(a, DepotKeys(d1, ds, ms));
      Filter(block, FromOrigin(d)) == if d1 == d then block else []
  {
    var block := Ledger(a, DepotKeys(d1, ds, ms));
    LedgerMembers(a, DepotKeys(d1, ds, ms));
    DepotKeysMembers(d1, ds, ms);
    assert forall s :: s in block ==> s.origem == d1;
    if d1 == d {
      FilterAll(block, FromOrigin(d));
    } else {
      FilterNone(block, FromOrigin(d));
    }
  }

  /** The ledger entries with origin d are exactly those recorded while d was
      the outer depot of the loop, and there are none when d is not visited. */
  lemma {:induction false} LedgerFromOrigin(a: Assignment, d: DepotId, d1s: seq<DepotId>, ds: seq<DepotId>, ms: seq<MatId>)
    requires Distinct(d1s)
    ensures Filter(Ledger(a, TransportKeys(d1s, ds, ms)), FromOrigin(d)) ==
      if d in d1s then Ledger(a, DepotKeys(d, ds, ms)) else []
  {
    if d1s != [] {
      var p, d1 := Init(d1s), Last(d1s);
      assert d1s == p + [d1];
      assert d1 !in p;
      LedgerFromOrigin(a, d, p, ds, ms);
      var before, block := Ledger(a, TransportKeys(p, ds, ms)), Ledger(a, DepotKeys(d1, ds, ms));
      LedgerAppend(a, TransportKeys(p, ds, ms), DepotKeys(d1, ds, ms));
      FilterAppend(before, block, FromOrigin(d));
      BlockFromOrigin(a, d, d1, ds, ms);
      if d1 == d {
        assert Filter(before, FromOrigin(d)) == [];
        assert [] + block == block;
      } else {
        assert d in d1s <==> d in p;
        assert Filter(before, FromOrigin(d)) + [] == Filter(before, FromOrigin(d));
      }
    }
  }

  /** Every t[d, d1, m] that depot d's loop visits is non-negative in an
      assignment within the variables' domain. */
  lemma DepotKeysNonNegative(tb: Tables, p: Program, a: Assignment, d: DepotId)
    requires forall o :: o in tb.obras ==> o in ObrasOf(tb.rows)
    requires TransportProgram(tb) == Ok(p) && InDomain(a, p.vars)
    requires d in tb.depositos
    ensures forall k :: k in DepotKeys(d, tb.depositos, tb.materiais) ==> a(T(k.0, k.1, k.2)) >= 0.0
  {
    DepotKeysMembers(d, tb.depositos, tb.materiais);
    VariablesMembers(tb);
    forall k | k in DepotKeys(d, tb.depositos, tb.materiais) ensures a(T(k.0, k.1, k.2)) >= 0.0 {
      assert T(k.0, k.1, k.2) in p.vars;
      var i :| 0 <= i < |p.vars| && p.vars[i] == T(k.0, k.1, k.2);
    }
  }

  /** For a solution in the variables' domain, MATERIAL_ENVIADO of depot d is
      the sum of the ledger's quantities over the shipments whose origin is d. */
  lemma SentMatchesLedger(tb: Tables, p: Program, a: Assignment, objVal: real, d: DepotId)
    requires forall o :: o in tb.obras ==> o in ObrasOf(tb.rows)
    requires TransportProgram(tb) == Ok(p) && InDomain(a, p.vars)
    requires Distinct(tb.depositos) && d in tb.depositos
    ensures StatsOf(tb, a, d).enviado == Sum(Filter(ReportOf(tb, objVal, a).transportes, FromOrigin(d)), QuantityOf)
  {
    var ds, ms := tb.depositos, tb.materiais;
    assert ReportOf(tb, objVal, a).transportes == Ledger(a, TransportKeys(ds, ds, ms));
    LedgerFromOrigin(a, d, ds, ds, ms);
    DepotKeysNonNegative(tb, p, a, d);
    LedgerTotal(a, DepotKeys(d, ds, ms));
  }

  lemma {:induction false} TransportKeysSum(tb: Tables, a: Assignment, d1s: seq<DepotId>)
    ensures Sum(TransportKeys(d1s, tb.depositos, tb.materiais), SentValue(a)) == Sum(d1s, SentAt(tb, a))
  {
    if d1s != [] {
      var p := Init(d1s);
      TransportKeysSum(tb, a, p);
      SumAppend(TransportKeys(p, tb.depositos, tb.materiais), DepotKeys(Last(d1s), tb.depositos, tb.materiais), SentValue(a));
    }
  }

  /** The other depots' amounts for the pairs (d, d2), 0 on the diagonal. */
  function PairSums(d: DepotId, ms: seq<MatId>, g: ((DepotId, DepotId, MatId)) -> real): DepotId -> real
  {
    (d2: DepotId) => if d2 != d then Sum(PairKeys(d, d2, ms), g) else 0.0
  }

  lemma {:induction false} DepotKeysSum(d: DepotId, d2s: seq<DepotId>, ms: seq<MatId>, g: ((DepotId, DepotId, MatId)) -> real)
    ensures Sum(DepotKeys(d, d2s, ms), g) == Sum(d2s, PairSums(d, ms, g))
  {
    if d2s != [] {
      var p, d2 := Init(d2s), Last(d2s);
      DepotKeysSum(d, p, ms, g);
      SumAppend(DepotKeys(d, p, ms), if d2 != d then PairKeys(d, d2, ms) else [], g);
    }
  }

  lemma {:induction false} PairKeysSwap(a: Assignment, d: DepotId, d2: DepotId, ms: seq<MatId>)
    ensures Sum(PairKeys(d, d2, ms), RecvValue(a)) == Sum(PairKeys(d2, d, ms), SentValue(a))
  {
    if ms != [] {
      PairKeysSwap(a, d, d2, Init(ms));
    }
  }

  /** What depot x sends to depot y over all materials. */
  function Flow(a: Assignment, ms: seq<MatId>): (DepotId, DepotId) -> real
  {
    (x: DepotId, y: DepotId) => PairSums(x, ms, SentValue(a))(y)
  }

  /** Conservation: what the depots receive in total is what they send in total. */
  lemma Conservation(tb: Tables, a: Assignment)
    ensures Sum(tb.depositos, ReceivedAt(tb, a)) == Sum(tb.depositos, SentAt(tb, a))
  {
    var ds, ms := tb.depositos, tb.materiais;
    var F := Flow(a, ms);
    SumSwap(ds, ds, F);
    forall x | x in ds ensures RowSums(ds, F)(x) == SentAt(tb, a)(x) {
      DepotKeysSum(x, ds, ms, SentValue(a));
      SumExt(ds, Curry(F, x), PairSums(x, ms, SentValue(a)));
    }
    SumExt(ds, RowSums(ds, F), SentAt(tb, a));
    forall y | y in ds ensures ColumnSums(ds, F)(y) == ReceivedAt(tb, a)(y) {
      DepotKeysSum(y, ds, ms, RecvValue(a));
      forall x | x in ds ensures CurryRight(F, y)(x) == PairSums(y, ms, RecvValue(a))(x) {
        assert CurryRight(F, y)(x) == PairSums(x, ms, SentValue(a))(y);
        if x != y {
          PairKeysSwap(a, y, x, ms);
        }
      }
      SumExt(ds, CurryRight(F, y), PairSums(y, ms, RecvValue(a)));
    }
    SumExt(ds, ColumnSums(ds, F), ReceivedAt(tb, a));
  }

  lemma DepotRecords(tb: Tables, objVal: real, a: Assignment)
    ensures ReportOf(tb, objVal, a).resultados[..|tb.depositos|] == MapSeq(tb.depositos, StatsAt(tb, a))
    ensures ReportOf(tb, objVal, a).resultados[|tb.depositos|] == ObjectiveRow(objVal, TotalTransported(tb, a))
  {
    var rows := MapSeq(tb.depositos, StatsAt(tb, a));
    assert (rows + [ObjectiveRow(objVal, TotalTransported(tb, a))])[..|rows|] == rows;
  }

  /** Over the depot records of the report: the closing record's total is the
      sum of MATERIAL_ENVIADO, and the sum of MATERIAL_RECEBIDO equals it. */
  lemma ReportTotals(tb: Tables, objVal: real, a: Assignment)
    ensures var r := ReportOf(tb, objVal, a).resultados;
      && |r| == |tb.depositos| + 1
      && r[|tb.depositos|] == ObjectiveRow(objVal, Sum(r[..|tb.depositos|], EnviadoOf))
      && Sum(r[..|tb.depositos|], RecebidoOf) == Sum(r[..|tb.depositos|], EnviadoOf)
  {
    DepotRecords(tb, objVal, a);
    SumMapSeq(tb.depositos, StatsAt(tb, a), EnviadoOf, SentAt(tb, a));
    SumMapSeq(tb.depositos, StatsAt(tb, a), RecebidoOf, ReceivedAt(tb, a));
    TransportKeysSum(tb, a, tb.depositos);
    Conservation(tb, a);
  }
}
