/** The global model of otimizacao_com_transporte.py: the dictionaries w, Q,
    q and C built from the input rows, the program (objective and the three
    constraint families) built in nested loops, and what the program means. */
module TransportModel {
  import opened Common
  import opened LinearProgram

  // ---------------------------------------------------------------------------
  // The instance tables

  /** The script's globals after loading: the rows of the projects sheet,
      `obras`, `depositos`, `materiais` and the dictionaries Q, q and C. */
  datatype Tables = Tables(
    rows: seq<ObraRow>,
    obras: seq<ObraId>,
    depositos: seq<DepotId>,
    materiais: seq<MatId>,
    Q: map<(DepotId, MatId), real>,
    q: map<(ObraId, MatId), real>,
    C: map<(DepotId, DepotId, MatId), int>)

  /** `dict.get(k, 0)`. */
  function Get<K>(m: map<K, real>, k: K): real
  {
    if k in m then m[k] else 0.0
  }

  /** The cost table has an entry exactly for each (d1, d2, m) with d1 != d2,
      and every entry is an integer in [1, 4]. */
  ghost predicate ValidCosts(C: map<(DepotId, DepotId, MatId), int>, ds: seq<DepotId>, ms: seq<MatId>)
  {
    && (forall d1, d2, m :: (d1, d2, m) in C <==> d1 in ds && d2 in ds && m in ms && d1 != d2)
    && (forall k :: k in C ==> 1 <= C[k] <= 4)
  }

  ghost predicate Valid(tb: Tables)
  {
    && tb.obras == Unique(ObrasOf(tb.rows))
    && Distinct(tb.depositos)
    && Distinct(tb.materiais)
    && ValidCosts(tb.C, tb.depositos, tb.materiais)
  }

  /** w[obra]: the PESO of the obra's first row. */
  function W(tb: Tables, o: ObraId): real
  {
    FirstPeso(tb.rows, o)
  }

  /** depo_origem: the COD_DEP of the obra's first row. */
  function Origin(tb: Tables, o: ObraId): DepotId
    requires o in ObrasOf(tb.rows)
  {
    FirstRowExists(tb.rows, o);
    tb.rows[FirstRowIndex(tb.rows, o)].dep
  }

  /** C[d1, d2, m] as a real coefficient. */
  function Cost(tb: Tables, d1: DepotId, d2: DepotId, m: MatId): real
  {
    if (d1, d2, m) in tb.C then tb.C[(d1, d2, m)] as real else 0.0
  }

  // ---------------------------------------------------------------------------
  // Loading: Q and q keep the first value of each key; C is drawn per triple

  function Keys<K>(es: seq<(K, real)>): seq<K>
  {
    MapSeq(es, (e: (K, real)) => e.0)
  }

  /** The dictionary that keeps, for every key, the value of its first entry. */
  function FirstWins<K>(es: seq<(K, real)>): map<K, real>
  {
    if es == [] then map[]
    else
      var m := FirstWins(Init(es));
      if Last(es).0 in m then m else m[Last(es).0 := Last(es).1]
  }

  /** A key is in the dictionary iff some entry has it, and it then holds the
      value of the first such entry. */
  lemma {:induction false} FirstWinsLookup<K>(es: seq<(K, real)>, k: K)
    ensures k in FirstWins(es) <==> k in Keys(es)
    ensures k in FirstWins(es) ==> FirstWins(es)[k] == es[IndexOf(Keys(es), k)].1
  {
    if es != [] {
      var p := Init(es);
      FirstWinsLookup(p, k);
      assert Keys(es) == Keys(p) + [Last(es).0];
      if k in Keys(p) {
        assert Keys(es)[..|p|] == Keys(p);
        IndexOfPrefix(Keys(es), |p|, k);
      }
    }
  }

  /** The loops that fill Q and q: one pass over the entries, first value wins. */
  method FillFirstWins<K>(es: seq<(K, real)>) returns (m: map<K, real>)
    ensures m == FirstWins(es)
  {
    m := map[];
    var i := 0;
    while i < |es|
      invariant 0 <= i <= |es|
      invariant m == FirstWins(es[..i])
    {
      PrefixStep(es, i);
      if es[i].0 !in m {
        m := m[es[i].0 := es[i].1];
      }
      i := i + 1;
    }
    assert es[..|es|] == es;
  }

  function StockEntries(stock: seq<StockRow>): seq<((DepotId, MatId), real)>
  {
    MapSeq(stock, (s: StockRow) => ((s.dep, s.mat), s.estoque))
  }

  function DemandEntries(rows: seq<ObraRow>): seq<((ObraId, MatId), real)>
  {
    MapSeq(rows, (r: ObraRow) => ((r.obra, r.mat), r.qtdPend))
  }

  /** Q[d, m] is the ESTOQ_DPST of the first stock row of (d, m); pairs without
      a row are absent (and read as 0 by Get). */
  lemma StockTableFirstRow(stock: seq<StockRow>, d: DepotId, m: MatId)
    ensures (d, m) in FirstWins(StockEntries(stock)) <==> exists i :: 0 <= i < |stock| && stock[i].dep == d && stock[i].mat == m
    ensures (d, m) in FirstWins(StockEntries(stock)) ==>
      var i := IndexOf(Keys(StockEntries(stock)), (d, m));
      i < |stock| && stock[i].dep == d && stock[i].mat == m && FirstWins(StockEntries(stock))[(d, m)] == stock[i].estoque &&
      forall j :: 0 <= j < i ==> stock[j].dep != d || stock[j].mat != m
  {
    var es := StockEntries(stock);
    FirstWinsLookup(es, (d, m));
    if (d, m) in Keys(es) {
      var i := IndexOf(Keys(es), (d, m));
      assert Keys(es)[i] == (d, m);
      forall j | 0 <= j < i ensures stock[j].dep != d || stock[j].mat != m {
        assert Keys(es)[j] != (d, m);
      }
    }
    if exists i :: 0 <= i < |stock| && stock[i].dep == d && stock[i].mat == m {
      var i :| 0 <= i < |stock| && stock[i].dep == d && stock[i].mat == m;
      assert Keys(es)[i] == (d, m);
    }
  }

  ghost function Triples(ds: seq<DepotId>, ms: seq<MatId>): set<(DepotId, DepotId, MatId)>
  {
    set d1, d2, m | d1 in ds && d2 in ds && m in ms && d1 != d2 :: (d1, d2, m)
  }

  /** The random cost dictionary C over off-diagonal keys; `draw` stands for np.random.randint(1, 5). */
  function CostTable(ds: seq<DepotId>, ms: seq<MatId>, draw: (DepotId, DepotId, MatId) -> int): (C: map<(DepotId, DepotId, MatId), int>)
    requires forall d1, d2, m :: 1 <= draw(d1, d2, m) <= 4
    ensures ValidCosts(C, ds, ms)
  {
    map k | k in (set d1, d2, m | d1 in ds && d2 in ds && m in ms && d1 != d2 :: (d1, d2, m)) :: draw(k.0, k.1, k.2)
  }

  /** Loading the instance: obras, depositos and materiais in order of first
      appearance, and the dictionaries Q, q and C. */
  method LoadTables(rows: seq<ObraRow>, stock: seq<StockRow>, draw: (DepotId, DepotId, MatId) -> int) returns (tb: Tables)
    requires forall d1, d2, m :: 1 <= draw(d1, d2, m) <= 4
    ensures Valid(tb)
    ensures tb.rows == rows && tb.obras == Unique(ObrasOf(rows))
    ensures tb.depositos == Unique(MapSeq(stock, (s: StockRow) => s.dep))
    ensures tb.materiais == Unique(MapSeq(stock, (s: StockRow) => s.mat))
    ensures tb.Q == FirstWins(StockEntries(stock)) && tb.q == FirstWins(DemandEntries(rows))
  {
    var obras := Unique(ObrasOf(rows));
    var depositos := Unique(MapSeq(stock, (s: StockRow) => s.dep));
    var materiais := Unique(MapSeq(stock, (s: StockRow) => s.mat));
    var Q := FillFirstWins(StockEntries(stock));
    var q := FillFirstWins(DemandEntries(rows));
    var C := CostTable(depositos, materiais, draw);
    tb := Tables(rows, obras, depositos, materiais, Q, q, C);
  }

  // ---------------------------------------------------------------------------
  // Family A: capacity and transport

  function DemandTerm(tb: Tables, d: DepotId, m: MatId): ObraId -> Term
  {
    (o: ObraId) => Term(Get(tb.q, (o, m)), X(o, d))
  }

  function InflowTerm(d: DepotId, m: MatId): DepotId -> Term
  {
    (o: DepotId) => Term(1.0, T(o, d, m))
  }

  function OutflowTerm(d: DepotId, m: MatId): DepotId -> Term
  {
    (o: DepotId) => Term(-1.0, T(d, o, m))
  }

  /** demanda_d1 */
  function DemandExpr(tb: Tables, d: DepotId, m: MatId): LinExpr
  {
    LinExpr(MapSeq(tb.obras, DemandTerm(tb, d, m)), 0.0)
  }

  /** capacidade_disponivel_d1 + entrada_d1 - saida_d1 */
  function AvailableExpr(tb: Tables, d: DepotId, m: MatId): LinExpr
  {
    var others := Others(tb.depositos, d);
    LinExpr(MapSeq(others, InflowTerm(d, m)) + MapSeq(others, OutflowTerm(d, m)), Get(tb.Q, (d, m)))
  }

  /** Restricao_Unificada_{d1}_{d2}_{m}: its body depends on d1 and m only. */
  function CapacityConstraint(tb: Tables, d1: DepotId, d2: DepotId, m: MatId): Constraint
  {
    Constraint(Capacity(d1, d2, m), DemandExpr(tb, d1, m), Le, AvailableExpr(tb, d1, m))
  }

  /** (d1, d2, m) for one pair (d1, d2) and each material of `ms`. */
  function PairKeys(d1: DepotId, d2: DepotId, ms: seq<MatId>): seq<(DepotId, DepotId, MatId)>
  {
    if ms == [] then [] else PairKeys(d1, d2, Init(ms)) + [(d1, d2, Last(ms))]
  }

  /** The keys of one d1, over the d2 of `d2s` other than d1. */
  function DepotKeys(d1: DepotId, d2s: seq<DepotId>, ms: seq<MatId>): seq<(DepotId, DepotId, MatId)>
  {
    if d2s == [] then []
    else DepotKeys(d1, Init(d2s), ms) + (if Last(d2s) != d1 then PairKeys(d1, Last(d2s), ms) else [])
  }

  /** The triples (d1, d2, m) with d1 != d2 in the order of the nested loops
      `for d1 for d2 if d1 != d2 for m`, shared by family A and the cost part
      of the objective. */
  function TransportKeys(d1s: seq<DepotId>, ds: seq<DepotId>, ms: seq<MatId>): seq<(DepotId, DepotId, MatId)>
  {
    if d1s == [] then [] else TransportKeys(Init(d1s), ds, ms) + DepotKeys(Last(d1s), ds, ms)
  }

  function CapacityOf(tb: Tables): ((DepotId, DepotId, MatId)) -> Constraint
  {
    (k: (DepotId, DepotId, MatId)) => CapacityConstraint(tb, k.0, k.1, k.2)
  }

  /** Family A as the script emits it: one constraint per visited key. */
  function CapacityFamily(tb: Tables): seq<Constraint>
  {
    MapSeq(TransportKeys(tb.depositos, tb.depositos, tb.materiais), CapacityOf(tb))
  }

  /** The innermost loop of family A: for each material m, the capacity
      constraint of (d1, m) named after (d1, d2, m). */
  method AddPairConstraints(tb: Tables, d1: DepotId, d2: DepotId) returns (cs: seq<Constraint>)
    ensures cs == MapSeq(PairKeys(d1, d2, tb.materiais), CapacityOf(tb))
  {
    var ms := tb.materiais;
    cs := [];
    var k := 0;
    while k < |ms|
      invariant 0 <= k <= |ms|
      invariant cs == MapSeq(PairKeys(d1, d2, ms[..k]), CapacityOf(tb))
    {
      var m := ms[k];
      var demanda := DemandExpr(tb, d1, m);
      var disponivel := AvailableExpr(tb, d1, m);
      PrefixStep(ms, k);
      MapSeqSnoc(PairKeys(d1, d2, ms[..k]), (d1, d2, m), CapacityOf(tb));
      cs := cs + [Constraint(Capacity(d1, d2, m), demanda, Le, disponivel)];
      k := k + 1;
    }
    assert ms[..k] == ms;
  }

  /** The middle loop: for every d2 other than d1. */
  method AddDepotConstraints(tb: Tables, d1: DepotId) returns (cs: seq<Constraint>)
    ensures cs == MapSeq(DepotKeys(d1, tb.depositos, tb.materiais), CapacityOf(tb))
  {
    var ds := tb.depositos;
    cs := [];
    var j := 0;
    while j < |ds|
      invariant 0 <= j <= |ds|
      invariant cs == MapSeq(DepotKeys(d1, ds[..j], tb.materiais), CapacityOf(tb))
    {
      var d2 := ds[j];
      PrefixStep(ds, j);
      if d1 != d2 {
        var pair := AddPairConstraints(tb, d1, d2);
        MapSeqAppend(DepotKeys(d1, ds[..j], tb.materiais), PairKeys(d1, d2, tb.materiais), CapacityOf(tb));
        cs := cs + pair;
      }
      j := j + 1;
    }
    assert ds[..j] == ds;
  }

  /** Family A: for d1, for d2 != d1, for m, add the capacity constraint of (d1, m). */
  method AddCapacityConstraints(tb: Tables) returns (cs: seq<Constraint>)
    ensures cs == CapacityFamily(tb)
  {
    var ds := tb.depositos;
    cs := [];
    var i := 0;
    while i < |ds|
      invariant 0 <= i <= |ds|
      invariant cs == MapSeq(TransportKeys(ds[..i], ds, tb.materiais), CapacityOf(tb))
    {
      var block := AddDepotConstraints(tb, ds[i]);
      PrefixStep(ds, i);
      MapSeqAppend(TransportKeys(ds[..i], ds, tb.materiais), DepotKeys(ds[i], ds, tb.materiais), CapacityOf(tb));
      cs := cs + block;
      i := i + 1;
    }
    assert ds[..i] == ds;
  }

  // What family A contains

  lemma {:induction false} PairKeysMembers(d1: DepotId, d2: DepotId, ms: seq<MatId>)
    ensures |PairKeys(d1, d2, ms)| == |ms|
    ensures forall k :: k in PairKeys(d1, d2, ms) <==> k.0 == d1 && k.1 == d2 && k.2 in ms
  {
    if ms != [] {
      PairKeysMembers(d1, d2, Init(ms));
      assert ms == Init(ms) + [Last(ms)];
    }
  }

  lemma {:induction false} DepotKeysMembers(d1: DepotId, d2s: seq<DepotId>, ms: seq<MatId>)
    ensures forall k :: k in DepotKeys(d1, d2s, ms) <==> k.0 == d1 && k.1 in d2s && k.1 != d1 && k.2 in ms
  {
    if d2s != [] {
      var p, d2 := Init(d2s), Last(d2s);
      DepotKeysMembers(d1, p, ms);
      PairKeysMembers(d1, d2, ms);
      assert d2s == p + [d2];
    }
  }

  /** Keeps the one nonlinear step of the counting lemmas out of their larger
      proof contexts, where the solver handles it poorly. */
  lemma MulSucc(n: int, w: int)
    ensures (n + 1) * w == n * w + w
  {
  }

  lemma {:induction false} DepotKeysCount(d1: DepotId, d2s: seq<DepotId>, ms: seq<MatId>)
    ensures |DepotKeys(d1, d2s, ms)| == |Others(d2s, d1)| * |ms|
  {
    if d2s != [] {
      var p, d2 := Init(d2s), Last(d2s);
      DepotKeysCount(d1, p, ms);
      var n, w := |Others(p, d1)|, |ms|;
      if d2 != d1 {
        PairKeysMembers(d1, d2, ms);
        assert |Others(d2s, d1)| == n + 1;
        MulSucc(n, w);
      } else {
        assert Others(d2s, d1) == Others(p, d1);
      }
    }
  }

  lemma {:induction false} TransportKeysMembers(d1s: seq<DepotId>, ds: seq<DepotId>, ms: seq<MatId>)
    ensures forall k :: k in TransportKeys(d1s, ds, ms) <==> k.0 in d1s && k.1 in ds && k.0 != k.1 && k.2 in ms
  {
    if d1s != [] {
      var p, d1 := Init(d1s), Last(d1s);
      TransportKeysMembers(p, ds, ms);
      DepotKeysMembers(d1, ds, ms);
      assert d1s == p + [d1];
    }
  }

  lemma {:induction false} TransportKeysCount(d1s: seq<DepotId>, ds: seq<DepotId>, ms: seq<MatId>)
    requires Distinct(ds)
    requires forall d :: d in d1s ==> d in ds
    ensures |TransportKeys(d1s, ds, ms)| == |d1s| * ((|ds| - 1) * |ms|)
  {
    if d1s != [] {
      var p, d1 := Init(d1s), Last(d1s);
      assert d1s == p + [d1];
      TransportKeysCount(p, ds, ms);
      DepotKeysCount(d1, ds, ms);
      OthersCount(ds, d1);
      MulSucc(|p|, (|ds| - 1) * |ms|);
    }
  }

  /** Family A has |D|·(|D|-1)·|M| constraints: one per ordered pair d1 != d2
      and material. */
  lemma CapacityFamilyCount(tb: Tables)
    requires Distinct(tb.depositos)
    ensures |CapacityFamily(tb)| == |tb.depositos| * (|tb.depositos| - 1) * |tb.materiais|
  {
    TransportKeysCount(tb.depositos, tb.depositos, tb.materiais);
    var n, m := |tb.depositos|, |tb.materiais|;
    assert n * ((n - 1) * m) == n * (n - 1) * m;
  }

  /** Every element of family A is the capacity constraint of some (d1, d2, m)
      with d1 != d2 named after it, and every such triple has its constraint
      in the family. */
  lemma CapacityFamilyMembers(tb: Tables)
    ensures forall c :: c in CapacityFamily(tb) ==>
      c.name.Capacity? && c.name.d1 in tb.depositos && c.name.d2 in tb.depositos && c.name.d1 != c.name.d2 &&
      c.name.m in tb.materiais && c == CapacityConstraint(tb, c.name.d1, c.name.d2, c.name.m)
    ensures forall d1, d2, m :: d1 in tb.depositos && d2 in tb.depositos && d1 != d2 && m in tb.materiais ==>
      CapacityConstraint(tb, d1, d2, m) in CapacityFamily(tb)
  {
    var keys := TransportKeys(tb.depositos, tb.depositos, tb.materiais);
    var fam := CapacityFamily(tb);
    TransportKeysMembers(tb.depositos, tb.depositos, tb.materiais);
    forall c | c in fam
      ensures c.name.Capacity? && c.name.d1 in tb.depositos && c.name.d2 in tb.depositos && c.name.d1 != c.name.d2 &&
        c.name.m in tb.materiais && c == CapacityConstraint(tb, c.name.d1, c.name.d2, c.name.m)
    {
      var i :| 0 <= i < |fam| && fam[i] == c;
      assert keys[i] in keys;
    }
    forall d1, d2, m | d1 in tb.depositos && d2 in tb.depositos && d1 != d2 && m in tb.materiais
      ensures CapacityConstraint(tb, d1, d2, m) in fam
    {
      assert (d1, d2, m) in keys;
      var i :| 0 <= i < |keys| && keys[i] == (d1, d2, m);
      assert fam[i] == CapacityConstraint(tb, d1, d2, m);
    }
  }

  /** The copies emitted for the same (d1, m) under different d2 differ only in
      their names: same left side, sense and right side. */
  lemma CapacityCopiesIdentical(tb: Tables)
    ensures forall i, j ::
      (0 <= i < |CapacityFamily(tb)| && 0 <= j < |CapacityFamily(tb)| &&
       CapacityFamily(tb)[i].name.Capacity? && CapacityFamily(tb)[j].name.Capacity? &&
       CapacityFamily(tb)[i].name.d1 == CapacityFamily(tb)[j].name.d1 &&
       CapacityFamily(tb)[i].name.m == CapacityFamily(tb)[j].name.m) ==>
        CapacityFamily(tb)[i].lhs == CapacityFamily(tb)[j].lhs &&
        CapacityFamily(tb)[i].sense == CapacityFamily(tb)[j].sense &&
        CapacityFamily(tb)[i].rhs == CapacityFamily(tb)[j].rhs
  {
    var fam := CapacityFamily(tb);
    CapacityFamilyMembers(tb);
    forall i, j | 0 <= i < |fam| && 0 <= j < |fam| && fam[i].name.Capacity? && fam[j].name.Capacity? &&
      fam[i].name.d1 == fam[j].name.d1 && fam[i].name.m == fam[j].name.m
      ensures fam[i].lhs == fam[j].lhs && fam[i].sense == fam[j].sense && fam[i].rhs == fam[j].rhs
    {
      assert fam[i] in fam && fam[j] in fam;
    }
  }

  // What family A means

  function DemandValue(tb: Tables, a: Assignment, d: DepotId, m: MatId): ObraId -> real
  {
    (o: ObraId) => Get(tb.q, (o, m)) * a(X(o, d))
  }

  function InflowValue(a: Assignment, d: DepotId, m: MatId): DepotId -> real
  {
    (o: DepotId) => a(T(o, d, m))
  }

  function OutflowValue(a: Assignment, d: DepotId, m: MatId): DepotId -> real
  {
    (o: DepotId) => a(T(d, o, m))
  }

  /** Σ_obra q(obra, m)·x[obra, d], with a missing q entry read as 0. */
  function Demand(tb: Tables, a: Assignment, d: DepotId, m: MatId): real
  {
    Sum(tb.obras, DemandValue(tb, a, d, m))
  }

  /** Σ_{o != d} t[o, d, m] */
  function Inflow(tb: Tables, a: Assignment, d: DepotId, m: MatId): real
  {
    Sum(Others(tb.depositos, d), InflowValue(a, d, m))
  }

  /** Σ_{o != d} t[d, o, m] */
  function Outflow(tb: Tables, a: Assignment, d: DepotId, m: MatId): real
  {
    Sum(Others(tb.depositos, d), OutflowValue(a, d, m))
  }

  /** The demand placed on depot d for material m is covered by its stock
      (missing Q read as 0) plus what it receives minus what it sends. */
  predicate CapacityHolds(tb: Tables, a: Assignment, d: DepotId, m: MatId)
  {
    Demand(tb, a, d, m) <= Get(tb.Q, (d, m)) + Inflow(tb, a, d, m) - Outflow(tb, a, d, m)
  }

  lemma AvailableValue(tb: Tables, a: Assignment, d: DepotId, m: MatId)
    ensures Eval(AvailableExpr(tb, d, m), a) == Get(tb.Q, (d, m)) + Inflow(tb, a, d, m) - Outflow(tb, a, d, m)
  {
    var others := Others(tb.depositos, d);
    var neg := (o: DepotId) => -1.0 * a(T(d, o, m));
    TermsValueAppend(MapSeq(others, InflowTerm(d, m)), MapSeq(others, OutflowTerm(d, m)), a);
    TermsValueMap(others, InflowTerm(d, m), a, InflowValue(a, d, m));
    TermsValueMap(others, OutflowTerm(d, m), a, neg);
    SumScale(others, OutflowValue(a, d, m), neg, -1.0);
  }

  lemma DemandExprValue(tb: Tables, a: Assignment, d: DepotId, m: MatId)
    ensures Eval(DemandExpr(tb, d, m), a) == Demand(tb, a, d, m)
  {
    TermsValueMap(tb.obras, DemandTerm(tb, d, m), a, DemandValue(tb, a, d, m));
  }

  /** The shared body of every capacity constraint of (d, m) holds iff the
      capacity condition of (d, m) does. */
  lemma CapacityBodyMeaning(tb: Tables, a: Assignment, d: DepotId, m: MatId)
    ensures Eval(DemandExpr(tb, d, m), a) <= Eval(AvailableExpr(tb, d, m), a) <==> CapacityHolds(tb, a, d, m)
  {
    DemandExprValue(tb, a, d, m);
    AvailableValue(tb, a, d, m);
  }

  /** With at least two depots, an assignment satisfies family A iff every
      depot and material meets its capacity condition. */
  lemma CapacityFamilyMeaning(tb: Tables, a: Assignment)
    requires Distinct(tb.depositos) && |tb.depositos| >= 2
    ensures Satisfies(a, CapacityFamily(tb)) <==>
      forall d, m :: d in tb.depositos && m in tb.materiais ==> CapacityHolds(tb, a, d, m)
  {
    var fam := CapacityFamily(tb);
    var ds := tb.depositos;
    CapacityFamilyMembers(tb);
    if Satisfies(a, fam) {
      forall d, m | d in ds && m in tb.materiais ensures CapacityHolds(tb, a, d, m) {
        var d2 := if ds[0] != d then ds[0] else ds[1];
        assert d2 in ds && d2 != d;
        SatisfiesMember(a, fam, CapacityConstraint(tb, d, d2, m));
        CapacityBodyMeaning(tb, a, d, m);
      }
    }
    if forall d, m :: d in ds && m in tb.materiais ==> CapacityHolds(tb, a, d, m) {
      forall i | 0 <= i < |fam| ensures Holds(fam[i], a) {
        var c := fam[i];
        assert c in fam;
        CapacityBodyMeaning(tb, a, c.name.d1, c.name.m);
      }
    }
  }

  /** With a single depot there is no pair d1 != d2, so family A is empty and
      no depot's stock is enforced at all. */
  lemma SingleDepotHasNoCapacity(tb: Tables)
    requires |tb.depositos| == 1
    ensures CapacityFamily(tb) == []
  {
    CapacityFamilyCount(tb);
  }

  // The minimal formulation: one inequality per (depot, material)

  function CapacityAtConstraint(tb: Tables, d: DepotId, m: MatId): Constraint
  {
    Constraint(CapacityAt(d, m), DemandExpr(tb, d, m), Le, AvailableExpr(tb, d, m))
  }

  function MinimalDepotKeys(d: DepotId, ms: seq<MatId>): seq<(DepotId, MatId)>
  {
    if ms == [] then [] else MinimalDepotKeys(d, Init(ms)) + [(d, Last(ms))]
  }

  function MinimalKeys(ds: seq<DepotId>, ms: seq<MatId>): seq<(DepotId, MatId)>
  {
    if ds == [] then [] else MinimalKeys(Init(ds), ms) + MinimalDepotKeys(Last(ds), ms)
  }

  function CapacityAtOf(tb: Tables): ((DepotId, MatId)) -> Constraint
  {
    (k: (DepotId, MatId)) => CapacityAtConstraint(tb, k.0, k.1)
  }

  /** Family A written once per (depot, material). */
  function MinimalCapacityFamily(tb: Tables): seq<Constraint>
  {
    MapSeq(MinimalKeys(tb.depositos, tb.materiais), CapacityAtOf(tb))
  }

  lemma {:induction false} MinimalDepotKeysMembers(d: DepotId, ms: seq<MatId>)
    ensures |MinimalDepotKeys(d, ms)| == |ms|
    ensures forall k :: k in MinimalDepotKeys(d, ms) <==> k.0 == d && k.1 in ms
  {
    if ms != [] {
      MinimalDepotKeysMembers(d, Init(ms));
      assert ms == Init(ms) + [Last(ms)];
    }
  }

  lemma {:induction false} MinimalKeysMembers(ds: seq<DepotId>, ms: seq<MatId>)
    ensures forall k :: k in MinimalKeys(ds, ms) <==> k.0 in ds && k.1 in ms
  {
    if ds != [] {
      var p, d := Init(ds), Last(ds);
      MinimalKeysMembers(p, ms);
      MinimalDepotKeysMembers(d, ms);
      assert ds == p + [d];
    }
  }

  lemma {:induction false} MinimalKeysCount(ds: seq<DepotId>, ms: seq<MatId>)
    ensures |MinimalKeys(ds, ms)| == |ds| * |ms|
  {
    if ds != [] {
      var p := Init(ds);
      MinimalKeysCount(p, ms);
      MinimalDepotKeysMembers(Last(ds), ms);
      MulSucc(|p|, |ms|);
    }
  }

  /** The minimal family has exactly |D|·|M| constraints. */
  lemma MinimalCapacityCount(tb: Tables)
    ensures |MinimalCapacityFamily(tb)| == |tb.depositos| * |tb.materiais|
  {
    MinimalKeysCount(tb.depositos, tb.materiais);
  }

  /** The minimal family states every capacity condition, whatever the number
      of depots. */
  lemma MinimalCapacityMeaning(tb: Tables, a: Assignment)
    ensures Satisfies(a, MinimalCapacityFamily(tb)) <==>
      forall d, m :: d in tb.depositos && m in tb.materiais ==> CapacityHolds(tb, a, d, m)
  {
    var keys := MinimalKeys(tb.depositos, tb.materiais);
    var fam := MinimalCapacityFamily(tb);
    MinimalKeysMembers(tb.depositos, tb.materiais);
    if Satisfies(a, fam) {
      forall d, m | d in tb.depositos && m in tb.materiais ensures CapacityHolds(tb, a, d, m) {
        assert (d, m) in keys;
        var i :| 0 <= i < |keys| && keys[i] == (d, m);
        assert Holds(fam[i], a);
        CapacityBodyMeaning(tb, a, d, m);
      }
    }
    if forall d, m :: d in tb.depositos && m in tb.materiais ==> CapacityHolds(tb, a, d, m) {
      forall i | 0 <= i < |fam| ensures Holds(fam[i], a) {
        assert keys[i] in keys;
        CapacityBodyMeaning(tb, a, keys[i].0, keys[i].1);
      }
    }
  }

  /** With two or more depots the emitted family and the minimal one accept
      the same assignments. */
  lemma CapacityFamilyEquivalentToMinimal(tb: Tables, a: Assignment)
    requires Distinct(tb.depositos) && |tb.depositos| >= 2
    ensures Satisfies(a, CapacityFamily(tb)) <==> Satisfies(a, MinimalCapacityFamily(tb))
  {
    CapacityFamilyMeaning(tb, a);
    MinimalCapacityMeaning(tb, a);
  }

  // ---------------------------------------------------------------------------
  // Family B: origin lock

  /** Indexing x[obra, depo_origem] fails when the origin is not a depot of
      the stock sheet. */
  datatype BuildError = UnknownOrigin(obra: ObraId, dep: DepotId)

  function UnitExpr(v: Var): LinExpr
  {
    LinExpr([Term(1.0, v)], 0.0)
  }

  function ConstExpr(c: real): LinExpr
  {
    LinExpr([], c)
  }

  /** Alocacao_Obra_{obra}_{d}: x[obra, d] <= 1 */
  function AtOriginConstraint(o: ObraId, d: DepotId): Constraint
  {
    Constraint(AllocateAtOrigin(o, d), UnitExpr(X(o, d)), Le, ConstExpr(1.0))
  }

  /** Sem_Alocacao_Obra_{obra}_{d}: x[obra, d] == 0 */
  function NoAllocationConstraint(o: ObraId, d: DepotId): Constraint
  {
    Constraint(NoAllocation(o, d), UnitExpr(X(o, d)), Eq, ConstExpr(0.0))
  }

  function NoAllocationOf(o: ObraId): DepotId -> Constraint
  {
    (d: DepotId) => NoAllocationConstraint(o, d)
  }

  /** The constraints of one obra: at most 1 at its origin, 0 everywhere else. */
  function OriginLockOf(tb: Tables, o: ObraId): seq<Constraint>
    requires o in ObrasOf(tb.rows)
  {
    [AtOriginConstraint(o, Origin(tb, o))] + MapSeq(Others(tb.depositos, Origin(tb, o)), NoAllocationOf(o))
  }

  /** Family B for the obras of `os`, failing at the first obra whose origin
      is not a depot. */
  function OriginLockFor(tb: Tables, os: seq<ObraId>): Result<seq<Constraint>, BuildError>
    requires forall o :: o in os ==> o in ObrasOf(tb.rows)
  {
    if os == [] then Ok([])
    else
      match OriginLockFor(tb, Init(os))
      case Err(e) => Err(e)
      case Ok(cs) =>
        var o := Last(os);
        if Origin(tb, o) in tb.depositos then Ok(cs + OriginLockOf(tb, o))
        else Err(UnknownOrigin(o, Origin(tb, o)))
  }

  /** The inner loop of family B: x[obra, d] == 0 at every depot d other than the origin. */
  method AddNoAllocationConstraints(o: ObraId, origin: DepotId, ds: seq<DepotId>) returns (cs: seq<Constraint>)
    ensures cs == MapSeq(Others(ds, origin), NoAllocationOf(o))
  {
    cs := [];
    var j := 0;
    while j < |ds|
      invariant 0 <= j <= |ds|
      invariant cs == MapSeq(Others(ds[..j], origin), NoAllocationOf(o))
    {
      PrefixStep(ds, j);
      if ds[j] != origin {
        assert Others(ds[..j + 1], origin) == Others(ds[..j], origin) + [ds[j]];
        MapSeqSnoc(Others(ds[..j], origin), ds[j], NoAllocationOf(o));
        cs := cs + [NoAllocationConstraint(o, ds[j])];
      } else {
        assert Others(ds[..j + 1], origin) == Others(ds[..j], origin);
      }
      j := j + 1;
    }
    assert ds[..j] == ds;
  }

  /** Once a prefix fails, the whole family fails with the same error. */
  lemma {:induction false} OriginLockErrPersists(tb: Tables, os: seq<ObraId>, n: nat)
    requires forall o :: o in os ==> o in ObrasOf(tb.rows)
    requires n <= |os| && OriginLockFor(tb, os[..n]).Err?
    ensures OriginLockFor(tb, os) == OriginLockFor(tb, os[..n])
  {
    if n < |os| {
      assert Init(os)[..n] == os[..n];
      OriginLockErrPersists(tb, Init(os), n);
    } else {
      assert os[..n] == os;
    }
  }

  /** Family B: per obra, lock it to its origin; fail on an unknown origin. */
  method AddOriginLockConstraints(tb: Tables) returns (r: Result<seq<Constraint>, BuildError>)
    requires forall o :: o in tb.obras ==> o in ObrasOf(tb.rows)
    ensures r == OriginLockFor(tb, tb.obras)
  {
    var os := tb.obras;
    var cs := [];
    var i := 0;
    while i < |os|
      invariant 0 <= i <= |os|
      invariant OriginLockFor(tb, os[..i]) == Ok(cs)
    {
      PrefixStep(os, i);
      var o := os[i];
      var origem := Origin(tb, o);
      if origem !in tb.depositos {
        OriginLockErrPersists(tb, os, i + 1);
        return Err(UnknownOrigin(o, origem));
      }
      var noAllocation := AddNoAllocationConstraints(o, origem, tb.depositos);
      assert OriginLockFor(tb, os[..i + 1]) == Ok(cs + OriginLockOf(tb, o));
      cs := cs + ([AtOriginConstraint(o, origem)] + noAllocation);
      i := i + 1;
    }
    assert os[..i] == os;
    r := Ok(cs);
  }

  /** Family B is built iff every obra's origin is a depot; otherwise the
      error names the first obra, in `os` order, whose origin is not. */
  lemma {:induction false} OriginLockResult(tb: Tables, os: seq<ObraId>)
    requires forall o :: o in os ==> o in ObrasOf(tb.rows)
    ensures OriginLockFor(tb, os).Ok? <==> forall o :: o in os ==> Origin(tb, o) in tb.depositos
    ensures OriginLockFor(tb, os).Err? ==>
      exists i :: 0 <= i < |os| &&
        OriginLockFor(tb, os).error == UnknownOrigin(os[i], Origin(tb, os[i])) &&
        Origin(tb, os[i]) !in tb.depositos &&
        (forall j :: 0 <= j < i ==> Origin(tb, os[j]) in tb.depositos)
  {
    if os != [] {
      var p, o := Init(os), Last(os);
      assert os == p + [o];
      OriginLockResult(tb, p);
      if OriginLockFor(tb, p).Err? {
        assert OriginLockFor(tb, os) == OriginLockFor(tb, p);
        var i :| 0 <= i < |p| && OriginLockFor(tb, p).error == UnknownOrigin(p[i], Origin(tb, p[i])) &&
          Origin(tb, p[i]) !in tb.depositos && forall j :: 0 <= j < i ==> Origin(tb, p[j]) in tb.depositos;
        assert os[i] == p[i] && p[i] in os;
        assert forall j :: 0 <= j < i ==> os[j] == p[j];
      } else {
        assert forall j :: 0 <= j < |p| ==> Origin(tb, os[j]) in tb.depositos by {
          forall j | 0 <= j < |p| ensures Origin(tb, os[j]) in tb.depositos {
            assert os[j] == p[j] && p[j] in p;
          }
        }
        assert os[|p|] == o;
        if Origin(tb, o) in tb.depositos {
          assert OriginLockFor(tb, os).Ok?;
          forall x | x in os ensures Origin(tb, x) in tb.depositos {
            var j :| 0 <= j < |os| && os[j] == x;
          }
        } else {
          assert OriginLockFor(tb, os) == Err(UnknownOrigin(o, Origin(tb, o)));
        }
      }
    }
  }

  /** x[obra, d] as it is bounded by family B. */
  predicate LockHolds(tb: Tables, a: Assignment, o: ObraId)
    requires o in ObrasOf(tb.rows)
  {
    && a(X(o, Origin(tb, o))) <= 1.0
    && forall d :: d in tb.depositos && d != Origin(tb, o) ==> a(X(o, d)) == 0.0
  }

  lemma UnitValue(v: Var, a: Assignment)
    ensures Eval(UnitExpr(v), a) == a(v)
  {
    var ts := [Term(1.0, v)];
    SumStep(ts, 0, TermValue(a));
    assert ts[..1] == ts && ts[..0] == [];
  }

  lemma OriginLockOfMeaning(tb: Tables, a: Assignment, o: ObraId)
    requires o in ObrasOf(tb.rows)
    ensures Satisfies(a, OriginLockOf(tb, o)) <==> LockHolds(tb, a, o)
  {
    var origin := Origin(tb, o);
    var others := Others(tb.depositos, origin);
    var rest := MapSeq(others, NoAllocationOf(o));
    SatisfiesAppend(a, [AtOriginConstraint(o, origin)], rest);
    UnitValue(X(o, origin), a);
    assert Eval(ConstExpr(1.0), a) == 1.0;
    assert [AtOriginConstraint(o, origin)][0] == AtOriginConstraint(o, origin);
    assert Satisfies(a, [AtOriginConstraint(o, origin)]) <==> a(X(o, origin)) <= 1.0;
    if Satisfies(a, rest) {
      forall d | d in tb.depositos && d != origin ensures a(X(o, d)) == 0.0 {
        var i :| 0 <= i < |others| && others[i] == d;
        assert Holds(rest[i], a);
        UnitValue(X(o, d), a);
      }
    }
    if forall d :: d in tb.depositos && d != origin ==> a(X(o, d)) == 0.0 {
      forall i | 0 <= i < |rest| ensures Holds(rest[i], a) {
        assert others[i] in others;
        UnitValue(X(o, others[i]), a);
      }
    }
  }

  /** An assignment satisfies family B iff every obra is at most 1 at its
      origin and 0 at every other depot. */
  lemma {:induction false} OriginLockMeaning(tb: Tables, a: Assignment, os: seq<ObraId>)
    requires forall o :: o in os ==> o in ObrasOf(tb.rows)
    requires OriginLockFor(tb, os).Ok?
    ensures Satisfies(a, OriginLockFor(tb, os).value) <==> forall o :: o in os ==> LockHolds(tb, a, o)
  {
    if os != [] {
      var p, o := Init(os), Last(os);
      assert os == p + [o];
      assert forall x :: x in os <==> x in p || x == o;
      OriginLockMeaning(tb, a, p);
      OriginLockOfMeaning(tb, a, o);
      var cs := OriginLockFor(tb, p).value;
      assert OriginLockFor(tb, os) == Ok(cs + OriginLockOf(tb, o));
      SatisfiesAppend(a, cs, OriginLockOf(tb, o));
    }
  }

  /** Family B has |D| constraints per obra once every origin is a depot. */
  lemma {:induction false} OriginLockCount(tb: Tables, os: seq<ObraId>)
    requires Distinct(tb.depositos)
    requires forall o :: o in os ==> o in ObrasOf(tb.rows)
    requires OriginLockFor(tb, os).Ok?
    ensures |OriginLockFor(tb, os).value| == |os| * |tb.depositos|
  {
    if os != [] {
      var p, o := Init(os), Last(os);
      OriginLockCount(tb, p);
      OthersCount(tb.depositos, Origin(tb, o));
      MulSucc(|p|, |tb.depositos|);
    }
  }

  // ---------------------------------------------------------------------------
  // Family C: each obra at most one depot

  function XTerm(o: ObraId): DepotId -> Term
  {
    (d: DepotId) => Term(1.0, X(o, d))
  }

  function XValue(a: Assignment, o: ObraId): DepotId -> real
  {
    (d: DepotId) => a(X(o, d))
  }

  /** Obra_{obra}: Σ_d x[obra, d] <= 1 */
  function AtMostOneConstraint(tb: Tables, o: ObraId): Constraint
  {
    Constraint(AtMostOne(o), LinExpr(MapSeq(tb.depositos, XTerm(o)), 0.0), Le, ConstExpr(1.0))
  }

  function AtMostOneOf(tb: Tables): ObraId -> Constraint
  {
    (o: ObraId) => AtMostOneConstraint(tb, o)
  }

  function AtMostOneFamily(tb: Tables): seq<Constraint>
  {
    MapSeq(tb.obras, AtMostOneOf(tb))
  }

  /** Family C: one constraint Σ_d x[obra, d] <= 1 per obra, in `obras` order. */
  method AddAtMostOneConstraints(tb: Tables) returns (cs: seq<Constraint>)
    ensures cs == AtMostOneFamily(tb)
  {
    var os := tb.obras;
    cs := [];
    var i := 0;
    while i < |os|
      invariant 0 <= i <= |os|
      invariant cs == MapSeq(os[..i], AtMostOneOf(tb))
    {
      MapSeqStep(os, i, AtMostOneOf(tb));
      cs := cs + [Constraint(AtMostOne(os[i]), LinExpr(MapSeq(tb.depositos, XTerm(os[i])), 0.0), Le, ConstExpr(1.0))];
      i := i + 1;
    }
    assert os[..i] == os;
  }

  lemma AtMostOneValue(tb: Tables, a: Assignment, o: ObraId)
    ensures Eval(AtMostOneConstraint(tb, o).lhs, a) == Sum(tb.depositos, XValue(a, o))
  {
    TermsValueMap(tb.depositos, XTerm(o), a, XValue(a, o));
  }

  /** An assignment satisfies family C iff no obra is given more than a total
      of 1 over the depots, and family C has one constraint per obra. */
  lemma AtMostOneMeaning(tb: Tables, a: Assignment)
    ensures |AtMostOneFamily(tb)| == |tb.obras|
    ensures Satisfies(a, AtMostOneFamily(tb)) <==> forall o :: o in tb.obras ==> Sum(tb.depositos, XValue(a, o)) <= 1.0
  {
    var fam := AtMostOneFamily(tb);
    if Satisfies(a, fam) {
      forall o | o in tb.obras ensures Sum(tb.depositos, XValue(a, o)) <= 1.0 {
        var i :| 0 <= i < |tb.obras| && tb.obras[i] == o;
        assert Holds(fam[i], a);
        AtMostOneValue(tb, a, o);
      }
    }
    if forall o :: o in tb.obras ==> Sum(tb.depositos, XValue(a, o)) <= 1.0 {
      forall i | 0 <= i < |fam| ensures Holds(fam[i], a) {
        assert tb.obras[i] in tb.obras;
        AtMostOneValue(tb, a, tb.obras[i]);
      }
    }
  }

  // ---------------------------------------------------------------------------
  // Variables and objective

  function XOf(o: ObraId): DepotId -> Var
  {
    (d: DepotId) => X(o, d)
  }

  function TOf(d1: DepotId, d2: DepotId): MatId -> Var
  {
    (m: MatId) => T(d1, d2, m)
  }

  /** x = addVars(obras, depositos) */
  function XVars(os: seq<ObraId>, ds: seq<DepotId>): seq<Var>
  {
    if os == [] then [] else XVars(Init(os), ds) + MapSeq(ds, XOf(Last(os)))
  }

  function TVarsFrom(d1: DepotId, d2s: seq<DepotId>, ms: seq<MatId>): seq<Var>
  {
    if d2s == [] then [] else TVarsFrom(d1, Init(d2s), ms) + MapSeq(ms, TOf(d1, Last(d2s)))
  }

  /** t = addVars(depositos, depositos, materiais): every triple, the
      diagonal d1 == d2 included. */
  function TVars(d1s: seq<DepotId>, ds: seq<DepotId>, ms: seq<MatId>): seq<Var>
  {
    if d1s == [] then [] else TVars(Init(d1s), ds, ms) + TVarsFrom(Last(d1s), ds, ms)
  }

  function Variables(tb: Tables): seq<Var>
  {
    XVars(tb.obras, tb.depositos) + TVars(tb.depositos, tb.depositos, tb.materiais)
  }

  lemma {:induction false} XVarsMembers(os: seq<ObraId>, ds: seq<DepotId>)
    ensures forall v :: v in XVars(os, ds) <==> v.X? && v.obra in os && v.dep in ds
  {
    if os != [] {
      XVarsMembers(Init(os), ds);
      assert os == Init(os) + [Last(os)];
      forall v ensures v in MapSeq(ds, XOf(Last(os))) <==> v.X? && v.obra == Last(os) && v.dep in ds {
        if v.X? && v.obra == Last(os) && v.dep in ds {
          var i :| 0 <= i < |ds| && ds[i] == v.dep;
          assert MapSeq(ds, XOf(Last(os)))[i] == v;
        }
      }
    }
  }

  lemma {:induction false} TVarsFromMembers(d1: DepotId, d2s: seq<DepotId>, ms: seq<MatId>)
    ensures forall v :: v in TVarsFrom(d1, d2s, ms) <==> v.T? && v.from == d1 && v.to in d2s && v.mat in ms
  {
    if d2s != [] {
      var d2 := Last(d2s);
      TVarsFromMembers(d1, Init(d2s), ms);
      assert d2s == Init(d2s) + [d2];
      forall v ensures v in MapSeq(ms, TOf(d1, d2)) <==> v.T? && v.from == d1 && v.to == d2 && v.mat in ms {
        if v.T? && v.from == d1 && v.to == d2 && v.mat in ms {
          var i :| 0 <= i < |ms| && ms[i] == v.mat;
          assert MapSeq(ms, TOf(d1, d2))[i] == v;
        }
      }
    }
  }

  lemma {:induction false} TVarsMembers(d1s: seq<DepotId>, ds: seq<DepotId>, ms: seq<MatId>)
    ensures forall v :: v in TVars(d1s, ds, ms) <==> v.T? && v.from in d1s && v.to in ds && v.mat in ms
  {
    if d1s != [] {
      TVarsMembers(Init(d1s), ds, ms);
      TVarsFromMembers(Last(d1s), ds, ms);
      assert d1s == Init(d1s) + [Last(d1s)];
    }
  }

  /** The declared variables are exactly x[obra, d] and t[d1, d2, m] over the
      instance's obras, depots and materials, the diagonal t[d, d, m] included. */
  lemma VariablesMembers(tb: Tables)
    ensures forall v :: v in Variables(tb) <==>
      (v.X? && v.obra in tb.obras && v.dep in tb.depositos) ||
      (v.T? && v.from in tb.depositos && v.to in tb.depositos && v.mat in tb.materiais)
  {
    XVarsMembers(tb.obras, tb.depositos);
    TVarsMembers(tb.depositos, tb.depositos, tb.materiais);
  }

  function WeightTerm(tb: Tables, o: ObraId): DepotId -> Term
  {
    (d: DepotId) => Term(W(tb, o), X(o, d))
  }

  /** w[obra]·x[obra, d] for obra in os for d in depositos */
  function WeightTerms(tb: Tables, os: seq<ObraId>): seq<Term>
  {
    if os == [] then [] else WeightTerms(tb, Init(os)) + MapSeq(tb.depositos, WeightTerm(tb, Last(os)))
  }

  function CostTermOf(tb: Tables): ((DepotId, DepotId, MatId)) -> Term
  {
    (k: (DepotId, DepotId, MatId)) => Term(-Cost(tb, k.0, k.1, k.2), T(k.0, k.1, k.2))
  }

  /** The objective: the weight terms, then the cost terms negated. */
  function Objective(tb: Tables): LinExpr
  {
    LinExpr(WeightTerms(tb, tb.obras) + MapSeq(TransportKeys(tb.depositos, tb.depositos, tb.materiais), CostTermOf(tb)), 0.0)
  }

  function WeightValue(tb: Tables, a: Assignment, o: ObraId): DepotId -> real
  {
    (d: DepotId) => W(tb, o) * a(X(o, d))
  }

  function WeightRow(tb: Tables, a: Assignment): ObraId -> real
  {
    (o: ObraId) => Sum(tb.depositos, WeightValue(tb, a, o))
  }

  /** Σ_{obra, d} w[obra]·x[obra, d] */
  function WeightedAllocation(tb: Tables, a: Assignment): real
  {
    Sum(tb.obras, WeightRow(tb, a))
  }

  function CostValue(tb: Tables, a: Assignment): ((DepotId, DepotId, MatId)) -> real
  {
    (k: (DepotId, DepotId, MatId)) => Cost(tb, k.0, k.1, k.2) * a(T(k.0, k.1, k.2))
  }

  /** Σ_{d1 != d2, m} C[d1, d2, m]·t[d1, d2, m] */
  function TransportCost(tb: Tables, a: Assignment): real
  {
    Sum(TransportKeys(tb.depositos, tb.depositos, tb.materiais), CostValue(tb, a))
  }

  lemma {:induction false} WeightTermsValue(tb: Tables, a: Assignment, os: seq<ObraId>)
    ensures TermsValue(WeightTerms(tb, os), a) == Sum(os, WeightRow(tb, a))
  {
    if os != [] {
      var p, o := Init(os), Last(os);
      WeightTermsValue(tb, a, p);
      TermsValueAppend(WeightTerms(tb, p), MapSeq(tb.depositos, WeightTerm(tb, o)), a);
      TermsValueMap(tb.depositos, WeightTerm(tb, o), a, WeightValue(tb, a, o));
    }
  }

  lemma {:induction false} CostTermsValue(tb: Tables, a: Assignment, keys: seq<(DepotId, DepotId, MatId)>)
    ensures TermsValue(MapSeq(keys, CostTermOf(tb)), a) == -Sum(keys, CostValue(tb, a))
  {
    var g := CostTermOf(tb);
    var neg := (k: (DepotId, DepotId, MatId)) => TermValue(a)(g(k));
    TermsValueMap(keys, g, a, neg);
    forall k | k in keys ensures neg(k) == -CostValue(tb, a)(k) {
      CostTermAt(tb, a, k);
    }
    SumNeg(keys, CostValue(tb, a), neg);
  }

  lemma CostTermAt(tb: Tables, a: Assignment, k: (DepotId, DepotId, MatId))
    ensures TermValue(a)(CostTermOf(tb)(k)) == -CostValue(tb, a)(k)
  {
    var c, x := Cost(tb, k.0, k.1, k.2), a(T(k.0, k.1, k.2));
    assert TermValue(a)(CostTermOf(tb)(k)) == -c * x;
    assert CostValue(tb, a)(k) == c * x;
  }

  /** The objective is the weighted allocation minus the transport cost. */
  lemma ObjectiveValue(tb: Tables, a: Assignment)
    ensures Eval(Objective(tb), a) == WeightedAllocation(tb, a) - TransportCost(tb, a)
  {
    var keys := TransportKeys(tb.depositos, tb.depositos, tb.materiais);
    var ws := WeightTerms(tb, tb.obras);
    var cs := MapSeq(keys, CostTermOf(tb));
    assert Objective(tb).terms == ws + cs;
    WeightTermsValue(tb, a, tb.obras);
    CostTermsValue(tb, a, keys);
    TermsValueAppend(ws, cs, a);
  }

  // ---------------------------------------------------------------------------
  // The whole program

  /** The whole program handed to the solver, or the error raised while building it. */
  function TransportProgram(tb: Tables): Result<Program, BuildError>
    requires forall o :: o in tb.obras ==> o in ObrasOf(tb.rows)
  {
    match OriginLockFor(tb, tb.obras)
    case Err(e) => Err(e)
    case Ok(lock) => Ok(Program(Variables(tb), Objective(tb), CapacityFamily(tb) + lock + AtMostOneFamily(tb)))
  }

  /** Building the model: declare the variables, set the objective and add the
      three constraint families in order. */
  method BuildTransportModel(tb: Tables) returns (r: Result<Program, BuildError>)
    requires forall o :: o in tb.obras ==> o in ObrasOf(tb.rows)
    ensures r == TransportProgram(tb)
  {
    var vars := Variables(tb);
    var objective := Objective(tb);
    var capacity := AddCapacityConstraints(tb);
    var lock := AddOriginLockConstraints(tb);
    if lock.Err? {
      return Err(lock.error);
    }
    var single := AddAtMostOneConstraints(tb);
    r := Ok(Program(vars, objective, capacity + lock.value + single));
  }

  /** Building fails iff some obra's origin is not a depot. */
  lemma TransportProgramFails(tb: Tables)
    requires forall o :: o in tb.obras ==> o in ObrasOf(tb.rows)
    ensures TransportProgram(tb).Err? <==> exists o :: o in tb.obras && Origin(tb, o) !in tb.depositos
    ensures TransportProgram(tb).Err? ==>
      && TransportProgram(tb).error.obra in tb.obras
      && TransportProgram(tb).error.dep == Origin(tb, TransportProgram(tb).error.obra)
      && TransportProgram(tb).error.dep !in tb.depositos
  {
    OriginLockResult(tb, tb.obras);
  }

  /** The constraint list is families A, B and C, and it has
      |D|·(|D|-1)·|M| + |O|·|D| + |O| constraints. */
  lemma TransportProgramCount(tb: Tables, p: Program)
    requires Distinct(tb.depositos)
    requires forall o :: o in tb.obras ==> o in ObrasOf(tb.rows)
    requires TransportProgram(tb) == Ok(p)
    ensures |p.constraints| == |tb.depositos| * (|tb.depositos| - 1) * |tb.materiais| + |tb.obras| * |tb.depositos| + |tb.obras|
  {
    CapacityFamilyCount(tb);
    OriginLockCount(tb, tb.obras);
  }

  /** In a feasible assignment every obra is placed only at its origin, at most
      once, and the x of its origin is its whole allocation. */
  lemma FeasibleOnlyAtOrigin(tb: Tables, p: Program, a: Assignment)
    requires Distinct(tb.depositos)
    requires forall o :: o in tb.obras ==> o in ObrasOf(tb.rows)
    requires TransportProgram(tb) == Ok(p) && Satisfies(a, p.constraints)
    ensures forall o, d :: o in tb.obras && d in tb.depositos && d != Origin(tb, o) ==> a(X(o, d)) == 0.0
    ensures forall o :: o in tb.obras ==>
      Origin(tb, o) in tb.depositos && a(X(o, Origin(tb, o))) <= 1.0 &&
      Sum(tb.depositos, XValue(a, o)) == a(X(o, Origin(tb, o)))
  {
    var lock := OriginLockFor(tb, tb.obras).value;
    SatisfiesAppend(a, CapacityFamily(tb) + lock, AtMostOneFamily(tb));
    SatisfiesAppend(a, CapacityFamily(tb), lock);
    OriginLockMeaning(tb, a, tb.obras);
    OriginLockResult(tb, tb.obras);
    forall o | o in tb.obras ensures Sum(tb.depositos, XValue(a, o)) == a(X(o, Origin(tb, o))) {
      assert LockHolds(tb, a, o);
      SumSingleTerm(tb.depositos, Origin(tb, o), XValue(a, o));
    }
  }

  function ServedValue(tb: Tables, a: Assignment): ObraId -> real
    requires forall o :: o in tb.obras ==> o in ObrasOf(tb.rows)
  {
    (o: ObraId) => if o in tb.obras then W(tb, o) * a(X(o, Origin(tb, o))) else 0.0
  }

  lemma WeightRowAtOrigin(tb: Tables, a: Assignment, o: ObraId)
    requires Distinct(tb.depositos) && o in ObrasOf(tb.rows) && Origin(tb, o) in tb.depositos
    requires forall d :: d in tb.depositos && d != Origin(tb, o) ==> a(X(o, d)) == 0.0
    ensures WeightRow(tb, a)(o) == W(tb, o) * a(X(o, Origin(tb, o)))
  {
    SumSingleTerm(tb.depositos, Origin(tb, o), WeightValue(tb, a, o));
  }

  /** Under the origin lock the objective is Σ_obra w[obra]·x[obra, origin]
      minus the transport cost. */
  lemma ObjectiveAtOrigin(tb: Tables, p: Program, a: Assignment)
    requires Distinct(tb.depositos)
    requires forall o :: o in tb.obras ==> o in ObrasOf(tb.rows)
    requires TransportProgram(tb) == Ok(p) && Satisfies(a, p.constraints)
    ensures Eval(p.objective, a) == Sum(tb.obras, ServedValue(tb, a)) - TransportCost(tb, a)
  {
    FeasibleOnlyAtOrigin(tb, p, a);
    assert p.objective == Objective(tb);
    ObjectiveValue(tb, a);
    WeightedAllocationAtOrigin(tb, a);
  }

  lemma WeightedAllocationAtOrigin(tb: Tables, a: Assignment)
    requires Distinct(tb.depositos)
    requires forall o :: o in tb.obras ==> o in ObrasOf(tb.rows)
    requires forall o :: o in tb.obras ==> Origin(tb, o) in tb.depositos
    requires forall o, d :: o in tb.obras && d in tb.depositos && d != Origin(tb, o) ==> a(X(o, d)) == 0.0
    ensures WeightedAllocation(tb, a) == Sum(tb.obras, ServedValue(tb, a))
  {
    forall o | o in tb.obras ensures WeightRow(tb, a)(o) == ServedValue(tb, a)(o) {
      WeightRowAtOrigin(tb, a, o);
    }
    SumExt(tb.obras, WeightRow(tb, a), ServedValue(tb, a));
  }

  // ---------------------------------------------------------------------------
  // A single depot: family A is empty, and the corrected program

  /** One obra of weight 1 needing 5 units of material 7 at depot 3, which
      stocks none of it, and depot 3 as the only depot: the program as
      written is built, the assignment that executes the obra is feasible,
      and yet the depot's stock does not cover the demand. */
  lemma SingleDepotStockUnenforced(tb: Tables, a: Assignment)
    requires tb == Tables([ObraRow(1, 7, 3, 1.0, 5.0, 0)], [1], [3], [7], map[(3, 7) := 0.0], map[(1, 7) := 5.0], map[])
    requires a(X(1, 3)) == 1.0 && forall v :: v != X(1, 3) ==> a(v) == 0.0
    ensures Valid(tb) && TransportProgram(tb).Ok?
    ensures Feasible(a, TransportProgram(tb).value)
    ensures !CapacityHolds(tb, a, 3, 7)
  {
    SingleDepotInstance(tb);
    var p := TransportProgram(tb).value;
    SingleDepotHasNoCapacity(tb);
    VariablesMembers(tb);
    FeasibleParts(tb, p, a);
    assert Demand(tb, a, 3, 7) == 5.0 by {
      var f := DemandValue(tb, a, 3, 7);
      assert Init([1]) == [] && Last([1]) == 1;
      assert Sum([1], f) == f(1);
      assert Get(tb.q, (1, 7)) == 5.0 && a(X(1, 3)) == 1.0;
      assert f(1) == 5.0;
    }
    assert Others([3], 3) == [] by {
      assert Init([3]) == [] && Last([3]) == 3;
    }
  }

  /** The tables of the instance above are valid and the program is built. */
  lemma SingleDepotInstance(tb: Tables)
    requires tb == Tables([ObraRow(1, 7, 3, 1.0, 5.0, 0)], [1], [3], [7], map[(3, 7) := 0.0], map[(1, 7) := 5.0], map[])
    ensures Valid(tb) && ObrasOf(tb.rows) == [1] && Origin(tb, 1) == 3
    ensures TransportProgram(tb).Ok?
  {
    var rows := tb.rows;
    assert ObrasOf(rows) == [1];
    assert Unique([1]) == [1] by {
      assert Init([1]) == [];
    }
    assert FirstRowIndex(rows, 1) == 0;
    assert Origin(tb, 1) == 3;
    assert OriginLockFor(tb, [1]).Ok? by {
      assert Init([1]) == [] && Last([1]) == 1;
    }
  }

  lemma FeasibleParts(tb: Tables, p: Program, a: Assignment)
    requires Distinct(tb.depositos) && tb.obras == [1] && tb.depositos == [3] && 1 in ObrasOf(tb.rows) && Origin(tb, 1) == 3
    requires TransportProgram(tb) == Ok(p) && CapacityFamily(tb) == []
    requires forall v :: v in p.vars ==> v.X? || v.T?
    requires a(X(1, 3)) == 1.0 && forall v :: v != X(1, 3) ==> a(v) == 0.0
    ensures Feasible(a, p)
  {
    forall i | 0 <= i < |p.vars|
      ensures if IsBinary(p.vars[i]) then a(p.vars[i]) == 0.0 || a(p.vars[i]) == 1.0 else a(p.vars[i]) >= 0.0
    {
      assert p.vars[i] in p.vars;
    }
    var lock := OriginLockFor(tb, tb.obras).value;
    OriginLockMeaning(tb, a, tb.obras);
    assert LockHolds(tb, a, 1);
    AtMostOneMeaning(tb, a);
    assert Sum(tb.depositos, XValue(a, 1)) == 1.0 by {
      assert Init([3]) == [] && Last([3]) == 3;
      assert Sum([3], XValue(a, 1)) == XValue(a, 1)(3);
    }
    SatisfiesAppend(a, CapacityFamily(tb) + lock, AtMostOneFamily(tb));
    SatisfiesAppend(a, CapacityFamily(tb), lock);
  }

  /** The program with family A written once per (depot, material). */
  function CorrectedTransportProgram(tb: Tables): Result<Program, BuildError>
    requires forall o :: o in tb.obras ==> o in ObrasOf(tb.rows)
  {
    match OriginLockFor(tb, tb.obras)
    case Err(e) => Err(e)
    case Ok(lock) => Ok(Program(Variables(tb), Objective(tb), MinimalCapacityFamily(tb) + lock + AtMostOneFamily(tb)))
  }

  /** Every assignment the corrected program accepts respects the stock of
      every depot and material, with one depot or many. */
  lemma CorrectedProgramEnforcesCapacity(tb: Tables, p: Program, a: Assignment)
    requires forall o :: o in tb.obras ==> o in ObrasOf(tb.rows)
    requires CorrectedTransportProgram(tb) == Ok(p) && Satisfies(a, p.constraints)
    ensures forall d, m :: d in tb.depositos && m in tb.materiais ==> CapacityHolds(tb, a, d, m)
  {
    var lock := OriginLockFor(tb, tb.obras).value;
    SatisfiesAppend(a, MinimalCapacityFamily(tb) + lock, AtMostOneFamily(tb));
    SatisfiesAppend(a, MinimalCapacityFamily(tb), lock);
    MinimalCapacityMeaning(tb, a);
  }

  /** With two or more depots the program as written and the corrected one
      are built together and accept the same assignments. */
  lemma CorrectedProgramAgrees(tb: Tables, a: Assignment)
    requires Distinct(tb.depositos) && |tb.depositos| >= 2
    requires forall o :: o in tb.obras ==> o in ObrasOf(tb.rows)
    ensures TransportProgram(tb).Ok? <==> CorrectedTransportProgram(tb).Ok?
    ensures TransportProgram(tb).Ok? ==>
      (Satisfies(a, TransportProgram(tb).value.constraints) <==> Satisfies(a, CorrectedTransportProgram(tb).value.constraints))
  {
    if OriginLockFor(tb, tb.obras).Ok? {
      var lock := OriginLockFor(tb, tb.obras).value;
      SatisfiesAppend(a, MinimalCapacityFamily(tb) + lock, AtMostOneFamily(tb));
      SatisfiesAppend(a, MinimalCapacityFamily(tb), lock);
      SatisfiesAppend(a, CapacityFamily(tb) + lock, AtMostOneFamily(tb));
      SatisfiesAppend(a, CapacityFamily(tb), lock);
      CapacityFamilyEquivalentToMinimal(tb, a);
    }
  }

  // ---------------------------------------------------------------------------
  // The diagonal transport variables t[d, d, m]

  predicate OffDiagonal(e: LinExpr)
  {
    forall i :: 0 <= i < |e.terms| ==> !IsDiagonal(e.terms[i].v)
  }

  predicate ConstraintOffDiagonal(c: Constraint)
  {
    OffDiagonal(c.lhs) && OffDiagonal(c.rhs)
  }

  /** Two assignments that differ at most on diagonal transport variables. */
  ghost predicate AgreeOffDiagonal(a: Assignment, b: Assignment)
  {
    forall v :: !IsDiagonal(v) ==> a(v) == b(v)
  }

  lemma EvalOffDiagonal(e: LinExpr, a: Assignment, b: Assignment)
    requires OffDiagonal(e) && AgreeOffDiagonal(a, b)
    ensures Eval(e, a) == Eval(e, b)
  {
    TermsValueFrame(e.terms, a, b);
  }

  lemma CapacityOffDiagonal(tb: Tables, d: DepotId, m: MatId)
    ensures OffDiagonal(DemandExpr(tb, d, m)) && OffDiagonal(AvailableExpr(tb, d, m))
  {
    var others := Others(tb.depositos, d);
    var ts := AvailableExpr(tb, d, m).terms;
    forall i | 0 <= i < |ts| ensures !IsDiagonal(ts[i].v) {
      if i < |others| {
        assert others[i] in others;
      } else {
        assert others[i - |others|] in others;
      }
    }
  }

  predicate AllOffDiagonal(cs: seq<Constraint>)
  {
    forall i :: 0 <= i < |cs| ==> ConstraintOffDiagonal(cs[i])
  }

  lemma ConcatOffDiagonal(cs: seq<Constraint>, ds: seq<Constraint>)
    requires AllOffDiagonal(cs) && AllOffDiagonal(ds)
    ensures AllOffDiagonal(cs + ds)
  {
    forall i | 0 <= i < |cs + ds| ensures ConstraintOffDiagonal((cs + ds)[i]) {
      if i < |cs| { assert (cs + ds)[i] == cs[i]; } else { assert (cs + ds)[i] == ds[i - |cs|]; }
    }
  }

  lemma CostTermsOffDiagonal(tb: Tables)
    ensures OffDiagonal(LinExpr(MapSeq(TransportKeys(tb.depositos, tb.depositos, tb.materiais), CostTermOf(tb)), 0.0))
  {
    var keys := TransportKeys(tb.depositos, tb.depositos, tb.materiais);
    TransportKeysMembers(tb.depositos, tb.depositos, tb.materiais);
    forall i | 0 <= i < |keys| ensures keys[i].0 != keys[i].1 {
      assert keys[i] in keys;
    }
  }

  lemma ObjectiveOffDiagonal(tb: Tables)
    ensures OffDiagonal(Objective(tb))
  {
    var ws: seq<Term> := WeightTerms(tb, tb.obras);
    var cs: seq<Term> := MapSeq(TransportKeys(tb.depositos, tb.depositos, tb.materiais), CostTermOf(tb));
    WeightTermsOffDiagonal(tb, tb.obras);
    CostTermsOffDiagonal(tb);
    assert OffDiagonal(LinExpr(cs, 0.0));
    forall i | 0 <= i < |ws + cs| ensures !IsDiagonal((ws + cs)[i].v) {
      if i < |ws| {
        assert (ws + cs)[i] == ws[i] && ws[i].v.X?;
      } else {
        assert (ws + cs)[i] == cs[i - |ws|] && LinExpr(cs, 0.0).terms[i - |ws|] == cs[i - |ws|];
      }
    }
  }

  lemma AtMostOneOffDiagonal(tb: Tables)
    ensures AllOffDiagonal(AtMostOneFamily(tb))
  {
    var fam := AtMostOneFamily(tb);
    forall i | 0 <= i < |fam| ensures ConstraintOffDiagonal(fam[i]) {
      assert fam[i] == AtMostOneFamily(tb)[i];
    }
  }

  lemma ProgramOffDiagonal(tb: Tables, p: Program)
    requires forall o :: o in tb.obras ==> o in ObrasOf(tb.rows)
    requires TransportProgram(tb) == Ok(p)
    ensures OffDiagonal(p.objective)
    ensures forall i :: 0 <= i < |p.constraints| ==> ConstraintOffDiagonal(p.constraints[i])
  {
    ObjectiveOffDiagonal(tb);
    var cap, one := CapacityFamily(tb), AtMostOneFamily(tb);
    var lock := OriginLockFor(tb, tb.obras).value;
    CapacityFamilyMembers(tb);
    forall i | 0 <= i < |cap| ensures ConstraintOffDiagonal(cap[i]) {
      assert cap[i] in cap;
      CapacityOffDiagonal(tb, cap[i].name.d1, cap[i].name.m);
    }
    OriginLockOffDiagonal(tb, tb.obras);
    AtMostOneOffDiagonal(tb);
    ConcatOffDiagonal(cap, lock);
    ConcatOffDiagonal(cap + lock, one);
    assert p.constraints == cap + lock + one;
  }

  lemma {:induction false} WeightTermsOffDiagonal(tb: Tables, os: seq<ObraId>)
    ensures forall i :: 0 <= i < |WeightTerms(tb, os)| ==> WeightTerms(tb, os)[i].v.X?
  {
    if os != [] {
      WeightTermsOffDiagonal(tb, Init(os));
    }
  }

  lemma {:induction false} OriginLockOffDiagonal(tb: Tables, os: seq<ObraId>)
    requires forall o :: o in os ==> o in ObrasOf(tb.rows)
    requires OriginLockFor(tb, os).Ok?
    ensures forall i :: 0 <= i < |OriginLockFor(tb, os).value| ==> ConstraintOffDiagonal(OriginLockFor(tb, os).value[i])
  {
    if os != [] {
      var cs := OriginLockFor(tb, os).value;
      var p := OriginLockFor(tb, Init(os)).value;
      OriginLockOffDiagonal(tb, Init(os));
      forall i | 0 <= i < |cs| ensures ConstraintOffDiagonal(cs[i]) {
        if i < |p| {
          assert cs[i] == p[i];
        }
      }
    }
  }

  /** The diagonal variables t[d, d, m] are declared for every depot and
      material, but changing them changes neither the objective nor whether
      the constraints hold. */
  lemma DiagonalTransportInert(tb: Tables, p: Program, a: Assignment, b: Assignment)
    requires forall o :: o in tb.obras ==> o in ObrasOf(tb.rows)
    requires TransportProgram(tb) == Ok(p) && AgreeOffDiagonal(a, b)
    ensures forall d, m :: d in tb.depositos && m in tb.materiais ==> T(d, d, m) in p.vars
    ensures Eval(p.objective, a) == Eval(p.objective, b)
    ensures Satisfies(a, p.constraints) <==> Satisfies(b, p.constraints)
  {
    VariablesMembers(tb);
    ProgramOffDiagonal(tb, p);
    EvalOffDiagonal(p.objective, a, b);
    forall i | 0 <= i < |p.constraints| ensures Holds(p.constraints[i], a) <==> Holds(p.constraints[i], b) {
      EvalOffDiagonal(p.constraints[i].lhs, a, b);
      EvalOffDiagonal(p.constraints[i].rhs, a, b);
    }
  }
}
