/** Shared vocabulary of the three scripts: the clean input records, the
    pandas idioms they rely on (unique(), filtering, groupby(...).first(),
    sorted group keys) and sums over sequences of reals. */
module Common {

  type ObraId = int
  type DepotId = int
  type MatId = int

  /** One row of the projects sheet: OBRA, COD_MAT, COD_DEP, PESO, QTD_PEND,
      ATEND_OBRA, with decimals already normalised. */
  datatype ObraRow = ObraRow(obra: ObraId, mat: MatId, dep: DepotId, peso: real, qtdPend: real, atend: int)

  /** One row of the stock sheet: COD_DEP, COD_MAT, ESTOQ_DPST. */
  datatype StockRow = StockRow(dep: DepotId, mat: MatId, estoque: real)

  datatype Option<T> = None | Some(value: T)

  datatype Result<T, E> = Ok(value: T) | Err(error: E)

  predicate Distinct<T(==)>(xs: seq<T>)
  {
    forall i, j :: 0 <= i < j < |xs| ==> xs[i] != xs[j]
  }

  // ---------------------------------------------------------------------------
  // Sequence helpers

  function Last<T>(xs: seq<T>): T
    requires xs != []
  {
    xs[|xs| - 1]
  }

  function Init<T>(xs: seq<T>): seq<T>
    requires xs != []
  {
    xs[..|xs| - 1]
  }

  lemma InitAppend<T>(xs: seq<T>, x: T)
    ensures Init(xs + [x]) == xs && Last(xs + [x]) == x
  {
    assert (xs + [x])[..|xs|] == xs;
  }

  lemma PrefixStep<T>(xs: seq<T>, i: nat)
    requires i < |xs|
    ensures xs[..i + 1] != [] && Init(xs[..i + 1]) == xs[..i] && Last(xs[..i + 1]) == xs[i]
  {
    assert xs[..i + 1][..i] == xs[..i];
  }

  function MapSeq<A, B>(xs: seq<A>, f: A -> B): (r: seq<B>)
    ensures |r| == |xs|
    ensures forall i :: 0 <= i < |xs| ==> r[i] == f(xs[i])
  {
    seq(|xs|, i requires 0 <= i < |xs| => f(xs[i]))
  }

  lemma MapSeqSnoc<A, B>(xs: seq<A>, x: A, f: A -> B)
    ensures MapSeq(xs + [x], f) == MapSeq(xs, f) + [f(x)]
  {
  }

  lemma MapSeqAppend<A, B>(xs: seq<A>, ys: seq<A>, f: A -> B)
    ensures MapSeq(xs + ys, f) == MapSeq(xs, f) + MapSeq(ys, f)
  {
  }

  lemma MapSeqStep<A, B>(xs: seq<A>, i: nat, f: A -> B)
    requires i < |xs|
    ensures MapSeq(xs[..i + 1], f) == MapSeq(xs[..i], f) + [f(xs[i])]
  {
  }

  /** The elements of `xs` that satisfy `p`, in order: boolean-mask filtering. */
  function Filter<T(==, !new)>(xs: seq<T>, p: T -> bool): (r: seq<T>)
    ensures |r| <= |xs|
    ensures forall x :: x in r <==> x in xs && p(x)
  {
    if xs == [] then []
    else
      var r' := Filter(Init(xs), p);
      assert forall x :: x in xs <==> x in Init(xs) || x == Last(xs) by {
        assert xs == Init(xs) + [Last(xs)];
      }
      if p(Last(xs)) then r' + [Last(xs)] else r'
  }

  lemma {:induction false} FilterDistinct<T(!new)>(xs: seq<T>, p: T -> bool)
    requires Distinct(xs)
    ensures Distinct(Filter(xs, p))
  {
    if xs != [] {
      FilterDistinct(Init(xs), p);
      assert Last(xs) !in Init(xs);
    }
  }

  /** A mask that keeps every row keeps the sequence as it is. */
  lemma {:induction false} FilterAll<T(!new)>(xs: seq<T>, p: T -> bool)
    requires forall x :: x in xs ==> p(x)
    ensures Filter(xs, p) == xs
  {
    if xs != [] {
      assert xs == Init(xs) + [Last(xs)];
      FilterAll(Init(xs), p);
    }
  }

  /** A mask that keeps no row gives the empty sequence. */
  lemma {:induction false} FilterNone<T(!new)>(xs: seq<T>, p: T -> bool)
    requires forall x :: x in xs ==> !p(x)
    ensures Filter(xs, p) == []
  {
    if xs != [] {
      assert Last(xs) in xs;
      FilterNone(Init(xs), p);
    }
  }

  /** Masking two sheets stacked one over the other masks each of them. */
  lemma {:induction false} FilterAppend<T(!new)>(xs: seq<T>, ys: seq<T>, p: T -> bool)
    ensures Filter(xs + ys, p) == Filter(xs, p) + Filter(ys, p)
    decreases |ys|
  {
    if ys == [] {
      assert xs + ys == xs;
    } else {
      assert Init(xs + ys) == xs + Init(ys) && Last(xs + ys) == Last(ys);
      FilterAppend(xs, Init(ys), p);
    }
  }

  /** pandas' unique(): the distinct values in order of first appearance. */
  function Unique<T(==, !new)>(xs: seq<T>): (u: seq<T>)
    ensures Distinct(u)
    ensures forall x :: x in u <==> x in xs
    ensures |u| <= |xs|
  {
    if xs == [] then []
    else
      var u' := Unique(Init(xs));
      assert forall x :: x in xs <==> x in Init(xs) || x == Last(xs) by {
        assert xs == Init(xs) + [Last(xs)];
      }
      if Last(xs) in u' then u' else u' + [Last(xs)]
  }

  /** Index of the first occurrence of `x` in `xs`, or |xs| when absent. */
  function IndexOf<T(==)>(xs: seq<T>, x: T): (i: nat)
    ensures i <= |xs|
    ensures i < |xs| ==> xs[i] == x
    ensures forall j :: 0 <= j < i ==> xs[j] != x
    ensures x in xs ==> i < |xs|
  {
    if xs == [] then 0 else if xs[0] == x then 0 else 1 + IndexOf(xs[1..], x)
  }

  lemma {:induction false} IndexOfPrefix<T>(xs: seq<T>, n: nat, x: T)
    requires n <= |xs| && x in xs[..n]
    ensures IndexOf(xs[..n], x) == IndexOf(xs, x)
  {
    if xs[0] != x {
      assert xs[..n][1..] == xs[1..][..n - 1];
      IndexOfPrefix(xs[1..], n - 1, x);
    }
  }

  /** unique() keeps the order of first appearance: earlier entries of the
      result first occur earlier in the input. */
  lemma {:induction false} UniqueFirstAppearance<T(!new)>(xs: seq<T>)
    ensures forall i, j :: 0 <= i < j < |Unique(xs)| ==>
              IndexOf(xs, Unique(xs)[i]) < IndexOf(xs, Unique(xs)[j])
  {
    if xs != [] {
      var p := Init(xs);
      UniqueFirstAppearance(p);
      var u := Unique(xs);
      assert xs[..|p|] == p;
      forall k | 0 <= k < |Unique(p)|
        ensures IndexOf(xs, Unique(p)[k]) == IndexOf(p, Unique(p)[k])
      {
        IndexOfPrefix(xs, |p|, Unique(p)[k]);
      }
      if Last(xs) !in Unique(p) {
        assert IndexOf(xs, Last(xs)) == |p|;
      }
    }
  }

  /** The depots in `ds` other than `d`, in order: `for d2 in ds if d2 != d`. */
  function Others(ds: seq<DepotId>, d: DepotId): (r: seq<DepotId>)
    ensures forall x :: x in r <==> x in ds && x != d
  {
    Filter(ds, (x: DepotId) => x != d)
  }

  lemma {:induction false} OthersCount(ds: seq<DepotId>, d: DepotId)
    requires Distinct(ds)
    ensures Distinct(Others(ds, d))
    ensures |Others(ds, d)| == if d in ds then |ds| - 1 else |ds|
  {
    FilterDistinct(ds, (x: DepotId) => x != d);
    if ds != [] {
      OthersCount(Init(ds), d);
      assert Last(ds) !in Init(ds);
      assert ds == Init(ds) + [Last(ds)];
    }
  }

  // ---------------------------------------------------------------------------
  // Sorted distinct keys: the index that groupby and pivot produce

  predicate StrictlySorted(xs: seq<int>)
  {
    forall i, j :: 0 <= i < j < |xs| ==> xs[i] < xs[j]
  }

  function InsertSorted(x: int, s: seq<int>): (r: seq<int>)
    requires StrictlySorted(s)
    ensures StrictlySorted(r)
    ensures forall y :: y in r <==> y == x || y in s
  {
    if s == [] then [x]
    else if x < s[0] then [x] + s
    else if x == s[0] then s
    else
      var r' := InsertSorted(x, s[1..]);
      assert forall y :: y in s <==> y == s[0] || y in s[1..] by {
        assert s == [s[0]] + s[1..];
      }
      assert forall k :: 0 <= k < |r'| ==> s[0] < r'[k] by {
        forall k | 0 <= k < |r'| ensures s[0] < r'[k] {
          assert r'[k] in r';
        }
      }
      [s[0]] + r'
  }

  /** The group keys of a groupby (or the index of a pivot): the distinct
      values, in increasing order. */
  function SortedKeys(xs: seq<int>): (r: seq<int>)
    ensures StrictlySorted(r)
    ensures forall y :: y in r <==> y in xs
  {
    if xs == [] then []
    else
      assert forall x :: x in xs <==> x in Init(xs) || x == Last(xs) by {
        assert xs == Init(xs) + [Last(xs)];
      }
      InsertSorted(Last(xs), SortedKeys(Init(xs)))
  }

  lemma SortedIsDistinct(xs: seq<int>)
    requires StrictlySorted(xs)
    ensures Distinct(xs)
  {
  }

  lemma SortedTail(xs: seq<int>)
    requires StrictlySorted(xs) && xs != []
    ensures StrictlySorted(xs[1..])
    ensures forall z :: z in xs[1..] <==> z in xs && z != xs[0]
  {
    var tail := xs[1..];
    forall z | z in xs && z != xs[0] ensures z in tail {
      var i :| 0 <= i < |xs| && xs[i] == z;
      assert tail[i - 1] == z;
    }
    forall z | z in tail ensures z in xs && z != xs[0] {
      var i :| 0 <= i < |tail| && tail[i] == z;
      assert xs[i + 1] == z;
    }
  }

  /** Two strictly sorted sequences with the same elements are equal. */
  lemma {:induction false} SortedUniqueness(xs: seq<int>, ys: seq<int>)
    requires StrictlySorted(xs) && StrictlySorted(ys)
    requires forall z :: z in xs <==> z in ys
    ensures xs == ys
  {
    if xs != [] { assert xs[0] in xs; }
    if ys != [] { assert ys[0] in ys; }
    if xs != [] && ys != [] {
      var k :| 0 <= k < |ys| && ys[k] == xs[0];
      var l :| 0 <= l < |xs| && xs[l] == ys[0];
      assert xs[0] <= xs[l] && ys[0] <= ys[k];
      assert xs[0] == ys[0];
      SortedTail(xs);
      SortedTail(ys);
      SortedUniqueness(xs[1..], ys[1..]);
      assert xs == [xs[0]] + xs[1..];
      assert ys == [ys[0]] + ys[1..];
    }
  }

  // ---------------------------------------------------------------------------
  // Rows and the per-obra "first row" lookups

  function ObrasOf(rows: seq<ObraRow>): seq<ObraId>
  {
    MapSeq(rows, (r: ObraRow) => r.obra)
  }

  lemma ObrasOfSubset(xs: seq<ObraRow>, ys: seq<ObraRow>)
    requires forall r :: r in xs ==> r in ys
    ensures forall o :: o in ObrasOf(xs) ==> o in ObrasOf(ys)
  {
    forall o | o in ObrasOf(xs) ensures o in ObrasOf(ys) {
      var k :| 0 <= k < |xs| && ObrasOf(xs)[k] == o;
      assert xs[k] in ys;
      var j :| 0 <= j < |ys| && ys[j] == xs[k];
      assert ObrasOf(ys)[j] == o;
    }
  }
  /** The rows whose COD_DEP is `d`: `df_obras[df_obras['COD_DEP'] == d]`. */
  function RowsAt(rows: seq<ObraRow>, d: DepotId): (r: seq<ObraRow>)
    ensures forall x :: x in r <==> x in rows && x.dep == d
  {
    Filter(rows, AtDepot(d))
  }

  function AtDepot(d: DepotId): ObraRow -> bool
  {
    (x: ObraRow) => x.dep == d
  }

  function DepOf(r: ObraRow): DepotId
  {
    r.dep
  }

  /** The depots of the obras, in order of first appearance:
      `df_obras['COD_DEP'].unique()`. */
  function DepotIds(rows: seq<ObraRow>): seq<DepotId>
  {
    Unique(MapSeq(rows, DepOf))
  }

  /** Position of the first row of obra `o`, or |rows| when there is none. */
  function FirstRowIndex(rows: seq<ObraRow>, o: ObraId): (i: nat)
    ensures i <= |rows|
    ensures i < |rows| ==> rows[i].obra == o
    ensures forall j :: 0 <= j < i ==> rows[j].obra != o
  {
    if rows == [] then 0 else if rows[0].obra == o then 0 else 1 + FirstRowIndex(rows[1..], o)
  }

  lemma FirstRowExists(rows: seq<ObraRow>, o: ObraId)
    requires o in ObrasOf(rows)
    ensures FirstRowIndex(rows, o) < |rows|
  {
    var k :| 0 <= k < |rows| && ObrasOf(rows)[k] == o;
    assert rows[k].obra == o;
  }

  /** The PESO of an obra's first row: `groupby('OBRA')['PESO'].first()`. An
      obra without rows never occurs; it reads as 0. */
  function FirstPeso(rows: seq<ObraRow>, o: ObraId): real
  {
    var i := FirstRowIndex(rows, o);
    if i < |rows| then rows[i].peso else 0.0
  }

  /** Number of distinct OBRA among `rows`: `nunique()`. */
  function NumDistinctObras(rows: seq<ObraRow>): nat
  {
    |Unique(ObrasOf(rows))|
  }

  /** Sum of the first PESO of every distinct OBRA among `rows`:
      `groupby('OBRA')['PESO'].first().sum()`. */
  function SomaPrioridades(rows: seq<ObraRow>): real
  {
    Sum(Unique(ObrasOf(rows)), FirstPesoIn(rows))
  }

  function FirstPesoIn(rows: seq<ObraRow>): ObraId -> real
  {
    (o: ObraId) => FirstPeso(rows, o)
  }

  predicate NonNegativeWeights(rows: seq<ObraRow>)
  {
    forall i :: 0 <= i < |rows| ==> rows[i].peso >= 0.0
  }

  lemma FirstPesoNonNegative(rows: seq<ObraRow>, o: ObraId)
    requires NonNegativeWeights(rows)
    ensures FirstPeso(rows, o) >= 0.0
  {
  }

  /** When the first row of `o` in `rows` survives a filter, the filtered rows
      have that same row first. */
  lemma {:induction false} FirstRowOfFilter(rows: seq<ObraRow>, p: ObraRow -> bool, o: ObraId)
    requires FirstRowIndex(rows, o) < |rows| && p(rows[FirstRowIndex(rows, o)])
    ensures FirstRowIndex(Filter(rows, p), o) < |Filter(rows, p)|
    ensures Filter(rows, p)[FirstRowIndex(Filter(rows, p), o)] == rows[FirstRowIndex(rows, o)]
  {
    var f := Filter(rows, p);
    var i := FirstRowIndex(rows, o);
    FilterShape(rows, p, i);
    var k := |Filter(rows[..i], p)|;
    assert f[k] == rows[i];
    forall j | 0 <= j < k ensures f[j].obra != o {
      assert f[j] in Filter(rows[..i], p);
      assert f[j] in rows[..i];
    }
    FirstRowIndexAt(f, o, k);
  }

  lemma {:induction false} FilterShape<T(!new)>(xs: seq<T>, p: T -> bool, i: nat)
    requires i < |xs| && p(xs[i])
    ensures |Filter(xs[..i], p)| < |Filter(xs, p)|
    ensures Filter(xs, p)[..|Filter(xs[..i], p)|] == Filter(xs[..i], p)
    ensures Filter(xs, p)[|Filter(xs[..i], p)|] == xs[i]
    decreases |xs|
  {
    PrefixStep(xs, i);
    FilterPrefix(xs, i + 1, p);
    var all, before, upTo := Filter(xs, p), Filter(xs[..i], p), Filter(xs[..i + 1], p);
    assert upTo == before + [xs[i]];
    assert all[..|upTo|] == upTo;
    assert all[..|before|] == upTo[..|before|];
  }

  lemma PrefixOfPrefix<T>(a: seq<T>, b: seq<T>, c: seq<T>)
    requires |b| <= |a| && a[..|b|] == b
    requires |c| <= |b| && b[..|c|] == c
    ensures a[..|c|] == c
  {
    assert a[..|c|] == a[..|b|][..|c|];
  }

  /** Filtering a prefix gives a prefix of the filtered sequence. */
  lemma {:induction false} FilterPrefix<T(!new)>(xs: seq<T>, n: nat, p: T -> bool)
    requires n <= |xs|
    ensures |Filter(xs[..n], p)| <= |Filter(xs, p)|
    ensures Filter(xs, p)[..|Filter(xs[..n], p)|] == Filter(xs[..n], p)
    decreases |xs|
  {
    if n == |xs| {
      assert xs[..n] == xs;
    } else {
      var init := Init(xs);
      FilterPrefix(init, n, p);
      assert init[..n] == xs[..n];
      var all, inner, pre := Filter(xs, p), Filter(init, p), Filter(xs[..n], p);
      assert |inner| <= |all| && all[..|inner|] == inner;
      PrefixOfPrefix(all, inner, pre);
    }
  }

  lemma FirstRowIndexAt(rows: seq<ObraRow>, o: ObraId, k: nat)
    requires k < |rows| && rows[k].obra == o
    requires forall j :: 0 <= j < k ==> rows[j].obra != o
    ensures FirstRowIndex(rows, o) == k
  {
  }

  // ---------------------------------------------------------------------------
  // Sums of reals over sequences (Python's sum and Gurobi's quicksum)

  function Sum<T>(xs: seq<T>, f: T -> real): real
  {
    if xs == [] then 0.0 else Sum(Init(xs), f) + f(Last(xs))
  }

  lemma SumStep<T>(xs: seq<T>, i: nat, f: T -> real)
    requires i < |xs|
    ensures Sum(xs[..i + 1], f) == Sum(xs[..i], f) + f(xs[i])
  {
    PrefixStep(xs, i);
  }

  lemma {:induction false} SumMapSeq<A, B>(xs: seq<A>, f: A -> B, g: B -> real, h: A -> real)
    requires forall x :: x in xs ==> h(x) == g(f(x))
    ensures Sum(MapSeq(xs, f), g) == Sum(xs, h)
  {
    if xs != [] {
      assert Init(MapSeq(xs, f)) == MapSeq(Init(xs), f);
      SumMapSeq(Init(xs), f, g, h);
    }
  }

  lemma SumSnoc<T>(xs: seq<T>, x: T, f: T -> real)
    ensures Sum(xs + [x], f) == Sum(xs, f) + f(x)
  {
    InitAppend(xs, x);
  }

  lemma {:induction false} SumAppend<T>(xs: seq<T>, ys: seq<T>, f: T -> real)
    ensures Sum(xs + ys, f) == Sum(xs, f) + Sum(ys, f)
    decreases |ys|
  {
    if ys == [] {
      assert xs + ys == xs;
    } else {
      assert Init(xs + ys) == xs + Init(ys);
      SumAppend(xs, Init(ys), f);
    }
  }

  lemma {:induction false} SumExt<T>(xs: seq<T>, f: T -> real, g: T -> real)
    requires forall x :: x in xs ==> f(x) == g(x)
    ensures Sum(xs, f) == Sum(xs, g)
  {
    if xs != [] {
      SumExt(Init(xs), f, g);
    }
  }

  lemma {:induction false} SumAdd<T>(xs: seq<T>, f: T -> real, g: T -> real, h: T -> real)
    requires forall x :: x in xs ==> h(x) == f(x) + g(x)
    ensures Sum(xs, h) == Sum(xs, f) + Sum(xs, g)
  {
    if xs != [] {
      SumAdd(Init(xs), f, g, h);
    }
  }

  lemma {:induction false} SumNeg<T>(xs: seq<T>, f: T -> real, g: T -> real)
    requires forall x :: x in xs ==> g(x) == -f(x)
    ensures Sum(xs, g) == -Sum(xs, f)
  {
    if xs != [] {
      SumNeg(Init(xs), f, g);
    }
  }

  lemma {:induction false} SumScale<T>(xs: seq<T>, f: T -> real, g: T -> real, c: real)
    requires forall x :: x in xs ==> g(x) == c * f(x)
    ensures Sum(xs, g) == c * Sum(xs, f)
  {
    if xs != [] {
      SumScale(Init(xs), f, g, c);
      assert Sum(xs, g) == c * Sum(Init(xs), f) + c * f(Last(xs));
    }
  }

  lemma {:induction false} SumNonNegative<T>(xs: seq<T>, f: T -> real)
    requires forall x :: x in xs ==> f(x) >= 0.0
    ensures Sum(xs, f) >= 0.0
  {
    if xs != [] {
      SumNonNegative(Init(xs), f);
    }
  }

  lemma {:induction false} SumLe<T>(xs: seq<T>, f: T -> real, g: T -> real)
    requires forall x :: x in xs ==> f(x) <= g(x)
    ensures Sum(xs, f) <= Sum(xs, g)
  {
    if xs != [] {
      SumLe(Init(xs), f, g);
    }
  }

  lemma {:induction false} SumRemoveAt<T>(xs: seq<T>, k: nat, f: T -> real)
    requires k < |xs|
    ensures Sum(xs, f) == Sum(xs[..k] + xs[k + 1..], f) + f(xs[k])
  {
    var a, x, b := xs[..k], xs[k], xs[k + 1..];
    var ax := a + [x];
    assert xs == ax + b;
    SumAppend(ax, b, f);
    SumSnoc(a, x, f);
    SumAppend(a, b, f);
  }

  lemma RemoveAtDistinct<T>(ys: seq<T>, k: nat)
    requires Distinct(ys) && k < |ys|
    ensures Distinct(ys[..k] + ys[k + 1..])
    ensures forall z :: z in ys[..k] + ys[k + 1..] <==> z in ys && z != ys[k]
  {
    var r := ys[..k] + ys[k + 1..];
    forall i, j | 0 <= i < j < |r| ensures r[i] != r[j] {
      var i' := if i < k then i else i + 1;
      var j' := if j < k then j else j + 1;
      assert r[i] == ys[i'] && r[j] == ys[j'];
    }
    forall z ensures z in r <==> z in ys && z != ys[k] {
      if z in ys && z != ys[k] {
        var m :| 0 <= m < |ys| && ys[m] == z;
        if m < k { assert r[m] == z; } else { assert r[m - 1] == z; }
      }
    }
  }

  /** Over distinct sequences with non-negative terms, a sum over a subset is
      at most the sum over the superset. */
  lemma {:induction false} SumSubsetLe<T>(xs: seq<T>, ys: seq<T>, f: T -> real)
    requires Distinct(xs) && Distinct(ys)
    requires forall x :: x in xs ==> x in ys
    requires forall y :: y in ys ==> f(y) >= 0.0
    ensures Sum(xs, f) <= Sum(ys, f)
    ensures |xs| <= |ys|
    decreases |xs|
  {
    if xs == [] {
      SumNonNegative(ys, f);
    } else {
      var x := Last(xs);
      assert x in xs;
      var k :| 0 <= k < |ys| && ys[k] == x;
      var ys' := ys[..k] + ys[k + 1..];
      RemoveAtDistinct(ys, k);
      assert xs == Init(xs) + [x];
      forall z | z in Init(xs) ensures z in ys' {
        var i :| 0 <= i < |Init(xs)| && Init(xs)[i] == z;
        assert xs[i] == z && z in xs;
      }
      SumSubsetLe(Init(xs), ys', f);
      SumRemoveAt(ys, k, f);
    }
  }

  /** Two distinct sequences with the same elements have the same sum. */
  lemma {:induction false} SumSameElements<T>(xs: seq<T>, ys: seq<T>, f: T -> real)
    requires Distinct(xs) && Distinct(ys)
    requires forall z :: z in xs <==> z in ys
    ensures Sum(xs, f) == Sum(ys, f)
    decreases |xs|
  {
    if ys != [] { assert ys[0] in ys; }
    if xs != [] {
      var x := Last(xs);
      assert x in xs;
      var k :| 0 <= k < |ys| && ys[k] == x;
      var ys' := ys[..k] + ys[k + 1..];
      RemoveAtDistinct(ys, k);
      assert xs == Init(xs) + [x];
      forall z ensures z in Init(xs) <==> z in ys' {
        if z in Init(xs) {
          var i :| 0 <= i < |Init(xs)| && Init(xs)[i] == z;
          assert xs[i] == z && z in xs;
          assert xs[|xs| - 1] == x;
        }
        if z in ys' {
          assert z in xs && z != x;
        }
      }
      SumSameElements(Init(xs), ys', f);
      SumRemoveAt(ys, k, f);
    }
  }

  /** A sum over a distinct sequence whose only non-zero term is at `x0`. */
  lemma {:induction false} SumSingleTerm<T>(xs: seq<T>, x0: T, f: T -> real)
    requires Distinct(xs) && x0 in xs
    requires forall x :: x in xs && x != x0 ==> f(x) == 0.0
    ensures Sum(xs, f) == f(x0)
  {
    var k :| 0 <= k < |xs| && xs[k] == x0;
    RemoveAtDistinct(xs, k);
    SumRemoveAt(xs, k, f);
    SumZero(xs[..k] + xs[k + 1..], f);
  }

  lemma {:induction false} SumZero<T>(xs: seq<T>, f: T -> real)
    requires forall x :: x in xs ==> f(x) == 0.0
    ensures Sum(xs, f) == 0.0
  {
    if xs != [] {
      SumZero(Init(xs), f);
    }
  }

  /** Exchange of the order of summation of a double sum. */
  function Curry<A, B>(f: (A, B) -> real, x: A): B -> real
  {
    (y: B) => f(x, y)
  }

  function CurryRight<A, B>(f: (A, B) -> real, y: B): A -> real
  {
    (x: A) => f(x, y)
  }

  /** x |-> Σ_{y in ys} f(x, y) */
  function RowSums<A, B>(ys: seq<B>, f: (A, B) -> real): A -> real
  {
    (x: A) => Sum(ys, Curry(f, x))
  }

  /** y |-> Σ_{x in xs} f(x, y) */
  function ColumnSums<A, B>(xs: seq<A>, f: (A, B) -> real): B -> real
  {
    (y: B) => Sum(xs, CurryRight(f, y))
  }

  /** A double sum can be taken in either order. */
  lemma {:induction false} SumSwap<A, B>(xs: seq<A>, ys: seq<B>, f: (A, B) -> real)
    ensures Sum(xs, RowSums(ys, f)) == Sum(ys, ColumnSums(xs, f))
  {
    if xs == [] {
      SumZero(ys, ColumnSums(xs, f));
    } else {
      var p, x := Init(xs), Last(xs);
      SumSwap(p, ys, f);
      SumAdd(ys, ColumnSums(p, f), Curry(f, x), ColumnSums(xs, f));
    }
  }
}
