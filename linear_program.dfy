/** The program description the scripts hand to the MILP solver: variables,
    a linear objective to maximise and a list of named linear constraints,
    together with the meaning of "an assignment satisfies the constraints".
    The solver itself is an uninterpreted oracle from programs to results. */
module LinearProgram {
  import opened Common

  /** x[obra, d] and t[d1, d2, m] of the transport model; x[i] of a per-depot knapsack. */
  datatype Var = X(obra: ObraId, dep: DepotId) | T(from: DepotId, to: DepotId, mat: MatId) | Item(index: nat)

  /** x variables are GRB.BINARY; t variables are GRB.CONTINUOUS with Gurobi's default lower bound 0. */
  predicate IsBinary(v: Var)
  {
    !v.T?
  }

  /** A transport variable from a depot to itself. */
  predicate IsDiagonal(v: Var)
  {
    v.T? && v.from == v.to
  }

  /** Constraint names, as the scripts format them. */
  datatype Name =
    | Capacity(d1: DepotId, d2: DepotId, m: MatId)   // Restricao_Unificada_{d1}_{d2}_{m}
    | AllocateAtOrigin(obra: ObraId, dep: DepotId)  // Alocacao_Obra_{obra}_{d}
    | NoAllocation(obra: ObraId, dep: DepotId)      // Sem_Alocacao_Obra_{obra}_{d}
    | AtMostOne(obra: ObraId)                       // Obra_{obra}
    | Material(t: nat)                              // Material_{t}
    | CapacityAt(dep: DepotId, m: MatId)            // one inequality per (depot, material)

  datatype Term = Term(coef: real, v: Var)

  datatype LinExpr = LinExpr(terms: seq<Term>, constant: real)

  datatype Sense = Le | Eq

  datatype Constraint = Constraint(name: Name, lhs: LinExpr, sense: Sense, rhs: LinExpr)

  /** A program to maximise. */
  datatype Program = Program(vars: seq<Var>, objective: LinExpr, constraints: seq<Constraint>)

  /** Values of the variables, as read back through `.x`. */
  type Assignment = Var -> real

  /** What `model.optimize()` leaves behind: the status and, on GRB.OPTIMAL,
      objVal and the variable values. */
  datatype SolveResult = Optimal(objVal: real, values: Assignment) | NotOptimal(status: int)

  type Solver = Program -> SolveResult

  function TermValue(a: Assignment): Term -> real
  {
    (t: Term) => t.coef * a(t.v)
  }

  function TermsValue(ts: seq<Term>, a: Assignment): real
  {
    Sum(ts, TermValue(a))
  }

  function Eval(e: LinExpr, a: Assignment): real
  {
    TermsValue(e.terms, a) + e.constant
  }

  predicate Holds(c: Constraint, a: Assignment)
  {
    match c.sense
    case Le => Eval(c.lhs, a) <= Eval(c.rhs, a)
    case Eq => Eval(c.lhs, a) == Eval(c.rhs, a)
  }

  predicate Satisfies(a: Assignment, cs: seq<Constraint>)
  {
    forall i :: 0 <= i < |cs| ==> Holds(cs[i], a)
  }

  /** Binary variables take 0 or 1 and continuous ones are non-negative. */
  predicate InDomain(a: Assignment, vs: seq<Var>)
  {
    forall i :: 0 <= i < |vs| ==>
      if IsBinary(vs[i]) then a(vs[i]) == 0.0 || a(vs[i]) == 1.0 else a(vs[i]) >= 0.0
  }

  predicate Feasible(a: Assignment, p: Program)
  {
    InDomain(a, p.vars) && Satisfies(a, p.constraints)
  }

  // ---------------------------------------------------------------------------

  lemma SatisfiesAppend(a: Assignment, cs: seq<Constraint>, ds: seq<Constraint>)
    ensures Satisfies(a, cs + ds) <==> Satisfies(a, cs) && Satisfies(a, ds)
  {
    if Satisfies(a, cs) && Satisfies(a, ds) {
      forall i | 0 <= i < |cs + ds| ensures Holds((cs + ds)[i], a) {
        if i >= |cs| { assert (cs + ds)[i] == ds[i - |cs|]; }
      }
    }
    if Satisfies(a, cs + ds) {
      forall i | 0 <= i < |ds| ensures Holds(ds[i], a) {
        assert (cs + ds)[i + |cs|] == ds[i];
      }
      forall i | 0 <= i < |cs| ensures Holds(cs[i], a) {
        assert (cs + ds)[i] == cs[i];
      }
    }
  }

  lemma SatisfiesMember(a: Assignment, cs: seq<Constraint>, c: Constraint)
    requires Satisfies(a, cs) && c in cs
    ensures Holds(c, a)
  {
  }

  lemma {:induction false} TermsValueAppend(ts: seq<Term>, us: seq<Term>, a: Assignment)
    ensures TermsValue(ts + us, a) == TermsValue(ts, a) + TermsValue(us, a)
  {
    SumAppend(ts, us, TermValue(a));
  }

  /** The value of a term list built as `coef(x) * var(x)` for each `x` of `xs`
      is the sum over `xs` of any `h` that agrees with it pointwise. */
  lemma {:induction false} TermsValueMap<A>(xs: seq<A>, g: A -> Term, a: Assignment, h: A -> real)
    requires forall x :: x in xs ==> h(x) == g(x).coef * a(g(x).v)
    ensures TermsValue(MapSeq(xs, g), a) == Sum(xs, h)
  {
    if xs != [] {
      var n := |xs| - 1;
      assert Init(MapSeq(xs, g)) == MapSeq(Init(xs), g);
      TermsValueMap(Init(xs), g, a, h);
    }
  }

  /** Two assignments that agree on every variable of a term list give it the same value. */
  lemma {:induction false} TermsValueFrame(ts: seq<Term>, a: Assignment, b: Assignment)
    requires forall i :: 0 <= i < |ts| ==> a(ts[i].v) == b(ts[i].v)
    ensures TermsValue(ts, a) == TermsValue(ts, b)
  {
    forall t | t in ts ensures TermValue(a)(t) == TermValue(b)(t) {
      var i :| 0 <= i < |ts| && ts[i] == t;
    }
    SumExt(ts, TermValue(a), TermValue(b));
  }
}
