/** A solver-independent linear constraint system over symbolic variables:
    sparse rows of real coefficients, per-variable domains and bounds, pinned
    (fixed) variables and a linear objective. `Satisfies` says when an
    assignment of reals to variables is a feasible point. */
module Lp {
  import opened Wrappers

  /** The relation between a row's left-hand side and its right-hand side. */
  datatype Rel = Eq | Le | Ge

  /** `coef * v` */
  datatype Term<V> = Term(coef: real, v: V)

  /** `sum of terms  rel  rhs` */
  datatype Row<V> = Row(terms: seq<Term<V>>, rel: Rel, rhs: real)

  /** The set a variable ranges over before its bounds apply. */
  datatype Domain = Reals | NonNegativeReals

  /** A declared variable: its domain and its optional lower and upper bound. */
  datatype VarDecl = VarDecl(domain: Domain, lo: Option<real>, hi: Option<real>)

  /** Declared variables, constraint rows keyed by name, pinned variables and
      the objective (to be minimised). */
  datatype System<V(==), R(==)> = System(
    vars: map<V, VarDecl>,
    rows: map<R, Row<V>>,
    pins: map<V, real>,
    objective: seq<Term<V>>)

  function Value<V>(t: Term<V>, x: V -> real): real {
    t.coef * x(t.v)
  }

  /** The value of a linear expression under the assignment `x`. */
  function Eval<V>(ts: seq<Term<V>>, x: V -> real): real {
    if |ts| == 0 then 0.0 else Value(ts[0], x) + Eval(ts[1..], x)
  }

  predicate Holds<V>(row: Row<V>, x: V -> real) {
    var lhs := Eval(row.terms, x);
    match row.rel
    case Eq => lhs == row.rhs
    case Le => lhs <= row.rhs
    case Ge => lhs >= row.rhs
  }

  predicate InDomain(d: Domain, a: real) {
    d == NonNegativeReals ==> a >= 0.0
  }

  predicate WithinDecl(d: VarDecl, a: real) {
    && InDomain(d.domain, a)
    && (d.lo.Some? ==> d.lo.value <= a)
    && (d.hi.Some? ==> a <= d.hi.value)
  }

  /** `x` is a feasible point of `s`: every pinned variable has its pinned
      value, every other declared variable lies in its domain and bounds, and
      every row holds. A pinned variable is a constant of the problem, so its
      declared domain and bounds no longer constrain it. */
  predicate Satisfies<V(==), R(==)>(x: V -> real, s: System<V, R>) {
    && (forall v | v in s.vars && v !in s.pins :: WithinDecl(s.vars[v], x(v)))
    && (forall r | r in s.rows :: Holds(s.rows[r], x))
    && (forall v | v in s.pins :: x(v) == s.pins[v])
  }

  /** `s` declares `v` with domain and bounds `d`. */
  predicate Declares<V(==), R(==)>(s: System<V, R>, v: V, d: VarDecl) {
    v in s.vars && s.vars[v] == d
  }

  /** The total coefficient of `v` in the expression `ts`. */
  function Coefficient<V(==)>(ts: seq<Term<V>>, v: V): real {
    if |ts| == 0 then 0.0
    else (if ts[0].v == v then ts[0].coef else 0.0) + Coefficient(ts[1..], v)
  }

  function ObjectiveValue<V(==), R(==)>(s: System<V, R>, x: V -> real): real {
    Eval(s.objective, x)
  }

  lemma EvalCons<V>(t: Term<V>, ts: seq<Term<V>>, x: V -> real)
    ensures Eval([t] + ts, x) == Value(t, x) + Eval(ts, x)
  {
    assert ([t] + ts)[1..] == ts;
  }

  /** Evaluation distributes over concatenation of expressions. */
  lemma {:induction false} EvalAppend<V>(a: seq<Term<V>>, b: seq<Term<V>>, x: V -> real)
    ensures Eval(a + b, x) == Eval(a, x) + Eval(b, x)
    decreases |a|
  {
    if |a| == 0 {
      assert a + b == b;
    } else {
      assert (a + b)[1..] == a[1..] + b;
      EvalAppend(a[1..], b, x);
    }
  }

  lemma {:induction false} CoefficientAppend<V>(a: seq<Term<V>>, b: seq<Term<V>>, v: V)
    ensures Coefficient(a + b, v) == Coefficient(a, v) + Coefficient(b, v)
    decreases |a|
  {
    if |a| == 0 {
      assert a + b == b;
    } else {
      assert (a + b)[1..] == a[1..] + b;
      CoefficientAppend(a[1..], b, v);
    }
  }

  lemma CoefficientSingle<V>(a: Term<V>, v: V)
    ensures Coefficient([a], v) == if a.v == v then a.coef else 0.0
  {
    assert [a][1..] == [];
  }

  lemma CoefficientPair<V>(a: Term<V>, b: Term<V>, v: V)
    ensures Coefficient([a, b], v) == (if a.v == v then a.coef else 0.0) + (if b.v == v then b.coef else 0.0)
  {
    CoefficientAppend([a], [b], v);
    CoefficientSingle(a, v);
    CoefficientSingle(b, v);
    assert [a] + [b] == [a, b];
  }

  lemma Eval1<V>(a: Term<V>, x: V -> real)
    ensures Eval([a], x) == Value(a, x)
  {
    EvalCons(a, [], x);
    assert [a] + [] == [a];
  }

  lemma Eval2<V>(a: Term<V>, b: Term<V>, x: V -> real)
    ensures Eval([a, b], x) == Value(a, x) + Value(b, x)
  {
    Eval1(b, x);
    EvalCons(a, [b], x);
    assert [a] + [b] == [a, b];
  }

  lemma Eval3<V>(a: Term<V>, b: Term<V>, c: Term<V>, x: V -> real)
    ensures Eval([a, b, c], x) == Value(a, x) + Value(b, x) + Value(c, x)
  {
    Eval2(b, c, x);
    EvalCons(a, [b, c], x);
    assert [a] + [b, c] == [a, b, c];
  }

  lemma Eval4<V>(a: Term<V>, b: Term<V>, c: Term<V>, d: Term<V>, x: V -> real)
    ensures Eval([a, b, c, d], x) == Value(a, x) + Value(b, x) + Value(c, x) + Value(d, x)
  {
    Eval3(b, c, d, x);
    EvalCons(a, [b, c, d], x);
    assert [a] + [b, c, d] == [a, b, c, d];
  }

  lemma Eval5<V>(a: Term<V>, b: Term<V>, c: Term<V>, d: Term<V>, e: Term<V>, x: V -> real)
    ensures Eval([a, b, c, d, e], x) == Value(a, x) + Value(b, x) + Value(c, x) + Value(d, x) + Value(e, x)
  {
    Eval4(b, c, d, e, x);
    EvalCons(a, [b, c, d, e], x);
    assert [a] + [b, c, d, e] == [a, b, c, d, e];
  }

  /** A feasible point takes every pinned variable's pinned value. */
  lemma PinHolds<V, R>(x: V -> real, s: System<V, R>, v: V)
    requires Satisfies(x, s) && v in s.pins
    ensures x(v) == s.pins[v]
  {
  }
}
