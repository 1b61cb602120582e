/** The constraint system a circuit declares at configuration time: typed columns,
    the columns with equality enabled (the permutation argument's columns), and
    gates, each a list of polynomial expressions that must vanish on every row.
    Expressions query columns at the current row and are evaluated over a trace. */
module Plonk {
  import opened Field

  datatype ColumnKind = Advice | Fixed | Instance

  /** A column handle: its kind and its index among the columns of that kind. */
  datatype Column = Column(kind: ColumnKind, index: nat)

  /** One position of the grid. */
  datatype Cell = Cell(column: Column, row: nat)

  /** Polynomial expressions over column queries at the current row. */
  datatype Expr =
    | Query(column: Column)
    | Sum(left: Expr, right: Expr)
    | Product(left: Expr, right: Expr)
    | Scaled(e: Expr, factor: int)

  datatype Gate = Gate(name: string, polys: seq<Expr>)

  datatype ConstraintSystem = ConstraintSystem(
    numAdvice: nat,
    numFixed: nat,
    numInstance: nat,
    permutation: seq<Column>,
    gates: seq<Gate>)

  const EmptySystem := ConstraintSystem(0, 0, 0, [], [])

  /** Number of columns of the given kind allocated so far. */
  function Count(cs: ConstraintSystem, kind: ColumnKind): nat
  {
    match kind
    case Advice => cs.numAdvice
    case Fixed => cs.numFixed
    case Instance => cs.numInstance
  }

  predicate Allocated(cs: ConstraintSystem, c: Column)
  {
    c.index < Count(cs, c.kind)
  }

  /** Allocates a fresh column of the given kind, as `advice_column`,
      `fixed_column` and `instance_column` do. */
  function NewColumn(cs: ConstraintSystem, kind: ColumnKind): (r: (ConstraintSystem, Column))
    ensures r.1.kind == kind
    ensures !Allocated(cs, r.1) && Allocated(r.0, r.1)
    ensures forall c :: Allocated(r.0, c) <==> Allocated(cs, c) || c == r.1
    ensures r.0.permutation == cs.permutation && r.0.gates == cs.gates
  {
    var c := Column(kind, Count(cs, kind));
    match kind
    case Advice => (cs.(numAdvice := cs.numAdvice + 1), c)
    case Fixed => (cs.(numFixed := cs.numFixed + 1), c)
    case Instance => (cs.(numInstance := cs.numInstance + 1), c)
  }

  predicate EqualityEnabled(cs: ConstraintSystem, c: Column)
  {
    c in cs.permutation
  }

  predicate NoDuplicates<T(==)>(s: seq<T>)
  {
    forall i, j :: 0 <= i < j < |s| ==> s[i] != s[j]
  }

  /** Adds a column to the permutation argument unless it is already there. */
  function EnableEquality(cs: ConstraintSystem, c: Column): (r: ConstraintSystem)
    ensures forall d :: EqualityEnabled(r, d) <==> EqualityEnabled(cs, d) || d == c
    ensures NoDuplicates(cs.permutation) ==> NoDuplicates(r.permutation)
    ensures r.(permutation := cs.permutation) == cs
  {
    if c in cs.permutation then cs else cs.(permutation := cs.permutation + [c])
  }

  /** Enabling equality twice on a column is the same as enabling it once. */
  lemma EnableEqualityIdempotent(cs: ConstraintSystem, c: Column)
    ensures EnableEquality(EnableEquality(cs, c), c) == EnableEquality(cs, c)
  {
  }

  /** Registers a gate; a gate must hold at least one constraint. */
  function CreateGate(cs: ConstraintSystem, name: string, polys: seq<Expr>): (r: ConstraintSystem)
    requires |polys| > 0
    ensures |r.gates| == |cs.gates| + 1 && r.gates[..|cs.gates|] == cs.gates
    ensures r.gates[|cs.gates|] == Gate(name, polys)
    ensures r.(gates := cs.gates) == cs
  {
    cs.(gates := cs.gates + [Gate(name, polys)])
  }

  /** Fixed and advice values of a trace; cells never assigned read as 0. */
  datatype Trace = Trace(fixed: map<Cell, int>, advice: map<Cell, int>)

  function Lookup(m: map<Cell, int>, c: Cell): int
  {
    if c in m then m[c] else 0
  }

  /** The value a query of `c` sees; gates here never query instance columns. */
  function Read(t: Trace, c: Cell): int
  {
    match c.column.kind
    case Fixed => Lookup(t.fixed, c)
    case Advice => Lookup(t.advice, c)
    case Instance => 0
  }

  /** The exact integer value of an expression at a row. */
  function EvalInt(e: Expr, t: Trace, row: nat): int
  {
    match e
    case Query(c) => Read(t, Cell(c, row))
    case Sum(a, b) => EvalInt(a, t, row) + EvalInt(b, t, row)
    case Product(a, b) => EvalInt(a, t, row) * EvalInt(b, t, row)
    case Scaled(a, k) => EvalInt(a, t, row) * k
  }

  /** The value of an expression at a row, computed in the field. */
  function Eval(p: int, e: Expr, t: Trace, row: nat): (r: int)
    requires p > 1
    ensures 0 <= r < p
  {
    match e
    case Query(c) => Read(t, Cell(c, row)) % p
    case Sum(a, b) => Add(p, Eval(p, a, t, row), Eval(p, b, t, row))
    case Product(a, b) => Mul(p, Eval(p, a, t, row), Eval(p, b, t, row))
    case Scaled(a, k) => Mul(p, Eval(p, a, t, row), k % p)
  }

  lemma AddReduces(p: int, x: int, y: int, X: int, Y: int)
    requires p > 1 && x == X % p && y == Y % p
    ensures Add(p, x, y) == (X + Y) % p
  {
    ModAdd(p, X, Y);
  }

  lemma MulReduces(p: int, x: int, y: int, X: int, Y: int)
    requires p > 1 && x == X % p && y == Y % p
    ensures Mul(p, x, y) == (X * Y) % p
  {
    ModMul(p, X, Y);
  }

  /** Evaluating in the field gives the integer value reduced modulo p. */
  lemma {:induction false} EvalReduces(p: int, e: Expr, t: Trace, row: nat)
    requires p > 1
    ensures Eval(p, e, t, row) == EvalInt(e, t, row) % p
  {
    match e
    case Query(c) =>
    case Sum(a, b) =>
      EvalReduces(p, a, t, row);
      EvalReduces(p, b, t, row);
      AddReduces(p, Eval(p, a, t, row), Eval(p, b, t, row), EvalInt(a, t, row), EvalInt(b, t, row));
    case Product(a, b) =>
      EvalReduces(p, a, t, row);
      EvalReduces(p, b, t, row);
      MulReduces(p, Eval(p, a, t, row), Eval(p, b, t, row), EvalInt(a, t, row), EvalInt(b, t, row));
    case Scaled(a, k) =>
      EvalReduces(p, a, t, row);
      MulReduces(p, Eval(p, a, t, row), k % p, EvalInt(a, t, row), k);
  }

  /** Every constraint of the gate is zero at the row. */
  predicate GateHoldsAt(p: int, g: Gate, t: Trace, row: nat)
    requires p > 1
  {
    forall k :: 0 <= k < |g.polys| ==> Eval(p, g.polys[k], t, row) == 0
  }

  /** Every gate of the system holds on each of the first `n` rows. */
  predicate GatesHold(p: int, cs: ConstraintSystem, t: Trace, n: nat)
    requires p > 1
  {
    forall g, row :: 0 <= g < |cs.gates| && 0 <= row < n ==> GateHoldsAt(p, cs.gates[g], t, row)
  }
}
