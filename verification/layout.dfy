/** The region assigner's state while a circuit is synthesized: fixed values and
    row allocation (the part a key fixes), the copy constraints and instance bindings
    registered, and the advice values, which may be unknown. The satisfaction
    predicate at the end states what proving and verification enforce on it. */
module Layouts {
  import opened Field
  import opened Values
  import opened Plonk

  datatype Error =
    | NotEnoughRowsAvailable
    | ColumnNotInPermutation(column: Column)

  datatype Result<T> = Ok(value: T) | Err(error: Error) {
    predicate IsFailure() {
      Err?
    }

    /** Carries the error on. `:-` applies it only to an `Err`; the `Ok` branch
        exists so that the function needs no precondition, and its value is
        never observed. */
    function PropagateFailure<U>(): Result<U>
    {
      match this
      case Err(e) => Err(e)
      case Ok(_) => Err(NotEnoughRowsAvailable)
    }

    function Extract(): T
      requires Ok?
    {
      value
    }
  }

  /** `cell` must equal row `row` of the instance column `instance`. */
  datatype Binding = Binding(cell: Cell, instance: Column, row: nat)

  /** Everything synthesis decides that does not depend on the witness:
      fixed values, copy pairs in registration order, instance bindings,
      and the number of rows handed out to regions so far. */
  datatype Shape = Shape(
    fixed: map<Cell, int>,
    copies: seq<(Cell, Cell)>,
    bindings: seq<Binding>,
    rows: nat)

  datatype Layout = Layout(shape: Shape, advice: map<Cell, Value<int>>)

  /** The configured constraint system and the number of usable rows of the grid. */
  datatype Env = Env(cs: ConstraintSystem, usableRows: nat)

  const EmptyLayout := Layout(Shape(map[], [], [], 0), map[])

  /** Every assigned cell lies on a row already handed out, so rows from
      `shape.rows` on are untouched. */
  predicate Fresh(lay: Layout)
  {
    && (forall c :: c in lay.shape.fixed ==> c.row < lay.shape.rows)
    && (forall c :: c in lay.advice ==> c.row < lay.shape.rows)
  }

  /** Every copy pair and every binding involves only equality-enabled columns. */
  predicate WiringEnabled(cs: ConstraintSystem, s: Shape)
  {
    && (forall i :: 0 <= i < |s.copies| ==>
          EqualityEnabled(cs, s.copies[i].0.column) && EqualityEnabled(cs, s.copies[i].1.column))
    && (forall i :: 0 <= i < |s.bindings| ==>
          EqualityEnabled(cs, s.bindings[i].cell.column) && EqualityEnabled(cs, s.bindings[i].instance))
  }

  /** Places `v` in an advice cell; rows past the usable ones are refused. */
  function AssignAdvice(env: Env, lay: Layout, column: Column, row: nat, v: Value<int>): (r: Result<Layout>)
    requires column.kind == Advice
    ensures r.Ok? <==> row < env.usableRows
    ensures r.Err? ==> r.error == NotEnoughRowsAvailable
    ensures r.Ok? ==> r.value.shape == lay.shape
    ensures r.Ok? ==> Cell(column, row) in r.value.advice && r.value.advice[Cell(column, row)] == v
    ensures r.Ok? ==> r.value.advice - {Cell(column, row)} == lay.advice - {Cell(column, row)}
  {
    if row < env.usableRows then
      Ok(lay.(advice := lay.advice[Cell(column, row) := v]))
    else
      Err(NotEnoughRowsAvailable)
  }

  /** Places `v` in a fixed cell; rows past the usable ones are refused. */
  function AssignFixed(env: Env, lay: Layout, column: Column, row: nat, v: int): (r: Result<Layout>)
    requires column.kind == Fixed
    ensures r.Ok? <==> row < env.usableRows
    ensures r.Err? ==> r.error == NotEnoughRowsAvailable
    ensures r.Ok? ==> r.value.advice == lay.advice
    ensures r.Ok? ==> r.value.shape.(fixed := lay.shape.fixed) == lay.shape
    ensures r.Ok? ==> Cell(column, row) in r.value.shape.fixed && r.value.shape.fixed[Cell(column, row)] == v
    ensures r.Ok? ==> r.value.shape.fixed - {Cell(column, row)} == lay.shape.fixed - {Cell(column, row)}
  {
    if row < env.usableRows then
      Ok(lay.(shape := lay.shape.(fixed := lay.shape.fixed[Cell(column, row) := v])))
    else
      Err(NotEnoughRowsAvailable)
  }

  /** The checks of the permutation argument's `copy`: both rows usable, then
      both columns equality-enabled, left first. */
  function CheckCopy(env: Env, a: Column, aRow: nat, b: Column, bRow: nat): (r: Result<()>)
    ensures r.Ok? <==> aRow < env.usableRows && bRow < env.usableRows
                       && EqualityEnabled(env.cs, a) && EqualityEnabled(env.cs, b)
    ensures r.Err? && (aRow >= env.usableRows || bRow >= env.usableRows) ==> r.error == NotEnoughRowsAvailable
    ensures r.Err? && aRow < env.usableRows && bRow < env.usableRows ==>
              r.error == ColumnNotInPermutation(if EqualityEnabled(env.cs, a) then b else a)
  {
    if !(aRow < env.usableRows && bRow < env.usableRows) then Err(NotEnoughRowsAvailable)
    else if !EqualityEnabled(env.cs, a) then Err(ColumnNotInPermutation(a))
    else if !EqualityEnabled(env.cs, b) then Err(ColumnNotInPermutation(b))
    else Ok(())
  }

  /** Records that cells `a` and `b` must hold the same value. */
  function ConstrainEqual(env: Env, lay: Layout, a: Cell, b: Cell): (r: Result<Layout>)
    ensures r.Ok? <==> CheckCopy(env, a.column, a.row, b.column, b.row).Ok?
    ensures r.Err? ==> r.error == CheckCopy(env, a.column, a.row, b.column, b.row).error
    ensures r.Ok? ==> r.value.advice == lay.advice
    ensures r.Ok? ==> r.value.shape.(copies := lay.shape.copies) == lay.shape
    ensures r.Ok? ==> r.value.shape.copies == lay.shape.copies + [(a, b)]
    ensures r.Ok? && WiringEnabled(env.cs, lay.shape) ==> WiringEnabled(env.cs, r.value.shape)
  {
    var _ :- CheckCopy(env, a.column, a.row, b.column, b.row);
    Ok(lay.(shape := lay.shape.(copies := lay.shape.copies + [(a, b)])))
  }

  /** Records that `cell` must equal row `row` of the instance column `instance`. */
  function ConstrainInstance(env: Env, lay: Layout, cell: Cell, instance: Column, row: nat): (r: Result<Layout>)
    requires instance.kind == Instance
    ensures r.Ok? <==> CheckCopy(env, cell.column, cell.row, instance, row).Ok?
    ensures r.Err? ==> r.error == CheckCopy(env, cell.column, cell.row, instance, row).error
    ensures r.Ok? ==> r.value.advice == lay.advice
    ensures r.Ok? ==> r.value.shape.(bindings := lay.shape.bindings) == lay.shape
    ensures r.Ok? ==> r.value.shape.bindings == lay.shape.bindings + [Binding(cell, instance, row)]
    ensures r.Ok? && WiringEnabled(env.cs, lay.shape) ==> WiringEnabled(env.cs, r.value.shape)
  {
    var _ :- CheckCopy(env, cell.column, cell.row, instance, row);
    Ok(lay.(shape := lay.shape.(bindings := lay.shape.bindings + [Binding(cell, instance, row)])))
  }

  /** The concrete witness, available only when every assigned value is known. */
  function Collect(w: map<Cell, Value<int>>): (r: Value<map<Cell, int>>)
    ensures r.Known? <==> forall c :: c in w ==> w[c].Known?
    ensures r.Known? ==> r.v.Keys == w.Keys && forall c :: c in w ==> r.v[c] == w[c].v
  {
    if forall c :: c in w ==> w[c].Known? then Known(map c | c in w :: w[c].v) else Unknown
  }

  /** Copy-constrained cells hold the same field element. */
  predicate CopiesHold(p: int, t: Trace, copies: seq<(Cell, Cell)>)
    requires p > 1
  {
    forall i :: 0 <= i < |copies| ==> Cong(p, Read(t, copies[i].0), Read(t, copies[i].1))
  }

  /** Each bound cell equals the supplied public input it is bound to; a binding
      past the end of the supplied vector is not met. */
  predicate BindingsHold(p: int, t: Trace, bindings: seq<Binding>, instances: seq<seq<int>>)
    requires p > 1
  {
    forall i :: 0 <= i < |bindings| ==>
      && bindings[i].instance.index < |instances|
      && bindings[i].row < |instances[bindings[i].instance.index]|
      && Cong(p, Read(t, bindings[i].cell), instances[bindings[i].instance.index][bindings[i].row])
  }

  /** What proving and verifying enforce: with the key's fixed values and the
      prover's advice values, every gate vanishes on every usable row, every copy
      pair agrees and every binding matches the public inputs. */
  predicate Satisfied(p: int, env: Env, shape: Shape, advice: map<Cell, int>, instances: seq<seq<int>>)
    requires p > 1
  {
    var t := Trace(shape.fixed, advice);
    && GatesHold(p, env.cs, t, env.usableRows)
    && CopiesHold(p, t, shape.copies)
    && BindingsHold(p, t, shape.bindings, instances)
  }
}
