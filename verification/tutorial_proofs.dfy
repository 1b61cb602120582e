/** What synthesis of the tutorial circuit produces and what a proof over it
    establishes: the exact layout, its independence from the witness (so the key
    made from the empty circuit fits every circuit), completeness for an honest
    witness, and soundness: any accepted witness computes x^2 * y^2 + c. */
module TutorialProofs {
  import opened Field
  import opened Values
  import opened Plonk
  import opened Layouts
  import opened Tutorial

  /** The value a witness gives to the cell of `column` at `row`. */
  function At(w: map<Cell, int>, column: Column, row: nat): int
  {
    Lookup(w, Cell(column, row))
  }

  /** The witness-independent part of the synthesized layout: the selectors of
      three multiplication rows and one addition row, each copy pair registered
      twice, and the two instance bindings. */
  function TutorialShape(cfg: TutorialConfig): Shape
  {
    var l, r, o := cfg.l, cfg.r, cfg.o;
    Shape(
      map[][Cell(cfg.sm, 0) := 1][Cell(cfg.so, 0) := 1]
           [Cell(cfg.sm, 1) := 1][Cell(cfg.so, 1) := 1]
           [Cell(cfg.sm, 2) := 1][Cell(cfg.so, 2) := 1]
           [Cell(cfg.sl, 3) := 1][Cell(cfg.sr, 3) := 1][Cell(cfg.so, 3) := 1],
      [ (Cell(l, 0), Cell(r, 0)), (Cell(l, 0), Cell(r, 0)),
        (Cell(l, 1), Cell(r, 1)), (Cell(l, 1), Cell(r, 1)),
        (Cell(o, 0), Cell(l, 2)), (Cell(o, 0), Cell(l, 2)),
        (Cell(o, 1), Cell(r, 2)), (Cell(o, 1), Cell(r, 2)),
        (Cell(o, 2), Cell(l, 3)), (Cell(o, 2), Cell(l, 3)) ],
      [Binding(Cell(r, 3), cfg.pi, 0), Binding(Cell(o, 3), cfg.pi, 1)],
      4)
  }

  /** The advice values: on each of the four rows, the triple of its region. */
  function TutorialAdvice(p: int, cfg: TutorialConfig, circuit: TutorialCircuit): map<Cell, Value<int>>
    requires p > 1
  {
    var x, y, c := circuit.x, circuit.y, circuit.constant;
    var t0, t1 := SquareTriple(p, x), SquareTriple(p, y);
    var t2, t3 := ProductTriple(p, x, y), SumTriple(p, x, y, c);
    map[][Cell(cfg.l, 0) := Lhs(t0)][Cell(cfg.r, 0) := Rhs(t0)][Cell(cfg.o, 0) := Out(t0)]
         [Cell(cfg.l, 1) := Lhs(t1)][Cell(cfg.r, 1) := Rhs(t1)][Cell(cfg.o, 1) := Out(t1)]
         [Cell(cfg.l, 2) := Lhs(t2)][Cell(cfg.r, 2) := Rhs(t2)][Cell(cfg.o, 2) := Out(t2)]
         [Cell(cfg.l, 3) := Lhs(t3)][Cell(cfg.r, 3) := Rhs(t3)][Cell(cfg.o, 3) := Out(t3)]
  }

  /** The layout after a region: the triple on the next row, the given selectors
      set to 1 on it, and the row handed out. */
  function Placed(lay: Layout, cfg: TutorialConfig, selectors: seq<Column>, f: Value<(int, int, int)>): Region
  {
    var row := lay.shape.rows;
    var fixed := if |selectors| == 2
      then lay.shape.fixed[Cell(selectors[0], row) := 1][Cell(selectors[1], row) := 1]
      else if |selectors| == 3
      then lay.shape.fixed[Cell(selectors[0], row) := 1][Cell(selectors[1], row) := 1][Cell(selectors[2], row) := 1]
      else lay.shape.fixed;
    var advice := lay.advice[Cell(cfg.l, row) := Lhs(f)][Cell(cfg.r, row) := Rhs(f)][Cell(cfg.o, row) := Out(f)];
    Region(Layout(lay.shape.(fixed := fixed, rows := row + 1), advice), Cell(cfg.l, row), Cell(cfg.r, row), Cell(cfg.o, row))
  }

  lemma RawMultiplyValue(env: Env, cfg: TutorialConfig, lay: Layout, f: Value<(int, int, int)>)
    requires cfg.Valid() && lay.shape.rows < env.usableRows
    ensures RawMultiply(env, cfg, lay, f) == Ok(Placed(lay, cfg, [cfg.sm, cfg.so], f))
  {
  }

  lemma RawAddValue(env: Env, cfg: TutorialConfig, lay: Layout, f: Value<(int, int, int)>)
    requires cfg.Valid() && lay.shape.rows < env.usableRows
    ensures RawAdd(env, cfg, lay, f) == Ok(Placed(lay, cfg, [cfg.sl, cfg.sr, cfg.so], f))
  {
  }

  /** A multiplication region on top of a layout whose assignments all lie on
      rows already handed out keeps every earlier assignment, copy and binding. */
  lemma RawMultiplyKeeps(env: Env, cfg: TutorialConfig, lay: Layout, f: Value<(int, int, int)>)
    requires cfg.Valid() && Fresh(lay)
    requires RawMultiply(env, cfg, lay, f).Ok?
    ensures Extends(lay, RawMultiply(env, cfg, lay, f).value.layout)
  {
    RawMultiplyValue(env, cfg, lay, f);
    var row := lay.shape.rows;
    assert Cell(cfg.sm, row) !in lay.shape.fixed && Cell(cfg.so, row) !in lay.shape.fixed;
    assert Cell(cfg.l, row) !in lay.advice && Cell(cfg.r, row) !in lay.advice && Cell(cfg.o, row) !in lay.advice;
  }

  /** The same for an addition region. */
  lemma RawAddKeeps(env: Env, cfg: TutorialConfig, lay: Layout, f: Value<(int, int, int)>)
    requires cfg.Valid() && Fresh(lay)
    requires RawAdd(env, cfg, lay, f).Ok?
    ensures Extends(lay, RawAdd(env, cfg, lay, f).value.layout)
  {
    RawAddValue(env, cfg, lay, f);
    var row := lay.shape.rows;
    assert Cell(cfg.sl, row) !in lay.shape.fixed && Cell(cfg.sr, row) !in lay.shape.fixed && Cell(cfg.so, row) !in lay.shape.fixed;
    assert Cell(cfg.l, row) !in lay.advice && Cell(cfg.r, row) !in lay.advice && Cell(cfg.o, row) !in lay.advice;
  }

  /** The layout with the pair `(a, b)` registered twice. */
  function Wired(lay: Layout, a: Cell, b: Cell): Layout
  {
    lay.(shape := lay.shape.(copies := lay.shape.copies + [(a, b), (a, b)]))
  }

  lemma CopyValue(env: Env, lay: Layout, a: Cell, b: Cell)
    requires CheckCopy(env, a.column, a.row, b.column, b.row).Ok?
    ensures Copy(env, lay, a, b) == Ok(Wired(lay, a, b))
  {
  }

  /** The region `SquareRegion` builds on `lay`. */
  function SquareStep(p: int, cfg: TutorialConfig, lay: Layout, v: Value<int>): Region
    requires p > 1
  {
    var m := Placed(lay, cfg, [cfg.sm, cfg.so], SquareTriple(p, v));
    m.(layout := Wired(m.layout, m.lhs, m.rhs))
  }

  lemma SquareRegionValue(p: int, env: Env, cfg: TutorialConfig, lay: Layout, v: Value<int>)
    requires p > 1 && cfg.Valid()
    requires lay.shape.rows < env.usableRows && EqualityEnabled(env.cs, cfg.l) && EqualityEnabled(env.cs, cfg.r)
    ensures SquareRegion(p, env, cfg, lay, v) == Ok(SquareStep(p, cfg, lay, v))
  {
    RawMultiplyValue(env, cfg, lay, SquareTriple(p, v));
    var m := Placed(lay, cfg, [cfg.sm, cfg.so], SquareTriple(p, v));
    CopyValue(env, m.layout, m.lhs, m.rhs);
  }

  /** The region `ProductRegion` builds on `lay`. */
  function ProductStep(p: int, cfg: TutorialConfig, lay: Layout, sx: Cell, sy: Cell, x: Value<int>, y: Value<int>): Region
    requires p > 1
  {
    var m := Placed(lay, cfg, [cfg.sm, cfg.so], ProductTriple(p, x, y));
    m.(layout := Wired(Wired(m.layout, sx, m.lhs), sy, m.rhs))
  }

  lemma ProductRegionValue(p: int, env: Env, cfg: TutorialConfig, lay: Layout, sx: Cell, sy: Cell, x: Value<int>, y: Value<int>)
    requires p > 1 && cfg.Valid()
    requires lay.shape.rows < env.usableRows
    requires CheckCopy(env, sx.column, sx.row, cfg.l, lay.shape.rows).Ok?
    requires CheckCopy(env, sy.column, sy.row, cfg.r, lay.shape.rows).Ok?
    ensures ProductRegion(p, env, cfg, lay, sx, sy, x, y) == Ok(ProductStep(p, cfg, lay, sx, sy, x, y))
  {
    RawMultiplyValue(env, cfg, lay, ProductTriple(p, x, y));
    var m := Placed(lay, cfg, [cfg.sm, cfg.so], ProductTriple(p, x, y));
    CopyValue(env, m.layout, sx, m.lhs);
    CopyValue(env, Wired(m.layout, sx, m.lhs), sy, m.rhs);
  }

  /** The region `SumRegion` builds on `lay`. */
  function SumStep(p: int, cfg: TutorialConfig, lay: Layout, prod: Cell, x: Value<int>, y: Value<int>, c: int): Region
    requires p > 1
  {
    var a := Placed(lay, cfg, [cfg.sl, cfg.sr, cfg.so], SumTriple(p, x, y, c));
    a.(layout := Wired(a.layout, prod, a.lhs))
  }

  lemma SumRegionValue(p: int, env: Env, cfg: TutorialConfig, lay: Layout, prod: Cell, x: Value<int>, y: Value<int>, c: int)
    requires p > 1 && cfg.Valid()
    requires lay.shape.rows < env.usableRows
    requires CheckCopy(env, prod.column, prod.row, cfg.l, lay.shape.rows).Ok?
    ensures SumRegion(p, env, cfg, lay, prod, x, y, c) == Ok(SumStep(p, cfg, lay, prod, x, y, c))
  {
    RawAddValue(env, cfg, lay, SumTriple(p, x, y, c));
    var a := Placed(lay, cfg, [cfg.sl, cfg.sr, cfg.so], SumTriple(p, x, y, c));
    CopyValue(env, a.layout, prod, a.lhs);
  }

  lemma Doubled<T>(a: T, b: T, c: T, d: T, e: T)
    ensures [] + [a, a] + [b, b] + [c, c] + [d, d] + [e, e] == [a, a, b, b, c, c, d, d, e, e]
  {
  }

  /** The region `Arithmetic` ends with: the sum region, laid out after the
      two squares and their product. */
  function ArithmeticStep(p: int, cfg: TutorialConfig, circuit: TutorialCircuit): Region
    requires p > 1
  {
    var x, y := circuit.x, circuit.y;
    var sx := SquareStep(p, cfg, EmptyLayout, x);
    var sy := SquareStep(p, cfg, sx.layout, y);
    var xy := ProductStep(p, cfg, sy.layout, sx.out, sy.out, x, y);
    SumStep(p, cfg, xy.layout, xy.out, x, y, circuit.constant)
  }

  lemma ArithmeticShape(p: int, cfg: TutorialConfig, circuit: TutorialCircuit)
    requires p > 1
    ensures var s := ArithmeticStep(p, cfg, circuit).layout.shape;
      && s.fixed == TutorialShape(cfg).fixed
      && s.copies == TutorialShape(cfg).copies
      && s.bindings == [] && s.rows == 4
  {
    var s := ArithmeticStep(p, cfg, circuit).layout.shape;
    var k0, k1 := (Cell(cfg.l, 0), Cell(cfg.r, 0)), (Cell(cfg.l, 1), Cell(cfg.r, 1));
    var k2, k3, k4 := (Cell(cfg.o, 0), Cell(cfg.l, 2)), (Cell(cfg.o, 1), Cell(cfg.r, 2)), (Cell(cfg.o, 2), Cell(cfg.l, 3));
    assert s.copies == [] + [k0, k0] + [k1, k1] + [k2, k2] + [k3, k3] + [k4, k4];
    Doubled(k0, k1, k2, k3, k4);
  }

  lemma ArithmeticCells(p: int, cfg: TutorialConfig, circuit: TutorialCircuit)
    requires p > 1
    ensures ArithmeticStep(p, cfg, circuit).layout.advice == TutorialAdvice(p, cfg, circuit)
    ensures ArithmeticStep(p, cfg, circuit).lhs == Cell(cfg.l, 3)
    ensures ArithmeticStep(p, cfg, circuit).rhs == Cell(cfg.r, 3)
    ensures ArithmeticStep(p, cfg, circuit).out == Cell(cfg.o, 3)
  {
  }

  /** The regions before the bindings: the full shape but for the bindings, the
      advice values, and the cells of the addition row. */
  lemma ArithmeticValue(p: int, env: Env, cfg: TutorialConfig, circuit: TutorialCircuit)
    requires p > 1 && cfg.Valid()
    requires 4 <= env.usableRows && EqualityReady(env.cs, cfg)
    ensures Arithmetic(p, env, cfg, circuit) ==
      Ok(Region(Layout(TutorialShape(cfg).(bindings := []), TutorialAdvice(p, cfg, circuit)),
                Cell(cfg.l, 3), Cell(cfg.r, 3), Cell(cfg.o, 3)))
  {
    var x, y, c := circuit.x, circuit.y, circuit.constant;
    var sx := SquareStep(p, cfg, EmptyLayout, x);
    SquareRegionValue(p, env, cfg, EmptyLayout, x);
    var sy := SquareStep(p, cfg, sx.layout, y);
    SquareRegionValue(p, env, cfg, sx.layout, y);
    assert Squares(p, env, cfg, x, y) == Ok((sx, sy));
    ProductRegionValue(p, env, cfg, sy.layout, sx.out, sy.out, x, y);
    var xy := ProductStep(p, cfg, sy.layout, sx.out, sy.out, x, y);
    SumRegionValue(p, env, cfg, xy.layout, xy.out, x, y, c);
    assert Arithmetic(p, env, cfg, circuit) == Ok(ArithmeticStep(p, cfg, circuit));
    ArithmeticShape(p, cfg, circuit);
    ArithmeticCells(p, cfg, circuit);
  }

  /** With four usable rows and equality on the wires and the instance column,
      synthesis produces exactly this layout. */
  lemma SynthesizeLayout(p: int, env: Env, cfg: TutorialConfig, circuit: TutorialCircuit)
    requires p > 1 && cfg.Valid()
    requires 4 <= env.usableRows && EqualityReady(env.cs, cfg)
    ensures Synthesize(p, env, cfg, circuit) == Ok(Layout(TutorialShape(cfg), TutorialAdvice(p, cfg, circuit)))
  {
    ArithmeticValue(p, env, cfg, circuit);
    var sum := Arithmetic(p, env, cfg, circuit).value;
    assert Synthesize(p, env, cfg, circuit) == Publish(env, cfg, sum);
    assert [] + [Binding(sum.rhs, cfg.pi, 0), Binding(sum.out, cfg.pi, 1)] == TutorialShape(cfg).bindings;
  }

  /** The arithmetic the four regions' gates check: three products and a sum. */
  predicate RowsHold(p: int, cfg: TutorialConfig, w: map<Cell, int>)
    requires p > 1
  {
    && Cong(p, At(w, cfg.l, 0) * At(w, cfg.r, 0), At(w, cfg.o, 0))
    && Cong(p, At(w, cfg.l, 1) * At(w, cfg.r, 1), At(w, cfg.o, 1))
    && Cong(p, At(w, cfg.l, 2) * At(w, cfg.r, 2), At(w, cfg.o, 2))
    && Cong(p, At(w, cfg.l, 3) + At(w, cfg.r, 3), At(w, cfg.o, 3))
  }

  /** The wires the copies connect hold the same element. */
  predicate WiresAgree(p: int, cfg: TutorialConfig, w: map<Cell, int>)
    requires p > 1
  {
    && Cong(p, At(w, cfg.l, 0), At(w, cfg.r, 0))
    && Cong(p, At(w, cfg.l, 1), At(w, cfg.r, 1))
    && Cong(p, At(w, cfg.o, 0), At(w, cfg.l, 2))
    && Cong(p, At(w, cfg.o, 1), At(w, cfg.r, 2))
    && Cong(p, At(w, cfg.o, 2), At(w, cfg.l, 3))
  }

  /** The public inputs supply rows 0 and 1 of the instance column, holding `a` and `b`. */
  predicate PublicIs(p: int, cfg: TutorialConfig, instances: seq<seq<int>>, a: int, b: int)
    requires p > 1
  {
    && cfg.pi.index < |instances|
    && 2 <= |instances[cfg.pi.index]|
    && Cong(p, instances[cfg.pi.index][0], a)
    && Cong(p, instances[cfg.pi.index][1], b)
  }

  /** The selector values of the synthesized layout on every row. */
  lemma ShapeSelectors(cfg: TutorialConfig, row: nat)
    requires cfg.Valid()
    ensures var f := TutorialShape(cfg).fixed;
      && (row < 3 ==> Selectors(f, cfg, row, 0, 0, 1, 1, 0))
      && (row == 3 ==> Selectors(f, cfg, row, 1, 1, 1, 0, 0))
      && (row > 3 ==> Selectors(f, cfg, row, 0, 0, 0, 0, 0))
  {
  }

  /** On four or more usable rows, the gate over the synthesized layout holds
      exactly when the four regions' arithmetic does. */
  lemma GatesOnShape(p: int, env: Env, cfg: TutorialConfig, w: map<Cell, int>)
    requires p > 1 && cfg.Valid()
    requires env.cs.gates == [MiniPlonkGate(cfg)] && 4 <= env.usableRows
    ensures GatesHold(p, env.cs, Trace(TutorialShape(cfg).fixed, w), env.usableRows) <==> RowsHold(p, cfg, w)
  {
    var t := Trace(TutorialShape(cfg).fixed, w);
    var g := MiniPlonkGate(cfg);
    ShapeSelectors(cfg, 0);
    ShapeSelectors(cfg, 1);
    ShapeSelectors(cfg, 2);
    ShapeSelectors(cfg, 3);
    MulRowGate(p, cfg, t, 0);
    MulRowGate(p, cfg, t, 1);
    MulRowGate(p, cfg, t, 2);
    AddRowGate(p, cfg, t, 3);
    if RowsHold(p, cfg, w) {
      forall k, row | 0 <= k < |env.cs.gates| && 0 <= row < env.usableRows
        ensures GateHoldsAt(p, env.cs.gates[k], t, row)
      {
        if row > 3 {
          ShapeSelectors(cfg, row);
          IdleRowGate(p, cfg, t, row);
        }
      }
    }
    if GatesHold(p, env.cs, t, env.usableRows) {
      assert env.cs.gates[0] == g;
      assert GateHoldsAt(p, g, t, 0) && GateHoldsAt(p, g, t, 1);
      assert GateHoldsAt(p, g, t, 2) && GateHoldsAt(p, g, t, 3);
    }
  }

  /** The copy constraints of the synthesized layout hold exactly when the
      connected wires agree. */
  lemma CopiesOnShape(p: int, cfg: TutorialConfig, fixed: map<Cell, int>, w: map<Cell, int>)
    requires p > 1 && cfg.Valid()
    ensures CopiesHold(p, Trace(fixed, w), TutorialShape(cfg).copies) <==> WiresAgree(p, cfg, w)
  {
    var t, cs := Trace(fixed, w), TutorialShape(cfg).copies;
    if CopiesHold(p, t, cs) {
      assert Cong(p, Read(t, cs[0].0), Read(t, cs[0].1));
      assert Cong(p, Read(t, cs[2].0), Read(t, cs[2].1));
      assert Cong(p, Read(t, cs[4].0), Read(t, cs[4].1));
      assert Cong(p, Read(t, cs[6].0), Read(t, cs[6].1));
      assert Cong(p, Read(t, cs[8].0), Read(t, cs[8].1));
    }
  }

  /** The instance bindings of the synthesized layout hold exactly when rows 0
      and 1 of the instance column hold the `r` and `o` values of the addition row. */
  lemma BindingsOnShape(p: int, cfg: TutorialConfig, fixed: map<Cell, int>, w: map<Cell, int>, instances: seq<seq<int>>)
    requires p > 1 && cfg.Valid()
    ensures BindingsHold(p, Trace(fixed, w), TutorialShape(cfg).bindings, instances)
            <==> PublicIs(p, cfg, instances, At(w, cfg.r, 3), At(w, cfg.o, 3))
  {
    var t, bs := Trace(fixed, w), TutorialShape(cfg).bindings;
    if BindingsHold(p, t, bs, instances) {
      assert bs[0].instance.index < |instances| && bs[0].row < |instances[bs[0].instance.index]|;
      assert bs[1].row < |instances[bs[1].instance.index]|;
      assert Cong(p, Read(t, bs[0].cell), instances[bs[0].instance.index][bs[0].row]);
      assert Cong(p, Read(t, bs[1].cell), instances[bs[1].instance.index][bs[1].row]);
    }
  }

  /** Proving and verifying against the synthesized layout check the regions'
      arithmetic, the copies and the public inputs, and nothing else. */
  lemma SatisfiedOnShape(p: int, env: Env, cfg: TutorialConfig, w: map<Cell, int>, instances: seq<seq<int>>)
    requires p > 1 && cfg.Valid()
    requires env.cs.gates == [MiniPlonkGate(cfg)] && 4 <= env.usableRows
    ensures Satisfied(p, env, TutorialShape(cfg), w, instances) <==>
      && RowsHold(p, cfg, w)
      && WiresAgree(p, cfg, w)
      && PublicIs(p, cfg, instances, At(w, cfg.r, 3), At(w, cfg.o, 3))
  {
    GatesOnShape(p, env, cfg, w);
    CopiesOnShape(p, cfg, TutorialShape(cfg).fixed, w);
    BindingsOnShape(p, cfg, TutorialShape(cfg).fixed, w, instances);
  }

  /** The same twelve cells are assigned whatever the witness. */
  lemma AdviceKeys(p: int, cfg: TutorialConfig, c1: TutorialCircuit, c2: TutorialCircuit)
    requires p > 1
    ensures TutorialAdvice(p, cfg, c1).Keys == TutorialAdvice(p, cfg, c2).Keys
  {
  }

  /** Without witnesses every advice value is unknown. */
  lemma EmptyAdvice(p: int, cfg: TutorialConfig, circuit: TutorialCircuit)
    requires p > 1
    ensures var w := TutorialAdvice(p, cfg, WithoutWitnesses(circuit));
      && (forall c :: c in w ==> w[c] == Unknown)
      && Collect(w) == Unknown
  {
    var w := TutorialAdvice(p, cfg, WithoutWitnesses(circuit));
    assert Cell(cfg.l, 0) in w;
  }

  /** Synthesis succeeds or fails regardless of the witness, and when it
      succeeds the shape, hence the key, and the set of assigned cells are the
      same for every witness. */
  lemma ShapeIndependent(p: int, env: Env, cfg: TutorialConfig, c1: TutorialCircuit, c2: TutorialCircuit)
    requires p > 1 && cfg.Valid()
    ensures Synthesize(p, env, cfg, c1).Ok? == Synthesize(p, env, cfg, c2).Ok?
    ensures Synthesize(p, env, cfg, c1).Ok? ==>
      && Synthesize(p, env, cfg, c1).value.shape == Synthesize(p, env, cfg, c2).value.shape
      && Synthesize(p, env, cfg, c1).value.advice.Keys == Synthesize(p, env, cfg, c2).value.advice.Keys
  {
    if 4 <= env.usableRows && EqualityReady(env.cs, cfg) {
      SynthesizeLayout(p, env, cfg, c1);
      SynthesizeLayout(p, env, cfg, c2);
      AdviceKeys(p, cfg, c1, c2);
    }
  }

  /** Synthesizing the default circuit `without_witnesses` returns gives the
      layout of every circuit, with all advice values unknown. */
  lemma KeyFromEmptyCircuit(p: int, env: Env, cfg: TutorialConfig, circuit: TutorialCircuit)
    requires p > 1 && cfg.Valid()
    ensures var empty := Synthesize(p, env, cfg, WithoutWitnesses(circuit));
      && empty.Ok? == Synthesize(p, env, cfg, circuit).Ok?
      && (empty.Ok? ==>
            && empty.value.shape == Synthesize(p, env, cfg, circuit).value.shape
            && (forall c :: c in empty.value.advice ==> empty.value.advice[c] == Unknown)
            && Collect(empty.value.advice) == Unknown)
  {
    ShapeIndependent(p, env, cfg, WithoutWitnesses(circuit), circuit);
    if 4 <= env.usableRows && EqualityReady(env.cs, cfg) {
      SynthesizeLayout(p, env, cfg, WithoutWitnesses(circuit));
      EmptyAdvice(p, cfg, circuit);
    }
  }

  /** The advice values synthesis assigns for known inputs. */
  lemma HonestWitness(p: int, cfg: TutorialConfig, x: int, y: int, c: int)
    requires p > 1 && cfg.Valid()
    ensures var v := Collect(TutorialAdvice(p, cfg, TutorialCircuit(Known(x), Known(y), c)));
      && v.Known?
      && At(v.v, cfg.l, 0) == x && At(v.v, cfg.r, 0) == x && At(v.v, cfg.o, 0) == Mul(p, x, x)
      && At(v.v, cfg.l, 1) == y && At(v.v, cfg.r, 1) == y && At(v.v, cfg.o, 1) == Mul(p, y, y)
      && At(v.v, cfg.l, 2) == Mul(p, x, x) && At(v.v, cfg.r, 2) == Mul(p, y, y) && At(v.v, cfg.o, 2) == Xxyy(p, x, y)
      && At(v.v, cfg.l, 3) == Xxyy(p, x, y) && At(v.v, cfg.r, 3) == c && At(v.v, cfg.o, 3) == Add(p, Xxyy(p, x, y), c)
  {
  }

  /** The field product x * x * y * y agrees with the integer one. */
  lemma XxyyIsProduct(p: int, x: int, y: int)
    requires p > 1
    ensures Cong(p, Xxyy(p, x, y), x * x * y * y)
    ensures Cong(p, Mul(p, x, x) * Mul(p, y, y), x * x * y * y)
  {
    var xx, yy := Mul(p, x, x), Mul(p, y, y);
    ModCanonical(p, xx);
    ModCanonical(p, yy);
    ModCanonical(p, Mul(p, xx, y));
    ModCanonical(p, Xxyy(p, x, y));
    CongMul(p, xx, x * x, y, y);
    CongMul(p, Mul(p, xx, y), x * x * y, y, y);
    CongMul(p, xx, x * x, yy, y * y);
    assert x * x * (y * y) == x * x * y * y;
  }

  /** The honest witness for known inputs satisfies the synthesized layout
      exactly when the public inputs are the constant and x * x * y * y + c. */
  lemma HonestOnShape(p: int, env: Env, cfg: TutorialConfig, x: int, y: int, c: int, instances: seq<seq<int>>)
    requires p > 1 && cfg.Valid()
    requires env.cs.gates == [MiniPlonkGate(cfg)] && 4 <= env.usableRows
    ensures var v := Collect(TutorialAdvice(p, cfg, TutorialCircuit(Known(x), Known(y), c)));
      && v.Known?
      && (Satisfied(p, env, TutorialShape(cfg), v.v, instances) <==> PublicIs(p, cfg, instances, c, x * x * y * y + c))
  {
    HonestWitness(p, cfg, x, y, c);
    var w := Collect(TutorialAdvice(p, cfg, TutorialCircuit(Known(x), Known(y), c))).v;
    SatisfiedOnShape(p, env, cfg, w, instances);
    XxyyIsProduct(p, x, y);
    var xx, yy, xxyy := Mul(p, x, x), Mul(p, y, y), Xxyy(p, x, y);
    ModCanonical(p, xx);
    ModCanonical(p, yy);
    ModCanonical(p, xxyy);
    ModCanonical(p, Add(p, xxyy, c));
    assert RowsHold(p, cfg, w);
    assert Cong(p, Add(p, xxyy, c), x * x * y * y + c) by {
      CongAdd(p, xxyy, x * x * y * y, c, c);
    }
  }

  /** For known inputs the honest witness satisfies the circuit exactly when the
      public inputs are the constant and x * x * y * y + c. */
  lemma Completeness(p: int, env: Env, cfg: TutorialConfig, x: int, y: int, c: int, instances: seq<seq<int>>)
    requires p > 1 && cfg.Valid()
    requires env.cs.gates == [MiniPlonkGate(cfg)] && 4 <= env.usableRows && EqualityReady(env.cs, cfg)
    ensures var r := Synthesize(p, env, cfg, TutorialCircuit(Known(x), Known(y), c));
      r.Ok? && Collect(r.value.advice).Known?
    ensures var lay := Synthesize(p, env, cfg, TutorialCircuit(Known(x), Known(y), c)).value;
      Satisfied(p, env, lay.shape, Collect(lay.advice).v, instances) <==> PublicIs(p, cfg, instances, c, x * x * y * y + c)
  {
    SynthesizeLayout(p, env, cfg, TutorialCircuit(Known(x), Known(y), c));
    HonestOnShape(p, env, cfg, x, y, c, instances);
  }

  /** Any witness satisfying the synthesized layout makes the second public
      input x * x * y * y plus the first, x and y read from the `l` cells of
      rows 0 and 1. */
  lemma SoundOnShape(p: int, env: Env, cfg: TutorialConfig, w: map<Cell, int>, instances: seq<seq<int>>)
    requires p > 1 && cfg.Valid()
    requires env.cs.gates == [MiniPlonkGate(cfg)] && 4 <= env.usableRows
    requires Satisfied(p, env, TutorialShape(cfg), w, instances)
    ensures cfg.pi.index < |instances| && 2 <= |instances[cfg.pi.index]|
    ensures var x, y, pub := At(w, cfg.l, 0), At(w, cfg.l, 1), instances[cfg.pi.index];
      Cong(p, pub[1], x * x * y * y + pub[0])
  {
    SatisfiedOnShape(p, env, cfg, w, instances);
    var pub := instances[cfg.pi.index];
    var x, y := At(w, cfg.l, 0), At(w, cfg.l, 1);
    var r0, o0 := At(w, cfg.r, 0), At(w, cfg.o, 0);
    var r1, o1 := At(w, cfg.r, 1), At(w, cfg.o, 1);
    var l2, r2, o2 := At(w, cfg.l, 2), At(w, cfg.r, 2), At(w, cfg.o, 2);
    var l3, r3, o3 := At(w, cfg.l, 3), At(w, cfg.r, 3), At(w, cfg.o, 3);
    CongMul(p, x, x, r0, x);
    CongMul(p, y, y, r1, y);
    assert Cong(p, l2, x * x);
    assert Cong(p, r2, y * y);
    CongMul(p, l2, x * x, r2, y * y);
    assert x * x * (y * y) == x * x * y * y;
    assert Cong(p, l3, x * x * y * y);
    CongAdd(p, l3, x * x * y * y, r3, pub[0]);
  }

  /** Any witness the verifier accepts against the layout synthesis produces
      (for any circuit, so in particular for the key's empty circuit) computes
      the circuit: the second public input is x * x * y * y plus the first. */
  lemma Soundness(p: int, env: Env, cfg: TutorialConfig, circuit: TutorialCircuit, w: map<Cell, int>, instances: seq<seq<int>>)
    requires p > 1 && cfg.Valid()
    requires env.cs.gates == [MiniPlonkGate(cfg)]
    requires Synthesize(p, env, cfg, circuit).Ok?
    requires Satisfied(p, env, Synthesize(p, env, cfg, circuit).value.shape, w, instances)
    ensures cfg.pi.index < |instances| && 2 <= |instances[cfg.pi.index]|
    ensures var x, y, pub := At(w, cfg.l, 0), At(w, cfg.l, 1), instances[cfg.pi.index];
      Cong(p, pub[1], x * x * y * y + pub[0])
  {
    SynthesizeLayout(p, env, cfg, circuit);
    SoundOnShape(p, env, cfg, w, instances);
  }

  /** The scenario of the `tutorial_prover` test: with x = 5, y = 9 and constant 7 in a field
      larger than 2032, the honest witness is accepted with public inputs 7 and
      z exactly when z = 25 * 81 + 7 = 2032. */
  lemma TutorialScenario(p: int, usableRows: nat, z: int)
    requires p > 2032 && 4 <= usableRows
    ensures var r := Synthesize(p, Env(System(), usableRows), Config(), TutorialCircuit(Known(5), Known(9), 7));
      r.Ok? && Collect(r.value.advice).Known?
    ensures var env := Env(System(), usableRows);
      var lay := Synthesize(p, env, Config(), TutorialCircuit(Known(5), Known(9), 7)).value;
      Satisfied(p, env, lay.shape, Collect(lay.advice).v, [[7, z]]) <==> Cong(p, z, 2032)
    ensures var env := Env(System(), usableRows);
      var lay := Synthesize(p, env, Config(), TutorialCircuit(Known(5), Known(9), 7)).value;
      0 <= z < p ==> (Satisfied(p, env, lay.shape, Collect(lay.advice).v, [[7, z]]) <==> z == 2032)
  {
    var env, cfg := Env(System(), usableRows), Config();
    assert cfg.pi.index == 0 && EqualityReady(env.cs, cfg);
    Completeness(p, env, cfg, 5, 9, 7, [[7, z]]);
    ModCanonical(p, 2032);
    if 0 <= z < p {
      ModCanonical(p, z);
    }
  }
}
