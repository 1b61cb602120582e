/** The tutorial's "mini PLONK" circuit: three advice wires `l, r, o`, five fixed
    selectors and one instance column, a single selector-driven gate, the chip's
    region helpers, and the synthesis of x^2 * y^2 + c with `c` and the result
    exposed as public inputs. */
module Tutorial {
  import opened Field
  import opened Values
  import opened Plonk
  import opened Layouts

  /** The columns of the circuit. */
  datatype TutorialConfig = TutorialConfig(
    l: Column, r: Column, o: Column,
    sl: Column, sr: Column, so: Column, sm: Column, sc: Column,
    pi: Column)
  {
    /** Advice wires, selectors and the instance column have the kinds their
        handles are typed with, and no two wires or selectors coincide. */
    predicate Valid()
    {
      && l.kind == Advice && r.kind == Advice && o.kind == Advice
      && l != r && l != o && r != o
      && sl.kind == Fixed && sr.kind == Fixed && so.kind == Fixed && sm.kind == Fixed && sc.kind == Fixed
      && sl != sr && sl != so && sl != sm && sl != sc
      && sr != so && sr != sm && sr != sc
      && so != sm && so != sc
      && sm != sc
      && pi.kind == Instance
    }
  }

  /** The gate's one constraint, l*sl + r*sr + l*r*sm + o*so*(-1) + sc, all
      queried at the current row. */
  function MiniPlonk(cfg: TutorialConfig): Expr
  {
    var l, r, o := Query(cfg.l), Query(cfg.r), Query(cfg.o);
    Sum(Sum(Sum(Sum(Product(l, Query(cfg.sl)), Product(r, Query(cfg.sr))),
                Product(Product(l, r), Query(cfg.sm))),
            Scaled(Product(o, Query(cfg.so)), -1)),
        Query(cfg.sc))
  }

  function MiniPlonkGate(cfg: TutorialConfig): Gate
  {
    Gate("mini plonk", [MiniPlonk(cfg)])
  }

  /** The three advice wires, each with equality enabled. */
  function ConfigureWires(): (r: (ConstraintSystem, Column, Column, Column))
    ensures r.1 == Column(Advice, 0) && r.2 == Column(Advice, 1) && r.3 == Column(Advice, 2)
    ensures r.0 == ConstraintSystem(3, 0, 0, [r.1, r.2, r.3], [])
  {
    var (cs1, l) := NewColumn(EmptySystem, Advice);
    var (cs2, r) := NewColumn(cs1, Advice);
    var (cs3, o) := NewColumn(cs2, Advice);
    assert cs3 == ConstraintSystem(3, 0, 0, [], []);
    (EnableEquality(EnableEquality(EnableEquality(cs3, l), r), o), l, r, o)
  }

  /** Allocates the columns in the order the circuit declares them, enables
      equality on the three wires and the instance column, and registers the gate. */
  function Configure(): (r: (ConstraintSystem, TutorialConfig))
    ensures r.1 == TutorialConfig(
      Column(Advice, 0), Column(Advice, 1), Column(Advice, 2),
      Column(Fixed, 1), Column(Fixed, 2), Column(Fixed, 3), Column(Fixed, 0), Column(Fixed, 4),
      Column(Instance, 0))
    ensures r.1.Valid()
    ensures r.0 == ConstraintSystem(3, 5, 1, [r.1.l, r.1.r, r.1.o, r.1.pi], [MiniPlonkGate(r.1)])
  {
    var (cs4, l, r, o) := ConfigureWires();
    var (cs5, sm) := NewColumn(cs4, Fixed);
    var (cs6, sl) := NewColumn(cs5, Fixed);
    var (cs7, sr) := NewColumn(cs6, Fixed);
    var (cs8, so) := NewColumn(cs7, Fixed);
    var (cs9, sc) := NewColumn(cs8, Fixed);
    assert cs9 == ConstraintSystem(3, 5, 0, [l, r, o], []);
    var (cs10, pi) := NewColumn(cs9, Instance);
    var cs11 := EnableEquality(cs10, pi);
    assert cs11 == ConstraintSystem(3, 5, 1, [l, r, o, pi], []);
    var cfg := TutorialConfig(l, r, o, sl, sr, so, sm, sc, pi);
    (CreateGate(cs11, "mini plonk", [MiniPlonk(cfg)]), cfg)
  }

  function System(): ConstraintSystem
  {
    Configure().0
  }

  function Config(): TutorialConfig
  {
    Configure().1
  }

  /** The five selector values at a row. */
  predicate Selectors(fixed: map<Cell, int>, cfg: TutorialConfig, row: nat, sl: int, sr: int, so: int, sm: int, sc: int)
  {
    && Lookup(fixed, Cell(cfg.sl, row)) == sl
    && Lookup(fixed, Cell(cfg.sr, row)) == sr
    && Lookup(fixed, Cell(cfg.so, row)) == so
    && Lookup(fixed, Cell(cfg.sm, row)) == sm
    && Lookup(fixed, Cell(cfg.sc, row)) == sc
  }

  /** The integer value of the gate's constraint at a row. */
  lemma EvalMiniPlonk(cfg: TutorialConfig, t: Trace, row: nat)
    ensures
      var l, r, o := Read(t, Cell(cfg.l, row)), Read(t, Cell(cfg.r, row)), Read(t, Cell(cfg.o, row));
      var sl, sr, so := Read(t, Cell(cfg.sl, row)), Read(t, Cell(cfg.sr, row)), Read(t, Cell(cfg.so, row));
      var sm, sc := Read(t, Cell(cfg.sm, row)), Read(t, Cell(cfg.sc, row));
      EvalInt(MiniPlonk(cfg), t, row) == l * sl + r * sr + l * r * sm - o * so + sc
  {
    var l, r, o := Read(t, Cell(cfg.l, row)), Read(t, Cell(cfg.r, row)), Read(t, Cell(cfg.o, row));
    var sl, sr, so := Read(t, Cell(cfg.sl, row)), Read(t, Cell(cfg.sr, row)), Read(t, Cell(cfg.so, row));
    var sm, sc := Read(t, Cell(cfg.sm, row)), Read(t, Cell(cfg.sc, row));
    var ql, qr, qo := Query(cfg.l), Query(cfg.r), Query(cfg.o);
    var left := Sum(Product(ql, Query(cfg.sl)), Product(qr, Query(cfg.sr)));
    var withMul := Sum(left, Product(Product(ql, qr), Query(cfg.sm)));
    var withOut := Sum(withMul, Scaled(Product(qo, Query(cfg.so)), -1));
    assert EvalInt(Product(ql, Query(cfg.sl)), t, row) == l * sl;
    assert EvalInt(Product(qr, Query(cfg.sr)), t, row) == r * sr;
    assert EvalInt(Product(ql, qr), t, row) == l * r;
    assert EvalInt(Product(Product(ql, qr), Query(cfg.sm)), t, row) == l * r * sm;
    assert EvalInt(Product(qo, Query(cfg.so)), t, row) == o * so;
    assert EvalInt(Scaled(Product(qo, Query(cfg.so)), -1), t, row) == -(o * so);
    assert EvalInt(left, t, row) == l * sl + r * sr;
    assert EvalInt(withMul, t, row) == l * sl + r * sr + l * r * sm;
    assert EvalInt(withOut, t, row) == l * sl + r * sr + l * r * sm - o * so;
  }

  /** A row satisfies the gate exactly when l*sl + r*sr + l*r*sm - o*so + sc is
      zero in the field. */
  lemma GateIdentity(p: int, cfg: TutorialConfig, t: Trace, row: nat)
    requires p > 1
    ensures
      var l, r, o := Read(t, Cell(cfg.l, row)), Read(t, Cell(cfg.r, row)), Read(t, Cell(cfg.o, row));
      var sl, sr, so := Read(t, Cell(cfg.sl, row)), Read(t, Cell(cfg.sr, row)), Read(t, Cell(cfg.so, row));
      var sm, sc := Read(t, Cell(cfg.sm, row)), Read(t, Cell(cfg.sc, row));
      GateHoldsAt(p, MiniPlonkGate(cfg), t, row) <==> (l * sl + r * sr + l * r * sm - o * so + sc) % p == 0
  {
    var g := MiniPlonkGate(cfg);
    assert GateHoldsAt(p, g, t, row) <==> Eval(p, MiniPlonk(cfg), t, row) == 0 by {
      assert |g.polys| == 1 && g.polys[0] == MiniPlonk(cfg);
    }
    EvalMiniPlonk(cfg, t, row);
    EvalReduces(p, MiniPlonk(cfg), t, row);
  }

  /** With given selector values, the gate's constraint on the advice wires. */
  lemma SelectedGate(p: int, cfg: TutorialConfig, t: Trace, row: nat, sl: int, sr: int, so: int, sm: int, sc: int)
    requires p > 1 && cfg.Valid()
    requires Selectors(t.fixed, cfg, row, sl, sr, so, sm, sc)
    ensures
      var l, r, o := Lookup(t.advice, Cell(cfg.l, row)), Lookup(t.advice, Cell(cfg.r, row)), Lookup(t.advice, Cell(cfg.o, row));
      GateHoldsAt(p, MiniPlonkGate(cfg), t, row) <==> (l * sl + r * sr + l * r * sm - o * so + sc) % p == 0
  {
    GateIdentity(p, cfg, t, row);
  }

  /** Under the multiplication selectors (sm = so = 1, the rest 0) the gate
      holds exactly when l * r = o in the field. */
  lemma MulRowGate(p: int, cfg: TutorialConfig, t: Trace, row: nat)
    requires p > 1 && cfg.Valid()
    requires Selectors(t.fixed, cfg, row, 0, 0, 1, 1, 0)
    ensures
      var l, r, o := Lookup(t.advice, Cell(cfg.l, row)), Lookup(t.advice, Cell(cfg.r, row)), Lookup(t.advice, Cell(cfg.o, row));
      GateHoldsAt(p, MiniPlonkGate(cfg), t, row) <==> Cong(p, l * r, o)
  {
    var l, r, o := Lookup(t.advice, Cell(cfg.l, row)), Lookup(t.advice, Cell(cfg.r, row)), Lookup(t.advice, Cell(cfg.o, row));
    SelectedGate(p, cfg, t, row, 0, 0, 1, 1, 0);
    assert l * 0 + r * 0 + l * r * 1 - o * 1 + 0 == l * r - o;
    ZeroIffCong(p, l * r, o);
  }

  /** Under the addition selectors (sl = sr = so = 1, the rest 0) the gate
      holds exactly when l + r = o in the field. */
  lemma AddRowGate(p: int, cfg: TutorialConfig, t: Trace, row: nat)
    requires p > 1 && cfg.Valid()
    requires Selectors(t.fixed, cfg, row, 1, 1, 1, 0, 0)
    ensures
      var l, r, o := Lookup(t.advice, Cell(cfg.l, row)), Lookup(t.advice, Cell(cfg.r, row)), Lookup(t.advice, Cell(cfg.o, row));
      GateHoldsAt(p, MiniPlonkGate(cfg), t, row) <==> Cong(p, l + r, o)
  {
    var l, r, o := Lookup(t.advice, Cell(cfg.l, row)), Lookup(t.advice, Cell(cfg.r, row)), Lookup(t.advice, Cell(cfg.o, row));
    SelectedGate(p, cfg, t, row, 1, 1, 1, 0, 0);
    assert l * 1 + r * 1 + l * r * 0 - o * 1 + 0 == l + r - o;
    ZeroIffCong(p, l + r, o);
  }

  /** On a row where every selector is 0 the gate holds whatever the wires hold. */
  lemma IdleRowGate(p: int, cfg: TutorialConfig, t: Trace, row: nat)
    requires p > 1 && cfg.Valid()
    requires Selectors(t.fixed, cfg, row, 0, 0, 0, 0, 0)
    ensures GateHoldsAt(p, MiniPlonkGate(cfg), t, row)
  {
    SelectedGate(p, cfg, t, row, 0, 0, 0, 0, 0);
    var l, r, o := Lookup(t.advice, Cell(cfg.l, row)), Lookup(t.advice, Cell(cfg.r, row)), Lookup(t.advice, Cell(cfg.o, row));
    var e := l * 0 + r * 0 + l * r * 0 - o * 0 + 0;
    assert e == 0;
    assert e % p == 0;
  }

  /** The cells of one arithmetic region. */
  datatype Region = Region(layout: Layout, lhs: Cell, rhs: Cell, out: Cell)

  function Lhs(f: Value<(int, int, int)>): Value<int>
  {
    f.Map((t: (int, int, int)) => t.0)
  }

  function Rhs(f: Value<(int, int, int)>): Value<int>
  {
    f.Map((t: (int, int, int)) => t.1)
  }

  function Out(f: Value<(int, int, int)>): Value<int>
  {
    f.Map((t: (int, int, int)) => t.2)
  }

  /** `b` extends `a`: every value assigned in `a` is kept, and the copy pairs
      and bindings of `a` come first in `b`. */
  predicate Extends(a: Layout, b: Layout)
  {
    && (forall c :: c in a.shape.fixed ==> c in b.shape.fixed && b.shape.fixed[c] == a.shape.fixed[c])
    && (forall c :: c in a.advice ==> c in b.advice && b.advice[c] == a.advice[c])
    && a.shape.copies <= b.shape.copies
    && a.shape.bindings <= b.shape.bindings
  }

  /** The triple, computed once, is split over the `l, r, o` cells of the region's
      row; the row is checked once, since the three cells share it. */
  function AssignTriple(env: Env, cfg: TutorialConfig, lay: Layout, f: Value<(int, int, int)>): (r: Result<Region>)
    requires cfg.Valid()
    ensures r.Ok? <==> lay.shape.rows < env.usableRows
    ensures r.Err? ==> r.error == NotEnoughRowsAvailable
    ensures r.Ok? ==>
      var row, reg := lay.shape.rows, r.value;
      && reg.lhs == Cell(cfg.l, row) && reg.rhs == Cell(cfg.r, row) && reg.out == Cell(cfg.o, row)
      && reg.layout.shape == lay.shape
      && reg.layout.advice.Keys == lay.advice.Keys + {reg.lhs, reg.rhs, reg.out}
      && reg.layout.advice[reg.lhs] == Lhs(f)
      && reg.layout.advice[reg.rhs] == Rhs(f)
      && reg.layout.advice[reg.out] == Out(f)
      && (Fresh(lay) ==> Extends(lay, reg.layout))
  {
    var row := lay.shape.rows;
    if row < env.usableRows then
      var l1 := AssignAdvice(env, lay, cfg.l, row, Lhs(f)).value;
      var l2 := AssignAdvice(env, l1, cfg.r, row, Rhs(f)).value;
      var l3 := AssignAdvice(env, l2, cfg.o, row, Out(f)).value;
      Ok(Region(l3, Cell(cfg.l, row), Cell(cfg.r, row), Cell(cfg.o, row)))
    else
      Err(NotEnoughRowsAvailable)
  }

  /** Hands the region's row out: later regions start on the next row. */
  function CloseRegion(reg: Region): Region
  {
    reg.(layout := reg.layout.(shape := reg.layout.shape.(rows := reg.layout.shape.rows + 1)))
  }

  /** A multiplication region: the triple on one fresh row, with sm = so = 1. */
  function RawMultiply(env: Env, cfg: TutorialConfig, lay: Layout, f: Value<(int, int, int)>): (r: Result<Region>)
    requires cfg.Valid()
    ensures r.Ok? <==> lay.shape.rows < env.usableRows
    ensures r.Err? ==> r.error == NotEnoughRowsAvailable
    ensures r.Ok? ==>
      var row, reg := lay.shape.rows, r.value;
      && reg.lhs == Cell(cfg.l, row) && reg.rhs == Cell(cfg.r, row) && reg.out == Cell(cfg.o, row)
      && reg.layout.advice.Keys == lay.advice.Keys + {reg.lhs, reg.rhs, reg.out}
      && reg.layout.advice[reg.lhs] == Lhs(f)
      && reg.layout.advice[reg.rhs] == Rhs(f)
      && reg.layout.advice[reg.out] == Out(f)
      && reg.layout.shape.rows == row + 1
      && reg.layout.shape.copies == lay.shape.copies
      && reg.layout.shape.bindings == lay.shape.bindings
      && (Fresh(lay) ==> Fresh(reg.layout)
                         && Selectors(reg.layout.shape.fixed, cfg, row, 0, 0, 1, 1, 0))
  {
    var row := lay.shape.rows;
    var reg :- AssignTriple(env, cfg, lay, f);
    var l1 := AssignFixed(env, reg.layout, cfg.sm, row, 1).value;
    var l2 := AssignFixed(env, l1, cfg.so, row, 1).value;
    Ok(CloseRegion(reg.(layout := l2)))
  }

  /** An addition region: the triple on one fresh row, with sl = sr = so = 1. */
  function RawAdd(env: Env, cfg: TutorialConfig, lay: Layout, f: Value<(int, int, int)>): (r: Result<Region>)
    requires cfg.Valid()
    ensures r.Ok? <==> lay.shape.rows < env.usableRows
    ensures r.Err? ==> r.error == NotEnoughRowsAvailable
    ensures r.Ok? ==>
      var row, reg := lay.shape.rows, r.value;
      && reg.lhs == Cell(cfg.l, row) && reg.rhs == Cell(cfg.r, row) && reg.out == Cell(cfg.o, row)
      && reg.layout.advice.Keys == lay.advice.Keys + {reg.lhs, reg.rhs, reg.out}
      && reg.layout.advice[reg.lhs] == Lhs(f)
      && reg.layout.advice[reg.rhs] == Rhs(f)
      && reg.layout.advice[reg.out] == Out(f)
      && reg.layout.shape.rows == row + 1
      && reg.layout.shape.copies == lay.shape.copies
      && reg.layout.shape.bindings == lay.shape.bindings
      && (Fresh(lay) ==> Fresh(reg.layout)
                         && Selectors(reg.layout.shape.fixed, cfg, row, 1, 1, 1, 0, 0))
  {
    var row := lay.shape.rows;
    var reg :- AssignTriple(env, cfg, lay, f);
    var l1 := AssignFixed(env, reg.layout, cfg.sl, row, 1).value;
    var l2 := AssignFixed(env, l1, cfg.sr, row, 1).value;
    var l3 := AssignFixed(env, l2, cfg.so, row, 1).value;
    Ok(CloseRegion(reg.(layout := l3)))
  }

  /** On the row a multiplication region takes, the gate holds exactly when the
      values placed in l and r multiply to the value placed in o. */
  lemma RawMultiplyGate(p: int, env: Env, cfg: TutorialConfig, lay: Layout, f: Value<(int, int, int)>, advice: map<Cell, int>)
    requires p > 1 && cfg.Valid() && Fresh(lay)
    requires RawMultiply(env, cfg, lay, f).Ok?
    ensures
      var reg := RawMultiply(env, cfg, lay, f).value;
      var holds := GateHoldsAt(p, MiniPlonkGate(cfg), Trace(reg.layout.shape.fixed, advice), lay.shape.rows);
      holds <==> Cong(p, Lookup(advice, reg.lhs) * Lookup(advice, reg.rhs), Lookup(advice, reg.out))
  {
    var reg := RawMultiply(env, cfg, lay, f).value;
    MulRowGate(p, cfg, Trace(reg.layout.shape.fixed, advice), lay.shape.rows);
  }

  /** On the row an addition region takes, the gate holds exactly when the
      values placed in l and r add up to the value placed in o. */
  lemma RawAddGate(p: int, env: Env, cfg: TutorialConfig, lay: Layout, f: Value<(int, int, int)>, advice: map<Cell, int>)
    requires p > 1 && cfg.Valid() && Fresh(lay)
    requires RawAdd(env, cfg, lay, f).Ok?
    ensures
      var reg := RawAdd(env, cfg, lay, f).value;
      var holds := GateHoldsAt(p, MiniPlonkGate(cfg), Trace(reg.layout.shape.fixed, advice), lay.shape.rows);
      holds <==> Cong(p, Lookup(advice, reg.lhs) + Lookup(advice, reg.rhs), Lookup(advice, reg.out))
  {
    var reg := RawAdd(env, cfg, lay, f).value;
    AddRowGate(p, cfg, Trace(reg.layout.shape.fixed, advice), lay.shape.rows);
  }

  /** Connects two wires; the pair is registered twice, as the chip does. */
  function Copy(env: Env, lay: Layout, a: Cell, b: Cell): (r: Result<Layout>)
    ensures r.Ok? <==> CheckCopy(env, a.column, a.row, b.column, b.row).Ok?
    ensures r.Err? ==> r.error == CheckCopy(env, a.column, a.row, b.column, b.row).error
    ensures r.Ok? ==> r.value.advice == lay.advice && r.value.shape.(copies := lay.shape.copies) == lay.shape
    ensures r.Ok? ==> r.value.shape.copies == lay.shape.copies + [(a, b), (a, b)]
    ensures r.Ok? && WiringEnabled(env.cs, lay.shape) ==> WiringEnabled(env.cs, r.value.shape)
  {
    var once :- ConstrainEqual(env, lay, a, b);
    ConstrainEqual(env, once, a, b)
  }

  /** Registering the pair twice yields the layout of one registration up to the
      repeated entry: the same set of pairs and, for every trace, the same verdict. */
  lemma CopyIdempotent(p: int, env: Env, lay: Layout, a: Cell, b: Cell, t: Trace)
    requires p > 1
    requires ConstrainEqual(env, lay, a, b).Ok?
    ensures Copy(env, lay, a, b).Ok?
    ensures
      var once, twice := ConstrainEqual(env, lay, a, b).value, Copy(env, lay, a, b).value;
      && twice.(shape := twice.shape.(copies := once.shape.copies)) == once
      && (set e | e in twice.shape.copies) == (set e | e in once.shape.copies)
      && (CopiesHold(p, t, twice.shape.copies) <==> CopiesHold(p, t, once.shape.copies))
  {
    var once, twice := ConstrainEqual(env, lay, a, b).value, Copy(env, lay, a, b).value;
    var s1, s2 := once.shape.copies, twice.shape.copies;
    assert s2 == s1 + [(a, b)];
    assert s1[|s1| - 1] == (a, b);
    if CopiesHold(p, t, s1) {
      forall i | 0 <= i < |s2|
        ensures Cong(p, Read(t, s2[i].0), Read(t, s2[i].1))
      {
        if i < |s1| {
          assert s2[i] == s1[i];
        } else {
          assert s2[i] == s1[|s1| - 1];
        }
      }
    }
    if CopiesHold(p, t, s2) {
      forall i | 0 <= i < |s1|
        ensures Cong(p, Read(t, s1[i].0), Read(t, s1[i].1))
      {
        assert s2[i] == s1[i];
      }
    }
  }

  /** Binds a cell to a row of the instance column. */
  function ExposePublic(env: Env, cfg: TutorialConfig, lay: Layout, cell: Cell, row: nat): (r: Result<Layout>)
    requires cfg.Valid()
    ensures r.Ok? <==> CheckCopy(env, cell.column, cell.row, cfg.pi, row).Ok?
    ensures r.Ok? ==> r.value.advice == lay.advice && r.value.shape.(bindings := lay.shape.bindings) == lay.shape
    ensures r.Ok? ==> r.value.shape.bindings == lay.shape.bindings + [Binding(cell, cfg.pi, row)]
    ensures r.Ok? && WiringEnabled(env.cs, lay.shape) ==> WiringEnabled(env.cs, r.value.shape)
  {
    ConstrainInstance(env, lay, cell, cfg.pi, row)
  }

  /** The circuit's witness inputs and its constant. */
  datatype TutorialCircuit = TutorialCircuit(x: Value<int>, y: Value<int>, constant: int)

  /** The default circuit: both inputs unknown and the constant zero. */
  function WithoutWitnesses(c: TutorialCircuit): TutorialCircuit
  {
    TutorialCircuit(Unknown, Unknown, 0)
  }

  /** x * x * y * y, multiplied left to right in the field. */
  function Xxyy(p: int, x: int, y: int): int
    requires p > 1
  {
    Mul(p, Mul(p, Mul(p, x, x), y), y)
  }

  /** (v, v, v * v). */
  function SquareTriple(p: int, v: Value<int>): Value<(int, int, int)>
    requires p > 1
  {
    v.Map((a: int) => (a, a, Mul(p, a, a)))
  }

  /** (x * x, y * y, x * x * y * y). */
  function ProductTriple(p: int, x: Value<int>, y: Value<int>): Value<(int, int, int)>
    requires p > 1
  {
    x.Zip(y).Map((xy: (int, int)) => (Mul(p, xy.0, xy.0), Mul(p, xy.1, xy.1), Xxyy(p, xy.0, xy.1)))
  }

  /** (x * x * y * y, c, x * x * y * y + c); known only when x and y are. */
  function SumTriple(p: int, x: Value<int>, y: Value<int>, c: int): Value<(int, int, int)>
    requires p > 1
  {
    x.Zip(y).Map((xy: (int, int)) => (Xxyy(p, xy.0, xy.1), c, Add(p, Xxyy(p, xy.0, xy.1), c)))
  }

  predicate EqualityReady(cs: ConstraintSystem, cfg: TutorialConfig)
  {
    EqualityEnabled(cs, cfg.l) && EqualityEnabled(cs, cfg.r) && EqualityEnabled(cs, cfg.o) && EqualityEnabled(cs, cfg.pi)
  }

  /** A square: a multiplication region for (v, v, v * v) whose `l` and `r`
      cells are connected. */
  function SquareRegion(p: int, env: Env, cfg: TutorialConfig, lay: Layout, v: Value<int>): (r: Result<Region>)
    requires p > 1 && cfg.Valid()
    ensures r.Ok? <==> lay.shape.rows < env.usableRows && EqualityEnabled(env.cs, cfg.l) && EqualityEnabled(env.cs, cfg.r)
    ensures r.Ok? ==> r.value.out == Cell(cfg.o, lay.shape.rows)
    ensures r.Ok? ==>
      var a, b := Cell(cfg.l, lay.shape.rows), Cell(cfg.r, lay.shape.rows);
      r.value.layout.shape.copies == lay.shape.copies + [(a, b), (a, b)]
    ensures r.Ok? ==> r.value.layout.shape.rows == lay.shape.rows + 1
    ensures r.Ok? ==> r.value.layout.shape.bindings == lay.shape.bindings
    ensures r.Ok? && WiringEnabled(env.cs, lay.shape) ==> WiringEnabled(env.cs, r.value.layout.shape)
  {
    var m :- RawMultiply(env, cfg, lay, SquareTriple(p, v));
    var l1 :- Copy(env, m.layout, m.lhs, m.rhs);
    Ok(m.(layout := l1))
  }

  /** The product of the squares: a multiplication region for
      (x * x, y * y, x * x * y * y) whose `l` and `r` cells are connected to
      the outputs `sx` and `sy` of the two square regions. */
  function ProductRegion(p: int, env: Env, cfg: TutorialConfig, lay: Layout, sx: Cell, sy: Cell, x: Value<int>, y: Value<int>): (r: Result<Region>)
    requires p > 1 && cfg.Valid()
    ensures r.Ok? <==>
      && lay.shape.rows < env.usableRows
      && CheckCopy(env, sx.column, sx.row, cfg.l, lay.shape.rows).Ok?
      && CheckCopy(env, sy.column, sy.row, cfg.r, lay.shape.rows).Ok?
    ensures r.Ok? ==> r.value.out == Cell(cfg.o, lay.shape.rows)
    ensures r.Ok? ==>
      var a, b := Cell(cfg.l, lay.shape.rows), Cell(cfg.r, lay.shape.rows);
      r.value.layout.shape.copies == lay.shape.copies + [(sx, a), (sx, a)] + [(sy, b), (sy, b)]
    ensures r.Ok? ==> r.value.layout.shape.rows == lay.shape.rows + 1
    ensures r.Ok? ==> r.value.layout.shape.bindings == lay.shape.bindings
    ensures r.Ok? && WiringEnabled(env.cs, lay.shape) ==> WiringEnabled(env.cs, r.value.layout.shape)
  {
    var m :- RawMultiply(env, cfg, lay, ProductTriple(p, x, y));
    var l1 :- Copy(env, m.layout, sx, m.lhs);
    var l2 :- Copy(env, l1, sy, m.rhs);
    Ok(m.(layout := l2))
  }

  /** Adding the constant: an addition region for (x * x * y * y, c, x * x * y * y + c)
      whose `l` cell is connected to the output `prod` of the product region. */
  function SumRegion(p: int, env: Env, cfg: TutorialConfig, lay: Layout, prod: Cell, x: Value<int>, y: Value<int>, c: int): (r: Result<Region>)
    requires p > 1 && cfg.Valid()
    ensures r.Ok? <==>
      && lay.shape.rows < env.usableRows
      && CheckCopy(env, prod.column, prod.row, cfg.l, lay.shape.rows).Ok?
    ensures r.Ok? ==> r.value.rhs == Cell(cfg.r, lay.shape.rows) && r.value.out == Cell(cfg.o, lay.shape.rows)
    ensures r.Ok? ==>
      var a := Cell(cfg.l, lay.shape.rows);
      r.value.layout.shape.copies == lay.shape.copies + [(prod, a), (prod, a)]
    ensures r.Ok? ==> r.value.layout.shape.rows == lay.shape.rows + 1
    ensures r.Ok? ==> r.value.layout.shape.bindings == lay.shape.bindings
    ensures r.Ok? && WiringEnabled(env.cs, lay.shape) ==> WiringEnabled(env.cs, r.value.layout.shape)
  {
    var a :- RawAdd(env, cfg, lay, SumTriple(p, x, y, c));
    var l1 :- Copy(env, a.layout, prod, a.lhs);
    Ok(a.(layout := l1))
  }

  /** The two squares, x * x on row 0 and y * y on row 1. */
  function Squares(p: int, env: Env, cfg: TutorialConfig, x: Value<int>, y: Value<int>): (r: Result<(Region, Region)>)
    requires p > 1 && cfg.Valid()
    ensures r.Ok? <==> 2 <= env.usableRows && EqualityEnabled(env.cs, cfg.l) && EqualityEnabled(env.cs, cfg.r)
    ensures r.Ok? ==> r.value.0.out == Cell(cfg.o, 0) && r.value.1.out == Cell(cfg.o, 1)
    ensures r.Ok? ==> r.value.1.layout.shape.rows == 2 && r.value.1.layout.shape.bindings == []
    ensures r.Ok? ==> WiringEnabled(env.cs, r.value.1.layout.shape)
  {
    assert WiringEnabled(env.cs, EmptyLayout.shape);
    var sx :- SquareRegion(p, env, cfg, EmptyLayout, x);
    var sy :- SquareRegion(p, env, cfg, sx.layout, y);
    Ok((sx, sy))
  }

  /** The arithmetic of the circuit: the squares, their product on row 2, and
      the product plus the constant on row 3. */
  function Arithmetic(p: int, env: Env, cfg: TutorialConfig, circuit: TutorialCircuit): (r: Result<Region>)
    requires p > 1 && cfg.Valid()
    ensures r.Ok? <==> 4 <= env.usableRows && EqualityEnabled(env.cs, cfg.l) && EqualityEnabled(env.cs, cfg.r) && EqualityEnabled(env.cs, cfg.o)
    ensures r.Ok? ==> r.value.rhs == Cell(cfg.r, 3) && r.value.out == Cell(cfg.o, 3)
    ensures r.Ok? ==> r.value.layout.shape.rows == 4 && r.value.layout.shape.bindings == []
    ensures r.Ok? ==> WiringEnabled(env.cs, r.value.layout.shape)
  {
    var (sx, sy) :- Squares(p, env, cfg, circuit.x, circuit.y);
    var xy :- ProductRegion(p, env, cfg, sy.layout, sx.out, sy.out, circuit.x, circuit.y);
    SumRegion(p, env, cfg, xy.layout, xy.out, circuit.x, circuit.y, circuit.constant)
  }

  /** Binds the addition region's `r` cell (the constant) to instance row 0
      and its `o` cell (the result) to instance row 1. */
  function Publish(env: Env, cfg: TutorialConfig, sum: Region): (r: Result<Layout>)
    requires cfg.Valid()
    ensures r.Ok? <==>
      && CheckCopy(env, sum.rhs.column, sum.rhs.row, cfg.pi, 0).Ok?
      && CheckCopy(env, sum.out.column, sum.out.row, cfg.pi, 1).Ok?
    ensures r.Ok? ==> r.value.advice == sum.layout.advice
    ensures r.Ok? ==> r.value.shape == sum.layout.shape.(bindings := sum.layout.shape.bindings + [Binding(sum.rhs, cfg.pi, 0), Binding(sum.out, cfg.pi, 1)])
    ensures r.Ok? && WiringEnabled(env.cs, sum.layout.shape) ==> WiringEnabled(env.cs, r.value.shape)
  {
    var l1 :- ExposePublic(env, cfg, sum.layout, sum.rhs, 0);
    ConstrainInstance(env, l1, sum.out, cfg.pi, 1)
  }

  /** Squares x and y, multiplies the squares, adds the constant, and binds the
      constant and the result to rows 0 and 1 of the instance column. */
  function Synthesize(p: int, env: Env, cfg: TutorialConfig, circuit: TutorialCircuit): (r: Result<Layout>)
    requires p > 1 && cfg.Valid()
    ensures r.Ok? <==> 4 <= env.usableRows && EqualityReady(env.cs, cfg)
    ensures r.Ok? ==> r.value.shape.rows == 4
    ensures r.Ok? ==> WiringEnabled(env.cs, r.value.shape)
  {
    var sum :- Arithmetic(p, env, cfg, circuit);
    Publish(env, cfg, sum)
  }
}
