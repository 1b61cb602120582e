# halo2 tutorial circuit ("mini PLONK") in Dafny

This project models the tutorial circuit of `halo2/tests/tutorial_prover.rs`. The circuit is a
small PLONK-style arithmetic circuit that uses these columns:

- three advice wires `l, r, o`;
- five fixed selector columns `sl, sr, so, sm, sc`;
- one instance column `PI`.

It has one gate, `l*sl + r*sr + l*r*sm - o*so + sc = 0`, checked on every usable row. Its chip offers four
helpers:

- `raw_multiply` and `raw_add`, each of which lays one `(l, r, o)` triple out on a fresh row and
  switches on that row's selectors;
- `copy`, which connects two cells;
- `expose_public`, which binds a cell to a row of `PI`.

`synthesize` computes `x^2 * y^2 + c`. The constant and the result are exposed as public inputs
0 and 1.

The modules are:

- `Field`: field elements are integers read modulo an abstract order `p > 1`. It holds the
  lemmas that reduction commutes with `+` and `*`.
- `Values`: halo2's `Value`, which is either known or unknown, with `map` and `zip`.
- `Plonk`: columns, cells, gate expressions and the constraint-system builder
  (`advice_column`, `fixed_column`, `instance_column`, `enable_equality`, `create_gate`). It also
  evaluates expressions over a trace, where a cell that was never assigned reads as 0.
- `Layouts`: the region assigner's state and the library errors that the helpers propagate with
  `?`. The state has two parts:
  - the shape, which is witness-independent: fixed values, copy pairs, instance bindings and rows
    handed out;
  - the advice values.

  This module also holds `Satisfied`, the predicate that stands in for proving and verifying: the
  gates vanish on every usable row, the copied cells agree, and the bound cells equal the public
  inputs.
- `Tutorial`: the configuration, the gate, the chip helpers, `synthesize` and
  `without_witnesses`.
- `TutorialProofs`: the exact layout `synthesize` produces, plus the proofs of witness
  independence, completeness, soundness and the scenario of the `tutorial_prover` test (x = 5, y = 9, c = 7).

## Model

| member | source | states |
|---|---|---|
| Tutorial.Configure | halo2/tests/tutorial_prover.rs:204-247 | columns are allocated in declaration order (so `sm` is fixed column 0, `sl..sc` are 1..4); equality is enabled on exactly `l, r, o, PI`; the system holds exactly the one gate; the configuration is well typed and its columns are distinct |
| Tutorial.ConfigureWires | halo2/tests/tutorial_prover.rs:205-211 | the three advice wires are advice columns 0, 1, 2, and exactly these three are in the permutation |
| Plonk.NewColumn | halo2/tests/tutorial_prover.rs:205-219 | a new column has the requested kind and was not allocated before; it is allocated afterwards, no other column becomes allocated, and equality and gates are untouched |
| Plonk.EnableEquality | halo2/tests/tutorial_prover.rs:209-211 | afterwards a column is equality-enabled iff it was before or is the given one; the permutation stays duplicate-free; nothing else changes |
| Plonk.EnableEqualityIdempotent | halo2/tests/tutorial_prover.rs:220 | enabling equality twice is the same as enabling it once |
| Plonk.CreateGate | halo2/tests/tutorial_prover.rs:222-234 | the gate is appended after the existing gates, which stay as they were |
| Plonk.EvalReduces | halo2/tests/tutorial_prover.rs:233 | evaluating a gate expression in the field equals its exact integer value reduced mod p |
| Tutorial.EvalMiniPlonk | halo2/tests/tutorial_prover.rs:223-233 | the gate expression's integer value at a row is `l*sl + r*sr + l*r*sm - o*so + sc` over the queried cells of that row |
| Tutorial.GateIdentity | halo2/tests/tutorial_prover.rs:222-233 | a row satisfies the "mini plonk" gate iff `l*sl + r*sr + l*r*sm - o*so + sc` is 0 mod p |
| Tutorial.SelectedGate | halo2/tests/tutorial_prover.rs:222-233 | with the selectors of a row fixed to given values, the gate holds iff the resulting combination of the wires is 0 mod p |
| Tutorial.MulRowGate | halo2/tests/tutorial_prover.rs:222-233 | under `sm = so = 1` with the other selectors 0, the gate holds iff `l * r = o` in the field |
| Tutorial.AddRowGate | halo2/tests/tutorial_prover.rs:222-233 | under `sl = sr = so = 1` with the other selectors 0, the gate holds iff `l + r = o` in the field |
| Tutorial.IdleRowGate | halo2/tests/tutorial_prover.rs:233 | a row whose selectors are all 0 (never assigned) satisfies the gate whatever the wires hold |
| Layouts.AssignAdvice | halo2/tests/tutorial_prover.rs:94-115 | an advice assignment succeeds iff the row is usable, fails otherwise with NotEnoughRowsAvailable; on success the cell holds the value, every other advice cell keeps its presence and value, and the shape is unchanged |
| Layouts.AssignFixed | halo2/tests/tutorial_prover.rs:117-118 | a fixed assignment succeeds iff the row is usable, fails otherwise with NotEnoughRowsAvailable; on success the cell holds the value, every other fixed cell keeps its presence and value, and the copies, bindings, rows and advice values are unchanged |
| Tutorial.AssignTriple | halo2/tests/tutorial_prover.rs:92-115 | the triple is computed once and split over `l, r, o` of the region's row: the cells hold its three components, exactly these three cells are added, and earlier assignments are kept; it fails iff the row is not usable |
| Tutorial.RawMultiply | halo2/tests/tutorial_prover.rs:82-123 | the triple goes on the next fresh row with `sm = so = 1` and `sl = sr = sc = 0`; the returned cells are that row's `l, r, o`; exactly one row is used; copies and bindings are unchanged; it fails iff no usable row is left |
| Tutorial.RawAdd | halo2/tests/tutorial_prover.rs:125-166 | as `raw_multiply`, but with `sl = sr = so = 1` and `sm = sc = 0` |
| Tutorial.RawMultiplyGate | halo2/tests/tutorial_prover.rs:90-120 | on the row a multiplication region takes, the gate holds iff the `lhs` value times the `rhs` value equals the `out` value |
| Tutorial.RawAddGate | halo2/tests/tutorial_prover.rs:133-164 | on the row an addition region takes, the gate holds iff `lhs + rhs = out` |
| TutorialProofs.RawMultiplyKeeps | halo2/tests/tutorial_prover.rs:90-120 | a multiplication region overwrites no earlier assignment and keeps earlier copies and bindings |
| TutorialProofs.RawAddKeeps | halo2/tests/tutorial_prover.rs:133-164 | an addition region overwrites no earlier assignment and keeps earlier copies and bindings |
| Layouts.CheckCopy | halo2/tests/tutorial_prover.rs:169-186 | a copy is accepted iff both rows are usable and both columns are equality-enabled; the error is NotEnoughRowsAvailable for a bad row, otherwise ColumnNotInPermutation naming the first offending column |
| Layouts.ConstrainEqual | halo2/tests/tutorial_prover.rs:173 | on success, exactly the pair is appended to the copies, and wiring over enabled columns stays so; on failure, the error is the one from the check |
| Tutorial.Copy | halo2/tests/tutorial_prover.rs:169-176 | the pair is registered twice and nothing else changes; it succeeds or fails as a single registration would |
| Tutorial.CopyIdempotent | halo2/tests/tutorial_prover.rs:169-176 | registering twice yields the same set of pairs as registering once, and for every trace the same verdict |
| Layouts.ConstrainInstance | halo2/tests/tutorial_prover.rs:179-186 | on success, exactly the binding of the cell to the instance row is appended; it fails iff the check fails |
| Tutorial.ExposePublic | halo2/tests/tutorial_prover.rs:179-186 | binds the cell to the given row of `PI` and changes nothing else; it fails iff the check fails |
| Tutorial.SquareRegion | halo2/tests/tutorial_prover.rs:264-269 | a square region uses one row and connects its `l` and `r` cells; it fails iff no row is left or `l` or `r` lacks equality |
| Tutorial.ProductRegion | halo2/tests/tutorial_prover.rs:272-276 | the product region uses one row and connects the two squares' outputs to its `l` and `r`; it succeeds iff the row and both copies are admissible |
| Tutorial.SumRegion | halo2/tests/tutorial_prover.rs:279-283 | the addition region uses one row and connects the product to its `l`; it succeeds iff the row and the copy are admissible |
| Tutorial.Squares | halo2/tests/tutorial_prover.rs:264-269 | the two squares take rows 0 and 1; their outputs are `o` at rows 0 and 1 |
| Tutorial.Arithmetic | halo2/tests/tutorial_prover.rs:264-283 | the four regions take rows 0 to 3 and bind nothing yet; the addition row's `r` and `o` are at row 3 |
| Tutorial.Publish | halo2/tests/tutorial_prover.rs:287-290 | `b3` is bound to `PI[0]` and `c3` to `PI[1]`, in that order, and nothing else changes |
| Tutorial.Synthesize | halo2/tests/tutorial_prover.rs:249-293 | synthesis succeeds iff at least 4 rows are usable and `l, r, o, PI` have equality; it uses exactly 4 rows; every copy and binding it emits is over equality-enabled columns |
| Values.Value.Map | halo2/tests/tutorial_prover.rs:264-268 | the mapped value is known iff the input is, and is then the function's result |
| Values.Value.Zip | halo2/tests/tutorial_prover.rs:272-282 | the pair is known iff both parts are, and then holds both |
| Layouts.Collect | halo2/tests/tutorial_prover.rs:326-330 | the concrete witness exists iff every assigned value is known, and then it holds those values on the same cells |
| TutorialProofs.SynthesizeLayout | halo2/tests/tutorial_prover.rs:249-293 | with 4 usable rows and equality ready, synthesis yields exactly the listed shape: the selectors of three multiplication rows and one addition row, the five copy pairs each twice, and the two bindings; the advice holds the four triples |
| TutorialProofs.ShapeSelectors | halo2/tests/tutorial_prover.rs:117-162 | in the synthesized layout, rows 0 to 2 carry the multiplication selectors, row 3 the addition selectors, and every later row only zeros (`sc` is never assigned) |
| TutorialProofs.GatesOnShape | halo2/tests/tutorial_prover.rs:222-283 | over the synthesized layout the gate holds on all usable rows iff rows 0 to 2 multiply and row 3 adds |
| TutorialProofs.CopiesOnShape | halo2/tests/tutorial_prover.rs:264-283 | the synthesized copies hold iff `a0 = b0`, `a1 = b1`, `c0 = a2`, `c1 = b2` and `c2 = a3` |
| TutorialProofs.BindingsOnShape | halo2/tests/tutorial_prover.rs:287-290 | the synthesized bindings hold iff the public inputs supply two entries, with `b3` in the first and `c3` in the second |
| TutorialProofs.SatisfiedOnShape | halo2/tests/tutorial_prover.rs:249-293 | satisfaction of the synthesized layout is exactly the conjunction of the row arithmetic, the wire agreements and the public bindings |
| TutorialProofs.ShapeIndependent | halo2/tests/tutorial_prover.rs:326-341 | success, shape (rows, selectors, copies, bindings) and assigned cells of synthesis are the same for every witness |
| TutorialProofs.KeyFromEmptyCircuit | halo2/tests/tutorial_prover.rs:200-202 | the circuit without witnesses synthesizes to the same shape as any circuit, with every advice value unknown and no concrete witness |
| TutorialProofs.AdviceKeys | halo2/tests/tutorial_prover.rs:94-115 | every witness assigns the same advice cells |
| TutorialProofs.EmptyAdvice | halo2/tests/tutorial_prover.rs:200-202 | without witnesses every advice value is unknown |
| TutorialProofs.HonestWitness | halo2/tests/tutorial_prover.rs:257-283 | for known `x, y`, the witness is known and holds `x, x, x*x`, `y, y, y*y`, `x*x, y*y, x*x*y*y` and `x*x*y*y, c, x*x*y*y + c` on rows 0 to 3 |
| TutorialProofs.XxyyIsProduct | halo2/tests/tutorial_prover.rs:272-282 | the left-to-right field product `x*x*y*y` agrees mod p with the integer product, and so does the product of the two squares |
| TutorialProofs.HonestOnShape | halo2/tests/tutorial_prover.rs:257-290 | the honest witness satisfies the synthesized layout iff the public inputs are `[c, x*x*y*y + c]` mod p |
| TutorialProofs.Completeness | halo2/tests/tutorial_prover.rs:249-293 | for known `x, y` synthesis succeeds with a known witness, which is accepted iff the public inputs are `[c, x*x*y*y + c]` mod p |
| TutorialProofs.SoundOnShape | halo2/tests/tutorial_prover.rs:264-290 | any witness satisfying the synthesized layout forces public input 1 to be `a*a*b*b` plus public input 0, where `a` and `b` are the `l` values of rows 0 and 1 |
| TutorialProofs.Soundness | halo2/tests/tutorial_prover.rs:264-290 | the same for the layout synthesis returns for any circuit, including the empty one the key is made from |
| TutorialProofs.TutorialScenario | halo2/tests/tutorial_prover.rs:318-350 | with `x = 5`, `y = 9`, `c = 7` in any field larger than 2032, the honest witness is accepted with public inputs `[7, z]` iff `z = 25 * 81 + 7 = 2032` mod p |
| Field.ModAdd | halo2/tests/tutorial_prover.rs:233 | reduction mod p commutes with addition |
| Field.ModMul | halo2/tests/tutorial_prover.rs:233 | reduction mod p commutes with multiplication |
| Field.ZeroIffCong | halo2/tests/tutorial_prover.rs:233 | `x - y` is 0 mod p iff `x` and `y` are the same element |

## Left out

- Key generation, proving and verification (`keygen_vk`, `keygen_pk`, `create_proof`, `verify_proof`), the KZG parameters, the Blake2b transcript and `OsRng`. These are polynomial-commitment cryptography in a library that is not part of this model. `Layouts.Satisfied` stands in for what they enforce.
- The BN256 scalar field `Fr`. The field is an abstract modulus `p > 1`, and every proof holds for all such `p`.
- `SimpleFloorPlanner`. Each arithmetic region takes the next fresh row in call order, and a copy or binding takes no row. The planner's actual placement is a library internal.
- The number of usable rows. It is a parameter: halo2 derives it from `k = 4` and the blinding rows, and that derivation is a library internal.
- The row and permutation errors. They are modelled as halo2 reports them during key generation (`NotEnoughRowsAvailable`, `ColumnNotInPermutation`), but the library code that raises them is not part of this model.
- Layouts.Satisfied: the gate is checked only on the usable rows, while halo2's vanishing argument enforces it on all `2^k` rows, including the blinding rows and the last row. For this circuit nothing changes, because every fixed cell past row 3 is 0 and `Tutorial.IdleRowGate` shows such a row satisfies the gate whatever the wires hold; the blinding rows' advice is random and not modelled.
- Layouts.Satisfied: halo2 rejects an instance vector whose number of columns differs from the number of instance columns (`InvalidInstances`). `Layouts.BindingsHold` accepts extra columns and reads only the bound ones.
- Instance padding. halo2 pads the instance column with zeros. Here a binding to a row that the supplied public inputs do not reach is unsatisfied.
- `Assigned` rational values (numerator and denominator). The circuit only ever builds plain elements from them.
- Rotations other than the current row. The gate queries only the current row.
- The `Chip` trait plumbing (`config`, `loaded`, `PhantomData`), the closures, and the annotation strings. They have no behavioural content.
- The lazy `FnMut` closure that fills the first cell and caches the triple. The triple is computed once and split over the three cells instead.
- Tutorial.WithoutWitnesses: it returns the derived default, with `x` and `y` unknown and the constant 0. Its contract lives in `TutorialProofs.KeyFromEmptyCircuit`. The test's own empty circuit keeps the constant 7, and `TutorialProofs.ShapeIndependent` covers that case because the shape depends on no field of the circuit.
- Field.Add, Field.Mul: their contracts state only that the result is canonical. What they compute is used through `ModAdd` and `ModMul`.
