# A verified model of a Turing-machine simulator

The simulator has three parts:
- **Toroidal memories:** grids of `u8` cells in one, two or three dimensions, each with a head that wraps around at the edges.
- **A rule-table generator and mutator:** rules `[state, symbol, next_state, next_symbol, movement]`, one per input pair, produced by a correlated random walk and then edited field by field.
- **An executor:** holds a control state, one memory and a copy of the table, and steps by the first matching rule.

This project models all three in Dafny and proves what each operation does.

Files:
- `primitives.dfy`: the `u8` value type, `Option`, and one arithmetic lemma.
- `memory.dfy`, module `TuringMachineMemory`:
  - the classes `Memory1D`, `Memory2D` and `Memory3D`, each with a cell array and a `tapehead` field;
  - `Moved`, the reference definition of a head move.
- `memory.dfy`, module `MemoryInterface`: the `Memory` trait, written as a datatype with one variant per class, and `NewMemory`.
- `rulesets.dfy`, module `Rulesets`:
  - the class `RuleSets`;
  - the functions `Generated`, `Mutated` and `MutationLog`, which specify its methods in terms of the draws they consume;
  - `Choose`, which specifies `binom`.
- `tm.dfy`, module `Tm`: the class `TM`, the rule lookup `FirstMatch`, and end-to-end results about running a generated table.

Some things are inputs rather than part of the model:
- **Randomness** is a sequence of draws `draws: seq<nat>`. The methods read it from the front, in the order the Rust code calls `gen_range`, and return the part they did not consume. Each draw must lie in the range `gen_range` is given.
  - The generator consumes `3 + 6 * states * symbols` draws. The bounds of these draws cycle through states, symbols and movements.
  - Each mutation consumes two draws: a rule index and a field selector.
- **The memory's const generics** (`WIDTH`, `HEIGHT`, `DEPTH`) become constructor arguments, each > 0. A `Shape` value chooses the memory variant a `TM` is built with.

The memory layout follows the Rust code:
- Head coordinates are `[x]` in 1D, `[row, column]` in 2D and `[layer, row, column]` in 3D.
- The extents in the same order are `[WIDTH]`, `[HEIGHT, WIDTH]` and `[DEPTH, HEIGHT, WIDTH]`.
- Movement code `2a` decrements axis `a` and code `2a + 1` increments it, both modulo that axis' extent. Any other code leaves the head unchanged.

## Model

| member | source | states |
|---|---|---|
| TuringMachineMemory.Moved | src/turing_machine_memory.rs:29-36 | Only the axis named by the code changes. A code naming no axis (≥ 2·dims) leaves the head unchanged. A head inside the grid stays inside it. |
| TuringMachineMemory.MovedWrapsAround | src/turing_machine_memory.rs:31-32 | On every axis, a decrement from 0 gives extent − 1 and an increment from extent − 1 gives 0. |
| TuringMachineMemory.MovedUndo | src/turing_machine_memory.rs:75-79 | The decrement and increment codes of one axis undo each other, in either order. |
| TuringMachineMemory.Memory1D.constructor | src/turing_machine_memory.rs:17-22 | Every cell holds `fill` and the head is at the origin. |
| TuringMachineMemory.Memory1D.ReadMemory | src/turing_machine_memory.rs:23-25 | Returns the cell the head indexes. |
| TuringMachineMemory.Memory1D.WriteMemory | src/turing_machine_memory.rs:26-28 | The cell under the head becomes `symbol` and reads back as `symbol`. Every other cell and the head are unchanged. |
| TuringMachineMemory.Memory1D.MoveHead | src/turing_machine_memory.rs:29-36 | The new head is `Moved(old head, [WIDTH], code)` and stays in bounds. |
| TuringMachineMemory.Memory1D.GetMovementsByName | src/turing_machine_memory.rs:37-39 | Three names (2·1 + 1), the last being "stay". |
| TuringMachineMemory.Memory2D.constructor | src/turing_machine_memory.rs:61-66 | Every cell holds `fill` and the head is at the origin. |
| TuringMachineMemory.Memory2D.ReadMemory | src/turing_machine_memory.rs:67-69 | Returns the cell at `[row][column]` of the head. |
| TuringMachineMemory.Memory2D.WriteMemory | src/turing_machine_memory.rs:70-72 | Only the cell under the head changes, to `symbol`. The head is unchanged. |
| TuringMachineMemory.Memory2D.MoveHead | src/turing_machine_memory.rs:73-82 | The new head is `Moved(old head, [HEIGHT, WIDTH], code)`. Codes 0/1 move the row, 2/3 move the column. |
| TuringMachineMemory.Memory2D.GetMovementsByName | src/turing_machine_memory.rs:83-85 | Five names (2·2 + 1), the last being "stay". |
| TuringMachineMemory.Memory3D.constructor | src/turing_machine_memory.rs:112-117 | Every cell holds `fill` and the head is at the origin. |
| TuringMachineMemory.Memory3D.ReadMemory | src/turing_machine_memory.rs:118-120 | Returns the cell at `[layer][row][column]` of the head. |
| TuringMachineMemory.Memory3D.WriteMemory | src/turing_machine_memory.rs:121-123 | Only the cell under the head changes, to `symbol`. The head is unchanged. |
| TuringMachineMemory.Memory3D.MoveHead | src/turing_machine_memory.rs:124-137 | The new head is `Moved(old head, [DEPTH, HEIGHT, WIDTH], code)`. Codes 0/1 move the layer, 2/3 the row, 4/5 the column. |
| TuringMachineMemory.Memory3D.GetMovementsByName | src/turing_machine_memory.rs:138-140 | Seven names (2·3 + 1), the last being "stay". |
| MemoryInterface.NewMemory | src/turing_machine_memory.rs:4 | `M::new(fill)` for a chosen shape: a fresh, valid memory with the shape's extents, head at the origin, and every cell holding `fill`. |
| MemoryInterface.Memory.ReadMemory | src/turing_machine_memory.rs:5 | For each variant, the value of the cell under the head. |
| MemoryInterface.Memory.WriteMemory | src/turing_machine_memory.rs:6 | For each variant, only the cell under the head changes, and it reads back as `symbol`. The head is unchanged. |
| MemoryInterface.Memory.MoveHead | src/turing_machine_memory.rs:7 | For each variant, the head moves as `Moved` says and no cell changes. |
| MemoryInterface.Memory.GetMovementsByName | src/turing_machine_memory.rs:8 | For each variant, 2·dims + 1 names ending in "stay". |
| Rulesets.RuleSets.constructor | src/rulesets.rs:12-19 | Stores the three counts and starts with no rules. |
| Rulesets.RuleSets.PossibleRules | src/rulesets.rs:20-25 | `states²·symbols²·movements` equals `possible_inputs² · movements`, where `possible_inputs` is `states·symbols`. |
| Rulesets.RuleSets.Binom | src/rulesets.rs:29-35 | Returns the binomial coefficient `C(n, k)` (0 when k > n). The loop invariant is that the accumulator equals `C(n, i)` after `i` rounds. |
| Rulesets.BinomStepExact | src/rulesets.rs:32 | Each division in `binom` is exact: `C(n, i)·(n − i)` is a multiple of `i + 1`, with quotient `C(n, i + 1)`. |
| Rulesets.ChooseAbsorption | src/rulesets.rs:32 | The identity `(k + 1)·C(n, k + 1) = (n − k)·C(n, k)` that makes each step of `binom` exact. |
| Rulesets.RuleSets.PossibleRuleSets | src/rulesets.rs:26-28 | Equals `C(possible_rules, possible_inputs)`. |
| Rulesets.RuleSets.RandomRuleset | src/rulesets.rs:37-57 | Existing rules are kept and `Generated(draws)` is appended, so the table grows by exactly `possible_inputs` rules. Exactly `3 + 6·states·symbols` draws are consumed. |
| Rulesets.Generated | src/rulesets.rs:42-50 | The generated table has `states·symbols` rules. Each has next state < states, next symbol < symbols and movement < movements. |
| Rulesets.GeneratedPrefix | src/rulesets.rs:42-46 | The rule at offset `s·symbols + y` has prefix `(s, y)`. |
| Rulesets.GeneratedPairAt | src/rulesets.rs:42-46 | The rule at offset `k` has prefix `(k / symbols, k % symbols)`, which is row-major order. |
| Rulesets.EmitStep | src/rulesets.rs:44-54 | One round of the inner loop: the rule built from the accumulators extends the generated prefix by one, and the accumulators advance by draws 6k+6 to 6k+8. |
| Rulesets.GeneratedIsTotal | src/rulesets.rs:42-50 | A generated table is total: every pair in `[0, states) × [0, symbols)` has a rule, no two rules share a prefix, and every prefix is in range. |
| Rulesets.WalkUsesOnlyItsDraws | src/rulesets.rs:38-54 | The accumulators before pair `k` depend only on the first `3 + 6k` draws. |
| Rulesets.GeneratedUsesOnlyItsDraws | src/rulesets.rs:37-57 | Determinism: two draw sequences that agree on the consumed prefix give the same table. |
| Rulesets.Edit | src/rulesets.rs:63-68 | One edit keeps the length and every other rule. In the chosen rule only the chosen field changes, and it becomes `(old + 1) % bound`. The bound is states, symbols or movements for field 0, 1 or 2. |
| Rulesets.RuleSets.MutateRuleset | src/rulesets.rs:59-68 | The table becomes `Mutated(old table, draws, changes)`. The log holds each edit's index, field and resulting rule. Exactly `2·changes` draws are consumed. A rule index must exist, so a non-empty table is needed once `changes > 0`. |
| Rulesets.Mutated | src/rulesets.rs:59-68 | Mutation keeps the table length. |
| Rulesets.MutationLogEntries | src/rulesets.rs:69-72 | Entry `j` of the log names the drawn rule and field, and shows that rule right after edit `j`. |
| Rulesets.MutatedUsesOnlyItsDraws | src/rulesets.rs:60-62 | Determinism: `changes` edits depend only on their `2·changes` draws. |
| Rulesets.MutatedKeepsOutputs | src/rulesets.rs:63-68 | No edit changes field 3 (next symbol) or field 4 (movement) of any rule. |
| Rulesets.MutatedKeepsUnselected | src/rulesets.rs:61-68 | A rule that no edit selected is unchanged. |
| Rulesets.NextStateCanLeaveRange | src/rulesets.rs:66 | With 3 states and 4 movements, bumping next state 2 gives 3, which is outside `[0, states)`. |
| Rulesets.PrefixMutationBreaksTotality | src/rulesets.rs:64 | After editing field 0 of a generated table's first rule, the pair (0, 0) has no rule and two rules share the prefix (1, 0). |
| Tm.FirstMatch | src/tm.rs:25-28 | The lowest index whose rule matches `(state, symbol)`, or none exactly when no rule matches. |
| Tm.FindRule | src/tm.rs:25-29 | The `find` scan returns `FirstMatch`. |
| Tm.GeneratedLookup | src/tm.rs:25-28 | In a generated table, the lookup for `(s, y)` hits offset `s·symbols + y`. |
| Rulesets.IntendedEdit | src/rulesets.rs:64-66 | The intended edit: the same frame as `Edit`, but the chosen field becomes `(old + 1) % IntendedBound`, so field 2 wraps at `states`, like field 0. |
| Rulesets.IntendedEditKeepsOutputs | src/rulesets.rs:64-66 | With the intended bound, every edit of a table whose outputs are in range leaves them in range. |
| Rulesets.IntendedNextStateEditKeepsTotal | src/rulesets.rs:66 | A field-2 edit changes no prefix, so a total table stays total. |
| Tm.IntendedNextStateEditNeverStrands | src/rulesets.rs:66 | After an intended field-2 edit of a generated table, every input pair finds a rule and its next state is below `states`. |
| Tm.NextStateMutationStrands | src/rulesets.rs:66 | Mutating a next state `states − 1` of a generated table, with the `movements` modulus of `mutate_ruleset`, gives the state `states`. No rule matches that state, so the machine would stop there. |
| Tm.TM.constructor | src/tm.rs:11-17 | State 0, no rules, a fresh memory of the chosen shape with every cell 0 and the head at the origin. |
| Tm.TM.InsertRules | src/tm.rs:18-20 | The table is replaced by the argument. The state and the memory are unchanged. |
| Tm.TM.Step | src/tm.rs:22-34 | If `FirstMatch` finds rule k: the state becomes field 2, the old head cell holds field 3, the head moves by field 4, other cells and the rules are unchanged. If no rule matches: the outcome is `NoRule(state, symbol)` and nothing changes. A confined configuration stays confined and always steps. |
| Tm.TM.Fire | src/tm.rs:31-33 | The updates of a found rule: set the state, write, then move. |
| Tm.ConfinedLookup | src/tm.rs:25-29 | In a table covering all pairs, with outputs in range, the lookup for an in-range pair succeeds and leads back into range. |
| Tm.StepExample | src/tm.rs:31-33 | The example: rule (1, 0) → (2, 1, right) on a 4-cell tape, head at cell 2, state 1. One step gives state 2, cell 2 holding 1, head at 3. |
| Tm.FreshMachineHasNoRule | src/tm.rs:29 | A new machine has no rules, so its first step finds none for (0, 0). This is where the Rust code panics. |
| Tm.LoadedMachineConfined | src/tm.rs:11-20 | A new machine loaded with a generated table is confined: state and cells in range, every pair covered, outputs in range. |
| Tm.LoadGenerated | src/rulesets.rs:37-57 | Builds a machine with a generated table, and that machine is confined. |
| Tm.RunConfined | src/tm.rs:22-34 | From a confined configuration every one of `steps` steps succeeds. |
| Tm.RunGenerated | src/tm.rs:22-34 | With a freshly generated table every step finds a rule, and the control state stays below `states`. |

## Quirks kept as written

Two behaviours of `mutate_ruleset` look unintended. The model keeps them and proves what they lead to.

- **Field 2 wraps at the wrong bound.** Field 2, the next state, is reduced modulo `movements`, not `states` (src/rulesets.rs:66).
  - `Rulesets.NextStateCanLeaveRange` gives a concrete case.
  - `Tm.NextStateMutationStrands` shows that when `movements > states`, a mutated table can send the machine to state `states`, which has no rule.
  - The evidently intended behaviour, in which every field wraps at its own bound, is `Rulesets.IntendedBound` and `Rulesets.IntendedEdit`, with field 2 wrapping at `states`. `MutateRuleset` still uses the as-written `Edit`.
  - `Rulesets.IntendedEditKeepsOutputs` proves that every intended edit keeps all outputs in range. `Rulesets.IntendedNextStateEditKeepsTotal` proves that a field-2 edit keeps a total table total.
  - `Tm.IntendedNextStateEditNeverStrands` puts the two together. After an intended field-2 edit of a generated table, every input pair still finds a rule, and that rule's next state is below `states`. So the machine cannot be stranded as in `Tm.NextStateMutationStrands`.
- **Editing field 0 or 1 breaks totality.** When that happens, one pair can lose its rule and another can gain a second one. `Rulesets.PrefixMutationBreaksTotality` proves both for a generated table. The Rust code does not repair the table, and neither does the model.

## Left out

- The `Display` implementations and the `print!`/`println!` output of `mutate_ruleset`. They are text rendering. `MutateRuleset` instead returns the log entries `mutate_ruleset` prints: rule index, field and new rule.
- `src/main.rs`, the command-line wiring, is not part of this model. This includes its defaults and clamping, and the way it passes symbols and states to `RuleSets::new` in swapped order.
- The `rand` crate and its `SmallRng` algorithm are replaced by the explicit draw sequence, whose only contract is `0 <= draw < bound`.
- The `Memory` trait and the generic `TM<M: Memory>` become a datatype with one variant per memory class, so the variant is chosen at run time rather than at compile time.
- Tm.TM.Step: a missing rule makes `step` panic. Here it is the outcome `NoRule(state, symbol)`, which leaves the machine unchanged.
- Rulesets.RuleSets.Binom: `u128` overflow of `res * (n - i)` and `n - i` are not modelled. `binom` and `possible_rule_sets` are computed on unbounded numbers.
- Rulesets.RuleSets.PossibleRules: the `u128` products are unbounded here.
- Rulesets.RuleSets.RandomRuleset: requires every count to be at most 128, so that the `u8` sum of an accumulator and a draw cannot overflow. Above 128 the Rust `u8` addition at src/rulesets.rs:47-54 can overflow, and that case is not modelled.
- Rulesets.RuleSets.RandomRuleset: also requires every count to be positive (`GeneratorCounts`) and every draw to lie below its bound (`DrawsFit`). A zero count makes `gen_range(0..0)` panic at src/rulesets.rs:38-40, so the model has no outcome for that case.
- Rulesets.Edit: `old + 1` is computed on unbounded numbers, with no `u8` overflow. An edit itself never produces 255, because `(old + 1) % bound` is below a `u8` bound. But `rules` is public (src/rulesets.rs:8), so `mutate_ruleset` can be handed a table that `random_ruleset` did not build, with a 255 in a selected field. For such a field the Rust `+ 1` at src/rulesets.rs:64-66 panics in a debug build and wraps to 0 in a release build, giving `0 % bound`. The model gives `256 % bound` instead (1 for 3 states).
- Rulesets.MutationDrawsFit: requires each selected field to have a non-zero bound. A zero bound makes the Rust `%` panic.
- Rulesets.RuleSets.PossibleInputs: it is the product `states·symbols` and has no contract of its own. `PossibleRules` and `RandomRuleset` state what it counts.
