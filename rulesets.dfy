/**
  The rule table of `src/rulesets.rs`: a generator that emits one rule per
  (state, symbol) pair from a correlated random walk, a mutator that bumps single
  fields of randomly chosen rules, and closed-form counts of the rule space.

  Randomness is an explicit sequence of draws: the generator and the mutator read it
  from the front, in the order the Rust code calls `gen_range`, and hand back what they
  did not consume.  Each draw must lie in the range `gen_range` is given.
*/
module Rulesets {
  import opened Primitives

  /** A rule `[state, symbol, next_state, next_symbol, movement]` (the Rust `[u8; 5]`). */
  type Rule = r: seq<U8> | |r| == 5 witness [0, 0, 0, 0, 0]

  /** The rule's prefix is the input pair `(state, symbol)`. */
  predicate Matches(rule: Rule, state: int, symbol: int) {
    rule[0] == state && rule[1] == symbol
  }

  ghost predicate HasRuleFor(rules: seq<Rule>, state: int, symbol: int) {
    exists k :: 0 <= k < |rules| && Matches(rules[k], state, symbol)
  }

  /** Every input pair of `[0, states) x [0, symbols)` has a rule. */
  ghost predicate Covers(rules: seq<Rule>, states: int, symbols: int) {
    forall s, y :: 0 <= s < states && 0 <= y < symbols ==> HasRuleFor(rules, s, y)
  }

  /** No two rules share a prefix. */
  ghost predicate PrefixesDistinct(rules: seq<Rule>) {
    forall j, k :: 0 <= j < k < |rules| ==> !Matches(rules[k], rules[j][0], rules[j][1])
  }

  ghost predicate PrefixesInRange(rules: seq<Rule>, states: int, symbols: int) {
    forall k :: 0 <= k < |rules| ==> rules[k][0] < states && rules[k][1] < symbols
  }

  /** The table is a total function from `[0, states) x [0, symbols)`: exactly one rule per pair. */
  ghost predicate Total(rules: seq<Rule>, states: int, symbols: int) {
    Covers(rules, states, symbols) && PrefixesDistinct(rules) &&
    PrefixesInRange(rules, states, symbols)
  }

  /** Every rule leads to a state, a symbol and a movement code inside the configuration. */
  ghost predicate OutputsInRange(rules: seq<Rule>, states: int, symbols: int, movements: int) {
    forall k :: 0 <= k < |rules| ==>
      rules[k][2] < states && rules[k][3] < symbols && rules[k][4] < movements
  }

  //
  // Arithmetic on the row-major pair index `s * symbols + y`.
  //

  lemma MulAtLeast(a: int, n: int)
    requires a >= 1 && n > 0
    ensures a * n >= n
  {
  }

  lemma {:induction false} PairIndex(s: int, y: int, n: int)
    requires 0 <= s && 0 <= y < n
    ensures (s * n + y) / n == s && (s * n + y) % n == y
  {
    var k := s * n + y;
    var q, r := k / n, k % n;
    assert k == q * n + r;
    assert (s - q) * n == r - y;
    if s > q {
      MulAtLeast(s - q, n);
    } else if s < q {
      MulAtLeast(q - s, n);
    }
  }

  /** An index is recovered from its quotient and remainder. */
  lemma DivModRecombine(k: int, s: int, y: int, n: int)
    requires n > 0 && k / n == s && k % n == y
    ensures k == s * n + y
  {
  }

  lemma {:induction false} PairBelow(s: int, y: int, states: int, symbols: int)
    requires 0 <= s < states && 0 <= y < symbols
    ensures s * symbols + y < states * symbols
  {
    assert states * symbols == s * symbols + (states - s) * symbols;
    MulAtLeast(states - s, symbols);
  }

  lemma MulMonotone(a: int, b: int, n: int)
    requires a <= b && n >= 0
    ensures a * n <= b * n
  {
  }

  lemma {:induction false} RowBelow(k: int, states: int, symbols: int)
    requires 0 <= k < states * symbols && symbols > 0
    ensures 0 <= k / symbols < states
  {
    var q := k / symbols;
    assert k == q * symbols + k % symbols;
    if q >= states {
      MulMonotone(states, q, symbols);
    }
  }

  //
  // The generator (`random_ruleset`) as a function of the draws.
  //

  /** Counts the generator handles without overflowing a `u8` in `acc + draw`. */
  predicate GeneratorCounts(states: int, symbols: int, movements: int) {
    0 < states <= 128 && 0 < symbols <= 128 && 0 < movements <= 128
  }

  /** How many draws `random_ruleset` consumes: three seeds, then six per pair. */
  function GeneratorDraws(states: nat, symbols: nat): nat {
    3 + 6 * (states * symbols)
  }

  /** The range of draw number `k`: `random_ruleset` draws states, symbols, movements in turn. */
  function DrawBound(states: int, symbols: int, movements: int, k: nat): int {
    if k % 3 == 0 then states else if k % 3 == 1 then symbols else movements
  }

  /** Draw number `k` lies in the range `gen_range` is given. */
  predicate DrawFits(states: int, symbols: int, movements: int, draws: seq<nat>, k: nat)
    requires k < |draws|
  {
    draws[k] < DrawBound(states, symbols, movements, k)
  }

  /** The first `count` draws exist and each lies in the range `gen_range` is given. */
  predicate DrawsFit(states: int, symbols: int, movements: int, draws: seq<nat>, count: nat) {
    count <= |draws| &&
    forall k :: 0 <= k < count ==> DrawFits(states, symbols, movements, draws, k)
  }

  /** The three running accumulators (`new_state`, `new_symbol`, `move_direction`). */
  datatype Walk = Walk(state: int, symbol: int, move: int)

  /**
    The accumulators just before the pair with row-major index `k` is emitted: seeded
    by draws 0..2, and advanced after each pair by the last three of its six draws.
  */
  function WalkAt(states: int, symbols: int, movements: int, draws: seq<nat>, k: nat): (w: Walk)
    requires GeneratorCounts(states, symbols, movements)
    requires DrawsFit(states, symbols, movements, draws, 3 + 6 * k)
    ensures 0 <= w.state < states && 0 <= w.symbol < symbols && 0 <= w.move < movements
  {
    if k == 0 then
      assert DrawFits(states, symbols, movements, draws, 0);
      assert DrawFits(states, symbols, movements, draws, 1);
      assert DrawFits(states, symbols, movements, draws, 2);
      Walk(draws[0], draws[1], draws[2])
    else
      var w := WalkAt(states, symbols, movements, draws, k - 1);
      var b := 6 * k;
      Walk((w.state + draws[b]) % states, (w.symbol + draws[b + 1]) % symbols,
           (w.move + draws[b + 2]) % movements)
  }

  /** The rule emitted for the pair with row-major index `k`. */
  function RuleAt(states: int, symbols: int, movements: int, draws: seq<nat>, k: nat): Rule
    requires GeneratorCounts(states, symbols, movements) && k < states * symbols
    requires DrawsFit(states, symbols, movements, draws, GeneratorDraws(states, symbols))
  {
    RowBelow(k, states, symbols);
    var w := WalkAt(states, symbols, movements, draws, k);
    var b := 3 + 6 * k;
    [k / symbols, k % symbols, (w.state + draws[b]) % states, (w.symbol + draws[b + 1]) % symbols,
     (w.move + draws[b + 2]) % movements]
  }

  /** Everything `random_ruleset` appends, in push order. */
  function Generated(states: int, symbols: int, movements: int, draws: seq<nat>): (r: seq<Rule>)
    requires GeneratorCounts(states, symbols, movements)
    requires DrawsFit(states, symbols, movements, draws, GeneratorDraws(states, symbols))
    ensures |r| == states * symbols
    ensures OutputsInRange(r, states, symbols, movements)
  {
    seq(states * symbols,
        k requires 0 <= k < states * symbols => RuleAt(states, symbols, movements, draws, k))
  }

  /** The walk at offset `k` is decided by the draws it consumed and by nothing later. */
  lemma {:induction false} WalkUsesOnlyItsDraws(states: int, symbols: int, movements: int,
                                                d1: seq<nat>, d2: seq<nat>, k: nat)
    requires GeneratorCounts(states, symbols, movements)
    requires DrawsFit(states, symbols, movements, d1, 3 + 6 * k)
    requires DrawsFit(states, symbols, movements, d2, 3 + 6 * k)
    requires d1[..3 + 6 * k] == d2[..3 + 6 * k]
    ensures WalkAt(states, symbols, movements, d1, k) == WalkAt(states, symbols, movements, d2, k)
  {
    assert forall i :: 0 <= i < 3 + 6 * k ==> d1[i] == d1[..3 + 6 * k][i];
    assert forall i :: 0 <= i < 3 + 6 * k ==> d2[i] == d2[..3 + 6 * k][i];
    if k > 0 {
      assert d1[..3 + 6 * (k - 1)] == d1[..3 + 6 * k][..3 + 6 * (k - 1)];
      assert d2[..3 + 6 * (k - 1)] == d2[..3 + 6 * k][..3 + 6 * (k - 1)];
      WalkUsesOnlyItsDraws(states, symbols, movements, d1, d2, k - 1);
    }
  }

  /**
    Determinism: two draw sequences that agree on the draws the generator consumes
    give the same table, whatever follows.
  */
  lemma {:induction false} GeneratedUsesOnlyItsDraws(states: int, symbols: int, movements: int,
                                                     d1: seq<nat>, d2: seq<nat>)
    requires GeneratorCounts(states, symbols, movements)
    requires DrawsFit(states, symbols, movements, d1, GeneratorDraws(states, symbols))
    requires DrawsFit(states, symbols, movements, d2, GeneratorDraws(states, symbols))
    requires d1[..GeneratorDraws(states, symbols)] == d2[..GeneratorDraws(states, symbols)]
    ensures Generated(states, symbols, movements, d1) == Generated(states, symbols, movements, d2)
  {
    var n := GeneratorDraws(states, symbols);
    assert forall i :: 0 <= i < n ==> d1[i] == d1[..n][i];
    assert forall i :: 0 <= i < n ==> d2[i] == d2[..n][i];
    forall k | 0 <= k < states * symbols
      ensures RuleAt(states, symbols, movements, d1, k) == RuleAt(states, symbols, movements, d2, k)
    {
      assert d1[..3 + 6 * k] == d1[..n][..3 + 6 * k];
      assert d2[..3 + 6 * k] == d2[..n][..3 + 6 * k];
      WalkUsesOnlyItsDraws(states, symbols, movements, d1, d2, k);
    }
  }

  /** The rule at offset `s * symbols + y` has prefix `(s, y)`. */
  lemma {:induction false} GeneratedPrefix(states: int, symbols: int, movements: int,
                                           draws: seq<nat>, s: int, y: int)
    requires GeneratorCounts(states, symbols, movements)
    requires DrawsFit(states, symbols, movements, draws, GeneratorDraws(states, symbols))
    requires 0 <= s < states && 0 <= y < symbols
    ensures s * symbols + y < states * symbols
    ensures Matches(Generated(states, symbols, movements, draws)[s * symbols + y], s, y)
  {
    PairBelow(s, y, states, symbols);
    PairIndex(s, y, symbols);
  }

  /** The rule at offset `k` carries the pair at `k` in row-major order. */
  lemma GeneratedPairAt(states: int, symbols: int, movements: int, draws: seq<nat>, k: nat)
    requires GeneratorCounts(states, symbols, movements) && k < states * symbols
    requires DrawsFit(states, symbols, movements, draws, GeneratorDraws(states, symbols))
    ensures Generated(states, symbols, movements, draws)[k][0] == k / symbols
    ensures Generated(states, symbols, movements, draws)[k][1] == k % symbols
  {
    assert Generated(states, symbols, movements, draws)[k] ==
      RuleAt(states, symbols, movements, draws, k);
  }

  /** The accumulators advance by the last three draws of pair `k`. */
  lemma WalkAdvance(states: int, symbols: int, movements: int, draws: seq<nat>, k: nat)
    requires GeneratorCounts(states, symbols, movements) && k < states * symbols
    requires DrawsFit(states, symbols, movements, draws, GeneratorDraws(states, symbols))
    ensures var w := WalkAt(states, symbols, movements, draws, k);
      WalkAt(states, symbols, movements, draws, k + 1) ==
        Walk((w.state + draws[6 + 6 * k]) % states, (w.symbol + draws[7 + 6 * k]) % symbols,
             (w.move + draws[8 + 6 * k]) % movements)
  {
  }

  /**
    The rule pushed for pair `(s, y)`, from the walk at its offset `k`, is the generated
    rule there.
  */
  lemma {:induction false} PushedRule(states: int, symbols: int, movements: int, draws: seq<nat>,
                                      s: int, y: int, k: nat)
    requires GeneratorCounts(states, symbols, movements)
    requires DrawsFit(states, symbols, movements, draws, GeneratorDraws(states, symbols))
    requires 0 <= s < states && 0 <= y < symbols && k == s * symbols + y
    ensures k < states * symbols
    ensures var w := WalkAt(states, symbols, movements, draws, k);
      Generated(states, symbols, movements, draws)[k] ==
        [s, y, (w.state + draws[3 + 6 * k]) % states, (w.symbol + draws[4 + 6 * k]) % symbols,
         (w.move + draws[5 + 6 * k]) % movements]
  {
    PairBelow(s, y, states, symbols);
    PairIndex(s, y, symbols);
    assert k / symbols == s && k % symbols == y;
    assert Generated(states, symbols, movements, draws)[k] ==
      RuleAt(states, symbols, movements, draws, k);
  }

  /**
    One turn of the generator's inner loop: the rule built from the walk at offset `k`
    extends the generated prefix by one, and the walk advances to offset `k + 1`.
  */
  lemma {:induction false} EmitStep(states: int, symbols: int, movements: int, draws: seq<nat>,
                                    s: int, y: int, k: nat, w: Walk, rule: seq<int>)
    requires GeneratorCounts(states, symbols, movements)
    requires DrawsFit(states, symbols, movements, draws, GeneratorDraws(states, symbols))
    requires 0 <= s < states && 0 <= y < symbols && k == s * symbols + y && k < states * symbols
    requires w == WalkAt(states, symbols, movements, draws, k)
    requires rule == [s, y, (w.state + draws[3 + 6 * k]) % states,
                      (w.symbol + draws[4 + 6 * k]) % symbols,
                      (w.move + draws[5 + 6 * k]) % movements]
    ensures var table := Generated(states, symbols, movements, draws);
      table[..k + 1] == table[..k] + [rule]
    ensures WalkAt(states, symbols, movements, draws, k + 1) ==
      Walk((w.state + draws[6 + 6 * k]) % states, (w.symbol + draws[7 + 6 * k]) % symbols,
           (w.move + draws[8 + 6 * k]) % movements)
  {
    PushedRule(states, symbols, movements, draws, s, y, k);
    var table := Generated(states, symbols, movements, draws);
    assert table[..k + 1] == table[..k] + [table[k]];
    WalkAdvance(states, symbols, movements, draws, k);
  }

  /** A freshly generated table has exactly one rule for every input pair, and no other rule. */
  lemma {:induction false} GeneratedIsTotal(states: int, symbols: int, movements: int,
                                            draws: seq<nat>)
    requires GeneratorCounts(states, symbols, movements)
    requires DrawsFit(states, symbols, movements, draws, GeneratorDraws(states, symbols))
    ensures Total(Generated(states, symbols, movements, draws), states, symbols)
  {
    var t := Generated(states, symbols, movements, draws);
    forall s, y | 0 <= s < states && 0 <= y < symbols
      ensures HasRuleFor(t, s, y)
    {
      GeneratedPrefix(states, symbols, movements, draws, s, y);
    }
    forall j, k | 0 <= j < k < |t|
      ensures !Matches(t[k], t[j][0], t[j][1])
    {
      assert j == (j / symbols) * symbols + j % symbols;
      assert k == (k / symbols) * symbols + k % symbols;
    }
    forall k | 0 <= k < |t|
      ensures t[k][0] < states && t[k][1] < symbols
    {
      RowBelow(k, states, symbols);
    }
  }

  //
  // The mutator (`mutate_ruleset`) as a function of the draws.
  //

  /**
    The modulus `mutate_ruleset` uses for each field, as the Rust code is written:
    field 0 wraps at `states`, field 1 at `symbols`, and field 2 (the next state)
    at `movements`.
  */
  function MutationBound(states: U8, symbols: U8, movements: U8, field: nat): U8 {
    if field == 0 then states else if field == 1 then symbols else movements
  }

  /** One edit: field `field` of rule `index` becomes its successor modulo the field's bound. */
  function Edit(rules: seq<Rule>, states: U8, symbols: U8, movements: U8, index: nat,
                field: nat): (r: seq<Rule>)
    requires index < |rules| && field < 3 && MutationBound(states, symbols, movements, field) > 0
    ensures |r| == |rules|
    ensures forall j :: 0 <= j < |r| && j != index ==> r[j] == rules[j]
    ensures forall g :: 0 <= g < 5 && g != field ==> r[index][g] == rules[index][g]
    ensures r[index][field] ==
      (rules[index][field] + 1) % MutationBound(states, symbols, movements, field)
  {
    var bound := MutationBound(states, symbols, movements, field);
    rules[index := rules[index][field := (rules[index][field] + 1) % bound]]
  }

  /** The rule index drawn for edit number `j`. */
  function EditIndex(draws: seq<nat>, j: nat): nat
    requires 2 * j < |draws|
  {
    draws[2 * j]
  }

  /** The field selector drawn for edit number `j`. */
  function EditField(draws: seq<nat>, j: nat): nat
    requires 2 * j + 1 < |draws|
  {
    draws[2 * j + 1]
  }

  /**
    The draws for `changes` edits exist and are in range: an index below the table
    length, a selector below 3, and the selected field's modulus non-zero (a zero
    modulus makes `%` panic).
  */
  predicate MutationDrawsFit(size: nat, states: U8, symbols: U8, movements: U8, draws: seq<nat>,
                             changes: nat) {
    2 * changes <= |draws| &&
    forall j :: 0 <= j < changes ==>
      EditIndex(draws, j) < size && EditField(draws, j) < 3 &&
      MutationBound(states, symbols, movements, EditField(draws, j)) > 0
  }

  /** The table after the first `n` edits of the draw sequence. */
  function Mutated(rules: seq<Rule>, states: U8, symbols: U8, movements: U8, draws: seq<nat>,
                   n: nat): (r: seq<Rule>)
    requires MutationDrawsFit(|rules|, states, symbols, movements, draws, n)
    ensures |r| == |rules|
    decreases n
  {
    if n == 0 then rules
    else
      var prev := Mutated(rules, states, symbols, movements, draws, n - 1);
      Edit(prev, states, symbols, movements, EditIndex(draws, n - 1), EditField(draws, n - 1))
  }

  /** A log entry of `mutate_ruleset`: which rule, which field, and the rule afterwards. */
  datatype Mutation = Mutation(index: nat, field: nat, rule: Rule)

  /** What `mutate_ruleset` reports for its first `n` edits. */
  function MutationLog(rules: seq<Rule>, states: U8, symbols: U8, movements: U8, draws: seq<nat>,
                       n: nat): seq<Mutation>
    requires MutationDrawsFit(|rules|, states, symbols, movements, draws, n)
    decreases n
  {
    if n == 0 then []
    else
      var i := EditIndex(draws, n - 1);
      MutationLog(rules, states, symbols, movements, draws, n - 1) +
        [Mutation(i, EditField(draws, n - 1),
                  Mutated(rules, states, symbols, movements, draws, n)[i])]
  }

  /**
    Entry `j` of the log names the drawn rule and field and shows that rule right after
    edit `j`.
  */
  lemma {:induction false} MutationLogEntries(rules: seq<Rule>, states: U8, symbols: U8,
                                              movements: U8, draws: seq<nat>, n: nat)
    requires MutationDrawsFit(|rules|, states, symbols, movements, draws, n)
    ensures var log := MutationLog(rules, states, symbols, movements, draws, n);
      |log| == n &&
      forall j :: 0 <= j < n ==>
        log[j].index == EditIndex(draws, j) && log[j].field == EditField(draws, j) &&
        log[j].rule == Mutated(rules, states, symbols, movements, draws, j + 1)[EditIndex(draws, j)]
  {
    if n > 0 {
      MutationLogEntries(rules, states, symbols, movements, draws, n - 1);
      var prev := MutationLog(rules, states, symbols, movements, draws, n - 1);
      var log := MutationLog(rules, states, symbols, movements, draws, n);
      assert forall j :: 0 <= j < n - 1 ==> log[j] == prev[j];
    }
  }

  /** Determinism: `n` edits are decided by their `2 n` draws and by nothing later. */
  lemma {:induction false} MutatedUsesOnlyItsDraws(rules: seq<Rule>, states: U8, symbols: U8,
                                                   movements: U8, d1: seq<nat>, d2: seq<nat>,
                                                   n: nat)
    requires MutationDrawsFit(|rules|, states, symbols, movements, d1, n)
    requires MutationDrawsFit(|rules|, states, symbols, movements, d2, n)
    requires d1[..2 * n] == d2[..2 * n]
    ensures Mutated(rules, states, symbols, movements, d1, n) ==
      Mutated(rules, states, symbols, movements, d2, n)
  {
    if n > 0 {
      assert d1[..2 * (n - 1)] == d1[..2 * n][..2 * (n - 1)];
      assert d2[..2 * (n - 1)] == d2[..2 * n][..2 * (n - 1)];
      MutatedUsesOnlyItsDraws(rules, states, symbols, movements, d1, d2, n - 1);
      assert EditIndex(d1, n - 1) == EditIndex(d2, n - 1) by {
        assert d1[2 * n - 2] == d1[..2 * n][2 * n - 2] && d2[2 * n - 2] == d2[..2 * n][2 * n - 2];
      }
      assert EditField(d1, n - 1) == EditField(d2, n - 1) by {
        assert d1[2 * n - 1] == d1[..2 * n][2 * n - 1] && d2[2 * n - 1] == d2[..2 * n][2 * n - 1];
      }
    }
  }

  /** Mutation never touches the next symbol or the movement code of any rule. */
  lemma {:induction false} MutatedKeepsOutputs(rules: seq<Rule>, states: U8, symbols: U8,
                                               movements: U8, draws: seq<nat>, n: nat)
    requires MutationDrawsFit(|rules|, states, symbols, movements, draws, n)
    ensures forall k :: 0 <= k < |rules| ==>
      Mutated(rules, states, symbols, movements, draws, n)[k][3] == rules[k][3] &&
      Mutated(rules, states, symbols, movements, draws, n)[k][4] == rules[k][4]
  {
    if n > 0 {
      MutatedKeepsOutputs(rules, states, symbols, movements, draws, n - 1);
    }
  }

  /** A rule that no edit selected is unchanged. */
  lemma {:induction false} MutatedKeepsUnselected(rules: seq<Rule>, states: U8, symbols: U8,
                                                  movements: U8, draws: seq<nat>, n: nat, k: nat)
    requires MutationDrawsFit(|rules|, states, symbols, movements, draws, n)
    requires k < |rules| && forall j :: 0 <= j < n ==> EditIndex(draws, j) != k
    ensures Mutated(rules, states, symbols, movements, draws, n)[k] == rules[k]
  {
    if n > 0 {
      MutatedKeepsUnselected(rules, states, symbols, movements, draws, n - 1, k);
    }
  }

  /**
    Mutation as written can push a next state out of `[0, states)`: with 3 states and
    4 movements, bumping next state 2 gives 3.
  */
  lemma NextStateCanLeaveRange()
    ensures var rules: seq<Rule> := [[0, 0, 2, 0, 0]];
      Edit(rules, 3, 2, 4, 0, 2)[0][2] == 3
  {
  }

  /**
    The modulus the mutator evidently intends: every field wraps at its own bound, so
    field 2, a next state, wraps at `states` as field 0 does.
  */
  function IntendedBound(states: U8, symbols: U8, field: nat): U8 {
    if field == 1 then symbols else states
  }

  /** One edit with the intended modulus: `Edit` with field 2 wrapping at `states`. */
  function IntendedEdit(rules: seq<Rule>, states: U8, symbols: U8, index: nat,
                        field: nat): (r: seq<Rule>)
    requires index < |rules| && field < 3 && IntendedBound(states, symbols, field) > 0
    ensures |r| == |rules|
    ensures forall j :: 0 <= j < |r| && j != index ==> r[j] == rules[j]
    ensures forall g :: 0 <= g < 5 && g != field ==> r[index][g] == rules[index][g]
    ensures r[index][field] == (rules[index][field] + 1) % IntendedBound(states, symbols, field)
  {
    Edit(rules, states, symbols, states, index, field)
  }

  /**
    With the intended modulus every edit keeps the next state, next symbol and
    movement in range.
  */
  lemma IntendedEditKeepsOutputs(rules: seq<Rule>, states: U8, symbols: U8, movements: U8,
                                 index: nat, field: nat)
    requires OutputsInRange(rules, states, symbols, movements)
    requires index < |rules| && field < 3 && IntendedBound(states, symbols, field) > 0
    ensures OutputsInRange(IntendedEdit(rules, states, symbols, index, field),
                           states, symbols, movements)
  {
  }

  /** An edit of field 2 leaves every prefix alone, so a total table stays total. */
  lemma IntendedNextStateEditKeepsTotal(rules: seq<Rule>, states: U8, symbols: U8, index: nat)
    requires Total(rules, states, symbols) && index < |rules| && states > 0
    ensures Total(IntendedEdit(rules, states, symbols, index, 2), states, symbols)
  {
    var t := IntendedEdit(rules, states, symbols, index, 2);
    assert forall j :: 0 <= j < |t| ==> t[j][0] == rules[j][0] && t[j][1] == rules[j][1];
    forall s, y | 0 <= s < states && 0 <= y < symbols
      ensures HasRuleFor(t, s, y)
    {
      assert HasRuleFor(rules, s, y);
      var k :| 0 <= k < |rules| && Matches(rules[k], s, y);
      assert Matches(t[k], s, y);
    }
  }

  /**
    Mutating a prefix breaks totality: bumping the state of the first rule of a
    generated table (prefix (0, 0)) leaves (0, 0) without a rule and gives (1, 0) two.
  */
  lemma {:induction false} PrefixMutationBreaksTotality(states: U8, symbols: U8, movements: U8,
                                                        draws: seq<nat>)
    requires GeneratorCounts(states, symbols, movements) && states >= 2
    requires DrawsFit(states, symbols, movements, draws, GeneratorDraws(states, symbols))
    ensures var g := Generated(states, symbols, movements, draws);
      var t := Edit(g, states, symbols, movements, 0, 0);
      !HasRuleFor(t, 0, 0) && !PrefixesDistinct(t)
  {
    var g := Generated(states, symbols, movements, draws);
    GeneratedPrefix(states, symbols, movements, draws, 0, 0);
    GeneratedPrefix(states, symbols, movements, draws, 1, 0);
    var t := Edit(g, states, symbols, movements, 0, 0);
    ModOfSmall(1, states);
    assert Matches(t[0], 1, 0);
    assert Matches(t[symbols], t[0][0], t[0][1]);
  }

  //
  // Counting the rule space.
  //

  /** `u128::pow` on unbounded numbers. */
  function Pow(b: nat, e: nat): nat {
    if e == 0 then 1 else b * Pow(b, e - 1)
  }

  /** The binomial coefficient, by Pascal's rule. */
  function Choose(n: nat, k: nat): nat {
    if k == 0 then 1 else if n == 0 then 0 else Choose(n - 1, k - 1) + Choose(n - 1, k)
  }

  lemma Distribute(a: int, b: int, c: int)
    ensures a * (b + c) == a * b + a * c
    ensures (a + b) * c == a * c + b * c
  {
  }

  /** The absorption identity `(k + 1) C(n, k + 1) == (n - k) C(n, k)`, for every `n` and `k`. */
  lemma {:induction false} ChooseAbsorption(n: nat, k: nat)
    ensures (k + 1) * Choose(n, k + 1) == (n - k) * Choose(n, k)
  {
    if n == 0 {
      if k > 0 {
        assert Choose(0, k) == 0;
      }
    } else {
      var x, y := Choose(n - 1, k), Choose(n - 1, k + 1);
      ChooseAbsorption(n - 1, k);
      assert (k + 1) * y == (n - 1 - k) * x;
      // (k + 1) C(n, k + 1) == (k + 1) x + (k + 1) y == (k + 1) x + (n - 1 - k) x == n x
      assert Choose(n, k + 1) == x + y;
      Distribute(k + 1, x, y);
      Distribute(k + 1, n - 1 - k, x);
      assert (k + 1) * Choose(n, k + 1) == n * x;
      if k == 0 {
        assert Choose(n, 0) == 1 && x == 1;
      } else {
        var z := Choose(n - 1, k - 1);
        ChooseAbsorption(n - 1, k - 1);
        assert k * x == (n - k) * z;
        // (n - k) C(n, k) == (n - k) z + (n - k) x == k x + (n - k) x == n x
        assert Choose(n, k) == z + x;
        Distribute(n - k, z, x);
        Distribute(k, n - k, x);
      }
    }
  }

  /** Every division in `binom` is exact: `C(n, i) (n - i)` is a multiple of `i + 1`. */
  lemma {:induction false} BinomStepExact(n: nat, i: nat)
    ensures (Choose(n, i) * (n - i)) % (i + 1) == 0
    ensures (Choose(n, i) * (n - i)) / (i + 1) == Choose(n, i + 1)
  {
    ChooseAbsorption(n, i);
    var a, c := Choose(n, i), Choose(n, i + 1);
    assert a * (n - i) == c * (i + 1);
    DivideProduct(c, i + 1);
  }

  lemma DivideProduct(c: int, d: int)
    requires d > 0
    ensures (c * d) % d == 0 && (c * d) / d == c
  {
    var q, r := (c * d) / d, (c * d) % d;
    assert c * d == q * d + r;
    assert (c - q) * d == r;
    if c > q {
      MulAtLeast(c - q, d);
    } else if c < q {
      MulAtLeast(q - c, d);
    }
  }

  /** `RuleSets`: the configuration and the growing rule table. */
  class RuleSets {
    const states: U8
    const symbols: U8
    const movements: U8
    var rules: seq<Rule>

    /** `RuleSets::new`: the three counts, and no rules yet. */
    constructor (states: U8, symbols: U8, movements: U8)
      ensures this.states == states && this.symbols == symbols && this.movements == movements
      ensures rules == []
    {
      this.states, this.symbols, this.movements := states, symbols, movements;
      rules := [];
    }

    /** `possible_inputs`: the number of input pairs, one per rule of a total table. */
    function PossibleInputs(): nat {
      states * symbols
    }

    /** `possible_rules`: an input pair, a next pair and a movement code per rule. */
    function PossibleRules(): (r: nat)
      ensures r == PossibleInputs() * PossibleInputs() * movements
    {
      assert Pow(states, 2) == states * states by {
        assert Pow(states, 1) == states;
      }
      assert Pow(symbols, 2) == symbols * symbols by {
        assert Pow(symbols, 1) == symbols;
      }
      Pow(states, 2) * Pow(symbols, 2) * movements
    }

    /** `binom`: `res` runs through `C(n, 0), C(n, 1), ..., C(n, k)`. */
    static method Binom(n: nat, k: nat) returns (res: nat)
      ensures res == Choose(n, k)
    {
      var r: int := 1;
      for i := 0 to k
        invariant r == Choose(n, i)
      {
        BinomStepExact(n, i);
        r := (r * (n - i)) / (i + 1);
      }
      res := r;
    }

    /** `possible_rule_sets`: the ways to pick `possible_inputs` rules from all possible rules. */
    method PossibleRuleSets() returns (r: nat)
      ensures r == Choose(PossibleRules(), PossibleInputs())
    {
      r := Binom(PossibleRules(), PossibleInputs());
    }

    /**
      `random_ruleset`: appends one rule per input pair in row-major order, keeps the
      rules already present, and consumes exactly `GeneratorDraws(states, symbols)` draws.
    */
    method RandomRuleset(draws: seq<nat>) returns (rest: seq<nat>)
      requires GeneratorCounts(states, symbols, movements)
      requires DrawsFit(states, symbols, movements, draws, GeneratorDraws(states, symbols))
      modifies this
      ensures rules == old(rules) + Generated(states, symbols, movements, draws)
      ensures |rules| == |old(rules)| + PossibleInputs()
      ensures rest == draws[GeneratorDraws(states, symbols)..]
    {
      ghost var start := rules;
      ghost var table := Generated(states, symbols, movements, draws);
      ghost var k: nat := 0;  // pairs emitted so far
      var newState: int := draws[0];
      var newSymbol: int := draws[1];
      var moveDirection: int := draws[2];
      var pos := 3;
      for currentState := 0 to states
        invariant k == currentState * symbols && k <= |table|
        invariant pos == 3 + 6 * k
        invariant Walk(newState, newSymbol, moveDirection) ==
                  WalkAt(states, symbols, movements, draws, k)
        invariant rules == start + table[..k]
      {
        for currentSymbol := 0 to symbols
          invariant k == currentState * symbols + currentSymbol && k <= |table|
          invariant pos == 3 + 6 * k
          invariant Walk(newState, newSymbol, moveDirection) ==
                    WalkAt(states, symbols, movements, draws, k)
          invariant rules == start + table[..k]
        {
          PairBelow(currentState, currentSymbol, states, symbols);
          var rule: Rule := [
            currentState,
            currentSymbol,
            (newState + draws[pos]) % states,
            (newSymbol + draws[pos + 1]) % symbols,
            (moveDirection + draws[pos + 2]) % movements
          ];
          EmitStep(states, symbols, movements, draws, currentState, currentSymbol, k,
                   Walk(newState, newSymbol, moveDirection), rule);
          rules := rules + [rule];
          assert rules == start + table[..k + 1];
          newState := (newState + draws[pos + 3]) % states;
          newSymbol := (newSymbol + draws[pos + 4]) % symbols;
          moveDirection := (moveDirection + draws[pos + 5]) % movements;
          pos := pos + 6;
          k := k + 1;
        }
        assert (currentState + 1) * symbols == currentState * symbols + symbols;
      }
      assert table[..k] == table;
      rest := draws[pos..];
    }

    /**
      `mutate_ruleset`: `changes` edits, each drawing a rule index and a field selector;
      returns the log `mutate_ruleset` prints and the draws it did not consume.
    */
    method MutateRuleset(changes: U8, draws: seq<nat>) returns (log: seq<Mutation>, rest: seq<nat>)
      requires MutationDrawsFit(|rules|, states, symbols, movements, draws, changes)
      modifies this
      ensures rules == Mutated(old(rules), states, symbols, movements, draws, changes)
      ensures log == MutationLog(old(rules), states, symbols, movements, draws, changes)
      ensures rest == draws[2 * changes..]
    {
      ghost var start := rules;
      var pos := 0;
      log := [];
      for c := 0 to changes
        invariant pos == 2 * c
        invariant rules == Mutated(start, states, symbols, movements, draws, c)
        invariant log == MutationLog(start, states, symbols, movements, draws, c)
      {
        var ruleIndex := draws[pos];
        var changeIndex := draws[pos + 1];
        assert ruleIndex == EditIndex(draws, c) && changeIndex == EditField(draws, c);
        ghost var before := rules;
        pos := pos + 2;
        // the selector is below 3, so `mutate_ruleset`'s `_ => {}` arm is never taken
        if changeIndex == 0 {
          rules := rules[ruleIndex := rules[ruleIndex][0 := (rules[ruleIndex][0] + 1) % states]];
          assert rules == Edit(before, states, symbols, movements, ruleIndex, 0);
        } else if changeIndex == 1 {
          rules := rules[ruleIndex := rules[ruleIndex][1 := (rules[ruleIndex][1] + 1) % symbols]];
          assert rules == Edit(before, states, symbols, movements, ruleIndex, 1);
        } else {
          rules := rules[ruleIndex := rules[ruleIndex][2 := (rules[ruleIndex][2] + 1) % movements]];
          assert rules == Edit(before, states, symbols, movements, ruleIndex, 2);
        }
        assert rules == Mutated(start, states, symbols, movements, draws, c + 1);
        log := log + [Mutation(ruleIndex, changeIndex, rules[ruleIndex])];
      }
      rest := draws[pos..];
    }
  }
}
