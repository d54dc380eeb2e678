/**
  The executor of `src/tm.rs`: a control state, one memory and a copy of the rule
  table.  A step looks up the first rule for (state, symbol under the head), then sets
  the state, writes the symbol and moves the head.  A missing rule, which the Rust code
  turns into a panic, is the outcome `NoRule` here and leaves the machine untouched.
*/
module Tm {
  import opened Primitives
  import opened TuringMachineMemory
  import opened MemoryInterface
  import opened Rulesets

  /** The lowest index of a rule with prefix `(state, symbol)`, if any. */
  function FirstMatch(rules: seq<Rule>, state: int, symbol: int): (r: Option<nat>)
    ensures r.Some? ==>
      r.value < |rules| && Matches(rules[r.value], state, symbol) &&
      forall j :: 0 <= j < r.value ==> !Matches(rules[j], state, symbol)
    ensures r.None? <==> !HasRuleFor(rules, state, symbol)
  {
    if rules == [] then None
    else if Matches(rules[0], state, symbol) then Some(0)
    else match FirstMatch(rules[1..], state, symbol)
      case None => None
      case Some(k) => Some(k + 1)
  }

  /** The `iter().find(..)` scan of `step`. */
  method FindRule(rules: seq<Rule>, state: int, symbol: int) returns (r: Option<nat>)
    ensures r == FirstMatch(rules, state, symbol)
  {
    var i := 0;
    while i < |rules|
      invariant 0 <= i <= |rules|
      invariant forall j :: 0 <= j < i ==> !Matches(rules[j], state, symbol)
    {
      if Matches(rules[i], state, symbol) {
        return Some(i);
      }
      i := i + 1;
    }
    return None;
  }

  /** In a freshly generated table the lookup for every input pair hits the pair's own offset. */
  lemma {:induction false} GeneratedLookup(states: int, symbols: int, movements: int,
                                           draws: seq<nat>, s: int, y: int)
    requires GeneratorCounts(states, symbols, movements)
    requires DrawsFit(states, symbols, movements, draws, GeneratorDraws(states, symbols))
    requires 0 <= s < states && 0 <= y < symbols
    ensures FirstMatch(Generated(states, symbols, movements, draws), s, y) == Some(s * symbols + y)
  {
    var t := Generated(states, symbols, movements, draws);
    GeneratedPrefix(states, symbols, movements, draws, s, y);
    var k := s * symbols + y;
    assert HasRuleFor(t, s, y);
    var j := FirstMatch(t, s, y).value;
    assert j <= k;
    GeneratedPairAt(states, symbols, movements, draws, j);
    DivModRecombine(j, s, y, symbols);
  }

  /**
    Mutating a next state as written (modulo `movements`) can produce the state
    `states`, for which no rule of the table exists, so the machine then stops.
  */
  lemma {:induction false} NextStateMutationStrands(states: U8, symbols: U8, movements: U8,
                                                    draws: seq<nat>, k: nat)
    requires GeneratorCounts(states, symbols, movements) && states < movements
    requires DrawsFit(states, symbols, movements, draws, GeneratorDraws(states, symbols))
    requires k < states * symbols
    requires Generated(states, symbols, movements, draws)[k][2] == states - 1
    ensures var g := Generated(states, symbols, movements, draws);
      var t := Edit(g, states, symbols, movements, k, 2);
      t[k][2] == states && forall y :: FirstMatch(t, states, y) == None
  {
    var g := Generated(states, symbols, movements, draws);
    var t := Edit(g, states, symbols, movements, k, 2);
    ModOfSmall(states, movements);
    GeneratedIsTotal(states, symbols, movements, draws);
    forall y
      ensures FirstMatch(t, states, y) == None
    {
      forall j | 0 <= j < |t|
        ensures !Matches(t[j], states, y)
      {
        assert t[j][0] == g[j][0];
      }
    }
  }

  /**
    With the intended modulus the same edit cannot strand the machine: every input pair
    of the edited table still finds a rule, and that rule's next state is below `states`.
  */
  lemma {:induction false} IntendedNextStateEditNeverStrands(states: U8, symbols: U8, movements: U8,
                                                             draws: seq<nat>, k: nat)
    requires GeneratorCounts(states, symbols, movements)
    requires DrawsFit(states, symbols, movements, draws, GeneratorDraws(states, symbols))
    requires k < states * symbols
    ensures var g := Generated(states, symbols, movements, draws);
      var t := IntendedEdit(g, states, symbols, k, 2);
      t[k][2] < states &&
      forall s, y :: 0 <= s < states && 0 <= y < symbols ==>
        FirstMatch(t, s, y).Some? && t[FirstMatch(t, s, y).value][2] < states
  {
    var g := Generated(states, symbols, movements, draws);
    var t := IntendedEdit(g, states, symbols, k, 2);
    GeneratedIsTotal(states, symbols, movements, draws);
    IntendedNextStateEditKeepsTotal(g, states, symbols, k);
    IntendedEditKeepsOutputs(g, states, symbols, movements, k, 2);
    forall s, y | 0 <= s < states && 0 <= y < symbols
      ensures FirstMatch(t, s, y).Some? && t[FirstMatch(t, s, y).value][2] < states
    {
      ConfinedLookup(t, states, symbols, movements, s, y);
    }
  }

  datatype StepOutcome = Stepped | NoRule(state: U8, symbol: U8)

  /** `TM<M: Memory>`: the control state, the memory and the active rule table. */
  class TM {
    var state: U8
    const memory: Memory
    var rules: seq<Rule>

    ghost predicate Valid()
      reads this, memory.Repr()
    {
      memory.Valid()
    }

    /**
      The machine stays inside a configuration: its state and every cell are in range,
      every input pair has a rule, and every rule leads back into the configuration.
    */
    ghost predicate Confined(states: int, symbols: int, movements: int)
      reads this, memory.Repr()
    {
      Valid() && memory.Shaped() && state < states && memory.CellsBelow(symbols) &&
      Covers(rules, states, symbols) && OutputsInRange(rules, states, symbols, movements)
    }

    /** `TM::new`: state 0, memory of the chosen shape filled with 0, no rules. */
    constructor (shape: Shape)
      requires shape.Valid()
      ensures Valid() && fresh(memory.Repr())
      ensures state == 0 && rules == []
      ensures memory.Extents() == shape.Extents() && memory.Head() == Origin(|shape.Extents()|)
      ensures forall p :: InBounds(p, memory.Extents()) ==> memory.ValueAt(p) == 0
    {
      state := 0;
      var m := NewMemory(shape, 0);
      memory := m;
      rules := [];
    }

    /** `insert_rules`: the table is replaced; state and memory stay as they are. */
    method InsertRules(rules: seq<Rule>)
      requires Valid()
      modifies this
      ensures Valid() && this.rules == rules && state == old(state)
      ensures unchanged(memory.Repr())
    {
      this.rules := rules;
    }

    /** `step`: one transition by the first matching rule. */
    method Step() returns (outcome: StepOutcome)
      requires Valid()
      modifies this, memory.Repr()
      ensures Valid() && rules == old(rules)
      ensures match FirstMatch(rules, old(state), old(memory.ReadMemory()))
        case None =>
          outcome == NoRule(old(state), old(memory.ReadMemory())) &&
          state == old(state) && unchanged(memory.Repr())
        case Some(k) =>
          outcome == Stepped && state == rules[k][2] &&
          memory.Head() == Moved(old(memory.Head()), memory.Extents(), rules[k][4]) &&
          forall p :: InBounds(p, memory.Extents()) ==>
            memory.ValueAt(p) ==
              if p == old(memory.Head()) then rules[k][3] else old(memory.ValueAt(p))
      ensures forall n, m, mv ::
        old(Confined(n, m, mv)) ==> outcome == Stepped && Confined(n, m, mv)
    {
      var field := memory.ReadMemory();
      forall n, m, mv | Confined(n, m, mv)
        ensures FirstMatch(rules, state, field).Some?
        ensures rules[FirstMatch(rules, state, field).value][2] < n
        ensures rules[FirstMatch(rules, state, field).value][3] < m
      {
        ConfinedLookup(rules, n, m, mv, state, field);
      }
      var found := FindRule(rules, state, field);
      match found
      case None =>
        outcome := NoRule(state, field);
      case Some(k) =>
        Fire(k);
        outcome := Stepped;
    }

    /** The updates of `step` once rule `k` was found: new state, write, then move. */
    method Fire(k: nat)
      requires Valid() && k < |rules|
      modifies this, memory.Repr()
      ensures Valid() && rules == old(rules) && state == rules[k][2]
      ensures memory.Head() == Moved(old(memory.Head()), memory.Extents(), rules[k][4])
      ensures forall p :: InBounds(p, memory.Extents()) ==>
        memory.ValueAt(p) == if p == old(memory.Head()) then rules[k][3] else old(memory.ValueAt(p))
    {
      var rule := rules[k];
      state := rule[2];
      memory.WriteMemory(rule[3]);
      memory.MoveHead(rule[4]);
    }
  }

  /** In a confined configuration the lookup succeeds and its rule leads back into range. */
  lemma ConfinedLookup(rules: seq<Rule>, states: int, symbols: int, movements: int, state: int,
                       symbol: int)
    requires Covers(rules, states, symbols) && OutputsInRange(rules, states, symbols, movements)
    requires 0 <= state < states && 0 <= symbol < symbols
    ensures FirstMatch(rules, state, symbol).Some?
    ensures rules[FirstMatch(rules, state, symbol).value][2] < states
    ensures rules[FirstMatch(rules, state, symbol).value][3] < symbols
  {
    assert HasRuleFor(rules, state, symbol);
  }

  /**
    The step example: rule (1, 0) -> (2, 1, right) on a 1D tape of width 4, head at
    cell 2 holding 0, state 1.  One step gives state 2, cell 2 holding 1, head at 3.
  */
  method StepExample() returns (state: U8, cell: U8, head: seq<int>)
    ensures state == 2 && cell == 1 && head == [3]
  {
    var tm := new TM(Line(4));
    tm.memory.MoveHead(1);
    tm.memory.MoveHead(1);
    tm.state := 1;
    tm.InsertRules([[1, 0, 2, 1, 1]]);
    assert tm.memory.Head() == [2];
    assert FirstMatch(tm.rules, 1, 0) == Some(0);
    var outcome := tm.Step();
    state := tm.state;
    cell := tm.memory.ValueAt([2]);
    head := tm.memory.Head();
  }

  /** A fresh machine has no rules, so its first step finds none for (0, 0). */
  method FreshMachineHasNoRule(shape: Shape) returns (outcome: StepOutcome)
    requires shape.Valid()
    ensures outcome == NoRule(0, 0)
  {
    var tm := new TM(shape);
    assert tm.memory.Head() == Origin(|shape.Extents()|);
    outcome := tm.Step();
  }

  /** A machine in state 0 over a blank memory, loaded with a generated table, is confined. */
  lemma LoadedMachineConfined(tm: TM, states: U8, symbols: U8, movements: U8, draws: seq<nat>)
    requires GeneratorCounts(states, symbols, movements)
    requires DrawsFit(states, symbols, movements, draws, GeneratorDraws(states, symbols))
    requires tm.Valid() && tm.state == 0 && tm.rules == Generated(states, symbols, movements, draws)
    requires forall p :: InBounds(p, tm.memory.Extents()) ==> tm.memory.ValueAt(p) == 0
    ensures tm.Confined(states, symbols, movements)
  {
    GeneratedIsTotal(states, symbols, movements, draws);
    assert tm.memory.Shaped();
  }

  /** A new machine of the given shape, loaded with the table `random_ruleset` generates. */
  method LoadGenerated(shape: Shape, states: U8, symbols: U8, movements: U8, draws: seq<nat>)
    returns (tm: TM)
    requires shape.Valid() && GeneratorCounts(states, symbols, movements)
    requires DrawsFit(states, symbols, movements, draws, GeneratorDraws(states, symbols))
    ensures fresh(tm) && fresh(tm.memory.Repr())
    ensures tm.rules == Generated(states, symbols, movements, draws)
    ensures tm.Confined(states, symbols, movements)
  {
    var table := new RuleSets(states, symbols, movements);
    var _ := table.RandomRuleset(draws);
    tm := new TM(shape);
    tm.InsertRules(table.rules);
    LoadedMachineConfined(tm, states, symbols, movements, draws);
  }

  /** From a confined configuration every one of `steps` steps succeeds. */
  method RunConfined(tm: TM, states: U8, symbols: U8, movements: U8, steps: nat)
    returns (outcomes: seq<StepOutcome>)
    requires tm.Confined(states, symbols, movements)
    modifies tm, tm.memory.Repr()
    ensures |outcomes| == steps && forall i :: 0 <= i < steps ==> outcomes[i] == Stepped
    ensures tm.Confined(states, symbols, movements)
  {
    outcomes := [];
    for i := 0 to steps
      invariant tm.Confined(states, symbols, movements)
      invariant |outcomes| == i && forall j :: 0 <= j < i ==> outcomes[j] == Stepped
    {
      var outcome := tm.Step();
      outcomes := outcomes + [outcome];
    }
  }

  /**
    A machine loaded with a freshly generated table never meets a missing rule: every
    one of `steps` steps succeeds and the control state stays below `states`.
  */
  method RunGenerated(shape: Shape, states: U8, symbols: U8, movements: U8, draws: seq<nat>,
                      steps: nat)
    returns (outcomes: seq<StepOutcome>, finalState: U8)
    requires shape.Valid() && GeneratorCounts(states, symbols, movements)
    requires DrawsFit(states, symbols, movements, draws, GeneratorDraws(states, symbols))
    ensures |outcomes| == steps && forall i :: 0 <= i < steps ==> outcomes[i] == Stepped
    ensures finalState < states
  {
    var tm := LoadGenerated(shape, states, symbols, movements, draws);
    outcomes := RunConfined(tm, states, symbols, movements, steps);
    finalState := tm.state;
  }
}
