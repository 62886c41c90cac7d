/** The whole machine, and passes over all tables in the order the scripts make them. */
module Machines {
  import opened Seqs
  import opened Text
  import opened Netfilter
  import opened Kernel

  type Tables = map<TabId, Chains>

  datatype Machine = Machine(tables: Tables, sets: Sets, step: Option<string>, version: nat)

  function Put(m: Machine, t: TabId, c: Chains): Machine {
    m.(tables := m.tables[t := c])
  }

  ghost predicate SoundTables(tables: Tables, sets: set<Name>) {
    forall t :: t in tables ==> SoundTable(tables[t], sets)
  }

  ghost predicate Sound(m: Machine) {
    SoundTables(m.tables, m.sets.Keys)
  }

  // ---------- sets ----------

  predicate NamesSet(rs: seq<Rule>, s: Name) {
    exists i, k :: 0 <= i < |rs| && 0 <= k < |rs[i].tests| && rs[i].tests[k].SetTest? && rs[i].tests[k].name == s
  }

  predicate SetUsed(tables: Tables, s: Name) {
    exists t, n :: t in tables && n in tables[t] && NamesSet(tables[t][n], s)
  }

  lemma SoundMoreSets(m: Machine, sets: Sets)
    requires Sound(m) && m.sets.Keys <= sets.Keys
    ensures Sound(m.(sets := sets))
  {
    forall t, n | t in m.tables && n in m.tables[t]
      ensures RulesFit(m.tables[t][n], m.tables[t].Keys, sets.Keys)
    {
      FitsMore(m.tables[t][n], m.tables[t].Keys, m.sets.Keys, m.tables[t].Keys, sets.Keys);
    }
  }

  lemma SoundWithoutSet(m: Machine, s: Name)
    requires Sound(m) && !SetUsed(m.tables, s)
    ensures Sound(m.(sets := m.sets - {s}))
  {
    forall t, n | t in m.tables && n in m.tables[t]
      ensures RulesFit(m.tables[t][n], m.tables[t].Keys, (m.sets - {s}).Keys)
    {
      var rs := m.tables[t][n];
      assert !NamesSet(rs, s);
      forall r, x | r in rs && x in r.tests && x.SetTest?
        ensures x.name != s
      {
        var i :| 0 <= i < |rs| && rs[i] == r;
        var k :| 0 <= k < |r.tests| && r.tests[k] == x;
        assert rs[i].tests[k].SetTest?;
      }
    }
  }

  // ---------- runs ----------

  /** The states a script goes through after the one it starts in, and whether it got to its end. */
  datatype Run = Run(states: seq<Machine>, ok: bool)

  function Then(first: Run, rest: Run): Run {
    Run(first.states + rest.states, rest.ok)
  }

  function Last(m: Machine, states: seq<Machine>): Machine {
    if states == [] then m else states[|states| - 1]
  }

  lemma Onward(m: Machine, p: seq<Machine>, first: seq<Machine>, rest: seq<Machine>)
    ensures p + (first + rest) == (p + first) + rest
    ensures Last(m, first + rest) == Last(Last(m, first), rest)
  {
  }

  lemma LastConcat(m: Machine, xs: seq<Machine>, ys: seq<Machine>)
    ensures Last(m, xs + ys) == Last(Last(m, xs), ys)
  {
  }

  /** What is left of a run after its `i`-th state ends where the run ends. */
  lemma LastAfter(m: Machine, states: seq<Machine>, i: nat)
    requires i < |states|
    ensures Last(states[i], states[i + 1..]) == Last(m, states)
  {
  }

  /** A state of the first of two runs, and what comes after it. */
  lemma StateInFirst(first: seq<Machine>, rest: seq<Machine>, i: nat)
    requires i < |first|
    ensures (first + rest)[i] == first[i] && (first + rest)[i + 1..] == first[i + 1..] + rest
  {
  }

  /** A state of the second of two runs, and what comes after it. */
  lemma StateInSecond(first: seq<Machine>, rest: seq<Machine>, i: nat)
    requires |first| <= i < |first| + |rest|
    ensures (first + rest)[i] == rest[i - |first|] && (first + rest)[i + 1..] == rest[i - |first| + 1..]
  {
  }

  function Lift(m: Machine, t: TabId, states: seq<Chains>): (r: seq<Machine>)
    ensures |r| == |states|
  {
    seq(|states|, i requires 0 <= i < |states| => Put(m, t, states[i]))
  }

  /** A list of commands on one table. */
  function OnTable(m: Machine, t: TabId, ops: seq<Op>): Run
    requires t in m.tables
  {
    var trace := RunOps(m.tables[t], m.sets.Keys, ops);
    Run(Lift(m, t, trace.states), trace.ok)
  }

  lemma PutTwice(m: Machine, t: TabId, c: Chains, d: Chains)
    ensures Put(Put(m, t, c), t, d) == Put(m, t, d)
  {
    assert m.tables[t := c][t := d] == m.tables[t := d];
  }

  lemma OnTableStep(m: Machine, t: TabId, ops: seq<Op>)
    requires t in m.tables && ops != []
    ensures var after := Exec(m.tables[t], m.sets.Keys, ops[0]);
      if after.None? then OnTable(m, t, ops) == Run([], false)
      else
        var m' := Put(m, t, after.value);
        var rest := OnTable(m', t, ops[1..]);
        OnTable(m, t, ops) == Run([m'] + rest.states, rest.ok)
  {
    var after := Exec(m.tables[t], m.sets.Keys, ops[0]);
    if after.Some? {
      var m' := Put(m, t, after.value);
      var states := RunOps(after.value, m.sets.Keys, ops[1..]).states;
      forall i | 0 <= i < |states|
        ensures Lift(m', t, states)[i] == Lift(m, t, states)[i]
      {
        PutTwice(m, t, after.value, states[i]);
      }
      assert Lift(m, t, [after.value] + states) == [m'] + Lift(m', t, states);
    }
  }

  lemma {:induction false} OnTableConcat(m: Machine, t: TabId, xs: seq<Op>, ys: seq<Op>)
    requires t in m.tables
    ensures var first := OnTable(m, t, xs);
      var e := Last(m, first.states);
      && e.tables.Keys == m.tables.Keys
      && OnTable(m, t, xs + ys) ==
        if first.ok then Run(first.states + OnTable(e, t, ys).states, OnTable(e, t, ys).ok) else first
    decreases |xs|
  {
    if xs == [] {
      assert xs + ys == ys;
    } else {
      FrontOfConcat(xs, ys);
      OnTableStep(m, t, xs);
      OnTableStep(m, t, xs + ys);
      var after := Exec(m.tables[t], m.sets.Keys, xs[0]);
      if after.Some? {
        var m' := Put(m, t, after.value);
        var first := OnTable(m', t, xs[1..]);
        OnTableConcat(m', t, xs[1..], ys);
        LastConcat(m, [m'], first.states);
        Associative([m'], first.states, OnTable(Last(m', first.states), t, ys).states);
      }
    }
  }

  /** What to do to a table, decided from the table as it is when its turn comes. */
  type Plan = Chains -> seq<Op>

  function PassOver(m: Machine, t: TabId, plan: Plan): Trace
    requires t in m.tables
  {
    RunOps(m.tables[t], m.sets.Keys, plan(m.tables[t]))
  }

  function AfterPass(m: Machine, t: TabId, plan: Plan): Chains
    requires t in m.tables
  {
    EndOps(m.tables[t], m.sets.Keys, plan(m.tables[t]))
  }

  /** One pass over the tables; the first command refused ends it. */
  function Sweep(m: Machine, tabs: seq<TabId>, plan: Plan): (r: Run)
    requires forall t :: t in tabs ==> t in m.tables
    ensures forall s :: s in r.states ==> s == m.(tables := s.tables) && s.tables.Keys == m.tables.Keys
    decreases |tabs|
  {
    if tabs == [] then Run([], true)
    else
      var here := OnTable(m, tabs[0], plan(m.tables[tabs[0]]));
      if !here.ok then here
      else
        var rest := Sweep(Put(m, tabs[0], AfterPass(m, tabs[0], plan)), tabs[1..], plan);
        Run(here.states + rest.states, rest.ok)
  }

  /** A state of a sweep: each table is untouched or somewhere along its own pass. */
  ghost predicate Along(m: Machine, s: Machine, tabs: seq<TabId>, plan: Plan) {
    && s == m.(tables := s.tables) && s.tables.Keys == m.tables.Keys
    && forall t :: t in m.tables ==>
      s.tables[t] == m.tables[t] || (t in tabs && s.tables[t] in PassOver(m, t, plan).states)
  }

  /** A sweep is complete when every table's pass is, and then leaves every table at the end of its pass. */
  ghost predicate SweptTo(m: Machine, e: Machine, tabs: seq<TabId>, plan: Plan) {
    && e == m.(tables := e.tables) && e.tables.Keys == m.tables.Keys
    && forall t :: t in m.tables ==> e.tables[t] == if t in tabs then AfterPass(m, t, plan) else m.tables[t]
  }

  ghost predicate NoRepeat(tabs: seq<TabId>) {
    forall i, j :: 0 <= i < j < |tabs| ==> tabs[i] != tabs[j]
  }

  /** The tables visited are the tables there are. */
  ghost predicate Covering(m: Machine, tabs: seq<TabId>) {
    NoRepeat(tabs) && forall t :: t in tabs <==> t in m.tables
  }

  lemma AlongHere(m: Machine, t: TabId, tabs: seq<TabId>, plan: Plan)
    requires t in m.tables && t in tabs
    ensures forall s :: s in Lift(m, t, PassOver(m, t, plan).states) ==> Along(m, s, tabs, plan)
  {
  }

  lemma AlongLater(m: Machine, tabs: seq<TabId>, plan: Plan, s: Machine)
    requires tabs != [] && NoRepeat(tabs) && tabs[0] in m.tables
    requires Along(Put(m, tabs[0], AfterPass(m, tabs[0], plan)), s, tabs[1..], plan)
    ensures Along(m, s, tabs, plan)
  {
    var m' := Put(m, tabs[0], AfterPass(m, tabs[0], plan));
    assert tabs[0] !in tabs[1..];
    forall t | t in m.tables
      ensures s.tables[t] == m.tables[t] || (t in tabs && s.tables[t] in PassOver(m, t, plan).states)
    {
      assert t in m'.tables;
    }
  }

  lemma {:induction false} SweepStates(m: Machine, tabs: seq<TabId>, plan: Plan)
    requires NoRepeat(tabs) && forall t :: t in tabs ==> t in m.tables
    ensures forall s :: s in Sweep(m, tabs, plan).states ==> Along(m, s, tabs, plan)
    decreases |tabs|
  {
    if tabs != [] {
      var t := tabs[0];
      AlongHere(m, t, tabs, plan);
      if PassOver(m, t, plan).ok {
        var m' := Put(m, t, AfterPass(m, t, plan));
        assert forall u :: u in tabs[1..] ==> u in tabs;
        SweepStates(m', tabs[1..], plan);
        forall s | s in Sweep(m', tabs[1..], plan).states
          ensures Along(m, s, tabs, plan)
        {
          AlongLater(m, tabs, plan, s);
        }
      }
    }
  }

  lemma LiftLast(m: Machine, t: TabId, plan: Plan)
    requires t in m.tables
    ensures Last(m, Lift(m, t, PassOver(m, t, plan).states)) == Put(m, t, AfterPass(m, t, plan))
  {
    assert m.tables[t := m.tables[t]] == m.tables;
  }

  lemma SweptOnwards(m: Machine, e: Machine, tabs: seq<TabId>, plan: Plan)
    requires tabs != [] && NoRepeat(tabs) && tabs[0] in m.tables
    requires SweptTo(Put(m, tabs[0], AfterPass(m, tabs[0], plan)), e, tabs[1..], plan)
    ensures SweptTo(m, e, tabs, plan)
  {
    assert tabs[0] !in tabs[1..];
    assert tabs == [tabs[0]] + tabs[1..];
    var m' := Put(m, tabs[0], AfterPass(m, tabs[0], plan));
    forall t | t in m.tables
      ensures e.tables[t] == if t in tabs then AfterPass(m, t, plan) else m.tables[t]
    {
      assert t in m'.tables;
    }
  }

  lemma {:induction false} SweepEnds(m: Machine, tabs: seq<TabId>, plan: Plan)
    requires NoRepeat(tabs) && forall t :: t in tabs ==> t in m.tables
    ensures var r := Sweep(m, tabs, plan);
      && (r.ok <==> forall t :: t in tabs ==> PassOver(m, t, plan).ok)
      && (r.ok ==> SweptTo(m, Last(m, r.states), tabs, plan))
    decreases |tabs|
  {
    if tabs != [] {
      var t := tabs[0];
      var m' := Put(m, t, AfterPass(m, t, plan));
      var pass := PassOver(m, t, plan);
      assert tabs == [t] + tabs[1..] && t !in tabs[1..];
      if pass.ok {
        SweepEnds(m', tabs[1..], plan);
        assert forall u :: u in tabs[1..] ==> PassOver(m', u, plan) == PassOver(m, u, plan);
        LiftLast(m, t, plan);
        var rest := Sweep(m', tabs[1..], plan);
        LastConcat(m, Lift(m, t, pass.states), rest.states);
        if rest.ok {
          SweptOnwards(m, Last(m', rest.states), tabs, plan);
        }
      }
    }
  }

  // ---------- the same, one table at a time ----------

  function Swept(m: Machine, plan: Plan): (tables: Tables)
    ensures tables.Keys == m.tables.Keys
  {
    map t | t in m.tables :: AfterPass(m, t, plan)
  }

  lemma SweepGives(m: Machine, tabs: seq<TabId>, plan: Plan, end: Tables)
    requires Covering(m, tabs) && end.Keys == m.tables.Keys
    requires forall t :: t in m.tables ==> PassOver(m, t, plan).ok && AfterPass(m, t, plan) == end[t]
    ensures var run := Sweep(m, tabs, plan); run.ok && Last(m, run.states) == m.(tables := end)
  {
    SweepEnds(m, tabs, plan);
    assert Last(m, Sweep(m, tabs, plan).states).tables == end;
  }

  /** A sweep none of whose passes is refused leaves every table as its pass does. */
  lemma SweptGives(m: Machine, tabs: seq<TabId>, plan: Plan)
    requires Covering(m, tabs) && forall t :: t in m.tables ==> PassOver(m, t, plan).ok
    ensures var run := Sweep(m, tabs, plan); run.ok && Last(m, run.states) == m.(tables := Swept(m, plan))
  {
    SweepGives(m, tabs, plan, Swept(m, plan));
  }

  lemma SweepRefused(m: Machine, tabs: seq<TabId>, plan: Plan, t: TabId)
    requires Covering(m, tabs) && t in m.tables && !PassOver(m, t, plan).ok
    ensures !Sweep(m, tabs, plan).ok
  {
    SweepEnds(m, tabs, plan);
  }

  lemma SweepState(m: Machine, tabs: seq<TabId>, plan: Plan, s: Machine)
    requires Covering(m, tabs) && s in Sweep(m, tabs, plan).states
    ensures s == m.(tables := s.tables) && s.tables.Keys == m.tables.Keys
    ensures forall t :: t in m.tables ==> s.tables[t] == m.tables[t] || s.tables[t] in PassOver(m, t, plan).states
  {
    SweepStates(m, tabs, plan);
  }

  /** No command of a sweep leaves the kernel in a state it could not be in. */
  lemma SweepSound(m: Machine, tabs: seq<TabId>, plan: Plan, s: Machine)
    requires Covering(m, tabs) && Sound(m) && (s == m || s in Sweep(m, tabs, plan).states)
    ensures Sound(s)
  {
    if s != m {
      SweepState(m, tabs, plan, s);
      forall t | t in m.tables
        ensures SoundTable(s.tables[t], s.sets.Keys)
      {
        RunSound(m.tables[t], m.sets.Keys, plan(m.tables[t]));
      }
    }
  }
}
