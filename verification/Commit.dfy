/** subcommands/fw_commit: a journaled two-phase rename that survives being stopped anywhere. */
module Commit {
  import opened Seqs
  import opened Text
  import opened Netfilter
  import opened Kernel
  import opened Machines
  import opened Hosts
  import opened Generations

  const REAL_TO_DELETE: string := "rename_chain_real_to_delete"
  const TMP_TO_REAL: string := "rename_chain_tmp_to_real"
  const DONE: string := "done"

  // ---------- one pass ----------

  function RenameChain(from: string, to: string): Name -> seq<Op> {
    (n: Name) => [Rename(n, Swap(n, from, to))]
  }

  function RenamePass(from: string, to: string): Plan {
    ForEach(from, RenameChain(from, to))
  }

  /** Having renamed the first chain listed, listing again gives the rest of the list. */
  lemma ListingAfterRename(c: Chains, from: string, to: string)
    requires Apart(from, to) && Listing(c, from) != []
    ensures var a := Listing(c, from)[0];
      from < a && a in c && Listing(Renamed(c, a, Swap(a, from, to)), from) == Listing(c, from)[1..]
  {
    SortedFirst(set n | n in c && from < n);
    var a := Listing(c, from)[0];
    var b := Swap(a, from, to);
    if from <= b { CommonPrefix(from, to, b); }
    NamesAfterRename(c, a, b, from);
  }

  lemma NamesAfterRename(c: Chains, a: Name, b: Name, from: string)
    requires a in c && !(from < b)
    ensures (set n | n in Renamed(c, a, b) && from < n) == (set n | n in c && from < n) - {a}
  {
    assert Renamed(c, a, b).Keys == c.Keys - {a} + {b};
    forall n | from < n
      ensures n in Renamed(c, a, b) <==> n in c && n != a
    {
      assert n in Renamed(c, a, b) <==> n in Renamed(c, a, b).Keys;
    }
  }

  lemma PlanUnrolls(c: Chains, from: string, to: string)
    requires Apart(from, to) && Listing(c, from) != []
    ensures var a := Listing(c, from)[0];
      && a in c && |Listing(Renamed(c, a, Swap(a, from, to)), from)| < |Listing(c, from)|
      && RenamePass(from, to)(c) == [Rename(a, Swap(a, from, to))] + RenamePass(from, to)(Renamed(c, a, Swap(a, from, to)))
  {
    ListingAfterRename(c, from, to);
  }

  /** A plan that, asked again after its first command, asks for exactly the rest. */
  ghost predicate Resumable(plan: Plan, sets: set<Name>) {
    forall c :: plan(c) != [] && Exec(c, sets, plan(c)[0]).Some?
      ==> plan(Exec(c, sets, plan(c)[0]).value) == plan(c)[1..]
  }

  lemma RenamePassResumesAt(c: Chains, from: string, to: string, sets: set<Name>, ops: seq<Op>)
    requires Apart(from, to) && Listing(c, from) != [] && ops == RenamePass(from, to)(c)
    requires ops != [] && Exec(c, sets, ops[0]).Some?
    ensures RenamePass(from, to)(Exec(c, sets, ops[0]).value) == ops[1..]
  {
    var a := Listing(c, from)[0];
    var b := Swap(a, from, to);
    PlanUnrolls(c, from, to);
    FirstAndRest(Rename(a, b), RenamePass(from, to)(Renamed(c, a, b)));
    RenameGives(c, sets, a, b);
  }

  lemma RenameGives(c: Chains, sets: set<Name>, a: Name, b: Name)
    requires Exec(c, sets, Rename(a, b)).Some?
    ensures a in c && Exec(c, sets, Rename(a, b)).value == Renamed(c, a, b)
  {
  }

  lemma RenamePassResumes(from: string, to: string, sets: set<Name>)
    requires Apart(from, to)
    ensures Resumable(RenamePass(from, to), sets)
  {
    var plan := RenamePass(from, to);
    forall c | plan(c) != [] && Exec(c, sets, plan(c)[0]).Some?
      ensures plan(Exec(c, sets, plan(c)[0]).value) == plan(c)[1..]
    {
      RenamePassResumesAt(c, from, to, sets, plan(c));
    }
  }

  // ---------- resuming a pass and a sweep ----------

  lemma {:induction false} PassResumes(c: Chains, sets: set<Name>, plan: Plan, i: nat)
    requires Resumable(plan, sets) && i < |RunOps(c, sets, plan(c)).states|
    ensures var tr := RunOps(c, sets, plan(c)); RunOps(tr.states[i], sets, plan(tr.states[i])) == Trace(tr.states[i + 1..], tr.ok)
    decreases i
  {
    var tr := RunOps(c, sets, plan(c));
    var c' := Exec(c, sets, plan(c)[0]).value;
    var rest := RunOps(c', sets, plan(c'));
    assert tr == Trace([c'] + rest.states, rest.ok);
    if i > 0 {
      PassResumes(c', sets, plan, i - 1);
      assert tr.states[i] == rest.states[i - 1] && tr.states[i + 1..] == rest.states[i..];
    } else {
      assert tr.states[1..] == rest.states;
    }
  }

  lemma PassDone(c: Chains, sets: set<Name>, plan: Plan)
    requires Resumable(plan, sets) && RunOps(c, sets, plan(c)).ok
    ensures plan(EndOps(c, sets, plan(c))) == []
  {
    var tr := RunOps(c, sets, plan(c));
    if tr.states != [] {
      PassResumes(c, sets, plan, |tr.states| - 1);
      assert tr.states[|tr.states|..] == [];
      NothingRun(EndOps(c, sets, plan(c)), sets, plan(EndOps(c, sets, plan(c))));
    } else {
      NothingRun(c, sets, plan(c));
    }
  }

  lemma NothingRun(c: Chains, sets: set<Name>, ops: seq<Op>)
    requires RunOps(c, sets, ops) == Trace([], true)
    ensures ops == []
  {
  }

  lemma SuffixHasSameEnd(c: Chains, states: seq<Chains>, i: nat)
    requires i < |states|
    ensures LastOf(states[i], states[i + 1..]) == LastOf(c, states)
  {
  }

  /** The tables still to come, seen from one of them. */
  lemma LiftAfter(m: Machine, t: TabId, states: seq<Chains>, i: nat)
    requires i < |states|
    ensures Lift(Put(m, t, states[i]), t, states[i + 1..]) == Lift(m, t, states)[i + 1..]
  {
    var s, later := Put(m, t, states[i]), states[i + 1..];
    forall j | 0 <= j < |later|
      ensures Put(s, t, later[j]) == Put(m, t, later[j])
    {
      PutTwice(m, t, states[i], later[j]);
    }
  }

  lemma OnTableResumes(m: Machine, t: TabId, plan: Plan, i: nat)
    requires t in m.tables && Resumable(plan, m.sets.Keys)
    requires i < |OnTable(m, t, plan(m.tables[t])).states|
    ensures var run := OnTable(m, t, plan(m.tables[t]));
      var s := run.states[i];
      && t in s.tables && OnTable(s, t, plan(s.tables[t])) == Run(run.states[i + 1..], run.ok)
      && Put(s, t, AfterPass(s, t, plan)) == Put(m, t, AfterPass(m, t, plan))
  {
    var tr := PassOver(m, t, plan);
    PassResumes(m.tables[t], m.sets.Keys, plan, i);
    SuffixHasSameEnd(m.tables[t], tr.states, i);
    LiftAfter(m, t, tr.states, i);
    PutTwice(m, t, tr.states[i], AfterPass(m, t, plan));
    assert Put(m, t, tr.states[i]).tables[t] == tr.states[i];
  }

  /** Stopped inside the first table: the rest of that table, then the other tables. */
  lemma SweepResumesHere(m: Machine, tabs: seq<TabId>, plan: Plan, i: nat)
    requires tabs != [] && (forall t :: t in tabs ==> t in m.tables) && Resumable(plan, m.sets.Keys)
    requires i < |OnTable(m, tabs[0], plan(m.tables[tabs[0]])).states|
    ensures var run := Sweep(m, tabs, plan);
      Sweep(run.states[i], tabs, plan) == Run(run.states[i + 1..], run.ok)
  {
    var run := Sweep(m, tabs, plan);
    var here := OnTable(m, tabs[0], plan(m.tables[tabs[0]]));
    OnTableResumes(m, tabs[0], plan, i);
    assert run.states[i] == here.states[i];
    if here.ok {
      var rest := run.states[|here.states|..];
      assert run.states == here.states + rest;
      StateInFirst(here.states, rest, i);
    }
  }

  /** Running a plan whose pass is over does nothing. */
  lemma SweepSkips(s: Machine, tabs: seq<TabId>, plan: Plan)
    requires tabs != [] && (forall t :: t in tabs ==> t in s.tables) && plan(s.tables[tabs[0]]) == []
    ensures Sweep(s, tabs, plan) == Sweep(s, tabs[1..], plan)
  {
    assert s.tables[tabs[0] := s.tables[tabs[0]]] == s.tables;
    assert OnTable(s, tabs[0], []) == Run([], true);
  }

  lemma {:induction false} SweepResumes(m: Machine, tabs: seq<TabId>, plan: Plan, i: nat)
    requires NoRepeat(tabs) && (forall t :: t in tabs ==> t in m.tables) && Resumable(plan, m.sets.Keys)
    requires i < |Sweep(m, tabs, plan).states|
    ensures var run := Sweep(m, tabs, plan);
      Sweep(run.states[i], tabs, plan) == Run(run.states[i + 1..], run.ok)
    decreases |tabs|
  {
    var t := tabs[0];
    var run := Sweep(m, tabs, plan);
    var here := OnTable(m, t, plan(m.tables[t]));
    if i < |here.states| {
      SweepResumesHere(m, tabs, plan, i);
    } else {
      var m' := Put(m, t, AfterPass(m, t, plan));
      var rest := Sweep(m', tabs[1..], plan);
      var j := i - |here.states|;
      StateInSecond(here.states, rest.states, i);
      SweepStates(m', tabs[1..], plan);
      var s := rest.states[j];
      assert Along(m', s, tabs[1..], plan);
      assert t !in tabs[1..];
      PassDone(m.tables[t], m.sets.Keys, plan);
      SweepResumes(m', tabs[1..], plan, j);
      SweepSkips(s, tabs, plan);
    }
  }

  // ---------- the whole commit ----------

  /** A pass over all tables, then the step file moved on. */
  function Phase(m: Machine, tabs: seq<TabId>, plan: Plan, next: string): Run
    requires forall t :: t in tabs ==> t in m.tables
  {
    var run := Sweep(m, tabs, plan);
    if run.ok then Run(run.states + [Last(m, run.states).(step := Some(next))], true) else run
  }

  function StepsLeft(step: Option<string>): nat {
    if step == None then 4
    else if step.value == REAL_TO_DELETE then 3
    else if step.value == TMP_TO_REAL then 2
    else if step.value == DONE then 1
    else 0
  }

  lemma StepOrder()
    ensures StepsLeft(Some(REAL_TO_DELETE)) == 3 && StepsLeft(Some(TMP_TO_REAL)) == 2 && StepsLeft(Some(DONE)) == 1
  {
    assert REAL_TO_DELETE[0] == 'r' && DONE[0] == 'd' && TMP_TO_REAL[0] == 'r';
    assert REAL_TO_DELETE[13] == 'r' && TMP_TO_REAL[13] == 't';
  }

  lemma PhaseKeeps(m: Machine, tabs: seq<TabId>, plan: Plan, next: string)
    requires forall t :: t in tabs ==> t in m.tables
    ensures var r := Phase(m, tabs, plan, next);
      && (r.ok ==> r.states != [] && Last(m, r.states).step == Some(next))
      && forall s :: s in r.states ==> s.tables.Keys == m.tables.Keys && s.sets == m.sets
  {
    var run := Sweep(m, tabs, plan);
    assert forall s :: s in run.states ==> s.tables.Keys == m.tables.Keys && s.sets == m.sets;
  }

  /** One turn of the step loop. An unknown step is refused. */
  function Turn(m: Machine, tabs: seq<TabId>, text: string): (r: Run)
    requires forall t :: t in tabs ==> t in m.tables
    ensures r.ok ==> StepsLeft(Last(m, r.states).step) < StepsLeft(Some(text))
    ensures r.ok ==> r.states != []
    ensures forall s :: s in r.states ==> s.tables.Keys == m.tables.Keys && s.sets == m.sets
  {
    StepOrder();
    PhaseKeeps(m, tabs, RenamePass(FWR, FWD), TMP_TO_REAL);
    PhaseKeeps(m, tabs, RenamePass(FWTMP, FWR), DONE);
    if text == REAL_TO_DELETE then Phase(m, tabs, RenamePass(FWR, FWD), TMP_TO_REAL)
    else if text == TMP_TO_REAL then Phase(m, tabs, RenamePass(FWTMP, FWR), DONE)
    else Run([], false)
  }

  /** The states a commit goes through, resuming at whatever the step file says. */
  function CommitRun(m: Machine, tabs: seq<TabId>): (r: Run)
    requires forall t :: t in tabs ==> t in m.tables
    ensures forall s :: s in r.states ==> s.tables.Keys == m.tables.Keys && s.sets == m.sets
    decreases StepsLeft(m.step)
  {
    if m.step == None then
      StepOrder();
      var first := m.(step := Some(REAL_TO_DELETE));
      Then(Run([first], true), CommitRun(first, tabs))
    else if m.step == Some(DONE) then
      Run([m.(step := None, version := m.version + 1)], true)
    else
      var turn := Turn(m, tabs, m.step.value);
      if turn.ok then Then(turn, CommitRun(Last(m, turn.states), tabs)) else turn
  }

  // ---------- stopping and resuming the whole commit ----------

  /** Stopped before the step file moves on: the rest of the phase. */
  lemma PhaseResumes(m: Machine, tabs: seq<TabId>, plan: Plan, next: string, i: nat)
    requires NoRepeat(tabs) && (forall t :: t in tabs ==> t in m.tables) && Resumable(plan, m.sets.Keys)
    requires i < |Sweep(m, tabs, plan).states|
    ensures var run := Phase(m, tabs, plan, next);
      var s := run.states[i];
      && s.tables.Keys == m.tables.Keys && s.step == m.step
      && Phase(s, tabs, plan, next) == Run(run.states[i + 1..], run.ok)
  {
    var sweep := Sweep(m, tabs, plan);
    SweepResumes(m, tabs, plan, i);
    assert sweep.states[i] in sweep.states;
    if sweep.ok {
      StateInFirst(sweep.states, [Last(m, sweep.states).(step := Some(next))], i);
      LastAfter(m, sweep.states, i);
    }
  }

  lemma TurnResumes(m: Machine, tabs: seq<TabId>, text: string, i: nat)
    requires NoRepeat(tabs) && forall t :: t in tabs ==> t in m.tables
    requires var run := Turn(m, tabs, text); i < |run.states| && (run.ok ==> i < |run.states| - 1)
    ensures var run := Turn(m, tabs, text);
      var s := run.states[i];
      && s.tables.Keys == m.tables.Keys && s.step == m.step
      && Turn(s, tabs, text) == Run(run.states[i + 1..], run.ok)
  {
    PrefixesApart();
    if text == REAL_TO_DELETE {
      RenamePassResumes(FWR, FWD, m.sets.Keys);
      PhaseResumes(m, tabs, RenamePass(FWR, FWD), TMP_TO_REAL, i);
    } else {
      RenamePassResumes(FWTMP, FWR, m.sets.Keys);
      PhaseResumes(m, tabs, RenamePass(FWTMP, FWR), DONE, i);
    }
  }

  lemma CommitUnrolls(m: Machine, tabs: seq<TabId>)
    requires (forall t :: t in tabs ==> t in m.tables) && m.step.Some? && m.step != Some(DONE)
    ensures var turn := Turn(m, tabs, m.step.value);
      CommitRun(m, tabs) == if turn.ok then Then(turn, CommitRun(Last(m, turn.states), tabs)) else turn
  {
  }

  /** Stopped inside a turn. */
  lemma CommitResumesInTurn(m: Machine, tabs: seq<TabId>, i: nat)
    requires NoRepeat(tabs) && (forall t :: t in tabs ==> t in m.tables) && m.step.Some? && m.step != Some(DONE)
    requires var turn := Turn(m, tabs, m.step.value); i < |turn.states| && (turn.ok ==> i < |turn.states| - 1)
    ensures var run := CommitRun(m, tabs);
      && i < |run.states| && run.states[i].tables.Keys == m.tables.Keys
      && CommitRun(run.states[i], tabs) == Run(run.states[i + 1..], run.ok)
  {
    var turn := Turn(m, tabs, m.step.value);
    var s := turn.states[i];
    TurnResumes(m, tabs, m.step.value, i);
    CommitUnrolls(m, tabs);
    CommitUnrolls(s, tabs);
    if turn.ok {
      StateInFirst(turn.states, CommitRun(Last(m, turn.states), tabs).states, i);
      LastAfter(m, turn.states, i);
    }
  }

  /**
   Stop a commit after any of its commands and run it again from what is left behind: it goes
   through exactly the states that were still to come, and ends, or is refused, the same way.
   */
  lemma {:induction false} CommitResumes(m: Machine, tabs: seq<TabId>, i: nat)
    requires NoRepeat(tabs) && forall t :: t in tabs ==> t in m.tables
    requires i < |CommitRun(m, tabs).states| && CommitRun(m, tabs).states[i].step.Some?
    ensures var run := CommitRun(m, tabs);
      run.states[i].tables.Keys == m.tables.Keys && CommitRun(run.states[i], tabs) == Run(run.states[i + 1..], run.ok)
    decreases StepsLeft(m.step)
  {
    StepOrder();
    if m.step == None {
      CommitResumesAfter(m, tabs, Run([m.(step := Some(REAL_TO_DELETE))], true), i);
    } else if m.step != Some(DONE) {
      CommitUnrolls(m, tabs);
      var turn := Turn(m, tabs, m.step.value);
      if turn.ok && |turn.states| <= i + 1 {
        CommitResumesAfter(m, tabs, turn, i);
      } else {
        CommitResumesInTurn(m, tabs, i);
      }
    }
  }

  /** Stopped at the end of the first turn or later. */
  lemma {:induction false} CommitResumesAfter(m: Machine, tabs: seq<TabId>, turn: Run, i: nat)
    requires NoRepeat(tabs) && forall t :: t in tabs ==> t in m.tables
    requires turn.states != [] && |turn.states| <= i + 1
    requires var m' := Last(m, turn.states);
      && m'.tables.Keys == m.tables.Keys && StepsLeft(m'.step) < StepsLeft(m.step)
      && CommitRun(m, tabs) == Then(turn, CommitRun(m', tabs))
    requires i < |CommitRun(m, tabs).states| && CommitRun(m, tabs).states[i].step.Some?
    ensures var run := CommitRun(m, tabs);
      run.states[i].tables.Keys == m.tables.Keys && CommitRun(run.states[i], tabs) == Run(run.states[i + 1..], run.ok)
    decreases StepsLeft(m.step), 0
  {
    var m' := Last(m, turn.states);
    var rest := CommitRun(m', tabs);
    if i >= |turn.states| {
      StateInSecond(turn.states, rest.states, i);
      CommitResumes(m', tabs, i - |turn.states|);
    } else {
      StateInFirst(turn.states, rest.states, i);
      assert turn.states[i] == m' && [] + rest.states == rest.states;
    }
  }

  /** `s` is a state a commit started in `m` could be stopped in, with the step file there to resume from. */
  ghost predicate StoppedIn(m: Machine, s: Machine, tabs: seq<TabId>)
    requires forall t :: t in tabs ==> t in m.tables
  {
    s in CommitRun(m, tabs).states && s.step.Some? && s.tables.Keys == m.tables.Keys
  }

  lemma ResumedEndsAlike(m: Machine, s: Machine, tabs: seq<TabId>)
    requires NoRepeat(tabs) && (forall t :: t in tabs ==> t in m.tables) && StoppedIn(m, s, tabs)
    ensures CommitRun(s, tabs).ok == CommitRun(m, tabs).ok
    ensures Last(s, CommitRun(s, tabs).states) == Last(m, CommitRun(m, tabs).states)
  {
    var states := CommitRun(m, tabs).states;
    var i :| 0 <= i < |states| && states[i] == s;
    CommitResumes(m, tabs, i);
    LastAfter(m, states, i);
  }

  /** `s` is what is left after a commit started in `m` was stopped, run again and stopped again, up to this many times. */
  ghost predicate AfterStops(m: Machine, s: Machine, tabs: seq<TabId>, stops: nat)
    requires forall t :: t in tabs ==> t in m.tables
    decreases stops
  {
    s == m || (stops > 0 && exists m' :: StoppedIn(m, m', tabs) && AfterStops(m', s, tabs, stops - 1))
  }

  /** However often a commit is stopped, running it once more to its end gives what one uninterrupted commit gives. */
  lemma {:induction false} StoppedCommitsEndAlike(m: Machine, s: Machine, tabs: seq<TabId>, stops: nat)
    requires NoRepeat(tabs) && (forall t :: t in tabs ==> t in m.tables) && AfterStops(m, s, tabs, stops)
    ensures s.tables.Keys == m.tables.Keys
    ensures CommitRun(s, tabs).ok == CommitRun(m, tabs).ok
    ensures Last(s, CommitRun(s, tabs).states) == Last(m, CommitRun(m, tabs).states)
    decreases stops
  {
    if s != m {
      var m' :| StoppedIn(m, m', tabs) && AfterStops(m', s, tabs, stops - 1);
      ResumedEndsAlike(m, m', tabs);
      StoppedCommitsEndAlike(m', s, tabs, stops - 1);
    }
  }

  // ---------- the script ----------

  /** The states a commit still owes are those of a commit started now. */
  ghost predicate Owing(h: Host, goal: Run, p: seq<Machine>, end: Machine)
    requires h.Ready()
    reads h
  {
    var rest := CommitRun(h.Now(), h.tabs);
    rest.ok == goal.ok && h.Owes(rest.states, p + goal.states, end)
  }

  method GetStep(h: Host, ghost goal: Run, ghost p: seq<Machine>, ghost end: Machine) returns (text: string)
    requires h.Ready() && Owing(h, goal, p, end)
    modifies h
    ensures h.Ready() && Owing(h, goal, p, end)
    ensures h.step == Some(text)
  {
    if h.step.None? {
      ghost var m, q := h.Now(), h.past;
      h.WriteStep(REAL_TO_DELETE);
      Onward(m, q, [h.Now()], CommitRun(h.Now(), h.tabs).states);
    }
    text := h.step.value;
  }

  method RenameAndMoveOn(h: Host, from: string, to: string, next: string) returns (ok: bool)
    requires h.Ready()
    modifies h
    ensures h.Ready()
    ensures var run := Phase(old(h.Now()), h.tabs, RenamePass(from, to), next);
      ok == run.ok && h.Went(old(h.Now()), old(h.past), run.states)
  {
    ok := h.ForEachChain(from, RenameChain(from, to));
    if ok {
      h.WriteStep(next);
    }
  }

  /** The body of the step loop. */
  method OneStep(h: Host, text: string) returns (ok: bool)
    requires h.Ready()
    modifies h
    ensures h.Ready()
    ensures var run := Turn(old(h.Now()), h.tabs, text); ok == run.ok && h.Went(old(h.Now()), old(h.past), run.states)
    ensures ok ==> h.step.Some?
  {
    if text == REAL_TO_DELETE {
      ok := RenameAndMoveOn(h, FWR, FWD, TMP_TO_REAL);
    } else if text == TMP_TO_REAL {
      ok := RenameAndMoveOn(h, FWTMP, FWR, DONE);
    } else {
      return false;
    }
  }

  /** The body of the step loop. */
  method Turned(h: Host, text: string, ghost goal: Run, ghost p: seq<Machine>, ghost end: Machine) returns (ok: bool)
    requires h.Ready() && h.step == Some(text) && text != DONE && Owing(h, goal, p, end)
    modifies h
    ensures h.Ready()
    ensures ok ==> Owing(h, goal, p, end) && h.step.Some? && StepsLeft(h.step) < StepsLeft(Some(text))
    ensures !ok ==> !goal.ok && h.past == p + goal.states && h.Now() == end
  {
    ghost var m, q := h.Now(), h.past;
    ok := OneStep(h, text);
    if ok {
      Onward(m, q, Turn(m, h.tabs, text).states, CommitRun(h.Now(), h.tabs).states);
    }
  }

  method FwCommit(h: Host) returns (ok: bool)
    requires h.Ready()
    modifies h
    ensures h.Ready()
    ensures var run := CommitRun(old(h.Now()), h.tabs); ok == run.ok && h.Went(old(h.Now()), old(h.past), run.states)
  {
    ghost var goal, p := CommitRun(h.Now(), h.tabs), h.past;
    ghost var end := Last(h.Now(), goal.states);
    var text := GetStep(h, goal, p, end);
    while text != DONE
      invariant h.Ready() && h.step == Some(text) && Owing(h, goal, p, end)
      decreases StepsLeft(h.step)
    {
      ok := Turned(h, text, goal, p, end);
      if !ok {
        return false;
      }
      text := h.step.value;
    }
    h.FinishCommit(h.version + 1);
    return true;
  }
}
