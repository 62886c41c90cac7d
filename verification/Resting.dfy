/** States a reload can start from: the last one may have ended, failed, or been stopped while committing. */
module Resting {
  import opened Text
  import opened Netfilter
  import opened Kernel
  import opened Machines
  import opened Hosts
  import opened Generations
  import opened Delegates
  import opened Apply
  import opened ApplyProof
  import opened Commit
  import opened CommitProof
  import opened Tidy
  import opened CleanupProof
  import opened CleanupSteps
  import opened Harmless
  import opened Building
  import opened Switching
  import opened Turnover
  import opened Reload

  /** Tidy, and neither candidate nor outgoing chains can be reached. */
  ghost predicate Quiet(m: Machine) {
    Cleanable(m) && Settled(m.tables) && m.step.None?
  }

  /** No commit is half done, or one is that has only to be resumed. */
  ghost predicate CanStart(m: Machine, tabs: seq<TabId>) {
    && Covering(m, tabs) && Sound(m)
    && if m.step.None? then Cleanable(m) else CommitRun(m, tabs).ok && Quiet(Last(m, CommitRun(m, tabs).states))
  }

  // ---------- every state of a commit ----------

  lemma TurnSteps(m: Machine, tabs: seq<TabId>, text: string, s: Machine)
    requires Covering(m, tabs) && Sound(m) && m.step.Some? && s in Turn(m, tabs, text).states
    ensures s.step.Some? && Sound(s) && Covering(s, tabs)
  {
    var (from, to) := if text == REAL_TO_DELETE then (FWR, FWD) else (FWTMP, FWR);
    var sweep := Sweep(m, tabs, RenamePass(from, to));
    var e := Last(m, sweep.states);
    var x := if s in sweep.states then s else e;
    SweepSound(m, tabs, RenamePass(from, to), x);
    if x != m { SweepState(m, tabs, RenamePass(from, to), x); }
  }

  lemma TurnLast(m: Machine, tabs: seq<TabId>, text: string)
    requires Covering(m, tabs) && Sound(m) && m.step.Some? && Turn(m, tabs, text).ok
    ensures var m' := Last(m, Turn(m, tabs, text).states); m'.step.Some? && Sound(m') && Covering(m', tabs)
  {
    TurnSteps(m, tabs, text, Last(m, Turn(m, tabs, text).states));
  }

  /** A commit is sound throughout, and its step file is there until it is over. */
  lemma {:induction false} CommitSteps(m: Machine, tabs: seq<TabId>, s: Machine)
    requires Covering(m, tabs) && Sound(m) && s in CommitRun(m, tabs).states
    ensures Sound(s) && Covering(s, tabs)
    ensures s.step.Some? || (CommitRun(m, tabs).ok && s == Last(m, CommitRun(m, tabs).states))
    decreases StepsLeft(m.step)
  {
    StepOrder();
    if m.step == None {
      var first := m.(step := Some(REAL_TO_DELETE));
      LastConcat(m, [first], CommitRun(first, tabs).states);
      if s != first {
        CommitSteps(first, tabs, s);
      }
    } else if m.step != Some(DONE) {
      CommitUnrolls(m, tabs);
      CommitStepsOn(m, tabs, s);
    }
  }

  lemma {:induction false} CommitStepsOn(m: Machine, tabs: seq<TabId>, s: Machine)
    requires Covering(m, tabs) && Sound(m) && m.step.Some? && m.step != Some(DONE) && s in CommitRun(m, tabs).states
    ensures Sound(s) && Covering(s, tabs)
    ensures s.step.Some? || (CommitRun(m, tabs).ok && s == Last(m, CommitRun(m, tabs).states))
    decreases StepsLeft(m.step), 0
  {
    var turn := Turn(m, tabs, m.step.value);
    CommitUnrolls(m, tabs);
    if s in turn.states {
      TurnSteps(m, tabs, m.step.value, s);
    } else {
      var m' := Last(m, turn.states);
      TurnLast(m, tabs, m.step.value);
      LastConcat(m, turn.states, CommitRun(m', tabs).states);
      CommitSteps(m', tabs, s);
    }
  }

  /** Stopped anywhere, a commit that gets to a quiet end leaves a state the next reload can start from. */
  lemma CommitCanStart(m: Machine, tabs: seq<TabId>, s: Machine)
    requires Covering(m, tabs) && Sound(m) && CommitRun(m, tabs).ok && Quiet(Last(m, CommitRun(m, tabs).states))
    requires s in CommitRun(m, tabs).states
    ensures CanStart(s, tabs)
  {
    CommitSteps(m, tabs, s);
    if s.step.Some? {
      ResumedEndsAlike(m, s, tabs);
    }
  }

  // ---------- committing a switched machine ----------

  ghost predicate AllApplied(m: Machine) {
    Sound(m) && m.step.None? && forall t :: t in m.tables ==> Applied(m.tables[t], m.version)
  }

  lemma CommitNotRefused(m: Machine, tabs: seq<TabId>)
    requires Covering(m, tabs) && AllApplied(m)
    ensures CommitRun(m, tabs).ok
  {
    forall t | t in m.tables
      ensures Renamable(m.tables[t], FWR, FWD)
    {
      CommittedIsRenamable(m.tables[t]);
    }
    CommitResult(m, tabs);
  }

  lemma CommitEndSound(m: Machine, tabs: seq<TabId>)
    requires Covering(m, tabs) && Sound(m)
    ensures Sound(Last(m, CommitRun(m, tabs).states))
  {
    var states := CommitRun(m, tabs).states;
    if states != [] {
      CommitSteps(m, tabs, Last(m, states));
    }
  }

  lemma FinishedIsTidy(m: Machine, e: Machine, t: TabId, c: Chains, d: Chains)
    requires Finished(m, e, Committed()) && t in m.tables && c == m.tables[t] && d == e.tables[t]
    requires Applied(c, m.version) && SoundTable(c, m.sets.Keys)
    ensures TidyTable(d, m.version + 1) && SettledTable(d)
  {
    CommittedIsTidy(c, d, m.sets.Keys, m.version);
  }

  lemma FinishedAreTidy(m: Machine, e: Machine)
    requires AllApplied(m) && Finished(m, e, Committed())
    ensures TidyTables(e.tables, m.version + 1) && Settled(e.tables)
  {
    forall t | t in e.tables
      ensures TidyTable(e.tables[t], m.version + 1) && SettledTable(e.tables[t])
    {
      FinishedIsTidy(m, e, t, m.tables[t], e.tables[t]);
    }
  }

  /** A commit of a switched machine is never refused and ends quietly, one version on. */
  lemma CommitEndsQuiet(m: Machine, tabs: seq<TabId>)
    requires Covering(m, tabs) && AllApplied(m)
    ensures CommitRun(m, tabs).ok
    ensures var e := Last(m, CommitRun(m, tabs).states); Quiet(e) && e.version == m.version + 1 && Covering(e, tabs)
  {
    CommitNotRefused(m, tabs);
    CommitResult(m, tabs);
    CommitEndSound(m, tabs);
    FinishedAreTidy(m, Last(m, CommitRun(m, tabs).states));
  }

  // ---------- a cleanup ----------

  lemma CleanupSound(m: Machine, tabs: seq<TabId>)
    requires Covering(m, tabs) && Cleanable(m)
    ensures Cleaner(m, Last(m, CleanupRun(m, tabs).states))
  {
    CleanupStates(m, tabs, Last(m, CleanupRun(m, tabs).states));
  }

  lemma NothingStaleIsSettled(tables: Tables, sets: Sets)
    requires NothingStale(tables) && SoundTables(tables, sets.Keys)
    ensures Settled(tables)
  {
    forall t, n, i | t in tables && n in tables[t] && 0 <= i < |tables[t][n]| && tables[t][n][i].target.Jump?
      ensures !Stale(tables[t][n][i].target.chain)
    {
      assert tables[t][n][i] in tables[t][n];
      assert RuleFits(tables[t][n][i], tables[t].Keys, sets.Keys);
    }
  }

  lemma CleanupLeavesNothing(m: Machine, tabs: seq<TabId>)
    requires Covering(m, tabs) && Cleanable(m)
    ensures CleanupRun(m, tabs).ok && NothingStale(Last(m, CleanupRun(m, tabs).states).tables)
  {
    CleanupResult(m, tabs);
    var e := Last(m, CleanupRun(m, tabs).states);
    forall t, n | t in e.tables && n in e.tables[t]
      ensures !Stale(n)
    {
      assert n in e.tables[t].Keys;
    }
  }

  /** A cleanup gets to its end and leaves nothing stale, from wherever a reload can start. */
  lemma CleanupEndsClean(m: Machine, tabs: seq<TabId>)
    requires Covering(m, tabs) && Cleanable(m)
    ensures var run := CleanupRun(m, tabs);
      var e := Last(m, run.states);
      run.ok && Clean(e) && e.step == m.step && e.version == m.version && Covering(e, tabs)
  {
    CleanupLeavesNothing(m, tabs);
    CleanupSound(m, tabs);
    var e := Last(m, CleanupRun(m, tabs).states);
    NothingStaleIsSettled(e.tables, e.sets);
  }

  // ---------- after a yes ----------

  lemma KeepIs(m: Machine, tabs: seq<TabId>)
    requires Covering(m, tabs) && CommitRun(m, tabs).ok
    ensures var e := Last(m, CommitRun(m, tabs).states);
      && e.tables.Keys == m.tables.Keys
      && KeepRun(m, tabs) == Then(CommitRun(m, tabs), CleanupRun(e, tabs))
      && Last(m, KeepRun(m, tabs).states) == Last(e, CleanupRun(e, tabs).states)
  {
    var e := Last(m, CommitRun(m, tabs).states);
    LastConcat(m, CommitRun(m, tabs).states, CleanupRun(e, tabs).states);
  }

  /** Confirming gets to its end: the next version is live and nothing stale is left. */
  lemma KeepEnds(m: Machine, tabs: seq<TabId>)
    requires Covering(m, tabs) && AllApplied(m)
    ensures var run := KeepRun(m, tabs);
      var e := Last(m, run.states);
      run.ok && Clean(e) && e.step.None? && e.version == m.version + 1
  {
    CommitEndsQuiet(m, tabs);
    KeepIs(m, tabs);
    CleanupEndsClean(Last(m, CommitRun(m, tabs).states), tabs);
  }

  lemma QuietCanStart(m: Machine, tabs: seq<TabId>)
    requires Covering(m, tabs) && Quiet(m)
    ensures CanStart(m, tabs)
  {
  }

  lemma CleanerIsQuiet(m: Machine, s: Machine)
    requires Quiet(m) && Cleaner(m, s)
    ensures Quiet(s)
  {
  }

  lemma CleanupCanStart(m: Machine, tabs: seq<TabId>, s: Machine)
    requires Covering(m, tabs) && Quiet(m) && s in CleanupRun(m, tabs).states
    ensures CanStart(s, tabs) && Quiet(s) && SameVerdicts(m, s)
  {
    CleanupStates(m, tabs, s);
    CleanerIsQuiet(m, s);
    QuietCanStart(s, tabs);
  }

  /** Every state on the way can be started from, and gives every packet the verdict it got when the answer was given. */
  lemma KeepStates(m: Machine, tabs: seq<TabId>, s: Machine)
    requires Covering(m, tabs) && AllApplied(m) && s in KeepRun(m, tabs).states
    ensures CanStart(s, tabs) && SameVerdicts(m, s)
  {
    CommitEndsQuiet(m, tabs);
    SoundIsClosedEverywhere(m);
    KeepIs(m, tabs);
    if s in CommitRun(m, tabs).states {
      CommitCanStart(m, tabs, s);
      CommitKeepsVerdicts(m, tabs, s);
    } else {
      CleanedAfterCommit(m, tabs, s);
    }
  }

  lemma CommitEndVerdicts(m: Machine, tabs: seq<TabId>)
    requires Covering(m, tabs) && Sound(m)
    ensures SameVerdicts(m, Last(m, CommitRun(m, tabs).states))
  {
    SoundIsClosedEverywhere(m);
    var states := CommitRun(m, tabs).states;
    if states != [] {
      CommitKeepsVerdicts(m, tabs, Last(m, states));
    }
  }

  lemma CleanedAfterCommit(m: Machine, tabs: seq<TabId>, s: Machine)
    requires Covering(m, tabs) && AllApplied(m)
    requires var e := Last(m, CommitRun(m, tabs).states);
      Covering(e, tabs) && Quiet(e) && s in CleanupRun(e, tabs).states
    ensures CanStart(s, tabs) && SameVerdicts(m, s)
  {
    var e := Last(m, CommitRun(m, tabs).states);
    CommitEndVerdicts(m, tabs);
    CleanupCanStart(e, tabs, s);
    SameVerdictsThrough(m, e, s);
  }
}
