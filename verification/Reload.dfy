/** fw_reload: finish an interrupted commit, clean up, build, prepare zones, apply, and confirm or roll back. */
module Reload {
  import opened Text
  import opened Netfilter
  import opened Kernel
  import opened Machines
  import opened Hosts
  import opened Generations
  import opened Delegates
  import opened Apply
  import opened Commit
  import opened Cleanup
  import opened CleanupProof
  import opened Zones
  import opened Building

  /**
   What a reload is given: what the compiler makes of the configuration at a set version, if it
   makes anything; the order bash takes the hooks in; and the operator's answer.
   */
  datatype Inputs = Inputs(build: nat -> Option<seq<Load>>, order: seq<string>, confirmed: bool)

  // ---------- the states a reload goes through ----------

  /** The answer was yes. */
  function KeepRun(m: Machine, tabs: seq<TabId>): (r: Run)
    requires forall t :: t in tabs ==> t in m.tables
    ensures forall s :: s in r.states ==> s.tables.Keys == m.tables.Keys
  {
    var commit := CommitRun(m, tabs);
    if commit.ok then Then(commit, CleanupRun(Last(m, commit.states), tabs)) else commit
  }

  /** The answer was no: back to the old generation, and the reload is abandoned. */
  function UndoRun(m: Machine, tabs: seq<TabId>): (r: Run)
    requires forall t :: t in tabs ==> t in m.tables
    ensures forall s :: s in r.states ==> s.tables.Keys == m.tables.Keys
  {
    Run(SwitchRun(m, tabs, OLD, NEW).states, false)
  }

  function AnswerRun(m: Machine, tabs: seq<TabId>, confirmed: bool): (r: Run)
    requires forall t :: t in tabs ==> t in m.tables
    ensures forall s :: s in r.states ==> s.tables.Keys == m.tables.Keys
  {
    if confirmed then KeepRun(m, tabs) else UndoRun(m, tabs)
  }

  function ApplyRun(m: Machine, tabs: seq<TabId>, confirmed: bool): (r: Run)
    requires forall t :: t in tabs ==> t in m.tables
    ensures forall s :: s in r.states ==> s.tables.Keys == m.tables.Keys
  {
    var switch := SwitchRun(m, tabs, NEW, OLD);
    if switch.ok then Then(switch, AnswerRun(Last(m, switch.states), tabs, confirmed)) else switch
  }

  function ZonesRun(m: Machine, tabs: seq<TabId>, order: seq<string>): (r: Run)
    requires forall t :: t in tabs ==> t in m.tables
    ensures forall s :: s in r.states ==> s.tables.Keys == m.tables.Keys
  {
    Sweep(m, tabs, ZonePlan(order))
  }

  function ReadyRun(m: Machine, tabs: seq<TabId>, given: Inputs): (r: Run)
    requires forall t :: t in tabs ==> t in m.tables
    ensures forall s :: s in r.states ==> s.tables.Keys == m.tables.Keys
  {
    var zones := ZonesRun(m, tabs, given.order);
    if zones.ok then Then(zones, ApplyRun(Last(m, zones.states), tabs, given.confirmed)) else zones
  }

  /** A configuration that does not compile submits nothing. */
  function SubmitRun(m: Machine, loads: Option<seq<Load>>): (r: Run)
    ensures forall s :: s in r.states ==> s.tables.Keys == m.tables.Keys
  {
    if loads.Some? then BuildRun(m, loads.value) else Run([], false)
  }

  function CleanRun(m: Machine, tabs: seq<TabId>, given: Inputs): (r: Run)
    requires forall t :: t in tabs ==> t in m.tables
    ensures forall s :: s in r.states ==> s.tables.Keys == m.tables.Keys
  {
    var submit := SubmitRun(m, given.build(m.version));
    if submit.ok then Then(submit, ReadyRun(Last(m, submit.states), tabs, given)) else submit
  }

  function IdleRun(m: Machine, tabs: seq<TabId>, given: Inputs): (r: Run)
    requires forall t :: t in tabs ==> t in m.tables
    ensures forall s :: s in r.states ==> s.tables.Keys == m.tables.Keys
  {
    var cleanup := CleanupRun(m, tabs);
    if cleanup.ok then Then(cleanup, CleanRun(Last(m, cleanup.states), tabs, given)) else cleanup
  }

  function ResumeRun(m: Machine, tabs: seq<TabId>): (r: Run)
    requires forall t :: t in tabs ==> t in m.tables
    ensures forall s :: s in r.states ==> s.tables.Keys == m.tables.Keys
  {
    if m.step.Some? then CommitRun(m, tabs) else Run([], true)
  }

  function ReloadRun(m: Machine, tabs: seq<TabId>, given: Inputs): (r: Run)
    requires forall t :: t in tabs ==> t in m.tables
    ensures forall s :: s in r.states ==> s.tables.Keys == m.tables.Keys
  {
    var resume := ResumeRun(m, tabs);
    if resume.ok then Then(resume, IdleRun(Last(m, resume.states), tabs, given)) else resume
  }

  // ---------- the scripts ----------

  /** fw_apply once the switch is made. */
  method Answer(h: Host, confirmed: bool) returns (ok: bool)
    requires h.Ready()
    modifies h
    ensures h.Ready()
    ensures var run := AnswerRun(old(h.Now()), h.tabs, confirmed); ok == run.ok && h.Went(old(h.Now()), old(h.past), run.states)
  {
    if confirmed {
      ghost var m, p := h.Now(), h.past;
      ok := FwCommit(h);
      if ok {
        Onward(m, p, CommitRun(m, h.tabs).states, CleanupRun(h.Now(), h.tabs).states);
        ok := FwCleanup(h);
      }
    } else {
      ok := RollbackConfig(h);
      ok := false;
    }
  }

  method FwApply(h: Host, confirmed: bool) returns (ok: bool)
    requires h.Ready()
    modifies h
    ensures h.Ready()
    ensures var run := ApplyRun(old(h.Now()), h.tabs, confirmed); ok == run.ok && h.Went(old(h.Now()), old(h.past), run.states)
  {
    ghost var m, p := h.Now(), h.past;
    ok := ApplyConfig(h);
    if ok {
      Onward(m, p, SwitchRun(m, h.tabs, NEW, OLD).states, AnswerRun(h.Now(), h.tabs, confirmed).states);
      ok := Answer(h, confirmed);
    }
  }

  method ZonesAndApply(h: Host, given: Inputs) returns (ok: bool)
    requires h.Ready()
    modifies h
    ensures h.Ready()
    ensures var run := ReadyRun(old(h.Now()), h.tabs, given); ok == run.ok && h.Went(old(h.Now()), old(h.past), run.states)
  {
    ghost var m, p := h.Now(), h.past;
    ok := FwPrepareZones(h, given.order);
    if ok {
      Onward(m, p, ZonesRun(m, h.tabs, given.order).states, ApplyRun(h.Now(), h.tabs, given.confirmed).states);
      ok := FwApply(h, given.confirmed);
    }
  }

  method FwBuild(h: Host, loads: Option<seq<Load>>) returns (ok: bool)
    requires h.Ready()
    modifies h
    ensures h.Ready()
    ensures var run := SubmitRun(old(h.Now()), loads); ok == run.ok && h.Went(old(h.Now()), old(h.past), run.states)
  {
    ok := false;
    if loads.Some? {
      ok := Submit(h, loads.value);
    }
  }

  method BuildAndApply(h: Host, given: Inputs) returns (ok: bool)
    requires h.Ready()
    modifies h
    ensures h.Ready()
    ensures var run := CleanRun(old(h.Now()), h.tabs, given); ok == run.ok && h.Went(old(h.Now()), old(h.past), run.states)
  {
    ghost var m, p := h.Now(), h.past;
    ok := FwBuild(h, given.build(h.version));
    if ok {
      Onward(m, p, SubmitRun(m, given.build(m.version)).states, ReadyRun(h.Now(), h.tabs, given).states);
      ok := ZonesAndApply(h, given);
    }
  }

  method CleanAndBuild(h: Host, given: Inputs) returns (ok: bool)
    requires h.Ready()
    modifies h
    ensures h.Ready()
    ensures var run := IdleRun(old(h.Now()), h.tabs, given); ok == run.ok && h.Went(old(h.Now()), old(h.past), run.states)
  {
    ghost var m, p := h.Now(), h.past;
    ok := FwCleanup(h);
    if ok {
      Onward(m, p, CleanupRun(m, h.tabs).states, CleanRun(h.Now(), h.tabs, given).states);
      ok := BuildAndApply(h, given);
    }
  }

  /** Check that the last reload was not stopped while committing. */
  method Resume(h: Host) returns (ok: bool)
    requires h.Ready()
    modifies h
    ensures h.Ready()
    ensures var run := ResumeRun(old(h.Now()), h.tabs); ok == run.ok && h.Went(old(h.Now()), old(h.past), run.states)
  {
    ok := true;
    if h.step.Some? {
      ok := FwCommit(h);
    } else {
      assert h.past == h.past + [];
    }
  }

  method FwReload(h: Host, given: Inputs) returns (ok: bool)
    requires h.Ready()
    modifies h
    ensures h.Ready()
    ensures var run := ReloadRun(old(h.Now()), h.tabs, given); ok == run.ok && h.Went(old(h.Now()), old(h.past), run.states)
  {
    ghost var m, p := h.Now(), h.past;
    ok := Resume(h);
    if ok {
      Onward(m, p, ResumeRun(m, h.tabs).states, IdleRun(h.Now(), h.tabs, given).states);
      ok := CleanAndBuild(h, given);
    }
  }
}
