/** Any number of reloads: what every state on the way has, and what each reload ends with. */
module ReloadProof {
  import opened Text
  import opened Netfilter
  import opened Kernel
  import opened Machines
  import opened Hosts
  import opened Generations
  import opened Delegates
  import opened Apply
  import opened ApplyProof
  import opened Commit
  import opened CommitProof
  import opened Tidy
  import opened CleanupProof
  import opened CleanupSteps
  import opened Harmless
  import opened Zones
  import opened Building
  import opened Switching
  import opened Turnover
  import opened Reload
  import opened Resting

  // ---------- the switch ----------

  lemma SwitchSound(m: Machine, tabs: seq<TabId>, up: string, down: string, s: Machine)
    requires Covering(m, tabs) && Sound(m) && (s == m || s in SwitchRun(m, tabs, up, down).states)
    ensures Sound(s) && Covering(s, tabs) && s.step == m.step && s.version == m.version
  {
    var first := Sweep(m, tabs, ForEach(up, AddJump()));
    var m' := Last(m, first.states);
    SweepSound(m, tabs, ForEach(up, AddJump()), m');
    if s == m || s in first.states {
      SweepSound(m, tabs, ForEach(up, AddJump()), s);
    } else {
      SweepSound(m', tabs, ForEach(down, RemoveJump()), s);
    }
  }

  /** A machine whose build and zones are done, with nothing in the way of a switch. */
  ghost predicate Poised(m: Machine, tabs: seq<TabId>) {
    Covering(m, tabs) && AllReady(m) && m.step.None? && AllHooksThere(m, NEW)
  }

  lemma ReadyIsSwitchable(m: Machine)
    requires AllReady(m)
    ensures AllSwitchable(m, NEW, OLD)
  {
    forall t | t in m.tables
      ensures Switchable(m.tables[t], NEW, OLD)
    {
      assert ReadyToSwitch(m.tables[t], m.version);
    }
  }

  lemma SwitchFromPoised(m: Machine, tabs: seq<TabId>)
    requires Poised(m, tabs)
    ensures var run := SwitchRun(m, tabs, NEW, OLD);
      var a := SwitchedMachine(m, NEW, OLD);
      run.ok && Last(m, run.states) == a && Sound(a) && Covering(a, tabs)
  {
    ReadyIsSwitchable(m);
    SwitchEnds(m, tabs, NEW, OLD);
    var run := SwitchRun(m, tabs, NEW, OLD);
    SwitchSound(m, tabs, NEW, OLD, Last(m, run.states));
  }

  lemma SwitchedIsAllApplied(m: Machine, tabs: seq<TabId>)
    requires Poised(m, tabs)
    ensures AllApplied(SwitchedMachine(m, NEW, OLD)) && Covering(SwitchedMachine(m, NEW, OLD), tabs)
  {
    SwitchFromPoised(m, tabs);
    forall t | t in m.tables
      ensures Applied(Switched(m.tables[t], NEW, OLD), m.version)
    {
      SwitchedIsApplied(m.tables[t], m.sets.Keys, m.version);
    }
  }

  // ---------- after a no ----------

  lemma UndoEnds(m: Machine, tabs: seq<TabId>)
    requires Poised(m, tabs)
    ensures var a := SwitchedMachine(m, NEW, OLD);
      var e := RolledBackMachine(m, NEW, OLD);
      Covering(a, tabs) && Last(a, UndoRun(a, tabs).states) == e && Covering(e, tabs) && Sound(e)
  {
    SwitchFromPoised(m, tabs);
    ReadyIsSwitchable(m);
    RollbackUndoesApply(m, tabs, NEW, OLD);
    var a := SwitchedMachine(m, NEW, OLD);
    SwitchSound(a, tabs, OLD, NEW, Last(a, SwitchRun(a, tabs, OLD, NEW).states));
  }

  /** Declining ends quietly, at the version that was live before. */
  lemma UndoEndsQuiet(m: Machine, tabs: seq<TabId>)
    requires Poised(m, tabs)
    ensures Quiet(RolledBackMachine(m, NEW, OLD))
  {
    UndoEnds(m, tabs);
    forall t | t in m.tables
      ensures TidyTable(RolledBack(m.tables[t], NEW, OLD), m.version) && SettledTable(RolledBack(m.tables[t], NEW, OLD))
    {
      RolledBackIsTidy(m.tables[t], m.version);
    }
  }

  // ---------- mid-switch ----------

  /** Every live delegate is hooked, in every table. */
  ghost predicate LiveHooked(s: Machine) {
    forall t :: t in s.tables ==> AllAttached(s.tables[t], OLD)
  }

  /** No commit is left half done, and the live rules are not out of use: what the next reload asks for. */
  ghost predicate Startable(s: Machine) {
    s.step.Some? || LiveHooked(s)
  }

  lemma CanStartIsStartable(s: Machine, tabs: seq<TabId>)
    requires CanStart(s, tabs)
    ensures Startable(s)
  {
  }

  /**
   In an apply of a prepared machine `z`, what follows the hooking of the candidates: from the first
   live delegate taken out to the end of the switch, and if it is declined to the end of the rollback.
   */
  ghost predicate MidSwitch(z: Machine, tabs: seq<TabId>, confirmed: bool, s: Machine)
    requires forall t :: t in tabs ==> t in z.tables
  {
    && AllHooksThere(z, NEW)
    && ((s in SwitchRun(z, tabs, NEW, OLD).states && s !in Sweep(z, tabs, ForEach(NEW, AddJump())).states)
        || (!confirmed && s in UndoRun(SwitchedMachine(z, NEW, OLD), tabs).states))
  }

  lemma UpIsCleanable(m: Machine, tabs: seq<TabId>, s: Machine)
    requires Covering(m, tabs) && AllReady(m) && s in Sweep(m, tabs, ForEach(NEW, AddJump())).states
    ensures Cleanable(s)
  {
    SweepSound(m, tabs, ForEach(NEW, AddJump()), s);
    SweepState(m, tabs, ForEach(NEW, AddJump()), s);
    forall t | t in m.tables
      ensures TidyTable(s.tables[t], m.version)
    {
      UpTableIsTidy(m.tables[t], m.sets.Keys, m.version, s.tables[t]);
    }
  }

  lemma UpTableIsTidy(c: Chains, sets: set<Name>, v: int, x: Chains)
    requires ReadyToSwitch(c, v) && (x == c || x in RunOps(c, sets, ForEach(NEW, AddJump())(c)).states)
    ensures TidyTable(x, v)
  {
    if x != c {
      UpPassStates(c, sets, NEW, x);
      UpStaysTidy(c, x, v);
    }
  }

  /** A switch refused half-way stops on the way up. */
  lemma RefusedSwitch(m: Machine, tabs: seq<TabId>)
    requires Covering(m, tabs) && AllReady(m) && !AllHooksThere(m, NEW)
    ensures SwitchRun(m, tabs, NEW, OLD) == Sweep(m, tabs, ForEach(NEW, AddJump())) && !SwitchRun(m, tabs, NEW, OLD).ok
  {
    ReadyIsSwitchable(m);
    FirstSweepEnds(m, tabs, NEW, OLD);
  }

  lemma CleanableCanStart(s: Machine, tabs: seq<TabId>)
    requires Covering(s, tabs) && Cleanable(s) && s.step.None?
    ensures CanStart(s, tabs)
  {
  }

  /** While only jumps to the candidates have been added the next reload can start. */
  lemma UpCanStart(m: Machine, tabs: seq<TabId>, s: Machine)
    requires Covering(m, tabs) && AllReady(m) && m.step.None? && s in Sweep(m, tabs, ForEach(NEW, AddJump())).states
    ensures CanStart(s, tabs)
  {
    SweepSound(m, tabs, ForEach(NEW, AddJump()), s);
    UpIsCleanable(m, tabs, s);
    CleanableCanStart(s, tabs);
  }

  lemma StagesCanStart(m: Machine, tabs: seq<TabId>, s: Machine)
    requires Poised(m, tabs) && Stages(m, s, NEW, OLD) && LiveHooked(s) && Sound(s) && Covering(s, tabs)
    ensures CanStart(s, tabs)
  {
    ReadyIsSwitchable(m);
    forall t | t in m.tables
      ensures TidyTable(s.tables[t], m.version)
    {
      StageStaysTidy(m.tables[t], s.tables[t], NEW, OLD, m.version);
    }
    CleanableCanStart(s, tabs);
  }

  lemma BackStagesCanStart(m: Machine, tabs: seq<TabId>, s: Machine)
    requires Poised(m, tabs) && Stages(SwitchedMachine(m, NEW, OLD), s, OLD, NEW) && LiveHooked(s) && Sound(s) && Covering(s, tabs)
    ensures CanStart(s, tabs)
  {
    ReadyIsSwitchable(m);
    AppliedIsSwitchable(m, NEW, OLD);
    forall t | t in m.tables
      ensures TidyTable(s.tables[t], m.version)
    {
      SwitchedRowsTidy(m.tables[t], m.version);
      StageStaysTidy(Switched(m.tables[t], NEW, OLD), s.tables[t], OLD, NEW, m.version);
    }
    CleanableCanStart(s, tabs);
  }

  /** Stopped in a switch, the next reload can start exactly when the live delegates are still hooked. */
  lemma SwitchCanStart(m: Machine, tabs: seq<TabId>, s: Machine)
    requires Covering(m, tabs) && AllReady(m) && m.step.None? && s in SwitchRun(m, tabs, NEW, OLD).states
    ensures Startable(s) ==> CanStart(s, tabs)
    ensures !AllHooksThere(m, NEW) ==> CanStart(s, tabs)
  {
    SwitchSound(m, tabs, NEW, OLD, s);
    if AllHooksThere(m, NEW) {
      ReadyIsSwitchable(m);
      SwitchStages(m, tabs, NEW, OLD, s);
      if LiveHooked(s) {
        StagesCanStart(m, tabs, s);
      }
    } else {
      RefusedSwitch(m, tabs);
      UpCanStart(m, tabs, s);
    }
  }

  lemma UndoCanStart(m: Machine, tabs: seq<TabId>, s: Machine)
    requires Poised(m, tabs) && Covering(SwitchedMachine(m, NEW, OLD), tabs) && s in UndoRun(SwitchedMachine(m, NEW, OLD), tabs).states
    ensures Startable(s) ==> CanStart(s, tabs)
  {
    SwitchFromPoised(m, tabs);
    SwitchSound(SwitchedMachine(m, NEW, OLD), tabs, OLD, NEW, s);
    UndoStates(m, tabs, s);
    if LiveHooked(s) {
      BackStagesCanStart(m, tabs, s);
    }
  }

  lemma UndoStates(m: Machine, tabs: seq<TabId>, s: Machine)
    requires Poised(m, tabs) && Covering(SwitchedMachine(m, NEW, OLD), tabs) && s in UndoRun(SwitchedMachine(m, NEW, OLD), tabs).states
    ensures Stages(SwitchedMachine(m, NEW, OLD), s, OLD, NEW)
  {
    ReadyIsSwitchable(m);
    AppliedIsSwitchable(m, NEW, OLD);
    SwitchStages(SwitchedMachine(m, NEW, OLD), tabs, OLD, NEW, s);
  }

  // ---------- fw_apply ----------

  lemma ApplyIs(m: Machine, tabs: seq<TabId>, confirmed: bool)
    requires Poised(m, tabs)
    ensures var a := SwitchedMachine(m, NEW, OLD);
      && Covering(a, tabs)
      && ApplyRun(m, tabs, confirmed) == Then(SwitchRun(m, tabs, NEW, OLD), AnswerRun(a, tabs, confirmed))
      && Last(m, ApplyRun(m, tabs, confirmed).states) == Last(a, AnswerRun(a, tabs, confirmed).states)
  {
    SwitchFromPoised(m, tabs);
    var a := SwitchedMachine(m, NEW, OLD);
    LastConcat(m, SwitchRun(m, tabs, NEW, OLD).states, AnswerRun(a, tabs, confirmed).states);
  }

  lemma ApplyStates(m: Machine, tabs: seq<TabId>, confirmed: bool, s: Machine)
    requires Covering(m, tabs) && AllReady(m) && m.step.None? && s in ApplyRun(m, tabs, confirmed).states
    ensures Startable(s) ==> CanStart(s, tabs)
    ensures CanStart(s, tabs) || MidSwitch(m, tabs, confirmed, s)
  {
    if s in SwitchRun(m, tabs, NEW, OLD).states {
      SwitchCanStart(m, tabs, s);
      if s in Sweep(m, tabs, ForEach(NEW, AddJump())).states {
        UpCanStart(m, tabs, s);
      }
    } else if AllHooksThere(m, NEW) {
      ApplyIs(m, tabs, confirmed);
      SwitchedIsAllApplied(m, tabs);
      if confirmed {
        KeepStates(SwitchedMachine(m, NEW, OLD), tabs, s);
      } else {
        UndoCanStart(m, tabs, s);
      }
    } else {
      RefusedSwitch(m, tabs);
    }
  }

  /** A switched machine confirmed or declined ends quietly; only a confirmation succeeds and moves the version on. */
  lemma ApplyEnds(m: Machine, tabs: seq<TabId>, confirmed: bool)
    requires Poised(m, tabs)
    ensures var run := ApplyRun(m, tabs, confirmed);
      var e := Last(m, run.states);
      && run.ok == confirmed && Quiet(e)
      && (if confirmed then Clean(e) && e.version == m.version + 1 else e == RolledBackMachine(m, NEW, OLD))
  {
    ApplyIs(m, tabs, confirmed);
    SwitchedIsAllApplied(m, tabs);
    if confirmed {
      KeepEnds(SwitchedMachine(m, NEW, OLD), tabs);
    } else {
      UndoEnds(m, tabs);
      UndoEndsQuiet(m, tabs);
    }
  }

  // ---------- the stages of a reload, one after another ----------

  /** The machine when cleanup is over, when the build is submitted, and when the zones are prepared. */
  function Resumed(m: Machine, tabs: seq<TabId>): (e: Machine)
    requires forall t :: t in tabs ==> t in m.tables
    ensures e.tables.Keys == m.tables.Keys
  {
    Last(m, ResumeRun(m, tabs).states)
  }

  function CleanedFrom(r: Machine, tabs: seq<TabId>): (e: Machine)
    requires forall t :: t in tabs ==> t in r.tables
    ensures e.tables.Keys == r.tables.Keys
  {
    Last(r, CleanupRun(r, tabs).states)
  }

  function Cleaned(m: Machine, tabs: seq<TabId>): (e: Machine)
    requires forall t :: t in tabs ==> t in m.tables
    ensures e.tables.Keys == m.tables.Keys
  {
    CleanedFrom(Resumed(m, tabs), tabs)
  }

  function Submitted(m: Machine, tabs: seq<TabId>, given: Inputs): (e: Machine)
    requires forall t :: t in tabs ==> t in m.tables
    ensures e.tables.Keys == m.tables.Keys
  {
    var c := Cleaned(m, tabs);
    Last(c, SubmitRun(c, given.build(c.version)).states)
  }

  function ZonedFrom(b: Machine, tabs: seq<TabId>, given: Inputs): (e: Machine)
    requires forall t :: t in tabs ==> t in b.tables
    ensures e.tables.Keys == b.tables.Keys
  {
    Last(b, ZonesRun(b, tabs, given.order).states)
  }

  /** From a clean machine: the candidate generation, complete but not hooked. */
  function PreparedFrom(c: Machine, tabs: seq<TabId>, given: Inputs): (e: Machine)
    requires forall t :: t in tabs ==> t in c.tables
    ensures e.tables.Keys == c.tables.Keys
  {
    ZonedFrom(Last(c, SubmitRun(c, given.build(c.version)).states), tabs, given)
  }

  function Prepared(m: Machine, tabs: seq<TabId>, given: Inputs): (e: Machine)
    requires forall t :: t in tabs ==> t in m.tables
    ensures e.tables.Keys == m.tables.Keys
  {
    ZonedFrom(Submitted(m, tabs, given), tabs, given)
  }

  // ---------- from a clean machine ----------

  ghost predicate GoodInputs(given: Inputs) {
    && (forall v: nat, l :: given.build(v).Some? && l in given.build(v).value ==> CandidateLoad(l, v))
    && (forall hook :: hook in HOOKS ==> hook in given.order)
  }

  /** Still as clean as when the build began: only candidates and next-version sets have been added. */
  ghost predicate Begun(m: Machine, s: Machine, tabs: seq<TabId>) {
    Clean(m) && m.step.None? && BuildsOn(m, s) && Covering(s, tabs)
  }

  lemma BegunIsReady(m: Machine, s: Machine, tabs: seq<TabId>)
    requires Begun(m, s, tabs)
    ensures AllReady(s) && Quiet(s) && SameVerdicts(m, s) && CanStart(s, tabs)
  {
    BuildingIsBuilt(m, s);
    BuildingSameLive(m, s);
    SettledStays(m, s, m.version);
    SameLiveSameVerdicts(m, s, m.version);
    forall t | t in s.tables
      ensures TidyTable(s.tables[t], s.version)
    {
      assert ReadyToSwitch(s.tables[t], s.version);
    }
    QuietCanStart(s, tabs);
  }

  lemma SubmitStates(m: Machine, tabs: seq<TabId>, given: Inputs, s: Machine)
    requires Covering(m, tabs) && Clean(m) && m.step.None? && GoodInputs(given)
    requires s == m || s in SubmitRun(m, given.build(m.version)).states
    ensures Begun(m, s, tabs)
  {
    CleanIsBuilding(m);
    if s != m {
      BuildStates(m, m, given.build(m.version).value, s);
    }
  }

  lemma ZonesBegun(m: Machine, b: Machine, tabs: seq<TabId>, order: seq<string>, s: Machine)
    requires Begun(m, b, tabs) && (s == b || s in ZonesRun(b, tabs, order).states)
    ensures Begun(m, s, tabs)
  {
    ZonesStates(m, b, tabs, order, s);
    assert s.tables.Keys == b.tables.Keys;
    SameTablesCovered(b, s, tabs);
  }

  lemma SameTablesCovered(b: Machine, s: Machine, tabs: seq<TabId>)
    requires Covering(b, tabs) && s.tables.Keys == b.tables.Keys
    ensures Covering(s, tabs)
  {
    forall t
      ensures t in s.tables <==> t in b.tables
    {
      assert t in s.tables.Keys <==> t in b.tables.Keys;
    }
  }

  lemma ZonesAreReady(m: Machine, b: Machine, tabs: seq<TabId>, order: seq<string>)
    requires Begun(m, b, tabs)
    ensures Begun(m, Last(b, ZonesRun(b, tabs, order).states), tabs)
  {
    ZonesBegun(m, b, tabs, order, Last(b, ZonesRun(b, tabs, order).states));
  }

  lemma ReadyStates(m: Machine, b: Machine, tabs: seq<TabId>, given: Inputs, s: Machine)
    requires Begun(m, b, tabs) && s in ReadyRun(b, tabs, given).states
    ensures Startable(s) ==> CanStart(s, tabs)
    ensures CanStart(s, tabs) || MidSwitch(ZonedFrom(b, tabs, given), tabs, given.confirmed, s)
  {
    var zones := ZonesRun(b, tabs, given.order);
    if s in zones.states {
      ZonesBegun(m, b, tabs, given.order, s);
      BegunIsReady(m, s, tabs);
    } else {
      var z := Last(b, zones.states);
      ZonesAreReady(m, b, tabs, given.order);
      BegunIsReady(m, z, tabs);
      ApplyStates(z, tabs, given.confirmed, s);
    }
  }

  lemma SubmitIsBegun(m: Machine, tabs: seq<TabId>, given: Inputs)
    requires Covering(m, tabs) && Clean(m) && m.step.None? && GoodInputs(given)
    ensures Begun(m, Last(m, SubmitRun(m, given.build(m.version)).states), tabs)
  {
    SubmitStates(m, tabs, given, Last(m, SubmitRun(m, given.build(m.version)).states));
  }

  lemma CleanStates(m: Machine, tabs: seq<TabId>, given: Inputs, s: Machine)
    requires Covering(m, tabs) && Clean(m) && m.step.None? && GoodInputs(given) && s in CleanRun(m, tabs, given).states
    ensures Startable(s) ==> CanStart(s, tabs)
    ensures CanStart(s, tabs) || MidSwitch(PreparedFrom(m, tabs, given), tabs, given.confirmed, s)
  {
    var submit := SubmitRun(m, given.build(m.version));
    if s in submit.states {
      SubmitStates(m, tabs, given, s);
      BegunIsReady(m, s, tabs);
    } else {
      SubmitIsBegun(m, tabs, given);
      ReadyStates(m, Last(m, submit.states), tabs, given, s);
    }
  }

  // ---------- the whole reload ----------

  lemma CleaningCanStart(m: Machine, tabs: seq<TabId>, s: Machine)
    requires Covering(m, tabs) && Cleanable(m) && m.step.None? && s in CleanupRun(m, tabs).states
    ensures CanStart(s, tabs)
  {
    CleanupStates(m, tabs, s);
    CleanableCanStart(s, tabs);
  }

  lemma IdleStates(m: Machine, tabs: seq<TabId>, given: Inputs, s: Machine)
    requires Covering(m, tabs) && Cleanable(m) && m.step.None? && GoodInputs(given) && s in IdleRun(m, tabs, given).states
    ensures Startable(s) ==> CanStart(s, tabs)
    ensures CanStart(s, tabs) || MidSwitch(PreparedFrom(CleanedFrom(m, tabs), tabs, given), tabs, given.confirmed, s)
  {
    var cleanup := CleanupRun(m, tabs);
    if s in cleanup.states {
      CleaningCanStart(m, tabs, s);
    } else {
      CleanupEndsClean(m, tabs);
      CleanStates(Last(m, cleanup.states), tabs, given, s);
    }
  }

  /** What resuming leaves. */
  lemma ResumedIdle(m: Machine, tabs: seq<TabId>)
    requires CanStart(m, tabs)
    ensures var run := ResumeRun(m, tabs);
      var e := Last(m, run.states);
      run.ok && Covering(e, tabs) && Cleanable(e) && e.step.None? && (m.step.Some? ==> Quiet(e)) && (m.step.None? ==> e == m)
  {
  }

  /**
   Wherever a reload is stopped, the next one can start from there exactly when a commit has begun or
   every live delegate is still hooked; and that is everywhere but between the first live delegate
   taken out and the first step of the commit or the end of the rollback.
   */
  lemma ReloadStates(m: Machine, tabs: seq<TabId>, given: Inputs, s: Machine)
    requires CanStart(m, tabs) && GoodInputs(given) && s in ReloadRun(m, tabs, given).states
    ensures CanStart(s, tabs) <==> Startable(s)
    ensures CanStart(s, tabs) || MidSwitch(Prepared(m, tabs, given), tabs, given.confirmed, s)
  {
    var resume := ResumeRun(m, tabs);
    ResumedIdle(m, tabs);
    if s in resume.states {
      CommitCanStart(m, tabs, s);
    } else {
      IdleStates(Last(m, resume.states), tabs, given, s);
    }
    if CanStart(s, tabs) {
      CanStartIsStartable(s, tabs);
    }
  }
}
