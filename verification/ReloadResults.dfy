/** What a maintainer is promised of reloads. */
module ReloadResults {
  import opened Text
  import opened Netfilter
  import opened Kernel
  import opened Machines
  import opened Hosts
  import opened Generations
  import opened Delegates
  import opened Apply
  import opened ApplyProof
  import opened Commit
  import opened CommitProof
  import opened Tidy
  import opened CleanupProof
  import opened CleanupSteps
  import opened Harmless
  import opened Zones
  import opened Building
  import opened Switching
  import opened Turnover
  import opened Reload
  import opened Resting
  import opened ReloadProof

  // ---------- a reload in parts ----------

  lemma ReadyIs(b: Machine, tabs: seq<TabId>, given: Inputs)
    requires Covering(b, tabs) && GoodInputs(given)
    ensures var zones := ZonesRun(b, tabs, given.order);
      var z := Last(b, zones.states);
      && zones.ok && z.tables.Keys == b.tables.Keys
      && ReadyRun(b, tabs, given) == Then(zones, ApplyRun(z, tabs, given.confirmed))
      && Last(b, ReadyRun(b, tabs, given).states) == Last(z, ApplyRun(z, tabs, given.confirmed).states)
  {
    ZonesResult(b, tabs, given.order);
    var zones := ZonesRun(b, tabs, given.order);
    LastConcat(b, zones.states, ApplyRun(Last(b, zones.states), tabs, given.confirmed).states);
  }

  lemma CleanIs(c: Machine, tabs: seq<TabId>, given: Inputs)
    requires forall t :: t in tabs ==> t in c.tables
    ensures var submit := SubmitRun(c, given.build(c.version));
      var b := Last(c, submit.states);
      && b.tables.Keys == c.tables.Keys
      && CleanRun(c, tabs, given) == (if submit.ok then Then(submit, ReadyRun(b, tabs, given)) else submit)
      && Last(c, CleanRun(c, tabs, given).states) == (if submit.ok then Last(b, ReadyRun(b, tabs, given).states) else b)
  {
    var submit := SubmitRun(c, given.build(c.version));
    var b := Last(c, submit.states);
    LastConcat(c, submit.states, ReadyRun(b, tabs, given).states);
  }

  lemma IdleIs(r: Machine, tabs: seq<TabId>, given: Inputs)
    requires Covering(r, tabs) && Cleanable(r)
    ensures var cleanup := CleanupRun(r, tabs);
      var c := Last(r, cleanup.states);
      && c.tables.Keys == r.tables.Keys
      && IdleRun(r, tabs, given) == Then(cleanup, CleanRun(c, tabs, given))
      && Last(r, IdleRun(r, tabs, given).states) == Last(c, CleanRun(c, tabs, given).states)
  {
    CleanupEndsClean(r, tabs);
    var cleanup := CleanupRun(r, tabs);
    LastConcat(r, cleanup.states, CleanRun(Last(r, cleanup.states), tabs, given).states);
  }

  lemma ReloadIs(m: Machine, tabs: seq<TabId>, given: Inputs)
    requires CanStart(m, tabs)
    ensures var r := Resumed(m, tabs);
      && r.tables.Keys == m.tables.Keys
      && ReloadRun(m, tabs, given) == Then(ResumeRun(m, tabs), IdleRun(r, tabs, given))
      && Last(m, ReloadRun(m, tabs, given).states) == Last(r, IdleRun(r, tabs, given).states)
  {
    ResumedIdle(m, tabs);
    LastConcat(m, ResumeRun(m, tabs).states, IdleRun(Resumed(m, tabs), tabs, given).states);
  }

  /** How far a reload gets. */
  datatype Ending = NotBuilt | NotSwitched | Declined | Confirmed

  ghost function EndingOf(m: Machine, tabs: seq<TabId>, given: Inputs): Ending
    requires forall t :: t in tabs ==> t in m.tables
  {
    var c := Cleaned(m, tabs);
    if !SubmitRun(c, given.build(c.version)).ok then NotBuilt
    else if !AllHooksThere(Prepared(m, tabs, given), NEW) then NotSwitched
    else if given.confirmed then Confirmed
    else Declined
  }

  // ---------- where a reload ends ----------

  /** The stages reached from any state a reload can start in. */
  lemma StagesOf(m: Machine, tabs: seq<TabId>, given: Inputs)
    requires CanStart(m, tabs) && GoodInputs(given)
    ensures var c := Cleaned(m, tabs);
      && Covering(c, tabs) && Clean(c) && c.step.None? && c.version == Resumed(m, tabs).version
      && Begun(c, Submitted(m, tabs, given), tabs) && Begun(c, Prepared(m, tabs, given), tabs)
  {
    ResumedIdle(m, tabs);
    CleanupEndsClean(Resumed(m, tabs), tabs);
    SubmitIsBegun(Cleaned(m, tabs), tabs, given);
    ZonesAreReady(Cleaned(m, tabs), Submitted(m, tabs, given), tabs, given.order);
  }

  /** From the clean machine on, a reload is its submission and then its apply. */
  lemma ReloadSplits(m: Machine, tabs: seq<TabId>, given: Inputs)
    requires CanStart(m, tabs) && GoodInputs(given)
    ensures var c, b, z := Cleaned(m, tabs), Submitted(m, tabs, given), Prepared(m, tabs, given);
      var built := SubmitRun(c, given.build(c.version)).ok;
      && ReloadRun(m, tabs, given).ok == (built && ApplyRun(z, tabs, given.confirmed).ok)
      && Last(m, ReloadRun(m, tabs, given).states) == (if built then Last(z, ApplyRun(z, tabs, given.confirmed).states) else b)
  {
    StagesOf(m, tabs, given);
    ResumedIdle(m, tabs);
    ReloadIs(m, tabs, given);
    IdleIs(Resumed(m, tabs), tabs, given);
    CleanIs(Cleaned(m, tabs), tabs, given);
    ReadyIs(Submitted(m, tabs, given), tabs, given);
  }

  lemma RefusedEnds(z: Machine, tabs: seq<TabId>, confirmed: bool)
    requires Covering(z, tabs) && AllReady(z) && Quiet(z) && !AllHooksThere(z, NEW)
    ensures var run := ApplyRun(z, tabs, confirmed);
      var e := Last(z, run.states);
      !run.ok && CanStart(e, tabs) && e.step.None? && e.version == z.version
  {
    RefusedSwitch(z, tabs);
    var states := Sweep(z, tabs, ForEach(NEW, AddJump())).states;
    var e := Last(z, states);
    SwitchSound(z, tabs, NEW, OLD, e);
    if states != [] {
      UpIsCleanable(z, tabs, e);
    }
    CleanableCanStart(e, tabs);
  }

  lemma ApplyEndsStartable(z: Machine, tabs: seq<TabId>, confirmed: bool)
    requires Poised(z, tabs)
    ensures var run := ApplyRun(z, tabs, confirmed);
      var e := Last(z, run.states);
      && run.ok == confirmed && Quiet(e) && CanStart(e, tabs) && e.version == z.version + (if confirmed then 1 else 0)
      && (if confirmed then NothingStale(e.tables) else e == RolledBackMachine(z, NEW, OLD))
  {
    ApplyEnds(z, tabs, confirmed);
    var e := Last(z, ApplyRun(z, tabs, confirmed).states);
    assert Covering(e, tabs);
    QuietCanStart(e, tabs);
  }
  lemma SubmittedIsQuiet(m: Machine, tabs: seq<TabId>, given: Inputs)
    requires CanStart(m, tabs) && GoodInputs(given)
    ensures var e := Submitted(m, tabs, given); Quiet(e) && CanStart(e, tabs) && e.version == Resumed(m, tabs).version
  {
    StagesOf(m, tabs, given);
    BegunIsReady(Cleaned(m, tabs), Submitted(m, tabs, given), tabs);
  }

  /** A reload whose build was not taken ends quietly with what was submitted of it. */
  lemma NotBuiltEnds(m: Machine, tabs: seq<TabId>, given: Inputs)
    requires CanStart(m, tabs) && GoodInputs(given) && EndingOf(m, tabs, given).NotBuilt?
    ensures var run := ReloadRun(m, tabs, given);
      var e := Submitted(m, tabs, given);
      !run.ok && Last(m, run.states) == e && Quiet(e) && CanStart(e, tabs) && e.version == Resumed(m, tabs).version
  {
    SubmittedIsQuiet(m, tabs, given);
    ReloadSplits(m, tabs, given);
  }

  /** A reload whose switch was refused half-way: the next one can start from there. */
  lemma NotSwitchedEnds(m: Machine, tabs: seq<TabId>, given: Inputs)
    requires CanStart(m, tabs) && GoodInputs(given) && EndingOf(m, tabs, given).NotSwitched?
    ensures var run := ReloadRun(m, tabs, given);
      var e := Last(m, run.states);
      !run.ok && CanStart(e, tabs) && e.step.None? && e.version == Resumed(m, tabs).version
  {
    var z := Prepared(m, tabs, given);
    StagesOf(m, tabs, given);
    ReloadSplits(m, tabs, given);
    BegunIsReady(Cleaned(m, tabs), z, tabs);
    RefusedEnds(z, tabs, given.confirmed);
  }

  lemma PreparedIsPoised(m: Machine, tabs: seq<TabId>, given: Inputs)
    requires CanStart(m, tabs) && GoodInputs(given) && AllHooksThere(Prepared(m, tabs, given), NEW)
    ensures Poised(Prepared(m, tabs, given), tabs) && Prepared(m, tabs, given).version == Resumed(m, tabs).version
  {
    StagesOf(m, tabs, given);
    BegunIsReady(Cleaned(m, tabs), Prepared(m, tabs, given), tabs);
  }

  /**
   A reload whose switch was made ends quietly. It succeeds exactly when the answer was yes; then
   the set version has moved on and nothing stale is left. Otherwise it ends with the switch
   undone.
   */
  lemma SwitchedEnds(m: Machine, tabs: seq<TabId>, given: Inputs)
    requires CanStart(m, tabs) && GoodInputs(given)
    requires var how := EndingOf(m, tabs, given); how.Declined? || how.Confirmed?
    ensures var run := ReloadRun(m, tabs, given);
      var e, z := Last(m, run.states), Prepared(m, tabs, given);
      && run.ok == given.confirmed && Quiet(e) && CanStart(e, tabs)
      && e.version == Resumed(m, tabs).version + (if given.confirmed then 1 else 0)
      && (if given.confirmed then NothingStale(e.tables) else e == RolledBackMachine(z, NEW, OLD))
  {
    ReloadSplits(m, tabs, given);
    PreparedIsPoised(m, tabs, given);
    ApplyEndsStartable(Prepared(m, tabs, given), tabs, given.confirmed);
  }

  /** Every reload ends where the next can start, and quietly unless its switch was refused half-way. */
  lemma ReloadEnds(m: Machine, tabs: seq<TabId>, given: Inputs)
    requires CanStart(m, tabs) && GoodInputs(given)
    ensures var run := ReloadRun(m, tabs, given);
      var e, how := Last(m, run.states), EndingOf(m, tabs, given);
      CanStart(e, tabs) && e.step.None? && (run.ok <==> how.Confirmed?) && (!how.NotSwitched? ==> Quiet(e))
  {
    match EndingOf(m, tabs, given)
    case NotBuilt => NotBuiltEnds(m, tabs, given);
    case NotSwitched => NotSwitchedEnds(m, tabs, given);
    case _ => SwitchedEnds(m, tabs, given);
  }

}
