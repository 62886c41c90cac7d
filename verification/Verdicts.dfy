/** Packets only ever get the verdict of the old configuration or of the new one. */
module Verdicts {
  import opened Text
  import opened Netfilter
  import opened Kernel
  import opened Machines
  import opened Hosts
  import opened Generations
  import opened Delegates
  import opened Apply
  import opened ApplyProof
  import opened Commit
  import opened CommitProof
  import opened Tidy
  import opened CleanupProof
  import opened CleanupSteps
  import opened Harmless
  import opened Zones
  import opened Building
  import opened Switching
  import opened Turnover
  import opened Reload
  import opened Resting
  import opened ReloadProof
  import opened ReloadResults

  /** In `s` every packet entering at a chain the firewall did not make gets the verdict of `m` or of `a`. */
  ghost predicate Either(m: Machine, s: Machine, a: Machine) {
    && s.tables.Keys == m.tables.Keys == a.tables.Keys
    && forall t, n :: t in m.tables && n in m.tables[t] && Foreign(n) ==> EitherAt(m, s, a, t, n)
  }

  ghost predicate EitherAt(m: Machine, s: Machine, a: Machine, t: TabId, n: Name)
    requires t in m.tables && t in s.tables && t in a.tables
  {
    && n in s.tables[t] && n in a.tables[t]
    && forall p, depth: nat ::
      || Fate(s.tables[t], s.sets, n, p, depth) == Fate(m.tables[t], m.sets, n, p, depth)
      || Fate(s.tables[t], s.sets, n, p, depth) == Fate(a.tables[t], a.sets, n, p, depth)
  }

  /** `a` has the tables of `m`, and in them at least its foreign chains. */
  ghost predicate Extends(m: Machine, a: Machine) {
    && a.tables.Keys == m.tables.Keys
    && forall t, n :: t in m.tables && n in m.tables[t] && Foreign(n) ==> n in a.tables[t]
  }

  lemma SameIsEither(m: Machine, s: Machine, a: Machine)
    requires SameVerdicts(m, s) && Extends(m, a)
    ensures Either(m, s, a)
  {
    forall t, n | t in m.tables && n in m.tables[t] && Foreign(n)
      ensures EitherAt(m, s, a, t, n)
    {
      assert SameFates(m.tables[t], m.sets, s.tables[t], s.sets, n);
    }
  }

  lemma NewIsEither(m: Machine, s: Machine, a: Machine)
    requires SameVerdicts(a, s) && Extends(m, a)
    ensures Either(m, s, a)
  {
    forall t, n | t in m.tables && n in m.tables[t] && Foreign(n)
      ensures EitherAt(m, s, a, t, n)
    {
      assert SameFates(a.tables[t], a.sets, s.tables[t], s.sets, n);
    }
  }

  lemma EitherLater(m: Machine, b: Machine, s: Machine, a: Machine)
    requires SameVerdicts(m, b) && Either(b, s, a)
    ensures Either(m, s, a)
  {
    forall t, n | t in m.tables && n in m.tables[t] && Foreign(n)
      ensures EitherAt(m, s, a, t, n)
    {
      assert SameFates(m.tables[t], m.sets, b.tables[t], b.sets, n) && EitherAt(b, s, a, t, n);
    }
  }

  lemma ExtendsLater(m: Machine, b: Machine, a: Machine)
    requires SameVerdicts(m, b) && Extends(b, a)
    ensures Extends(m, a)
  {
    forall t, n | t in m.tables && n in m.tables[t] && Foreign(n)
      ensures n in a.tables[t]
    {
      assert n in b.tables[t];
    }
  }

  lemma SwitchedExtends(m: Machine, up: string, down: string)
    ensures Extends(m, SwitchedMachine(m, up, down))
  {
  }

  lemma StageIsEither(m: Machine, s: Machine, up: string, down: string, t: TabId, n: Name)
    requires Sound(m) && AllSwitchable(m, up, down) && Stages(m, s, up, down) && t in m.tables && n in m.tables[t]
    ensures EitherAt(m, s, SwitchedMachine(m, up, down), t, n)
  {
    var c, x := m.tables[t], s.tables[t];
    forall p, depth: nat
      ensures Fate(x, m.sets, n, p, depth) == Fate(c, m.sets, n, p, depth)
        || Fate(x, m.sets, n, p, depth) == Fate(Switched(c, up, down), m.sets, n, p, depth)
    {
      OldOrNewVerdict(c, x, m.sets, up, down, n, p, depth);
    }
  }

  /** During a switch every packet gets the verdict from before it or the one from after it. */
  lemma StagesAreEither(m: Machine, s: Machine, up: string, down: string)
    requires Sound(m) && AllSwitchable(m, up, down) && Stages(m, s, up, down)
    ensures Either(m, s, SwitchedMachine(m, up, down))
  {
    forall t, n | t in m.tables && n in m.tables[t] && Foreign(n)
      ensures EitherAt(m, s, SwitchedMachine(m, up, down), t, n)
    {
      StageIsEither(m, s, up, down, t, n);
    }
  }

  // ---------- fw_apply ----------

  lemma SwitchVerdicts(z: Machine, tabs: seq<TabId>, s: Machine)
    requires Covering(z, tabs) && AllReady(z) && s in SwitchRun(z, tabs, NEW, OLD).states
    ensures Either(z, s, SwitchedMachine(z, NEW, OLD))
  {
    ReadyIsSwitchable(z);
    ApplyProof.SwitchStages(z, tabs, NEW, OLD, s);
    StagesAreEither(z, s, NEW, OLD);
  }

  lemma UndoVerdicts(z: Machine, tabs: seq<TabId>, s: Machine)
    requires Poised(z, tabs) && Covering(SwitchedMachine(z, NEW, OLD), tabs)
    requires s in UndoRun(SwitchedMachine(z, NEW, OLD), tabs).states
    ensures Either(SwitchedMachine(z, NEW, OLD), s, RolledBackMachine(z, NEW, OLD))
  {
    var a := SwitchedMachine(z, NEW, OLD);
    UndoStates(z, tabs, s);
    ReadyIsSwitchable(z);
    AppliedIsSwitchable(z, NEW, OLD);
    SwitchFromPoised(z, tabs);
    StagesAreEither(a, s, OLD, NEW);
    SwitchedTwice(z, NEW, OLD);
  }

  /**
   What a packet may meet at a state `s` of a reload from `m` whose candidate generation is `z`:
   the old verdict or the new one, and while a declined switch is undone the new or the restored.
   */
  ghost predicate MayMeet(m: Machine, z: Machine, s: Machine, confirmed: bool) {
    var a := SwitchedMachine(z, NEW, OLD);
    Either(m, s, a) || (!confirmed && Either(a, s, RolledBackMachine(z, NEW, OLD)))
  }

  lemma ApplyVerdicts(z: Machine, tabs: seq<TabId>, confirmed: bool, s: Machine)
    requires Covering(z, tabs) && AllReady(z) && z.step.None? && s in ApplyRun(z, tabs, confirmed).states
    ensures MayMeet(z, z, s, confirmed)
  {
    if s in SwitchRun(z, tabs, NEW, OLD).states {
      SwitchVerdicts(z, tabs, s);
    } else if AllHooksThere(z, NEW) {
      ApplyIs(z, tabs, confirmed);
      SwitchedIsAllApplied(z, tabs);
      AnswerVerdicts(z, tabs, confirmed, s);
    } else {
      RefusedSwitch(z, tabs);
    }
  }

  lemma AnswerVerdicts(z: Machine, tabs: seq<TabId>, confirmed: bool, s: Machine)
    requires Poised(z, tabs)
    requires var a := SwitchedMachine(z, NEW, OLD); Covering(a, tabs) && AllApplied(a) && s in AnswerRun(a, tabs, confirmed).states
    ensures MayMeet(z, z, s, confirmed)
  {
    var a := SwitchedMachine(z, NEW, OLD);
    if confirmed {
      KeepStates(a, tabs, s);
      SwitchedExtends(z, NEW, OLD);
      NewIsEither(z, s, a);
    } else {
      UndoVerdicts(z, tabs, s);
    }
  }

  // ---------- the whole reload ----------

  /** The configuration the reload started with is the only one a packet can meet. */
  ghost predicate Undisturbed(m: Machine) {
    Sound(m) && (m.step.None? ==> Settled(m.tables))
  }

  lemma ResumeVerdicts(m: Machine, tabs: seq<TabId>, s: Machine)
    requires CanStart(m, tabs) && Undisturbed(m) && (s in ResumeRun(m, tabs).states || s == Resumed(m, tabs))
    ensures SameVerdicts(m, s)
  {
    if s in ResumeRun(m, tabs).states {
      SoundIsClosedEverywhere(m);
      CommitKeepsVerdicts(m, tabs, s);
    }
  }

  lemma ResumedIsQuiet(m: Machine, tabs: seq<TabId>)
    requires CanStart(m, tabs) && Undisturbed(m)
    ensures Quiet(Resumed(m, tabs)) && Covering(Resumed(m, tabs), tabs)
  {
    ResumedIdle(m, tabs);
  }

  lemma CleaningVerdicts(m: Machine, tabs: seq<TabId>, s: Machine)
    requires CanStart(m, tabs) && Undisturbed(m) && (s in CleanupRun(Resumed(m, tabs), tabs).states || s == Cleaned(m, tabs))
    ensures SameVerdicts(m, s)
  {
    var r := Resumed(m, tabs);
    ResumedIsQuiet(m, tabs);
    ResumeVerdicts(m, tabs, r);
    CleanupStates(r, tabs, s);
    SameVerdictsThrough(m, r, s);
  }

  lemma BegunVerdicts(m: Machine, tabs: seq<TabId>, s: Machine)
    requires CanStart(m, tabs) && Undisturbed(m) && Begun(Cleaned(m, tabs), s, tabs)
    ensures SameVerdicts(m, s)
  {
    CleaningVerdicts(m, tabs, Cleaned(m, tabs));
    BegunIsReady(Cleaned(m, tabs), s, tabs);
    SameVerdictsThrough(m, Cleaned(m, tabs), s);
  }

  /** A state from before the apply: resuming, cleaning up, submitting, or preparing the zones. */
  ghost predicate Early(m: Machine, tabs: seq<TabId>, given: Inputs, s: Machine)
    requires forall t :: t in tabs ==> t in m.tables
  {
    var c := Cleaned(m, tabs);
    || s in ResumeRun(m, tabs).states || s in CleanupRun(Resumed(m, tabs), tabs).states
    || s in SubmitRun(c, given.build(c.version)).states || s in ZonesRun(Submitted(m, tabs, given), tabs, given.order).states
  }

  ghost predicate Late(m: Machine, tabs: seq<TabId>, given: Inputs, s: Machine)
    requires forall t :: t in tabs ==> t in m.tables
  {
    s in ApplyRun(Prepared(m, tabs, given), tabs, given.confirmed).states
  }

  /** The states of a reload, stage by stage. */
  lemma ReloadParts(m: Machine, tabs: seq<TabId>, given: Inputs, s: Machine)
    requires CanStart(m, tabs) && GoodInputs(given) && s in ReloadRun(m, tabs, given).states
    ensures Early(m, tabs, given, s) || Late(m, tabs, given, s)
    ensures EndingOf(m, tabs, given).NotBuilt? ==> Early(m, tabs, given, s)
  {
    StagesOf(m, tabs, given);
    ResumedIdle(m, tabs);
    ReloadIs(m, tabs, given);
    IdleIs(Resumed(m, tabs), tabs, given);
    CleanIs(Cleaned(m, tabs), tabs, given);
    ReadyIs(Submitted(m, tabs, given), tabs, given);
  }

  lemma BuildingVerdicts(m: Machine, tabs: seq<TabId>, given: Inputs, s: Machine)
    requires CanStart(m, tabs) && GoodInputs(given) && Undisturbed(m)
    requires var c, b := Cleaned(m, tabs), Submitted(m, tabs, given);
      s in SubmitRun(c, given.build(c.version)).states || s in ZonesRun(b, tabs, given.order).states
    ensures SameVerdicts(m, s)
  {
    var c, b := Cleaned(m, tabs), Submitted(m, tabs, given);
    StagesOf(m, tabs, given);
    if s in SubmitRun(c, given.build(c.version)).states {
      SubmitStates(c, tabs, given, s);
    } else {
      ZonesBegun(c, b, tabs, given.order, s);
    }
    BegunVerdicts(m, tabs, s);
  }

  /** Up to the apply nothing changes for any packet. */
  lemma EarlyVerdicts(m: Machine, tabs: seq<TabId>, given: Inputs, s: Machine)
    requires CanStart(m, tabs) && GoodInputs(given) && Undisturbed(m) && Early(m, tabs, given, s)
    ensures SameVerdicts(m, s)
  {
    if s in ResumeRun(m, tabs).states {
      ResumeVerdicts(m, tabs, s);
    } else if s in CleanupRun(Resumed(m, tabs), tabs).states {
      CleaningVerdicts(m, tabs, s);
    } else {
      BuildingVerdicts(m, tabs, given, s);
    }
  }

  lemma LateVerdicts(m: Machine, tabs: seq<TabId>, given: Inputs, s: Machine)
    requires CanStart(m, tabs) && GoodInputs(given) && Undisturbed(m) && Late(m, tabs, given, s)
    ensures MayMeet(m, Prepared(m, tabs, given), s, given.confirmed)
  {
    var z := Prepared(m, tabs, given);
    StagesOf(m, tabs, given);
    BegunIsReady(Cleaned(m, tabs), z, tabs);
    ApplyVerdicts(z, tabs, given.confirmed, s);
    BegunVerdicts(m, tabs, z);
    if Either(z, s, SwitchedMachine(z, NEW, OLD)) {
      EitherLater(m, z, s, SwitchedMachine(z, NEW, OLD));
    }
  }

  lemma PreparedExtends(m: Machine, tabs: seq<TabId>, given: Inputs)
    requires CanStart(m, tabs) && GoodInputs(given) && Undisturbed(m)
    ensures Extends(m, SwitchedMachine(Prepared(m, tabs, given), NEW, OLD))
  {
    var z := Prepared(m, tabs, given);
    StagesOf(m, tabs, given);
    BegunVerdicts(m, tabs, z);
    SwitchedExtends(z, NEW, OLD);
    ExtendsLater(m, z, SwitchedMachine(z, NEW, OLD));
  }

  /**
   Old or new. At every state of a reload that was not disturbed before it began, every packet
   entering at a chain the firewall did not make gets the verdict of the configuration the reload
   found or of the one it built; when the operator declines, while the switch is undone, of the
   one it built or of the restored one.
   */
  lemma OldOrNew(m: Machine, tabs: seq<TabId>, given: Inputs, s: Machine)
    requires CanStart(m, tabs) && GoodInputs(given) && Undisturbed(m) && s in ReloadRun(m, tabs, given).states
    ensures MayMeet(m, Prepared(m, tabs, given), s, given.confirmed)
  {
    ReloadParts(m, tabs, given, s);
    if Early(m, tabs, given, s) {
      EarlyVerdicts(m, tabs, given, s);
      PreparedExtends(m, tabs, given);
      SameIsEither(m, s, SwitchedMachine(Prepared(m, tabs, given), NEW, OLD));
    } else {
      LateVerdicts(m, tabs, given, s);
    }
  }

  /** A reload whose build is not taken changes no verdict at any state. */
  lemma FailedBuildIsInert(m: Machine, tabs: seq<TabId>, given: Inputs, s: Machine)
    requires CanStart(m, tabs) && GoodInputs(given) && Undisturbed(m) && s in ReloadRun(m, tabs, given).states
    requires EndingOf(m, tabs, given).NotBuilt?
    ensures SameVerdicts(m, s)
  {
    ReloadParts(m, tabs, given, s);
    EarlyVerdicts(m, tabs, given, s);
  }

  /** A confirmed reload ends with the verdicts of what it built. */
  lemma ConfirmedIsNew(m: Machine, tabs: seq<TabId>, given: Inputs)
    requires CanStart(m, tabs) && GoodInputs(given) && EndingOf(m, tabs, given).Confirmed?
    ensures SameVerdicts(SwitchedMachine(Prepared(m, tabs, given), NEW, OLD), Last(m, ReloadRun(m, tabs, given).states))
  {
    var z := Prepared(m, tabs, given);
    var a := SwitchedMachine(z, NEW, OLD);
    PreparedIsPoised(m, tabs, given);
    ReloadSplits(m, tabs, given);
    ApplyIs(z, tabs, true);
    SwitchedIsAllApplied(z, tabs);
    var states := KeepRun(a, tabs).states;
    if states != [] {
      KeepStates(a, tabs, Last(a, states));
    } else {
      ItselfHasSameVerdicts(a);
    }
  }

  lemma ItselfHasSameVerdicts(m: Machine)
    ensures SameVerdicts(m, m)
  {
  }
}
