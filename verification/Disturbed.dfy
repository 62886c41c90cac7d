/**
 Reloads that find candidates hooked, after a switch that was refused half-way: what holds of
 every packet the rest of the ruleset decides.
 */
module Disturbed {
  import opened Seqs
  import opened Text
  import opened Netfilter
  import opened Kernel
  import opened Machines
  import opened Hosts
  import opened Generations
  import opened Delegates
  import opened Apply
  import opened ApplyProof
  import opened Commit
  import opened CommitProof
  import opened Tidy
  import opened Cleanup
  import opened CleanupProof
  import opened CleanupSteps
  import opened Harmless
  import opened Zones
  import opened Building
  import opened Switching
  import opened Reload
  import opened Resting
  import opened ReloadProof
  import opened ReloadResults
  import opened Verdicts

  // ---------- what stands before a jump to a stale chain ----------

  predicate StaleJump(r: Rule) {
    r.target.Jump? && Stale(r.target.chain)
  }

  /** The rules before the first jump to a candidate or outgoing chain. */
  function Front(rs: seq<Rule>): seq<Rule> {
    if rs == [] || StaleJump(rs[0]) then [] else [rs[0]] + Front(rs[1..])
  }

  lemma {:induction false} FrontIs(rs: seq<Rule>)
    ensures Front(rs) <= rs && forall r :: r in Front(rs) ==> !StaleJump(r)
    ensures (forall r :: r in rs ==> !StaleJump(r)) ==> Front(rs) == rs
    decreases |rs|
  {
    if rs != [] {
      FrontIs(rs[1..]);
      assert rs == [rs[0]] + rs[1..];
    }
  }

  lemma {:induction false} FrontGrows(a: seq<Rule>, rs: seq<Rule>)
    requires a <= rs && forall r :: r in a ==> !StaleJump(r)
    ensures a <= Front(rs)
    decreases |a|
  {
    if a != [] {
      assert a[0] in a && rs[0] == a[0];
      assert a[1..] <= rs[1..] && forall r :: r in a[1..] ==> r in a;
      FrontGrows(a[1..], rs[1..]);
      assert a == [a[0]] + a[1..];
    }
  }

  lemma {:induction false} FrontStays(a: seq<Rule>, rs: seq<Rule>, r: Rule)
    requires a <= rs && r !in a
    ensures a <= RemoveFirst(rs, r)
    decreases |a|
  {
    if a != [] {
      assert a[0] in a && rs[0] == a[0];
      assert a[1..] <= rs[1..] && forall x :: x in a[1..] ==> x in a;
      FrontStays(a[1..], rs[1..], r);
      assert a == [a[0]] + a[1..];
    }
  }

  /** Chains that are not stale are there, still begin as they did, and are the same if they jump to nothing stale. */
  ghost predicate Fronted(c: Chains, x: Chains) {
    forall n :: !Stale(n) ==>
      (n in c <==> n in x) && (n in c ==> Front(c[n]) <= x[n] && (Front(c[n]) == c[n] ==> x[n] == c[n]))
  }

  lemma FrontedItself(c: Chains)
    ensures Fronted(c, c)
  {
    forall n | n in c
      ensures Front(c[n]) <= c[n]
    {
      FrontIs(c[n]);
    }
  }

  lemma FrontedThrough(c: Chains, x: Chains, y: Chains)
    requires Fronted(c, x) && Fronted(x, y)
    ensures Fronted(c, y)
  {
    forall n | n in c && !Stale(n)
      ensures Front(c[n]) <= y[n]
    {
      FrontIs(c[n]);
      FrontGrows(Front(c[n]), x[n]);
    }
  }

  lemma CleaningKeepsFronts(c: Chains, x: Chains, sets: set<Name>, op: Op)
    requires Fronted(c, x) && CleaningOp(op) && Exec(x, sets, op).Some?
    ensures Fronted(c, Exec(x, sets, op).value)
  {
    match op
    case Flush(n) =>
    case Attempt(Delete(h, r)) =>
      if h in x && r in x[h] && !Stale(h) {
        FrontIs(c[h]);
        FrontStays(Front(c[h]), x[h], r);
      }
    case Attempt(DropChain(n)) =>
  }

  lemma PassKeepsFronts(c: Chains, sets: set<Name>, ops: seq<Op>)
    requires forall op :: op in ops ==> CleaningOp(op)
    ensures forall x :: x in RunOps(c, sets, ops).states ==> Fronted(c, x)
  {
    FrontedItself(c);
    forall x, i | Fronted(c, x) && 0 <= i < |ops| && Exec(x, sets, ops[i]).Some?
      ensures Fronted(c, Exec(x, sets, ops[i]).value)
    {
      CleaningKeepsFronts(c, x, sets, ops[i]);
    }
    RunKeeps(c, sets, ops, x => Fronted(c, x));
  }

  // ---------- a cleanup keeps them ----------

  /** Of version `v` and of other programs, the sets are the same; and what stands before stale jumps still does. */
  ghost predicate FrontsKept(m: Machine, s: Machine, v: int) {
    && s.tables.Keys == m.tables.Keys && SeenSame(m.sets, s.sets, v)
    && forall t :: t in m.tables ==> Fronted(m.tables[t], s.tables[t])
  }

  lemma FrontsKeptThrough(m: Machine, s: Machine, e: Machine, v: int)
    requires FrontsKept(m, s, v) && FrontsKept(s, e, v)
    ensures FrontsKept(m, e, v)
  {
    forall t | t in m.tables
      ensures Fronted(m.tables[t], e.tables[t])
    {
      FrontedThrough(m.tables[t], s.tables[t], e.tables[t]);
    }
  }

  lemma SweepKeepsFronts(m: Machine, tabs: seq<TabId>, plan: Plan, s: Machine, v: int)
    requires Covering(m, tabs) && CleaningPlan(plan) && (s == m || s in Sweep(m, tabs, plan).states)
    ensures FrontsKept(m, s, v) && Covering(s, tabs)
  {
    if s != m {
      SweepState(m, tabs, plan, s);
    }
    forall t | t in m.tables
      ensures Fronted(m.tables[t], s.tables[t])
    {
      FrontedItself(m.tables[t]);
      PassKeepsFronts(m.tables[t], m.sets.Keys, plan(m.tables[t]));
    }
  }

  lemma FlushAndRemoveKeepsFronts(m: Machine, tabs: seq<TabId>, prefix: string, s: Machine, v: int)
    requires Covering(m, tabs) && StalePrefix(prefix) && (s == m || s in FlushAndRemove(m, tabs, prefix).states)
    ensures FrontsKept(m, s, v) && Covering(s, tabs)
  {
    CleaningPlans(prefix);
    var first := Sweep(m, tabs, ForEach(prefix, FlushChain()));
    if s == m || s in first.states {
      SweepKeepsFronts(m, tabs, ForEach(prefix, FlushChain()), s, v);
    } else {
      var m' := Last(m, first.states);
      SweepKeepsFronts(m, tabs, ForEach(prefix, FlushChain()), m', v);
      SweepKeepsFronts(m', tabs, ForEach(prefix, RemoveChain()), s, v);
      FrontsKeptThrough(m, m', s, v);
    }
  }

  lemma TablesKeepFronts(m: Machine, tabs: seq<TabId>, s: Machine, v: int)
    requires Covering(m, tabs) && (s == m || s in TablesRun(m, tabs).states)
    ensures FrontsKept(m, s, v) && Covering(s, tabs)
  {
    var first := FlushAndRemove(m, tabs, FWTMP);
    if s == m || s in first.states {
      FlushAndRemoveKeepsFronts(m, tabs, FWTMP, s, v);
    } else {
      var m' := Last(m, first.states);
      FlushAndRemoveKeepsFronts(m, tabs, FWTMP, m', v);
      FlushAndRemoveKeepsFronts(m', tabs, FWD, s, v);
      FrontsKeptThrough(m, m', s, v);
    }
  }

  lemma {:induction false} DestroyKeepsSeen(m: Machine, names: seq<Name>, k: int, s: Machine, v: int)
    requires k != v && AllUnder(names, SetPrefix(k)) && (s == m || s in DestroyRun(m, names).states)
    ensures s == m.(sets := s.sets) && SeenSame(m.sets, s.sets, v)
    decreases |names|
  {
    if s != m {
      AllUnderTail(names, SetPrefix(k));
      assert OtherVersion(names[0], v);
      if names[0] in m.sets && !SetUsed(m.tables, names[0]) {
        DestroyKeepsSeen(m.(sets := m.sets - {names[0]}), names[1..], k, s, v);
      } else {
        DestroyKeepsSeen(m, names[1..], k, s, v);
      }
    }
  }

  lemma PrefixKeepsSeen(m: Machine, k: int, s: Machine, v: int)
    requires k != v && (s == m || s in PrefixRun(m, SetPrefix(k)).states)
    ensures s == m.(sets := s.sets) && SeenSame(m.sets, s.sets, v)
  {
    DestroyKeepsSeen(m, SetsNamed(m, SetPrefix(k)), k, s, v);
  }

  lemma SetsKeepSeen(m: Machine, s: Machine)
    requires s == m || s in SetsRun(m).states
    ensures s == m.(sets := s.sets) && SeenSame(m.sets, s.sets, m.version)
  {
    var v: int := m.version;
    var first := PrefixRun(m, SetPrefix(v - 1));
    if s == m || s in first.states {
      PrefixKeepsSeen(m, v - 1, s, v);
    } else {
      var m' := Last(m, first.states);
      PrefixKeepsSeen(m, v - 1, m', v);
      PrefixKeepsSeen(m', v + 1, s, v);
    }
  }

  lemma SetsKeepFronts(m: Machine, s: Machine)
    requires s == m || s in SetsRun(m).states
    ensures FrontsKept(m, s, m.version)
  {
    SetsKeepSeen(m, s);
    forall t | t in m.tables
      ensures Fronted(m.tables[t], s.tables[t])
    {
      FrontedItself(m.tables[t]);
    }
  }

  lemma CleanupKeepsFronts(m: Machine, tabs: seq<TabId>, s: Machine)
    requires Covering(m, tabs) && Cleanable(m) && (s == m || s in CleanupRun(m, tabs).states)
    ensures FrontsKept(m, s, m.version)
  {
    var first := TablesRun(m, tabs);
    var m' := Last(m, first.states);
    TablesCleaner(m, tabs, m');
    if s == m || s in first.states {
      TablesKeepFronts(m, tabs, s, m.version);
    } else {
      TablesKeepFronts(m, tabs, m', m.version);
      SetsKeepFronts(m', s);
      FrontsKeptThrough(m, m', s, m.version);
    }
  }

  // ---------- packets that are decided there ----------

  /** Chains in use that a rule can jump to. */
  function InUse(): Name -> bool {
    n => !Stale(n) && n !in BUILTINS
  }

  lemma InUseRow(c: Chains, sets: set<Name>, v: int, n: Name)
    requires TidyTable(c, v) && SoundTable(c, sets) && InUse()(n) && n in c
    ensures Front(c[n]) == c[n] && JumpsIn(c[n], InUse()) && TestsIn(c[n], Seen(v))
  {
    forall r | r in c[n] && r.target.Jump?
      ensures InUse()(r.target.chain)
    {
      InUseJump(c, sets, v, n, r);
    }
    FrontIs(c[n]);
    forall i | 0 <= i < |c[n]| && c[n][i].target.Jump?
      ensures InUse()(c[n][i].target.chain)
    {
      assert c[n][i] in c[n];
    }
    TidyTests(c, v, n);
  }

  lemma InUseJump(c: Chains, sets: set<Name>, v: int, n: Name, r: Rule)
    requires TidyTable(c, v) && SoundTable(c, sets) && InUse()(n) && n in c && r in c[n] && r.target.Jump?
    ensures InUse()(r.target.chain)
  {
    assert RuleTidy(n, r, v) && RuleFits(r, c.Keys, sets);
    DelegateGeneration(r.target.chain);
    OneGeneration(n);
  }

  /** The rules before a jump to a stale chain jump to, and test, only what is in use. */
  lemma FrontRow(c: Chains, sets: set<Name>, v: int, n: Name)
    requires TidyTable(c, v) && SoundTable(c, sets) && Foreign(n) && n in c
    ensures JumpsIn(Front(c[n]), InUse()) && TestsIn(Front(c[n]), Seen(v))
  {
    var a := Front(c[n]);
    FrontIs(c[n]);
    forall i | 0 <= i < |a|
      ensures a[i] == c[n][i] && (a[i].target.Jump? ==> InUse()(a[i].target.chain))
    {
      assert a[i] in a && c[n][i] in c[n];
      assert RuleFits(c[n][i], c.Keys, sets);
    }
    TidyTests(c, v, n);
  }

  lemma FrontsSameView(c: Chains, sets: Sets, x: Chains, sets': Sets, v: int)
    requires TidyTable(c, v) && SoundTable(c, sets.Keys) && Fronted(c, x) && SeenSame(sets, sets', v)
    ensures SameView(c, sets, x, sets', InUse(), Seen(v))
  {
    forall n | InUse()(n) && n in c
      ensures n in x && c[n] == x[n] && JumpsIn(c[n], InUse()) && TestsIn(c[n], Seen(v))
    {
      InUseRow(c, sets.Keys, v, n);
    }
  }

  /** The packet is decided at this chain before any jump to a stale chain is reached. */
  ghost predicate DecidedInFront(c: Chains, sets: Sets, n: Name, p: Packet, depth: nat) {
    Foreign(n) && n in c && !Walk(c, sets, Front(c[n]), p, depth).Through?
  }

  lemma RowFromFront(c: Chains, sets: Sets, a: seq<Rule>, n: Name, p: Packet, depth: nat)
    requires n in c && a <= c[n] && !Walk(c, sets, a, p, depth).Through?
    ensures Fate(c, sets, n, p, depth) == RowFate(c, sets, a, p, depth)
  {
    assert c[n] == a + c[n][|a|..];
    WalkConcat(c, sets, a, c[n][|a|..], p, depth);
    FateIsRowFate(c, sets, n, p, depth);
  }

  lemma FrontDecidesAlike(c: Chains, sets: Sets, x: Chains, sets': Sets, v: int, n: Name, p: Packet, depth: nat)
    requires TidyTable(c, v) && SoundTable(c, sets.Keys) && Fronted(c, x) && SeenSame(sets, sets', v) && DecidedInFront(c, sets, n, p, depth)
    ensures n in x && Fate(x, sets', n, p, depth) == Fate(c, sets, n, p, depth)
  {
    var a := Front(c[n]);
    OneGeneration(n);
    FrontIs(c[n]);
    FrontsSameView(c, sets, x, sets', v);
    FrontRow(c, sets.Keys, v, n);
    ViewWalk(c, sets, x, sets', InUse(), Seen(v), a, p, depth);
    RowFromFront(c, sets, a, n, p, depth);
    RowFromFront(x, sets', a, n, p, depth);
  }

  /** Packets decided in front of every stale jump meet the same verdict in both. */
  ghost predicate SameWhereDecided(m: Machine, s: Machine) {
    && s.tables.Keys == m.tables.Keys
    && forall t, n, p, depth: nat :: t in m.tables && DecidedInFront(m.tables[t], m.sets, n, p, depth) ==>
      n in s.tables[t] && Fate(s.tables[t], s.sets, n, p, depth) == Fate(m.tables[t], m.sets, n, p, depth)
  }

  lemma FrontsKeptSame(m: Machine, s: Machine)
    requires Cleanable(m) && FrontsKept(m, s, m.version)
    ensures SameWhereDecided(m, s)
  {
    forall t, n, p, depth: nat | t in m.tables && DecidedInFront(m.tables[t], m.sets, n, p, depth)
      ensures n in s.tables[t] && Fate(s.tables[t], s.sets, n, p, depth) == Fate(m.tables[t], m.sets, n, p, depth)
    {
      assert TidyTable(m.tables[t], m.version) && SoundTable(m.tables[t], m.sets.Keys);
      FrontDecidesAlike(m.tables[t], m.sets, s.tables[t], s.sets, m.version, n, p, depth);
    }
  }

  lemma SameVerdictsWhereDecided(m: Machine, s: Machine)
    requires SameVerdicts(m, s)
    ensures SameWhereDecided(m, s)
  {
    forall t, n, p, depth: nat | t in m.tables && DecidedInFront(m.tables[t], m.sets, n, p, depth)
      ensures n in s.tables[t] && Fate(s.tables[t], s.sets, n, p, depth) == Fate(m.tables[t], m.sets, n, p, depth)
    {
      assert SameFates(m.tables[t], m.sets, s.tables[t], s.sets, n);
    }
  }

  // ---------- a reload from any state it can start in ----------

  /** Up to the end of the cleanup, packets decided in front keep their verdicts. */
  lemma CleaningKeepsDecided(m: Machine, tabs: seq<TabId>, s: Machine)
    requires CanStart(m, tabs)
    requires s in ResumeRun(m, tabs).states || s in CleanupRun(Resumed(m, tabs), tabs).states || s == Cleaned(m, tabs)
    ensures SameWhereDecided(m, s)
  {
    if m.step.None? {
      ResumedIdle(m, tabs);
      CleanupKeepsFronts(m, tabs, s);
      FrontsKeptSame(m, s);
    } else {
      if s in ResumeRun(m, tabs).states {
        ResumeVerdicts(m, tabs, s);
      } else {
        CleaningVerdicts(m, tabs, s);
      }
      SameVerdictsWhereDecided(m, s);
    }
  }

  lemma CleanedExtends(m: Machine, tabs: seq<TabId>, given: Inputs)
    requires CanStart(m, tabs) && GoodInputs(given)
    ensures Extends(Cleaned(m, tabs), SwitchedMachine(Prepared(m, tabs, given), NEW, OLD))
  {
    var z := Prepared(m, tabs, given);
    StagesOf(m, tabs, given);
    BegunIsReady(Cleaned(m, tabs), z, tabs);
    SwitchedExtends(z, NEW, OLD);
    ExtendsLater(Cleaned(m, tabs), z, SwitchedMachine(z, NEW, OLD));
  }

  lemma BuildingSinceCleaned(m: Machine, tabs: seq<TabId>, given: Inputs, s: Machine)
    requires CanStart(m, tabs) && GoodInputs(given)
    requires var c, b := Cleaned(m, tabs), Submitted(m, tabs, given);
      s in SubmitRun(c, given.build(c.version)).states || s in ZonesRun(b, tabs, given.order).states
    ensures SameVerdicts(Cleaned(m, tabs), s)
  {
    var c, b := Cleaned(m, tabs), Submitted(m, tabs, given);
    StagesOf(m, tabs, given);
    if s in SubmitRun(c, given.build(c.version)).states {
      SubmitStates(c, tabs, given, s);
    } else {
      ZonesBegun(c, b, tabs, given.order, s);
    }
    BegunIsReady(c, s, tabs);
  }

  lemma ApplySinceCleaned(m: Machine, tabs: seq<TabId>, given: Inputs, s: Machine)
    requires CanStart(m, tabs) && GoodInputs(given) && Late(m, tabs, given, s)
    ensures MayMeet(Cleaned(m, tabs), Prepared(m, tabs, given), s, given.confirmed)
  {
    var z := Prepared(m, tabs, given);
    StagesOf(m, tabs, given);
    BegunIsReady(Cleaned(m, tabs), z, tabs);
    ApplyVerdicts(z, tabs, given.confirmed, s);
    if Either(z, s, SwitchedMachine(z, NEW, OLD)) {
      EitherLater(Cleaned(m, tabs), z, s, SwitchedMachine(z, NEW, OLD));
    }
  }

  /** From the end of the cleanup on, whatever was found before it: old or new, counted from there. */
  lemma OldOrNewSinceCleaned(m: Machine, tabs: seq<TabId>, given: Inputs, s: Machine)
    requires CanStart(m, tabs) && GoodInputs(given) && s in ReloadRun(m, tabs, given).states
    requires s !in ResumeRun(m, tabs).states && s !in CleanupRun(Resumed(m, tabs), tabs).states
    ensures MayMeet(Cleaned(m, tabs), Prepared(m, tabs, given), s, given.confirmed)
  {
    ReloadParts(m, tabs, given, s);
    if Late(m, tabs, given, s) {
      ApplySinceCleaned(m, tabs, given, s);
    } else {
      BuildingSinceCleaned(m, tabs, given, s);
      CleanedExtends(m, tabs, given);
      SameIsEither(Cleaned(m, tabs), s, SwitchedMachine(Prepared(m, tabs, given), NEW, OLD));
    }
  }

  /** One packet at one chain of `s`: the old verdict, or the new one, or after a no the restored one. */
  ghost predicate MeetsOldOrNew(m: Machine, z: Machine, s: Machine, confirmed: bool, t: TabId, n: Name, p: Packet, depth: nat)
    requires t in m.tables && t in z.tables && t in s.tables
  {
    var a, e := Switched(z.tables[t], NEW, OLD), RolledBack(z.tables[t], NEW, OLD);
    var now := Fate(s.tables[t], s.sets, n, p, depth);
    || now == Fate(m.tables[t], m.sets, n, p, depth)
    || now == Fate(a, z.sets, n, p, depth)
    || (!confirmed && now == Fate(e, z.sets, n, p, depth))
  }

  lemma MayMeetAt(m: Machine, z: Machine, s: Machine, confirmed: bool, t: TabId, n: Name, p: Packet, depth: nat)
    requires MayMeet(m, z, s, confirmed) && m.tables.Keys == z.tables.Keys && t in m.tables && n in m.tables[t] && n in z.tables[t] && Foreign(n)
    ensures t in s.tables && MeetsOldOrNew(m, z, s, confirmed, t, n, p, depth)
  {
    var a, e := SwitchedMachine(z, NEW, OLD), RolledBackMachine(z, NEW, OLD);
    if Either(m, s, a) {
      assert EitherAt(m, s, a, t, n);
    } else {
      assert EitherAt(a, s, e, t, n);
    }
  }

  lemma PreparedSameVerdicts(m: Machine, tabs: seq<TabId>, given: Inputs)
    requires CanStart(m, tabs) && GoodInputs(given)
    ensures SameVerdicts(Cleaned(m, tabs), Prepared(m, tabs, given))
  {
    StagesOf(m, tabs, given);
    BegunIsReady(Cleaned(m, tabs), Prepared(m, tabs, given), tabs);
  }

  /** So it is for every packet decided in front. */
  ghost predicate DecidedMeetOldOrNew(m: Machine, z: Machine, s: Machine, confirmed: bool) {
    && s.tables.Keys == m.tables.Keys == z.tables.Keys
    && forall t, n, p, depth: nat :: t in m.tables && DecidedInFront(m.tables[t], m.sets, n, p, depth) ==>
      MeetsOldOrNew(m, z, s, confirmed, t, n, p, depth)
  }

  lemma DecidedSinceCleanedAt(m: Machine, c: Machine, z: Machine, s: Machine, confirmed: bool, t: TabId, n: Name, p: Packet, depth: nat)
    requires SameWhereDecided(m, c) && SameVerdicts(c, z) && MayMeet(c, z, s, confirmed)
    requires t in m.tables && DecidedInFront(m.tables[t], m.sets, n, p, depth)
    ensures t in s.tables && t in z.tables && MeetsOldOrNew(m, z, s, confirmed, t, n, p, depth)
  {
    assert SameFates(c.tables[t], c.sets, z.tables[t], z.sets, n);
    MayMeetAt(c, z, s, confirmed, t, n, p, depth);
  }

  lemma DecidedSinceCleaned(m: Machine, c: Machine, z: Machine, s: Machine, confirmed: bool)
    requires SameWhereDecided(m, c) && SameVerdicts(c, z) && MayMeet(c, z, s, confirmed)
    ensures DecidedMeetOldOrNew(m, z, s, confirmed)
  {
    forall t, n, p, depth: nat | t in m.tables && DecidedInFront(m.tables[t], m.sets, n, p, depth)
      ensures t in s.tables && t in z.tables && MeetsOldOrNew(m, z, s, confirmed, t, n, p, depth)
    {
      DecidedSinceCleanedAt(m, c, z, s, confirmed, t, n, p, depth);
    }
  }

  lemma DecidedWhileCleaning(m: Machine, z: Machine, s: Machine, confirmed: bool)
    requires SameWhereDecided(m, s) && z.tables.Keys == m.tables.Keys
    ensures DecidedMeetOldOrNew(m, z, s, confirmed)
  {
  }

  /**
   From any state a reload can start in, with candidates hooked or not: a packet that is decided
   before a jump to a candidate or outgoing chain is reached meets at every state the old verdict, the
   new one, or after a no the restored one.
   */
  lemma OldOrNewWhereDecided(m: Machine, tabs: seq<TabId>, given: Inputs, s: Machine)
    requires CanStart(m, tabs) && GoodInputs(given) && s in ReloadRun(m, tabs, given).states
    ensures DecidedMeetOldOrNew(m, Prepared(m, tabs, given), s, given.confirmed)
  {
    if s in ResumeRun(m, tabs).states || s in CleanupRun(Resumed(m, tabs), tabs).states {
      CleaningKeepsDecided(m, tabs, s);
      DecidedWhileCleaning(m, Prepared(m, tabs, given), s, given.confirmed);
    } else {
      CleaningKeepsDecided(m, tabs, Cleaned(m, tabs));
      PreparedSameVerdicts(m, tabs, given);
      OldOrNewSinceCleaned(m, tabs, given, s);
      DecidedSinceCleaned(m, Cleaned(m, tabs), Prepared(m, tabs, given), s, given.confirmed);
    }
  }
}
