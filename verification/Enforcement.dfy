/** A confirmed reload, whatever came before it, leaves the kernel enforcing the declarations. */
module Enforcement {
  import opened Text
  import opened Netfilter
  import opened Kernel
  import opened Machines
  import opened Hosts
  import opened Generations
  import opened Apply
  import opened ApplyProof
  import opened Tidy
  import opened CleanupProof
  import opened CleanupSteps
  import opened Zones
  import opened Building
  import opened Switching
  import opened Reload
  import opened Resting
  import opened ReloadProof
  import opened ReloadResults
  import opened Verdicts
  import opened Declarations
  import opened RuleBuilding
  import opened Meaning
  import opened Compilation
  import opened Compiling
  import opened Submitting
  import opened Loading
  import opened EndToEnd
  import AliasSets
  import Resolution
  import Restoring
  import Grouping

  /** The declarations, what DNS answers, which families take which tails, and how iptables takes a target word. */
  datatype Source = Source(ds: seq<Decl>, lookup: string -> Resolution.Answer, probe: Probe, targets: Targets)

  /** What they are compiled with when the recorded set version is `v`. */
  function EnvAt(src: Source, v: nat): Env {
    EnvOf(src.ds, src.lookup, FWTMP, SetPrefix(v + 1))
  }

  /** A reload of this source: it submits what compiling gives, and nothing when it does not compile. */
  ghost predicate ReloadOf(given: Inputs, src: Source) {
    && (forall v: nat :: given.build(v) ==
          (if Compiles(src.ds, src.lookup, FWTMP, SetPrefix(v + 1)) then Some(LoadsOf(src.ds, EnvAt(src, v), src.probe, src.targets)) else None))
    && (forall hook :: hook in HOOKS ==> hook in given.order)
  }

  /** No alias is written like an address or like the host of an alias. */
  predicate AliasesApart(ds: seq<Decl>) {
    forall n :: n in Resolution.AliasNames(ds) ==>
      Resolution.NameWord(n) && forall d :: d in ds && d.AliasIs? ==> d.alias.host != n
  }

  /** What the source does not check: see the README. */
  ghost predicate Careful(src: Source) {
    && ProbesOnce(src.probe) && TameTargets(src.ds, src.targets, FWTMP) && AliasesApart(src.ds)
    && (forall d :: d in src.ds && d.RuleIs? ==> d.rule.src != "" && d.rule.dst != "")
    && (forall d :: d in src.ds && d.RuleIs? && TargetWord(d.rule.tail).Some? ==> !(FWTMP + "+" <= TargetWord(d.rule.tail).value))
  }

  lemma CarefulReloadIsGood(given: Inputs, src: Source)
    requires ReloadOf(given, src) && Careful(src)
    ensures GoodInputs(given)
  {
    forall v: nat, l | given.build(v).Some? && l in given.build(v).value
      ensures CandidateLoad(l, v)
    {
      SubmissionsAreCandidates(src.ds, EnvAt(src, v), src.probe, src.targets, v);
    }
  }

  // ---------- the declarations are unambiguous ----------

  lemma AliasIsNotResolved(src: Source, n: string)
    requires AliasesApart(src.ds) && n in Resolution.AliasNames(src.ds)
    ensures AliasSets.AddressesFor(AddressesIn(src.ds, src.lookup), n) == []
  {
    Resolution.CollectedAreNeeded(src.ds, n);
  }

  lemma EndpointIsUnambiguous(src: Source, r: RuleDecl, host: string)
    requires Careful(src) && Resolves(src.ds, src.lookup) && RuleIs(r) in src.ds && (host == r.src || host == r.dst)
    ensures Unambiguous(host, src.ds, AddressesIn(src.ds, src.lookup))
  {
    if host in Resolution.AliasNames(src.ds) {
      AliasIsNotResolved(src, host);
    } else if Resolution.NameWord(host) {
      ComplaintsAreTroubles(src.ds, src.lookup);
      Resolution.ResolutionIsTotal(src.ds, src.lookup);
      Resolution.EndpointsHaveMeaning(src.ds, src.lookup, AddressesIn(src.ds, src.lookup), r, host);
    }
  }

  lemma SourceIsWellWritten(src: Source, v: nat, kernel: Chains, sets: Sets)
    requires Careful(src) && Resolves(src.ds, src.lookup)
    ensures WellWritten(Config(src.ds, EnvAt(src, v), src.probe, src.targets, kernel, sets))
  {
    var c := Config(src.ds, EnvAt(src, v), src.probe, src.targets, kernel, sets);
    forall d | d in src.ds && d.RuleIs?
      ensures RuleWellWritten(c, d.rule)
    {
      assert d == RuleIs(d.rule);
      EndpointIsUnambiguous(src, d.rule, d.rule.src);
      EndpointIsUnambiguous(src, d.rule, d.rule.dst);
    }
  }

  // ---------- what is in use ----------

  /** A clean machine, what submitting leaves of it, and what preparing the zones leaves of that. */
  ghost predicate Staged(c: Machine, b: Machine, z: Machine, tabs: seq<TabId>, given: Inputs) {
    && Covering(c, tabs) && Fresh(c) && c.step.None?
    && SubmitRun(c, given.build(c.version)).ok && b == Last(c, SubmitRun(c, given.build(c.version)).states)
    && Covering(b, tabs) && z == Last(b, ZonesRun(b, tabs, given.order).states)
  }

  lemma ReloadIsStaged(m: Machine, tabs: seq<TabId>, given: Inputs)
    requires CanStart(m, tabs) && GoodInputs(given) && !EndingOf(m, tabs, given).NotBuilt?
    ensures Staged(Cleaned(m, tabs), Submitted(m, tabs, given), Prepared(m, tabs, given), tabs, given)
  {
    StagesOf(m, tabs, given);
    ResumedIdle(m, tabs);
    CleanupIsFresh(Resumed(m, tabs), tabs);
  }

  lemma SetsAreNamed(src: Source, v: nat)
    ensures OwnNames(EnvAt(src, v).sets)
  {
  }

  /** The build of this reload, when it was taken. */
  lemma BuildTaken(c: Machine, b: Machine, z: Machine, tabs: seq<TabId>, given: Inputs, src: Source)
    requires Staged(c, b, z, tabs, given) && ReloadOf(given, src)
    ensures Compiles(src.ds, src.lookup, FWTMP, SetPrefix(c.version + 1))
    ensures Taken(c, b, src.ds, EnvAt(src, c.version), src.probe, src.targets)
  {
    SetsAreNamed(src, c.version);
    assert given.build(c.version).Some?;
    SubmissionTaken(c, src.ds, EnvAt(src, c.version), src.probe, src.targets);
  }

  lemma PreparedTables(b: Machine, z: Machine, tabs: seq<TabId>, order: seq<string>, t: TabId)
    requires Covering(b, tabs) && z == Last(b, ZonesRun(b, tabs, order).states) && (forall hook :: hook in HOOKS ==> hook in order)
    requires t in b.tables
    ensures z.tables.Keys == b.tables.Keys && z.tables[t] == Zoned(b.tables[t]) && z.sets == b.sets
  {
    ZonesResult(b, tabs, order);
  }

  lemma PreparedSwitchable(c: Machine, b: Machine, z: Machine, tabs: seq<TabId>, given: Inputs, t: TabId)
    requires Staged(c, b, z, tabs, given) && GoodInputs(given) && t in z.tables
    ensures Switchable(z.tables[t], NEW, OLD)
  {
    SubmitIsBegun(c, tabs, given);
    ZonesAreReady(c, b, tabs, given.order);
    BegunIsReady(c, z, tabs);
    ReadyIsSwitchable(z);
  }

  /** The configuration as it is to be read in the kernel of the new generation. */
  ghost function ReadInNew(z: Machine, src: Source, env: Env, t: TabId): Config
    requires t in z.tables
  {
    Config(src.ds, env, src.probe, src.targets, Switched(z.tables[t], NEW, OLD), z.sets)
  }

  ghost function NewConfig(c: Machine, z: Machine, src: Source, t: TabId): Config
    requires t in z.tables
  {
    ReadInNew(z, src, EnvAt(src, c.version), t)
  }

  lemma FreshHasNoCandidates(c: Machine, t: TabId)
    requires Fresh(c) && t in c.tables
    ensures NoName(c.tables[t], FWTMP)
  {
    forall n | n in c.tables[t]
      ensures !Tmp(n)
    {
      assert !Stale(n);
    }
  }

  lemma CompiledIsEnvFor(src: Source, v: nat, sets: Sets)
    requires Compiles(src.ds, src.lookup, FWTMP, SetPrefix(v + 1)) && SetsLoaded(sets, EnvAt(src, v).sets, EnvAt(src, v).setPrefix)
    ensures EnvFor(EnvAt(src, v), src.ds, sets)
  {
  }

  lemma NewChainsLoaded(c: Machine, b: Machine, z: Machine, tabs: seq<TabId>, given: Inputs, src: Source, t: TabId)
    requires Staged(c, b, z, tabs, given) && ReloadOf(given, src) && GoodInputs(given) && t in z.tables
    requires Taken(c, b, src.ds, EnvAt(src, c.version), src.probe, src.targets)
    requires t in b.tables && z.tables[t] == Zoned(b.tables[t])
    ensures ChainsLoaded(NewConfig(c, z, src, t), t.family, t.table)
  {
    PreparedSwitchable(c, b, z, tabs, given, t);
    FreshHasNoCandidates(c, t);
    ChainsInUse(c.tables[t], src.ds, EnvAt(src, c.version), src.probe, t.family, t.table, src.targets, z.sets);
  }

  lemma NewConfigReads(c: Machine, z: Machine, src: Source, t: TabId)
    requires Careful(src) && Compiles(src.ds, src.lookup, FWTMP, SetPrefix(c.version + 1)) && t in z.tables
    requires SetsLoaded(z.sets, EnvAt(src, c.version).sets, EnvAt(src, c.version).setPrefix)
    ensures var k := NewConfig(c, z, src, t); ProbesOnce(k.probe) && EnvFor(k.env, k.ds, k.sets) && WellWritten(k)
  {
    CompiledIsEnvFor(src, c.version, z.sets);
    SourceIsWellWritten(src, c.version, Switched(z.tables[t], NEW, OLD), z.sets);
  }

  /** What the stages come to in one table. */
  lemma NewTables(c: Machine, b: Machine, z: Machine, tabs: seq<TabId>, given: Inputs, src: Source, t: TabId)
    requires Staged(c, b, z, tabs, given) && ReloadOf(given, src) && t in c.tables
    ensures Compiles(src.ds, src.lookup, FWTMP, SetPrefix(c.version + 1))
    ensures Taken(c, b, src.ds, EnvAt(src, c.version), src.probe, src.targets)
    ensures z.tables.Keys == b.tables.Keys == c.tables.Keys && z.tables[t] == Zoned(b.tables[t]) && z.sets == b.sets
  {
    BuildTaken(c, b, z, tabs, given, src);
    PreparedTables(b, z, tabs, given.order, t);
  }

  /** The new generation is what was compiled. */
  lemma NewIsFaithful(c: Machine, b: Machine, z: Machine, tabs: seq<TabId>, given: Inputs, src: Source, t: TabId)
    requires Staged(c, b, z, tabs, given) && ReloadOf(given, src) && Careful(src) && GoodInputs(given) && t in c.tables && t in z.tables
    ensures Faithful(NewConfig(c, z, src, t), t.family, t.table)
  {
    NewTables(c, b, z, tabs, given, src, t);
    NewChainsLoaded(c, b, z, tabs, given, src, t);
    NewConfigReads(c, z, src, t);
  }

  lemma NoDelegateBuilt(c: Chains, ds: seq<Decl>, env: Env, probe: Probe, f: Family, table: string, targets: Targets)
    requires NoName(c, FWTMP) && ProbesOnce(probe) && env.prefix == FWTMP
    ensures NoName(c + News(RulesetOf(ds, env, probe), f, table, FWTMP, targets), NEW)
  {
    var rs := RulesetOf(ds, env, probe);
    forall n | n in c || n in News(rs, f, table, FWTMP, targets)
      ensures !(NEW < n)
    {
      DelegateGeneration(n);
      if n in News(rs, f, table, FWTMP, targets) {
        NewName(ds, env, probe, f, table, targets, n);
        CandidateName(n[|FWTMP|..]);
      }
    }
  }

  /** The chains a table's hooks are given are exactly those built for it. */
  lemma BuiltAreDeclared(c: Chains, ds: seq<Decl>, env: Env, probe: Probe, f: Family, table: string, targets: Targets, n: Name)
    requires NoName(c, FWTMP) && ProbesOnce(probe) && env.prefix == FWTMP
    ensures var rs := RulesetOf(ds, env, probe);
      n in Built(c + News(rs, f, table, FWTMP, targets)) <==> FWTMP < n && Key(f, table, Suffix(n, FWTMP)) in rs
  {
    var rs := RulesetOf(ds, env, probe);
    Restoring.ChainsAre(rs, f, table);
    if FWTMP < n && Key(f, table, Suffix(n, FWTMP)) in rs {
      assert FWTMP + Suffix(n, FWTMP) == n;
      assert n in Restoring.Full(Restoring.ChainsIn(rs, f, table), FWTMP);
    }
  }

  // ---------- the end of it ----------

  lemma BuiltWithoutDelegates(c: Machine, b: Machine, z: Machine, tabs: seq<TabId>, given: Inputs, src: Source, t: TabId)
    requires Staged(c, b, z, tabs, given) && ReloadOf(given, src) && Careful(src) && t in c.tables && t in b.tables
    ensures NoName(b.tables[t], NEW)
  {
    BuildTaken(c, b, z, tabs, given, src);
    FreshHasNoCandidates(c, t);
    NoDelegateBuilt(c.tables[t], src.ds, EnvAt(src, c.version), src.probe, t.family, t.table, src.targets);
  }

  /**
   In kernel `e` the built-in chain of a hook, for every packet, first applies the rules other
   programs put there and then decides as the declarations for the hook, read directly, say: zone
   by zone in sorted order, first match first, through every `+chain` they jump to.
   */
  ghost predicate Enforces(e: Machine, k: Config, others: seq<Rule>, t: TabId, hook: string, zones: seq<string>) {
    && t in e.tables
    && forall p, depth: nat ::
      Fate(e.tables[t], e.sets, Upper(hook), p, depth) == HookReading(k, others, t.family, t.table, zones, p, depth)
  }

  lemma SwitchedEnforces(z: Machine, k: Config, b: Chains, t: TabId, hook: string)
    requires t in z.tables && z.tables[t] == Zoned(b) && k.sets == z.sets && k.kernel == Switched(Zoned(b), NEW, OLD)
    requires NoName(b, NEW) && hook in HOOKS && Switchable(Zoned(b), NEW, OLD) && Upper(hook) in Zoned(b)
    requires Faithful(k, t.family, t.table) && k.env.prefix == FWTMP
    ensures Enforces(SwitchedMachine(z, NEW, OLD), k, OtherRules(b, hook), t, hook, Stripped(ZoneChains(b, hook)))
  {
    forall p, depth: nat
      ensures Fate(k.kernel, k.sets, Upper(hook), p, depth)
        == HookReading(k, OtherRules(b, hook), t.family, t.table, Stripped(ZoneChains(b, hook)), p, depth)
    {
      HookIsRead(k, b, hook, t.family, t.table, p, depth);
    }
  }

  lemma SameVerdictsEnforce(a: Machine, e: Machine, k: Config, others: seq<Rule>, t: TabId, hook: string, zones: seq<string>)
    requires Enforces(a, k, others, t, hook, zones) && SameVerdicts(a, e) && hook in HOOKS && Upper(hook) in a.tables[t]
    ensures Enforces(e, k, others, t, hook, zones)
  {
    HooksAreWords(hook);
    OneGeneration(Upper(hook));
    assert SameFates(a.tables[t], a.sets, e.tables[t], e.sets, Upper(hook));
  }

  /** The new generation, once switched to, enforces the declarations. */
  lemma NewGenerationEnforces(c: Machine, b: Machine, z: Machine, tabs: seq<TabId>, given: Inputs, src: Source, t: TabId, hook: string)
    requires Staged(c, b, z, tabs, given) && ReloadOf(given, src) && Careful(src) && GoodInputs(given) && t in c.tables
    requires t in b.tables && t in z.tables && z.tables[t] == Zoned(b.tables[t]) && hook in HOOKS && Upper(hook) in Zoned(b.tables[t])
    ensures Enforces(SwitchedMachine(z, NEW, OLD), NewConfig(c, z, src, t), OtherRules(b.tables[t], hook), t, hook, Stripped(ZoneChains(b.tables[t], hook)))
  {
    NewIsFaithful(c, b, z, tabs, given, src, t);
    PreparedSwitchable(c, b, z, tabs, given, t);
    BuiltWithoutDelegates(c, b, z, tabs, given, src, t);
    SwitchedEnforces(z, NewConfig(c, z, src, t), b.tables[t], t, hook);
  }

  /** Kernel `e` enforces at one hook what these stages built for it. */
  ghost predicate SubmittedAt(e: Machine, b: Machine, z: Machine, src: Source, env: Env, t: TabId, hook: string) {
    t in b.tables && t in z.tables && hook in HOOKS && Upper(hook) in Zoned(b.tables[t]) ==>
      Enforces(e, ReadInNew(z, src, env, t), OtherRules(b.tables[t], hook), t, hook, Stripped(ZoneChains(b.tables[t], hook)))
  }

  /** And at every hook there is. */
  ghost predicate EnforcedBy(e: Machine, b: Machine, z: Machine, src: Source, env: Env) {
    e.tables.Keys == b.tables.Keys == z.tables.Keys && forall t, hook :: SubmittedAt(e, b, z, src, env, t, hook)
  }

  lemma NewSubmittedAt(c: Machine, b: Machine, z: Machine, tabs: seq<TabId>, given: Inputs, src: Source, t: TabId, hook: string)
    requires Staged(c, b, z, tabs, given) && ReloadOf(given, src) && Careful(src) && GoodInputs(given)
    ensures SubmittedAt(SwitchedMachine(z, NEW, OLD), b, z, src, EnvAt(src, c.version), t, hook)
  {
    if t in b.tables && t in z.tables && hook in HOOKS && Upper(hook) in Zoned(b.tables[t]) {
      PreparedTables(b, z, tabs, given.order, t);
      SubmittedKeys(c, given, b);
      NewGenerationEnforces(c, b, z, tabs, given, src, t, hook);
    }
  }

  lemma SubmittedKeys(c: Machine, given: Inputs, b: Machine)
    requires b == Last(c, SubmitRun(c, given.build(c.version)).states)
    ensures b.tables.Keys == c.tables.Keys
  {
  }

  lemma AllNewSubmitted(c: Machine, b: Machine, z: Machine, tabs: seq<TabId>, given: Inputs, src: Source)
    requires Staged(c, b, z, tabs, given) && ReloadOf(given, src) && Careful(src) && GoodInputs(given)
    ensures forall t, hook :: SubmittedAt(SwitchedMachine(z, NEW, OLD), b, z, src, EnvAt(src, c.version), t, hook)
  {
    forall t, hook
      ensures SubmittedAt(SwitchedMachine(z, NEW, OLD), b, z, src, EnvAt(src, c.version), t, hook)
    {
      NewSubmittedAt(c, b, z, tabs, given, src, t, hook);
    }
  }

  lemma SameVerdictsSubmitted(e: Machine, b: Machine, z: Machine, src: Source, env: Env, t: TabId, hook: string)
    requires SubmittedAt(SwitchedMachine(z, NEW, OLD), b, z, src, env, t, hook) && SameVerdicts(SwitchedMachine(z, NEW, OLD), e)
    requires t in b.tables ==> t in z.tables && z.tables[t] == Zoned(b.tables[t])
    ensures SubmittedAt(e, b, z, src, env, t, hook)
  {
    if t in b.tables && hook in HOOKS && Upper(hook) in Zoned(b.tables[t]) {
      SameVerdictsEnforce(
        SwitchedMachine(z, NEW, OLD), e, ReadInNew(z, src, env, t), OtherRules(b.tables[t], hook), t, hook, Stripped(ZoneChains(b.tables[t], hook)));
    }
  }

  lemma SwitchedEnforcedBy(e: Machine, b: Machine, z: Machine, src: Source, env: Env)
    requires forall t, hook :: SubmittedAt(SwitchedMachine(z, NEW, OLD), b, z, src, env, t, hook)
    requires SameVerdicts(SwitchedMachine(z, NEW, OLD), e) && z.tables == ZonedTables(b.tables)
    ensures EnforcedBy(e, b, z, src, env)
  {
    forall t, hook
      ensures SubmittedAt(e, b, z, src, env, t, hook)
    {
      assert SubmittedAt(SwitchedMachine(z, NEW, OLD), b, z, src, env, t, hook);
      SameVerdictsSubmitted(e, b, z, src, env, t, hook);
    }
  }

  /** A confirmed reload leaves a kernel that enforces what its stages built. */
  lemma StagesAreEnforced(m: Machine, tabs: seq<TabId>, given: Inputs, src: Source)
    requires CanStart(m, tabs) && ReloadOf(given, src) && Careful(src) && EndingOf(m, tabs, given).Confirmed?
    ensures var e, c := Last(m, ReloadRun(m, tabs, given).states), Cleaned(m, tabs);
      EnforcedBy(e, Submitted(m, tabs, given), Prepared(m, tabs, given), src, EnvAt(src, c.version))
  {
    CarefulReloadIsGood(given, src);
    ReloadIsStaged(m, tabs, given);
    ConfirmedIsNew(m, tabs, given);
    AllNewSubmitted(Cleaned(m, tabs), Submitted(m, tabs, given), Prepared(m, tabs, given), tabs, given, src);
    ZonesResult(Submitted(m, tabs, given), tabs, given.order);
    SwitchedEnforcedBy(
      Last(m, ReloadRun(m, tabs, given).states), Submitted(m, tabs, given), Prepared(m, tabs, given), src, EnvAt(src, Cleaned(m, tabs).version));
  }
}
