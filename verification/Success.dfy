/** When exactly a reload succeeds, and that a host the firewall never touched can have its first one. */
module Success {
  import opened Text
  import opened Netfilter
  import opened Kernel
  import opened Machines
  import opened Hosts
  import opened Generations
  import opened Delegates
  import opened Apply
  import opened ApplyProof
  import opened Tidy
  import opened CleanupProof
  import opened CleanupSteps
  import opened Harmless
  import opened Zones
  import opened Building
  import opened Switching
  import opened Reload
  import opened Resting
  import opened ReloadProof
  import opened ReloadResults
  import opened Verdicts
  import opened RuleBuilding
  import opened Meaning
  import opened Compilation
  import opened Compiling
  import opened Submitting
  import opened Loading
  import opened Acceptance
  import opened EndToEnd
  import opened Enforcement

  // ---------- hooks ----------

  /** The hook a compiled chain is for. */
  function HookFor(key: Key): string {
    HookNamed(FWTMP + key.chain)
  }

  predicate HookThere(c: Chains, key: Key) {
    HookFor(key) in HOOKS ==> Upper(HookFor(key)) in c
  }

  predicate TableHooks(c: Chains, rs: Ruleset, f: Family, table: string) {
    forall key :: key in rs && key.family == f && key.table == table ==> HookThere(c, key)
  }

  /** The built-in chain of every hook used is there. */
  ghost predicate HooksPresent(tables: Tables, rs: Ruleset) {
    forall t :: t in tables ==> TableHooks(tables[t], rs, t.family, t.table)
  }

  lemma BuiltinStays(c: Chains, ds: seq<Declarations.Decl>, env: Env, probe: Probe, f: Family, table: string, targets: Targets, n: Name)
    requires ProbesOnce(probe) && env.prefix == FWTMP && n in BUILTINS
    ensures n in Zoned(c + News(RulesetOf(ds, env, probe), f, table, FWTMP, targets)) <==> n in c
  {
    OneGeneration(n);
    ZonedKeys(c + News(RulesetOf(ds, env, probe), f, table, FWTMP, targets), n);
    if n in News(RulesetOf(ds, env, probe), f, table, FWTMP, targets) {
      NewName(ds, env, probe, f, table, targets, n);
      CandidateName(n[|FWTMP|..]);
    }
  }

  /** A chain compiled for a hook gives that hook a delegate. */
  lemma KeyGivesDelegate(c: Chains, ds: seq<Declarations.Decl>, env: Env, probe: Probe, targets: Targets, key: Key)
    requires NoName(c, FWTMP) && ProbesOnce(probe) && env.prefix == FWTMP
    requires key in RulesetOf(ds, env, probe) && HookFor(key) in HOOKS
    ensures Delegate(HookFor(key)) in Zoned(c + News(RulesetOf(ds, env, probe), key.family, key.table, FWTMP, targets))
  {
    var rs, n := RulesetOf(ds, env, probe), FWTMP + key.chain;
    var b := c + News(rs, key.family, key.table, FWTMP, targets);
    KeyHasName(rs, targets, key);
    NewName(ds, env, probe, key.family, key.table, targets, n);
    NotUnderNew(key.chain);
    CandidateName(key.chain);
    assert n in ZonesAmong(Built(b), HookFor(key));
    DelegatesPrepared(b, HookFor(key));
  }

  /** A delegate prepared is for a hook some compiled chain is for. */
  lemma DelegateComesFromKey(c: Chains, ds: seq<Declarations.Decl>, env: Env, probe: Probe, f: Family, table: string, targets: Targets, d: Name)
    returns (key: Key)
    requires NoName(c, FWTMP) && ProbesOnce(probe) && env.prefix == FWTMP && NEW < d
    requires d in Zoned(c + News(RulesetOf(ds, env, probe), f, table, FWTMP, targets))
    ensures key in RulesetOf(ds, env, probe) && key.family == f && key.table == table
    ensures HookFor(key) in HOOKS && HookOf(d) == Upper(HookFor(key))
  {
    var b := c + News(RulesetOf(ds, env, probe), f, table, FWTMP, targets);
    NoDelegateBuilt(c, ds, env, probe, f, table, targets);
    PreparedDelegate(b, d);
    var hook := Suffix(d, NEW);
    HookOfPrepared(hook);
    var n :| n in ZonesAmong(Built(b), hook);
    BuiltAreDeclared(c, ds, env, probe, f, table, targets, n);
    ZoneIsOrdinary(n, hook);
    key := Key(f, table, Suffix(n, FWTMP));
  }

  /** In one table the built-in chains of all delegates are there exactly when those of all hooks used are. */
  lemma TableHooksIff(c: Chains, ds: seq<Declarations.Decl>, env: Env, probe: Probe, f: Family, table: string, targets: Targets)
    requires NoName(c, FWTMP) && ProbesOnce(probe) && env.prefix == FWTMP
    ensures var rs := RulesetOf(ds, env, probe);
      HooksThere(Zoned(c + News(rs, f, table, FWTMP, targets)), NEW) <==> TableHooks(c, rs, f, table)
  {
    var rs := RulesetOf(ds, env, probe);
    var z := Zoned(c + News(rs, f, table, FWTMP, targets));
    forall key | key in rs && key.family == f && key.table == table && HookFor(key) in HOOKS
      ensures var d := Delegate(HookFor(key)); d in z && NEW < d && HookOf(d) == Upper(HookFor(key)) && (HookOf(d) in z <==> HookOf(d) in c)
    {
      KeyGivesDelegate(c, ds, env, probe, targets, key);
      HookOfPrepared(HookFor(key));
      HooksAreWords(HookFor(key));
      BuiltinStays(c, ds, env, probe, f, table, targets, Upper(HookFor(key)));
    }
    forall d | d in z && NEW < d
      ensures exists key :: key in rs && key.family == f && key.table == table && HookFor(key) in HOOKS && HookOf(d) == Upper(HookFor(key))
    {
      var key := DelegateComesFromKey(c, ds, env, probe, f, table, targets, d);
    }
  }

  lemma AllHooksIff(c: Machine, b: Machine, z: Machine, src: Source)
    requires Fresh(c) && ProbesOnce(src.probe) && Taken(c, b, src.ds, EnvAt(src, c.version), src.probe, src.targets)
    requires z.tables == ZonedTables(b.tables)
    ensures AllHooksThere(z, NEW) <==> HooksPresent(c.tables, RulesetOf(src.ds, EnvAt(src, c.version), src.probe))
  {
    forall t | t in c.tables
      ensures t in z.tables && (HooksThere(z.tables[t], NEW)
        <==> TableHooks(c.tables[t], RulesetOf(src.ds, EnvAt(src, c.version), src.probe), t.family, t.table))
    {
      HooksIffAt(c, b, z, src, t);
    }
  }

  lemma HooksIffAt(c: Machine, b: Machine, z: Machine, src: Source, t: TabId)
    requires Fresh(c) && ProbesOnce(src.probe) && Taken(c, b, src.ds, EnvAt(src, c.version), src.probe, src.targets)
    requires z.tables == ZonedTables(b.tables) && t in c.tables && t in z.tables
    ensures HooksThere(z.tables[t], NEW)
      <==> TableHooks(c.tables[t], RulesetOf(src.ds, EnvAt(src, c.version), src.probe), t.family, t.table)
  {
    FreshHasNoCandidates(c, t);
    TableHooksIff(c.tables[t], src.ds, EnvAt(src, c.version), src.probe, t.family, t.table, src.targets);
  }

  // ---------- the outcome ----------

  /** The declarations compile, and the kernel has the tables and chains they ask for. */
  ghost predicate Buildable(c: Machine, src: Source) {
    && Compiles(src.ds, src.lookup, FWTMP, SetPrefix(c.version + 1))
    && Placeable(c.tables, RulesetOf(src.ds, EnvAt(src, c.version), src.probe), src.targets)
  }

  /** The kernel has the built-in chains of the hooks the declarations are for. */
  ghost predicate Hookable(c: Machine, src: Source) {
    HooksPresent(c.tables, RulesetOf(src.ds, EnvAt(src, c.version), src.probe))
  }

  lemma BuiltIff(c: Machine, loads: Option<seq<Load>>, src: Source)
    requires Fresh(c) && ProbesOnce(src.probe)
    requires loads == if Compiles(src.ds, src.lookup, FWTMP, SetPrefix(c.version + 1))
      then Some(LoadsOf(src.ds, EnvAt(src, c.version), src.probe, src.targets)) else None
    ensures SubmitRun(c, loads).ok <==> Buildable(c, src)
  {
    SetsAreNamed(src, c.version);
    SubmissionTakenIff(c, src.ds, EnvAt(src, c.version), src.probe, src.targets);
  }

  lemma SwitchedIff(m: Machine, tabs: seq<TabId>, given: Inputs, src: Source)
    requires CanStart(m, tabs) && ReloadOf(given, src) && Careful(src) && !EndingOf(m, tabs, given).NotBuilt?
    ensures AllHooksThere(Prepared(m, tabs, given), NEW) <==> Hookable(Cleaned(m, tabs), src)
  {
    var c, b, z := Cleaned(m, tabs), Submitted(m, tabs, given), Prepared(m, tabs, given);
    CarefulReloadIsGood(given, src);
    ReloadIsStaged(m, tabs, given);
    BuildTaken(c, b, z, tabs, given, src);
    ZonesResult(b, tabs, given.order);
    AllHooksIff(c, b, z, src);
  }

  lemma CleanedIsFresh(m: Machine, tabs: seq<TabId>)
    requires CanStart(m, tabs)
    ensures Fresh(Cleaned(m, tabs))
  {
    ResumedIdle(m, tabs);
    CleanupEndsClean(Resumed(m, tabs), tabs);
    CleanupIsFresh(Resumed(m, tabs), tabs);
  }

  lemma NotBuiltIs(m: Machine, tabs: seq<TabId>, given: Inputs, c: Machine)
    requires (forall t :: t in tabs ==> t in m.tables) && c == Cleaned(m, tabs)
    ensures EndingOf(m, tabs, given).NotBuilt? <==> !SubmitRun(c, given.build(c.version)).ok
  {
  }

  lemma SubmitsWhatCompiles(given: Inputs, src: Source, v: nat)
    requires ReloadOf(given, src)
    ensures given.build(v) == if Compiles(src.ds, src.lookup, FWTMP, SetPrefix(v + 1))
      then Some(LoadsOf(src.ds, EnvAt(src, v), src.probe, src.targets)) else None
  {
  }

  lemma NotBuiltIff(m: Machine, tabs: seq<TabId>, given: Inputs, src: Source)
    requires CanStart(m, tabs) && ReloadOf(given, src) && ProbesOnce(src.probe)
    ensures EndingOf(m, tabs, given).NotBuilt? <==> !Buildable(Cleaned(m, tabs), src)
  {
    var c := Cleaned(m, tabs);
    CleanedIsFresh(m, tabs);
    NotBuiltIs(m, tabs, given, c);
    SubmitsWhatCompiles(given, src, c.version);
    BuiltIff(c, given.build(c.version), src);
  }

  lemma EndingIs(m: Machine, tabs: seq<TabId>, given: Inputs)
    requires forall t :: t in tabs ==> t in m.tables
    ensures var how, hooks := EndingOf(m, tabs, given), AllHooksThere(Prepared(m, tabs, given), NEW);
      && (how.NotSwitched? <==> !how.NotBuilt? && !hooks)
      && (how.Confirmed? <==> !how.NotBuilt? && hooks && given.confirmed)
  {
  }

  /**
   How a reload ends, from whatever the last one left: it is built if and only if the declarations
   compile and the kernel has the tables and chains they ask for; it is switched if and only if,
   besides, the built-in chains of the hooks used are there; and it succeeds if and only if, besides,
   the operator confirms.
   */
  lemma ReloadSucceedsIff(m: Machine, tabs: seq<TabId>, given: Inputs, src: Source)
    requires CanStart(m, tabs) && ReloadOf(given, src) && Careful(src)
    ensures var c, how := Cleaned(m, tabs), EndingOf(m, tabs, given);
      && (how.NotBuilt? <==> !Buildable(c, src))
      && (how.NotSwitched? <==> Buildable(c, src) && !Hookable(c, src))
      && (ReloadRun(m, tabs, given).ok <==> Buildable(c, src) && Hookable(c, src) && given.confirmed)
  {
    CarefulReloadIsGood(given, src);
    NotBuiltIff(m, tabs, given, src);
    EndingIs(m, tabs, given);
    if !EndingOf(m, tabs, given).NotBuilt? {
      SwitchedIff(m, tabs, given, src);
    }
    ReloadEnds(m, tabs, given);
  }

  // ---------- the first reload ----------

  /** A host this firewall has never touched: no chain of its own, and no rule about its chains or sets. */
  ghost predicate Untouched(m: Machine, tabs: seq<TabId>) {
    && Covering(m, tabs) && Sound(m) && m.step.None?
    && forall t, n :: t in m.tables && n in m.tables[t] ==> Foreign(n) && RowForeign(m.tables[t][n])
  }

  ghost predicate RowForeign(rs: seq<Rule>) {
    forall r :: r in rs ==> (r.target.Jump? ==> Foreign(r.target.chain)) && TestsForeign(r)
  }

  lemma ForeignTableIsTidy(c: Chains, v: int)
    requires forall n :: n in c ==> Foreign(n) && RowForeign(c[n])
    ensures TidyTable(c, v) && SettledTable(c)
  {
    GenerationsOfDelegates();
  }

  /** Both kinds of delegates are chains of the firewall. */
  lemma GenerationsOfDelegates()
    ensures forall n: Name :: (OLD < n ==> Real(n)) && (NEW < n ==> Tmp(n))
  {
    forall n: Name
      ensures (OLD < n ==> Real(n)) && (NEW < n ==> Tmp(n))
    {
      DelegateGeneration(n);
    }
  }

  lemma FirstReloadCanStart(m: Machine, tabs: seq<TabId>)
    requires Untouched(m, tabs)
    ensures CanStart(m, tabs) && Undisturbed(m)
  {
    forall t | t in m.tables
      ensures TidyTable(m.tables[t], m.version) && SettledTable(m.tables[t])
    {
      ForeignTableIsTidy(m.tables[t], m.version);
    }
  }
}
