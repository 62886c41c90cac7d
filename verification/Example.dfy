/** One reload to which all the theorems apply: the first one of a host, for a configuration of one rule. */
module Example {
  import opened Text
  import opened Netfilter
  import opened Kernel
  import opened Machines
  import opened Generations
  import opened Tidy
  import opened CleanupProof
  import opened CleanupSteps
  import opened Harmless
  import opened Zones
  import opened Switching
  import opened Declarations
  import opened ChainNames
  import opened RuleBuilding
  import opened Meaning
  import opened Compilation
  import opened Compiling
  import opened Submitting
  import opened Reload
  import opened Resting
  import opened ReloadProof
  import opened ReloadResults
  import opened Verdicts
  import opened Acceptance
  import opened Enforcement
  import opened Success
  import Resolution
  import AliasSets
  import Grouping

  const FILTER: TabId := TabId(V4, "filter")

  /** A kernel as it starts: the built-in chains, without rules. */
  function BareKernel(): Machine {
    Machine(map[FILTER := map n | n in BUILTINS :: []], map[], None, 1)
  }

  /** fw_rule filter input any any -j ACCEPT, in 10_a.sh */
  function OneRule(): RuleDecl {
    RuleDecl("filter", "input", "any", "any", ["-j", "ACCEPT"], Origin("10_a.sh", 1))
  }

  function OneSource(lookup: string -> Resolution.Answer): Source {
    Source([RuleIs(OneRule())], lookup, (_, _) => [V4], word => Verdict(word))
  }

  /** The reload of a source, confirmed. */
  ghost function Given(src: Source): Inputs {
    Inputs(
      (v: nat) =>
        if Compiles(src.ds, src.lookup, FWTMP, SetPrefix(v + 1)) then Some(LoadsOf(src.ds, EnvAt(src, v), src.probe, src.targets)) else None,
      ["prerouting", "postrouting", "input", "forward", "output"], true)
  }

  lemma BareIsUntouched()
    ensures Untouched(BareKernel(), [FILTER]) && HasBuiltins(BareKernel())
  {
    forall n | n in BUILTINS
      ensures Foreign(n) && |n| < CHAIN_NAME_MAX
    {
      OneGeneration(n);
    }
  }

  lemma GivenIsReload(src: Source)
    ensures ReloadOf(Given(src), src)
  {
  }

  lemma TargetIsAccept()
    ensures TargetWord(OneRule().tail) == Some("ACCEPT") && !Plus("ACCEPT") && !(FWTMP + "+" <= "ACCEPT")
  {
    assert FWTMP[1] == 'F' && "ACCEPT"[1] == 'C';
    assert (FWTMP + "+")[1] == 'F';
  }

  lemma OneIsCareful(src: Source)
    requires src == OneSource(src.lookup)
    ensures Careful(src)
  {
    TargetIsAccept();
  }

  // ---------- it compiles ----------

  lemma OneIsNamed(env: Env)
    requires env.prefix == FWTMP
    ensures NameTrouble(OneRule(), env).None?
  {
    StemOfNamed("10", "a");
    assert "10" + "_" + "a" + SH == "10_a.sh" && "10" + "_" + "a" == "10_a";
    assert !Global("input") && |"10_a" + "+" + "input"| == 10;
  }

  lemma AnyIsAny()
    ensures Resolution.Classify("any").AnyHost?
  {
    assert Lower("any") == "any";
  }

  lemma OneResolves(src: Source)
    requires src == OneSource(src.lookup)
    ensures Resolves(src.ds, src.lookup)
  {
    AnyIsAny();
    forall n
      ensures n !in NamesIn(src.ds)
    {
      Resolution.CollectedAreNeeded(src.ds, n);
    }
  }

  lemma OneCompiles(src: Source, v: nat)
    requires src == OneSource(src.lookup)
    ensures Compiles(src.ds, src.lookup, FWTMP, SetPrefix(v + 1))
  {
    var env := EnvAt(src, v);
    OneResolves(src);
    OneIsNamed(env);
    assert AliasSets.AllItems(src.ds[..0], env.addrs) == [];
    assert AliasSets.AllItems(src.ds, env.addrs) == [];
  }

  // ---------- the kernel takes it ----------

  lemma OneLine(src: Source, env: Env, key: Key, l: Line)
    requires src == OneSource(src.lookup) && env.prefix == FWTMP
    requires key in RulesetOf(src.ds, env, src.probe) && l in RulesetOf(src.ds, env, src.probe)[key]
    ensures TabId(key.family, key.table) == FILTER && RuleOf(l, Compiled(src.targets, FWTMP)).target == Verdict("ACCEPT")
  {
    ChainsHoldTheirDeclarations(src.ds, key, env, src.probe);
    var r := LineCameFrom(DeclarationsOf(src.ds, key, env, src.probe), key.family, env, l);
    DeclarationsAreIn(src.ds, key, env, src.probe, r);
    DeclaredIsFor(src.ds, key, env, src.probe, r);
    BuiltTail(r, key.family, env, l);
    PrefixedIsNotJump(FWTMP);
    ReplacedTarget(r.tail, Prefixed(FWTMP));
    TargetIsAccept();
  }

  lemma KeyHasLine(src: Source, env: Env, key: Key) returns (l: Line)
    requires src == OneSource(src.lookup) && key in RulesetOf(src.ds, env, src.probe)
    ensures l in RulesetOf(src.ds, env, src.probe)[key]
  {
    Grouping.UnderAbsent(AllRules(src.ds, env, src.probe), key);
    l := RulesetOf(src.ds, env, src.probe)[key][0];
  }

  lemma OneIsPlaceable(src: Source, env: Env, tables: Tables)
    requires src == OneSource(src.lookup) && env.prefix == FWTMP && FILTER in tables
    ensures Placeable(tables, RulesetOf(src.ds, env, src.probe), src.targets)
  {
    var rs := RulesetOf(src.ds, env, src.probe);
    forall key | key in rs
      ensures TabId(key.family, key.table) in tables && ChainPlaceable(tables[TabId(key.family, key.table)], rs, key, src.targets)
    {
      var some := KeyHasLine(src, env, key);
      OneLine(src, env, key, some);
      forall l | l in rs[key]
        ensures RuleOf(l, Compiled(src.targets, FWTMP)).target == Verdict("ACCEPT")
      {
        OneLine(src, env, key, l);
      }
    }
  }

  lemma BuiltinsSuffice(tables: Tables, rs: Ruleset)
    requires forall t :: t in tables ==> BUILTINS <= tables[t].Keys
    ensures HooksPresent(tables, rs)
  {
    forall t, key | t in tables && HookFor(key) in HOOKS
      ensures Upper(HookFor(key)) in tables[t]
    {
      HooksAreWords(HookFor(key));
    }
  }

  ghost predicate HasBuiltins(m: Machine) {
    FILTER in m.tables && forall t :: t in m.tables ==> BUILTINS <= m.tables[t].Keys
  }

  lemma CleanedStays(m: Machine, e: Machine)
    requires Cleaner(m, e) && Settled(m.tables) && HasBuiltins(m)
    ensures HasBuiltins(e)
  {
    forall t, n | t in m.tables && n in BUILTINS
      ensures n in e.tables[t]
    {
      OneGeneration(n);
      assert n in m.tables[t] && LiveSame(m.tables[t], e.tables[t]);
    }
  }

  /** The first cleanup takes no built-in chain away. */
  lemma CleanedHasBuiltins(m: Machine, tabs: seq<TabId>)
    requires Untouched(m, tabs) && HasBuiltins(m)
    ensures CanStart(m, tabs) && Undisturbed(m) && HasBuiltins(Cleaned(m, tabs))
  {
    FirstReloadCanStart(m, tabs);
    ResumedIdle(m, tabs);
    assert Resumed(m, tabs) == m;
    CleanupStates(m, tabs, Cleaned(m, tabs));
    CleanedStays(m, Cleaned(m, tabs));
  }

  lemma Succeeds(m: Machine, tabs: seq<TabId>, given: Inputs, src: Source)
    requires CanStart(m, tabs) && ReloadOf(given, src) && Careful(src) && given.confirmed
    requires Buildable(Cleaned(m, tabs), src) && Hookable(Cleaned(m, tabs), src)
    ensures GoodInputs(given) && ReloadRun(m, tabs, given).ok && EndingOf(m, tabs, given).Confirmed?
  {
    CarefulReloadIsGood(given, src);
    ReloadSucceedsIff(m, tabs, given, src);
    ReloadEnds(m, tabs, given);
  }

  lemma OneIsAccepted(c: Machine, src: Source)
    requires src == OneSource(src.lookup) && HasBuiltins(c)
    ensures Buildable(c, src) && Hookable(c, src)
  {
    OneCompiles(src, c.version);
    OneIsPlaceable(src, EnvAt(src, c.version), c.tables);
    BuiltinsSuffice(c.tables, RulesetOf(src.ds, EnvAt(src, c.version), src.probe));
  }

  /** All that the theorems about a successful reload suppose can hold together. */
  lemma FirstReloadSucceeds(m: Machine, tabs: seq<TabId>, src: Source)
    requires Untouched(m, tabs) && HasBuiltins(m)
    requires src == OneSource(src.lookup)
    ensures CanStart(m, tabs) && Undisturbed(m) && Careful(src) && ReloadOf(Given(src), src) && GoodInputs(Given(src))
    ensures EndingOf(m, tabs, Given(src)).Confirmed? && ReloadRun(m, tabs, Given(src)).ok
  {
    CleanedHasBuiltins(m, tabs);
    OneIsCareful(src);
    GivenIsReload(src);
    OneIsAccepted(Cleaned(m, tabs), src);
    Succeeds(m, tabs, Given(src), src);
  }

  lemma BareHost() returns (m: Machine, tabs: seq<TabId>)
    ensures Untouched(m, tabs) && HasBuiltins(m)
  {
    BareIsUntouched();
    m, tabs := BareKernel(), [FILTER];
  }

  /** So there is a reload that succeeds. */
  lemma SomeReloadSucceeds(src: Source) returns (m: Machine, tabs: seq<TabId>, given: Inputs)
    requires src == OneSource(src.lookup)
    ensures CanStart(m, tabs) && ReloadOf(given, src) && EndingOf(m, tabs, given).Confirmed? && ReloadRun(m, tabs, given).ok
  {
    m, tabs := BareHost();
    given := Given(src);
    FirstReloadSucceeds(m, tabs, src);
  }
}
