/** What a submission asks of the kernel: sets of the next version and candidate chains, and nothing else. */
module Submitting {
  import opened Text
  import opened Grouping
  import opened Netfilter
  import opened Kernel
  import opened Machines
  import opened Generations
  import opened Apply
  import opened Tidy
  import opened Building
  import opened Declarations
  import opened Resolution
  import opened ChainNames
  import opened RuleBuilding
  import opened Meaning
  import opened Compilation
  import opened Compiling
  import AliasSets
  import Restoring

  // ---------- streams as loads ----------

  function SetLoad(line: AliasSets.SetLine): Load {
    match line
    case CreateLine(name, kind, _) => MakeSet(name, kind)
    case AddLine(name, e) => AddTo(name, e)
  }

  function SetLoads(lines: seq<AliasSets.SetLine>): (r: seq<Load>)
    ensures |r| == |lines|
  {
    seq(|lines|, i requires 0 <= i < |lines| => SetLoad(lines[i]))
  }

  /** What a table's block brings, as rules the kernel holds. */
  function News(rs: Ruleset, f: Family, table: string, prefix: string, targets: Targets): Chains {
    var built := Restoring.NewChains(rs, f, table, prefix);
    map n | n in built :: RulesOf(built[n], Compiled(targets, prefix))
  }

  function TableLoads(rs: Ruleset, f: Family, tables: seq<string>, prefix: string, targets: Targets): (r: seq<Load>)
    ensures |r| == |tables|
  {
    seq(|tables|, i requires 0 <= i < |tables| => LoadTable(TabId(f, tables[i]), News(rs, f, tables[i], prefix, targets)))
  }

  /** The set stream, then v4, then v6. */
  function LoadsOf(ds: seq<Decl>, env: Env, probe: Probe, targets: Targets): seq<Load> {
    var rs := RulesetOf(ds, env, probe);
    SetLoads(AliasSets.AllLines(env.sets, Sorted(env.sets.Keys), env.setPrefix))
    + TableLoads(rs, V4, Sorted(Restoring.TablesIn(rs, V4)), env.prefix, targets)
    + TableLoads(rs, V6, Sorted(Restoring.TablesIn(rs, V6)), env.prefix, targets)
  }

  // ---------- they are candidates ----------

  lemma {:induction false} SetLinesAreNext(sets: AliasSets.ByName, names: seq<string>, prefix: string)
    requires forall n :: n in names ==> n in sets
    ensures forall l :: l in AliasSets.AllLines(sets, names, prefix) ==> prefix <= l.name
  {
    if names != [] {
      SetLinesAreNext(sets, names[..|names| - 1], prefix);
    }
  }

  lemma SetLoadsAreCandidate(sets: AliasSets.ByName, v: nat)
    ensures var lines := AliasSets.AllLines(sets, Sorted(sets.Keys), SetPrefix(v + 1));
      forall l :: l in SetLoads(lines) ==> CandidateLoad(l, v)
  {
    SetLinesAreNext(sets, Sorted(sets.Keys), SetPrefix(v + 1));
  }

  /** A raw target is none of the firewall's chains. */
  ghost predicate TameTargets(ds: seq<Decl>, targets: Targets, prefix: string) {
    forall d :: d in ds && d.RuleIs? ==> TameTarget(TargetWord(d.rule.tail), targets, prefix)
  }

  ghost predicate TameTarget(word: Option<string>, targets: Targets, prefix: string) {
    word.Some? && !Plus(word.value) ==>
      !(prefix + "+" <= word.value) && (targets(word.value).Jump? ==> Foreign(targets(word.value).chain))
  }

  lemma EndpointSets(address: string, dir: Dir, f: Family, env: Env, t: Test)
    requires Endpoint(address, dir, f, env).Some? && t in Endpoint(address, dir, f, env).value && t.SetTest?
    ensures env.setPrefix <= t.name
  {
  }

  /** The rules of a declaration match only sets of the build's own version. */
  lemma BuiltTests(r: RuleDecl, f: Family, env: Env, l: Line, t: Test)
    requires l in LinesFor(r, f, env) && t in l.tests && t.SetTest?
    ensures env.setPrefix <= t.name
  {
    var srcs, dsts, tail := Expand(r.src, f, env.addrs), Expand(r.dst, f, env.addrs), Replaced(r.tail, Prefixed(env.prefix));
    CrossAre(srcs, dsts, tail, f, env, l);
    var s, d :| s in srcs && d in dsts && l in PairLines(s, d, tail, f, env);
    var src, dst := Endpoint(s, Src, f, env), Endpoint(d, Dst, f, env);
    if t in src.value {
      EndpointSets(s, Src, f, env, t);
    } else {
      EndpointSets(d, Dst, f, env, t);
    }
  }

  lemma BuiltTail(r: RuleDecl, f: Family, env: Env, l: Line)
    requires l in LinesFor(r, f, env)
    ensures l.tail == Replaced(r.tail, Prefixed(env.prefix))
  {
    CrossAre(Expand(r.src, f, env.addrs), Expand(r.dst, f, env.addrs), Replaced(r.tail, Prefixed(env.prefix)), f, env, l);
  }

  lemma BuiltTarget(r: RuleDecl, f: Family, env: Env, targets: Targets, l: Line)
    requires l in LinesFor(r, f, env) && TameTarget(TargetWord(r.tail), targets, env.prefix) && env.prefix == FWTMP
    ensures var x := RuleOf(l, Compiled(targets, env.prefix)).target; x.Jump? ==> Foreign(x.chain) || Tmp(x.chain)
  {
    var word := TargetWord(r.tail);
    BuiltTail(r, f, env, l);
    PrefixedIsNotJump(env.prefix);
    ReplacedTarget(r.tail, Prefixed(env.prefix));
    if word.Some? && Plus(word.value) {
      assert FWTMP + word.value == FWTMP + "+" + word.value[1..];
      assert FWTMP < FWTMP + word.value;
    }
  }

  lemma BuiltRuleIsCandidate(r: RuleDecl, f: Family, env: Env, targets: Targets, l: Line, n: Name, v: nat)
    requires l in LinesFor(r, f, env) && TameTarget(TargetWord(r.tail), targets, env.prefix)
    requires env.prefix == FWTMP && env.setPrefix == SetPrefix(v + 1) && Tmp(n)
    ensures CandidateRule(n, RuleOf(l, Compiled(targets, env.prefix)), v)
  {
    BuiltTarget(r, f, env, targets, l);
    OneGeneration(n);
    forall t | t in l.tests && t.SetTest?
      ensures !OtherVersion(t.name, v + 1)
    {
      BuiltTests(r, f, env, l, t);
      OwnVersionOnly(t.name, v + 1);
    }
  }

  lemma OwnVersionOnly(s: Name, v: int)
    requires SetPrefix(v) <= s
    ensures !OtherVersion(s, v)
  {
    forall k: int | SetPrefix(k) <= s
      ensures k == v
    {
      OneVersion(s, k, v);
    }
  }

  lemma {:induction false} LineCameFrom(rs: seq<RuleDecl>, f: Family, env: Env, l: Line) returns (r: RuleDecl)
    requires l in LinesOfAll(rs, f, env)
    ensures r in rs && l in LinesFor(r, f, env)
    decreases |rs|
  {
    var shorter, last := rs[..|rs| - 1], rs[|rs| - 1];
    assert rs == shorter + [last];
    if l in LinesFor(last, f, env) {
      r := last;
    } else {
      r := LineCameFrom(shorter, f, env, l);
    }
  }

  /** A chain built is one some declaration names. */
  lemma KeyCameFrom(ds: seq<Decl>, env: Env, probe: Probe, key: Key) returns (r: RuleDecl)
    requires ProbesOnce(probe) && key in RulesetOf(ds, env, probe)
    ensures RuleIs(r) in ds && ChainName(r.chain, r.origin) == Ok(key.chain) && NameTrouble(r, env).None?
  {
    UnderAbsent(AllRules(ds, env, probe), key);
    ChainsHoldTheirDeclarations(ds, key, env, probe);
    var rs := DeclarationsOf(ds, key, env, probe);
    var l := LinesOfAll(rs, key.family, env)[0];
    r := LineCameFrom(rs, key.family, env, l);
    DeclarationsAreIn(ds, key, env, probe, r);
    DeclaredIsFor(ds, key, env, probe, r);
  }

  lemma {:induction false} DeclaredIsFor(ds: seq<Decl>, key: Key, env: Env, probe: Probe, r: RuleDecl)
    requires r in DeclarationsOf(ds, key, env, probe)
    ensures DeclaredFor(r, key, env, probe)
    decreases |ds|
  {
    if r in DeclarationsOf(ds[..|ds| - 1], key, env, probe) {
      DeclaredIsFor(ds[..|ds| - 1], key, env, probe, r);
    }
  }

  lemma NewName(ds: seq<Decl>, env: Env, probe: Probe, f: Family, table: string, targets: Targets, n: Name)
    requires ProbesOnce(probe) && env.prefix == FWTMP && n in News(RulesetOf(ds, env, probe), f, table, FWTMP, targets)
    ensures var key := Key(f, table, n[|FWTMP|..]);
      key in RulesetOf(ds, env, probe) && n == FWTMP + key.chain && Ordinary(key.chain)
  {
    var key := Key(f, table, n[|FWTMP|..]);
    var r := KeyCameFrom(ds, env, probe, key);
    NotADelegate(r.chain, r.origin);
  }

  lemma NewRuleIsCandidate(ds: seq<Decl>, env: Env, probe: Probe, targets: Targets, key: Key, i: nat, n: Name, v: nat)
    requires ProbesOnce(probe) && TameTargets(ds, targets, env.prefix) && env.prefix == FWTMP && env.setPrefix == SetPrefix(v + 1)
    requires Tmp(n) && key in RulesetOf(ds, env, probe) && i < |RulesetOf(ds, env, probe)[key]|
    ensures CandidateRule(n, RuleOf(RulesetOf(ds, env, probe)[key][i], Compiled(targets, env.prefix)), v)
  {
    var l := RulesetOf(ds, env, probe)[key][i];
    ChainsHoldTheirDeclarations(ds, key, env, probe);
    var rs := DeclarationsOf(ds, key, env, probe);
    assert l in LinesOfAll(rs, key.family, env);
    var r := LineCameFrom(rs, key.family, env, l);
    DeclarationsAreIn(ds, key, env, probe, r);
    BuiltRuleIsCandidate(r, key.family, env, targets, l, n, v);
  }

  lemma NewsAreCandidate(ds: seq<Decl>, env: Env, probe: Probe, f: Family, table: string, targets: Targets, v: nat, n: Name)
    requires ProbesOnce(probe) && TameTargets(ds, targets, env.prefix) && env.prefix == FWTMP && env.setPrefix == SetPrefix(v + 1)
    requires n in News(RulesetOf(ds, env, probe), f, table, FWTMP, targets)
    ensures Tmp(n) && !(NEW < n)
    ensures forall r :: r in News(RulesetOf(ds, env, probe), f, table, FWTMP, targets)[n] ==> CandidateRule(n, r, v)
  {
    var rs := RulesetOf(ds, env, probe);
    NewName(ds, env, probe, f, table, targets, n);
    var key := Key(f, table, n[|FWTMP|..]);
    CandidateName(key.chain);
    var rules := News(rs, f, table, FWTMP, targets)[n];
    forall r | r in rules
      ensures CandidateRule(n, r, v)
    {
      var i :| 0 <= i < |rules| && rules[i] == r;
      NewRuleIsCandidate(ds, env, probe, targets, key, i, n, v);
    }
  }

  lemma CandidateName(chain: string)
    requires Ordinary(chain)
    ensures Tmp(FWTMP + chain) && !(NEW < FWTMP + chain)
  {
    if NEW < FWTMP + chain {
      CommonStart(FWTMP, "delegate_", chain);
    }
  }

  lemma CommonStart(start: string, word: string, s: string)
    requires start + word <= start + s
    ensures word <= s
  {
    assert (start + s)[..|start + word|] == start + word;
    assert (start + s)[|start|..|start + word|] == word;
  }

  lemma TableLoadsAreCandidate(ds: seq<Decl>, env: Env, probe: Probe, f: Family, tables: seq<string>, targets: Targets, v: nat)
    requires ProbesOnce(probe) && TameTargets(ds, targets, env.prefix) && env.prefix == FWTMP && env.setPrefix == SetPrefix(v + 1)
    ensures forall l :: l in TableLoads(RulesetOf(ds, env, probe), f, tables, FWTMP, targets) ==> CandidateLoad(l, v)
  {
    var rs := RulesetOf(ds, env, probe);
    forall i, n | 0 <= i < |tables| && n in News(rs, f, tables[i], FWTMP, targets)
      ensures Tmp(n) && !(NEW < n)
      ensures forall r :: r in News(rs, f, tables[i], FWTMP, targets)[n] ==> CandidateRule(n, r, v)
    {
      NewsAreCandidate(ds, env, probe, f, tables[i], targets, v, n);
    }
  }

  /** Whatever configuration is compiled, its submission touches candidates only. */
  lemma SubmissionsAreCandidates(ds: seq<Decl>, env: Env, probe: Probe, targets: Targets, v: nat)
    requires ProbesOnce(probe) && TameTargets(ds, targets, env.prefix) && env.prefix == FWTMP && env.setPrefix == SetPrefix(v + 1)
    ensures forall l :: l in LoadsOf(ds, env, probe, targets) ==> CandidateLoad(l, v)
  {
    var rs := RulesetOf(ds, env, probe);
    SetLoadsAreCandidate(env.sets, v);
    TableLoadsAreCandidate(ds, env, probe, V4, Sorted(Restoring.TablesIn(rs, V4)), targets, v);
    TableLoadsAreCandidate(ds, env, probe, V6, Sorted(Restoring.TablesIn(rs, V6)), targets, v);
  }

  /** A chain that was let through fits under the candidate prefix, under the live one, and under the outgoing one. */
  lemma BuiltNamesFit(ds: seq<Decl>, env: Env, probe: Probe, f: Family, table: string, targets: Targets, n: Name)
    requires ProbesOnce(probe) && env.prefix == FWTMP && n in News(RulesetOf(ds, env, probe), f, table, FWTMP, targets)
    ensures var live := Swap(n, "CFWTMP_", "CFW_"); |n| < 29 && |live| < 29 && |Swap(live, "CFW_", "CFWDEL_")| < 29
  {
    NewName(ds, env, probe, f, table, targets, n);
    var r := KeyCameFrom(ds, env, probe, Key(f, table, n[|FWTMP|..]));
    assert CheckLength(n[|FWTMP|..], FWTMP, r.origin).None?;
    assert |FWD| == |FWTMP| && |FWR| <= |FWTMP|;
  }
}
