/** What a confirmed reload enforces, in terms of the declarations and of the machine it started on. */
module Declared {
  import opened Sorting
  import opened Text
  import opened Netfilter
  import opened Kernel
  import opened Machines
  import opened Hosts
  import opened Generations
  import opened Delegates
  import opened Apply
  import opened ApplyProof
  import opened Tidy
  import opened Commit
  import opened CommitProof
  import opened CleanupProof
  import opened CleanupSteps
  import opened Harmless
  import opened Zones
  import opened Building
  import opened Switching
  import opened Reload
  import opened Resting
  import opened ReloadProof
  import opened ReloadResults
  import opened Declarations
  import opened ChainNames
  import opened RuleBuilding
  import opened Meaning
  import opened Compilation
  import opened Compiling
  import opened Submitting
  import opened Loading
  import opened Acceptance
  import opened EndToEnd
  import opened Enforcement
  import opened Success
  import opened OtherPrograms
  import Grouping

  // ---------- the zones of a hook ----------

  /** The hook a chain is named for, when it is: what follows its last `+`. */
  function HookText(chain: string): string {
    Lower(AfterLast(chain, '+'))
  }

  /** The chains a ruleset has for a hook of a table, sorted. */
  function ZonesOf(rs: Ruleset, f: Family, table: string, hook: string): seq<string> {
    Sorted(set key | key in rs && key.family == f && key.table == table && HookText(key.chain) == hook :: key.chain)
  }

  function Candidate(chain: string): Name {
    FWTMP + chain
  }

  lemma {:induction false} SamePrefixLe(prefix: string, s: string, t: string)
    ensures LexLe(prefix + s, prefix + t) <==> LexLe(s, t)
    decreases |prefix|
  {
    if prefix == "" {
      assert prefix + s == s && prefix + t == t;
    } else {
      assert (prefix + s)[1..] == prefix[1..] + s && (prefix + t)[1..] == prefix[1..] + t;
      SamePrefixLe(prefix[1..], s, t);
    }
  }

  function AllCandidates(s: set<string>): set<Name> {
    set n | n in s :: Candidate(n)
  }

  lemma FirstCandidate(s: set<string>)
    requires TotalOrder(LexLe) && s != {} && AllCandidates(s) != {}
    ensures FirstOf(AllCandidates(s), LexLe) == Candidate(FirstOf(s, LexLe))
  {
    var x := FirstOf(s, LexLe);
    forall n | n in s
      ensures LexLe(Candidate(x), Candidate(n))
    {
      SamePrefixLe(FWTMP, x, n);
    }
    assert First(Candidate(x), AllCandidates(s), LexLe);
  }

  lemma CandidateBack(chain: string)
    ensures Suffix(Candidate(chain), FWTMP) == chain
  {
  }

  lemma AllCandidatesLess(s: set<string>, x: string)
    requires x in s
    ensures AllCandidates(s - {x}) == AllCandidates(s) - {Candidate(x)}
  {
    forall n | n in s && Candidate(n) == Candidate(x)
      ensures n == x
    {
      CandidateBack(n);
      CandidateBack(x);
    }
  }

  lemma SortedUnrolls(s: set<string>, x: string)
    requires TotalOrder(LexLe) && s != {} && x == FirstOf(s, LexLe)
    ensures Sorted(s) == [x] + Sorted(s - {x})
  {
  }

  lemma CandidatesFirst(x: string, rest: seq<string>)
    ensures Candidates([x] + rest) == [Candidate(x)] + Candidates(rest)
  {
  }

  /** Sorting candidate names is sorting what follows the prefix. */
  lemma {:induction false} SortedCandidates(s: set<string>)
    ensures Sorted(AllCandidates(s)) == Candidates(Sorted(s))
    decreases |s|
  {
    LexOrder();
    if s != {} {
      var x := FirstOf(s, LexLe);
      assert Candidate(x) in AllCandidates(s);
      FirstCandidate(s);
      AllCandidatesLess(s, x);
      SortedCandidates(s - {x});
      SortedUnrolls(s, x);
      SortedUnrolls(AllCandidates(s), Candidate(x));
      CandidatesFirst(x, Sorted(s - {x}));
    }
  }

  lemma StrippedCandidates(zones: seq<string>)
    ensures Stripped(Candidates(zones)) == zones
  {
    forall i | 0 <= i < |zones|
      ensures Stripped(Candidates(zones))[i] == zones[i]
    {
      CandidateBack(zones[i]);
    }
  }

  /** A chain compiled has a `+` in its name, and is no delegate. */
  lemma CompiledChainName(ds: seq<Decl>, env: Env, probe: Probe, key: Key)
    requires ProbesOnce(probe) && key in RulesetOf(ds, env, probe)
    ensures '+' in key.chain && !(NEW <= Candidate(key.chain)) && Ordinary(key.chain)
  {
    var r := KeyCameFrom(ds, env, probe, key);
    NotADelegate(r.chain, r.origin);
    NotUnderNew(key.chain);
  }

  lemma HookTextIs(chain: string)
    requires '+' in chain
    ensures HookNamed(Candidate(chain)) == HookText(chain)
  {
    AfterLastSuffix(FWTMP, chain, '+');
  }

  /** The zones of a hook in the kernel are those of the ruleset. */
  lemma ZonesAreDeclared(c: Chains, ds: seq<Decl>, env: Env, probe: Probe, f: Family, table: string, targets: Targets, hook: string)
    requires NoName(c, FWTMP) && ProbesOnce(probe) && env.prefix == FWTMP
    ensures var rs := RulesetOf(ds, env, probe);
      Stripped(ZoneChains(c + News(rs, f, table, FWTMP, targets), hook)) == ZonesOf(rs, f, table, hook)
  {
    var rs := RulesetOf(ds, env, probe);
    var b := c + News(rs, f, table, FWTMP, targets);
    var zones := set key | key in rs && key.family == f && key.table == table && HookText(key.chain) == hook :: key.chain;
    forall n
      ensures n in ZonesAmong(Built(b), hook) <==> n in AllCandidates(zones)
    {
      ZoneIsDeclared(c, ds, env, probe, f, table, targets, hook, zones, n);
    }
    assert ZonesAmong(Built(b), hook) == AllCandidates(zones);
    SortedCandidates(zones);
    StrippedCandidates(Sorted(zones));
  }

  lemma ZoneIsDeclared(c: Chains, ds: seq<Decl>, env: Env, probe: Probe, f: Family, table: string, targets: Targets, hook: string,
                       zones: set<string>, n: Name)
    requires NoName(c, FWTMP) && ProbesOnce(probe) && env.prefix == FWTMP
    requires var rs := RulesetOf(ds, env, probe);
      zones == set key | key in rs && key.family == f && key.table == table && HookText(key.chain) == hook :: key.chain
    ensures n in ZonesAmong(Built(c + News(RulesetOf(ds, env, probe), f, table, FWTMP, targets)), hook) <==> n in AllCandidates(zones)
  {
    var rs := RulesetOf(ds, env, probe);
    BuiltAreDeclared(c, ds, env, probe, f, table, targets, n);
    if FWTMP < n && Key(f, table, Suffix(n, FWTMP)) in rs {
      var chain := Suffix(n, FWTMP);
      assert n == Candidate(chain);
      CompiledChainName(ds, env, probe, Key(f, table, chain));
      HookTextIs(chain);
      if n in AllCandidates(zones) {
        var other :| other in zones && Candidate(other) == n;
        CandidateBack(other);
      }
    }
    if n in AllCandidates(zones) {
      var chain :| chain in zones && Candidate(chain) == n;
      CandidateBack(chain);
      CompiledChainName(ds, env, probe, Key(f, table, chain));
      CandidateName(chain);
    }
  }

  // ---------- the rules of other programs ----------

  lemma {:induction false} OnlyOneRemoved(rs: seq<Rule>, j: Rule)
    requires !ForeignRule(j) && (forall r :: r in rs ==> ForeignRule(r) || r == j) && j !in RemoveFirst(rs, j)
    ensures RemoveFirst(rs, j) == ForeignRules(rs)
    decreases |rs|
  {
    if rs != [] {
      if rs[0] == j {
        AllForeign(rs[1..]);
      } else {
        var rest := RemoveFirst(rs[1..], j);
        assert RemoveFirst(rs, j) == [rs[0]] + rest && ([rs[0]] + rest)[1..] == rest;
        assert forall r :: r in rest ==> r in RemoveFirst(rs, j);
        OnlyOneRemoved(rs[1..], j);
      }
    }
  }

  lemma {:induction false} AllForeign(rs: seq<Rule>)
    requires forall r :: r in rs ==> ForeignRule(r)
    ensures ForeignRules(rs) == rs
    decreases |rs|
  {
    if rs != [] {
      AllForeign(rs[1..]);
    }
  }

  /** In a settled table a rule into the firewall is the jump to the live delegate of that built-in chain. */
  lemma OwnRuleIsHook(c: Chains, sets: set<Name>, v: int, n: Name, r: Rule)
    requires TidyTable(c, v) && SettledTable(c) && SoundTable(c, sets) && Foreign(n) && n in c && r in c[n] && !ForeignRule(r)
    ensures n in BUILTINS && For(c, OLD, n).Some? && r == JumpTo(For(c, OLD, n).value)
  {
    var d := r.target.chain;
    assert RuleTidy(n, r, v) && ManagedJump(n, r);
    assert RuleFits(r, c.Keys, sets);
    var i :| 0 <= i < |c[n]| && c[n][i] == r;
    assert NotStale()(c[n][i].target.chain);
    DelegateGeneration(d);
    ForAtHook(c, OLD, d);
  }

  /** Without its live delegate, a built-in chain has the rules of other programs. */
  lemma UnhookedIsForeign(c: Chains, sets: set<Name>, v: int, n: Name)
    requires TidyTable(c, v) && SettledTable(c) && SoundTable(c, sets) && n in BUILTINS && n in c
    ensures Without(c[n], For(c, OLD, n)) == ForeignRules(c[n])
  {
    BuiltinsAreForeign(n);
    forall r | r in c[n] && !ForeignRule(r)
      ensures For(c, OLD, n).Some? && r == JumpTo(For(c, OLD, n).value)
    {
      OwnRuleIsHook(c, sets, v, n, r);
    }
    var d := For(c, OLD, n);
    if d.Some? {
      ForIs(c, OLD, n);
      DelegateGeneration(d.value);
      OneGeneration(d.value);
      OnlyOneRemoved(c[n], JumpTo(d.value));
    } else {
      AllForeign(c[n]);
    }
  }

  /** What a table holds of other programs: their chains, and in built-in chains their rules. */
  function Others(c: Chains): Chains {
    map n | n in c && Foreign(n) :: ForeignRules(c[n])
  }

  // ---------- what they see ----------

  /** Chains of other programs that a rule can jump to. */
  function Outside(): Name -> bool {
    n => Foreign(n) && n !in BUILTINS
  }

  ghost function OutsideSets(): Name -> bool {
    s => !Versioned(s)
  }

  lemma {:induction false} ForeignIsIn(rs: seq<Rule>, r: Rule)
    requires r in ForeignRules(rs)
    ensures r in rs && ForeignRule(r)
    decreases |rs|
  {
    if r in ForeignRules(rs[1..]) {
      ForeignIsIn(rs[1..], r);
    }
  }

  lemma ForeignTests(r: Rule)
    requires TestsForeign(r)
    ensures forall t :: t in r.tests && t.SetTest? ==> !Versioned(t.name)
  {
    forall t | t in r.tests && t.SetTest?
      ensures !Versioned(t.name)
    {
      if k: int :| SetPrefix(k) <= t.name {
        assert TestsTidy(r, k + 1);
        assert OtherVersion(t.name, k + 1);
      }
    }
  }

  /** The rules of other programs jump only to chains, and test only sets, of other programs. */
  lemma ForeignRow(c: Chains, sets: set<Name>, v: int, n: Name)
    requires RowsTidy(c, v) && SoundTable(c, sets) && Foreign(n) && n in c
    ensures JumpsIn(ForeignRules(c[n]), Outside()) && TestsIn(ForeignRules(c[n]), OutsideSets())
  {
    var rs := ForeignRules(c[n]);
    forall i | 0 <= i < |rs|
      ensures rs[i].target.Jump? ==> Outside()(rs[i].target.chain)
      ensures forall t :: t in rs[i].tests && t.SetTest? ==> OutsideSets()(t.name)
    {
      assert rs[i] in rs;
      ForeignIsIn(c[n], rs[i]);
      assert RuleTidy(n, rs[i], v) && RuleFits(rs[i], c.Keys, sets);
      ForeignTests(rs[i]);
    }
  }

  /** A chain of another program that is not built in has no rule of the firewall's. */
  lemma OutsideRowIsForeign(c: Chains, sets: set<Name>, v: int, n: Name)
    requires TidyTable(c, v) && SettledTable(c) && SoundTable(c, sets) && Outside()(n) && n in c
    ensures ForeignRules(c[n]) == c[n]
  {
    forall r | r in c[n]
      ensures ForeignRule(r)
    {
      if !ForeignRule(r) {
        OwnRuleIsHook(c, sets, v, n, r);
      }
    }
    AllForeign(c[n]);
  }

  /** What other programs' rules see in a settled table is what is there of other programs. */
  lemma OthersSameView(z: Chains, sets: Sets, v: int, k: Chains, m: Chains, sets': Sets)
    requires TidyTable(z, v) && SettledTable(z) && SoundTable(z, sets.Keys) && SameOthers(m, z) && SameOtherSets(sets', sets)
    requires k.Keys == z.Keys && forall n :: n in z && n !in BUILTINS ==> k[n] == z[n]
    ensures SameView(k, sets, Others(m), sets', Outside(), OutsideSets())
  {
    forall n | Outside()(n)
      ensures n in k <==> n in Others(m)
      ensures n in k ==> k[n] == Others(m)[n] && JumpsIn(k[n], Outside()) && TestsIn(k[n], OutsideSets())
    {
      if n in z {
        OutsideRowIsForeign(z, sets.Keys, v, n);
        ForeignRow(z, sets.Keys, v, n);
      }
    }
  }

  // ---------- reading them ----------

  /** The same configuration, to be read in another kernel. */
  ghost predicate SameConfig(a: Config, b: Config) {
    a.ds == b.ds && a.env == b.env && a.probe == b.probe && a.targets == b.targets
  }

  /** A target written without `+` that is a jump goes to a chain of another program. */
  ghost predicate JumpsOutside(c: Config, r: RuleDecl) {
    var word := TargetWord(r.tail);
    word.Some? && !Plus(word.value) && c.targets(word.value).Jump? ==> Outside()(c.targets(word.value).chain)
  }

  /** That holds of every rule some packet matches. */
  ghost predicate HitsJumpOutside(c: Config, f: Family, table: string) {
    forall chain, r, p ::
      r in DeclarationsOf(c.ds, Key(f, table, chain), c.env, c.probe) && DeclHit(r, c.ds, c.env.addrs, f, p) ==> JumpsOutside(c, r)
  }

  ghost predicate ReadAlike(a: Config, b: Config, f: Family, table: string) {
    && SameConfig(a, b) && HitsJumpOutside(a, f, table)
    && SameView(a.kernel, a.sets, b.kernel, b.sets, Outside(), OutsideSets())
  }

  lemma HitHasLines(c: Config, r: RuleDecl, f: Family, p: Packet)
    requires EnvFor(c.env, c.ds, c.sets) && UnambiguousRule(r, c.ds, c.env.addrs) && DeclHit(r, c.ds, c.env.addrs, f, p)
    ensures LinesFor(r, f, c.env) != []
  {
    ExpansionHits(r, c.ds, f, c.env, c.targets, c.sets, p);
  }

  lemma RawAlike(a: Config, b: Config, word: string, p: Packet, depth: nat)
    requires SameConfig(a, b) && SameView(a.kernel, a.sets, b.kernel, b.sets, Outside(), OutsideSets())
    requires a.targets(word).Jump? ==> Outside()(a.targets(word).chain)
    ensures Act(a.kernel, a.sets, a.targets(word), p, depth) == Act(b.kernel, b.sets, b.targets(word), p, depth)
  {
    if a.targets(word).Jump? && depth > 0 {
      ViewDescend(a.kernel, a.sets, b.kernel, b.sets, Outside(), OutsideSets(), a.targets(word).chain, p, depth);
    }
  }

  lemma {:induction false} TargetAlike(a: Config, b: Config, key: Key, word: Option<string>, p: Packet, depth: nat)
    requires ReadAlike(a, b, key.family, key.table)
    requires word.Some? && !Plus(word.value) && a.targets(word.value).Jump? ==> Outside()(a.targets(word.value).chain)
    ensures ReadTarget(a, key, word, p, depth) == ReadTarget(b, key, word, p, depth)
    decreases depth, 0
  {
    if word.Some? {
      if !Plus(word.value) {
        RawAlike(a, b, word.value, p, depth);
      } else if depth > 0 {
        ChainAlike(a, b, Key(key.family, key.table, word.value), p, depth - 1);
      }
      WordAlike(a, b, key, word.value, p, depth);
    }
  }

  /** Both read the chain of this name alike. */
  ghost predicate SameReading(a: Config, b: Config, key: Key, p: Packet, depth: nat) {
    Reading(a, key, DeclarationsOf(a.ds, key, a.env, a.probe), p, depth) == Reading(b, key, DeclarationsOf(b.ds, key, b.env, b.probe), p, depth)
  }

  lemma WordAlike(a: Config, b: Config, key: Key, word: string, p: Packet, depth: nat)
    requires !Plus(word) ==> Act(a.kernel, a.sets, a.targets(word), p, depth) == Act(b.kernel, b.sets, b.targets(word), p, depth)
    requires Plus(word) && depth > 0 ==> SameReading(a, b, Key(key.family, key.table, word), p, depth - 1)
    ensures ReadTarget(a, key, Some(word), p, depth) == ReadTarget(b, key, Some(word), p, depth)
  {
  }

  lemma {:induction false} ChainAlike(a: Config, b: Config, key: Key, p: Packet, depth: nat)
    requires ReadAlike(a, b, key.family, key.table)
    ensures SameReading(a, b, key, p, depth)
    decreases depth, 2
  {
    RulesAlike(a, b, key, DeclarationsOf(a.ds, key, a.env, a.probe), p, depth);
  }

  lemma {:induction false} RulesAlike(a: Config, b: Config, key: Key, rs: seq<RuleDecl>, p: Packet, depth: nat)
    requires ReadAlike(a, b, key.family, key.table) && forall r :: r in rs ==> r in DeclarationsOf(a.ds, key, a.env, a.probe)
    ensures Reading(a, key, rs, p, depth) == Reading(b, key, rs, p, depth)
    decreases depth, 1, |rs|
  {
    if rs != [] {
      assert rs[0] in rs && forall r :: r in rs[1..] ==> r in rs;
      RulesAlike(a, b, key, rs[1..], p, depth);
      if DeclHit(rs[0], a.ds, a.env.addrs, key.family, p) {
        assert key == Key(key.family, key.table, key.chain);
        TargetAlike(a, b, key, TargetWord(rs[0].tail), p, depth);
      }
    }
  }

  lemma {:induction false} ZonesAlike(a: Config, b: Config, f: Family, table: string, zones: seq<string>, p: Packet, depth: nat)
    requires AllSameReading(a, b, f, table)
    ensures ReadZones(a, f, table, zones, p, depth) == ReadZones(b, f, table, zones, p, depth)
    decreases |zones|
  {
    if zones != [] && depth > 0 {
      assert SameReading(a, b, Key(f, table, zones[0]), p, depth - 1);
      ZonesAlike(a, b, f, table, zones[1..], p, depth);
    }
  }

  /** Every chain of the table is read alike. */
  ghost predicate AllSameReading(a: Config, b: Config, f: Family, table: string) {
    forall chain, p, depth: nat :: SameReading(a, b, Key(f, table, chain), p, depth)
  }

  lemma ChainsAlike(a: Config, b: Config, f: Family, table: string)
    requires ReadAlike(a, b, f, table)
    ensures AllSameReading(a, b, f, table)
  {
    forall chain, p, depth: nat
      ensures SameReading(a, b, Key(f, table, chain), p, depth)
    {
      ChainAlike(a, b, Key(f, table, chain), p, depth);
    }
  }

  /** A walk over rules of other programs ends alike. */
  ghost predicate SameWalks(a: Config, b: Config, rs: seq<Rule>) {
    forall p, depth: nat :: Walk(a.kernel, a.sets, rs, p, depth) == Walk(b.kernel, b.sets, rs, p, depth)
  }

  lemma OthersWalkAlike(a: Config, b: Config, others: seq<Rule>)
    requires SameView(a.kernel, a.sets, b.kernel, b.sets, Outside(), OutsideSets())
    requires JumpsIn(others, Outside()) && TestsIn(others, OutsideSets())
    ensures SameWalks(a, b, others)
  {
    forall p, depth: nat
      ensures Walk(a.kernel, a.sets, others, p, depth) == Walk(b.kernel, b.sets, others, p, depth)
    {
      ViewWalk(a.kernel, a.sets, b.kernel, b.sets, Outside(), OutsideSets(), others, p, depth);
    }
  }

  lemma HookAlike(a: Config, b: Config, others: seq<Rule>, f: Family, table: string, zones: seq<string>, p: Packet, depth: nat)
    requires AllSameReading(a, b, f, table) && SameWalks(a, b, others)
    ensures HookReading(a, others, f, table, zones, p, depth) == HookReading(b, others, f, table, zones, p, depth)
  {
    if depth > 0 {
      ZonesAlike(a, b, f, table, zones, p, depth - 1);
    }
  }

  lemma EnforcedAlike(e: Machine, a: Config, b: Config, others: seq<Rule>, t: TabId, hook: string, zones: seq<string>)
    requires Enforces(e, a, others, t, hook, zones) && AllSameReading(a, b, t.family, t.table) && SameWalks(a, b, others)
    ensures Enforces(e, b, others, t, hook, zones)
  {
    forall p, depth: nat
      ensures Fate(e.tables[t], e.sets, Upper(hook), p, depth) == HookReading(b, others, t.family, t.table, zones, p, depth)
    {
      HookAlike(a, b, others, t.family, t.table, zones, p, depth);
    }
  }

  // ---------- what was loaded jumps outside ----------

  lemma CompiledIn(ds: seq<Decl>, env: Env, probe: Probe, key: Key, r: RuleDecl)
    requires ProbesOnce(probe) && r in DeclarationsOf(ds, key, env, probe) && LinesFor(r, key.family, env) != []
    ensures key in RulesetOf(ds, env, probe) && LinesFor(r, key.family, env)[0] in RulesetOf(ds, env, probe)[key]
  {
    var l := LinesFor(r, key.family, env)[0];
    ChainsHoldTheirDeclarations(ds, key, env, probe);
    LineIsAmong(DeclarationsOf(ds, key, env, probe), key.family, env, r, l);
    Grouping.UnderAbsent(AllRules(ds, env, probe), key);
  }

  lemma {:induction false} LineIsAmong(rs: seq<RuleDecl>, f: Family, env: Env, r: RuleDecl, l: Line)
    requires r in rs && l in LinesFor(r, f, env)
    ensures l in LinesOfAll(rs, f, env)
    decreases |rs|
  {
    var shorter, last := rs[..|rs| - 1], rs[|rs| - 1];
    assert rs == shorter + [last];
    if r != last {
      LineIsAmong(shorter, f, env, r, l);
    }
  }

  lemma LoadedJumpsOutside(c: Config, tables: Tables, key: Key, r: RuleDecl)
    requires ProbesOnce(c.probe) && Placeable(tables, RulesetOf(c.ds, c.env, c.probe), c.targets) && TameTargets(c.ds, c.targets, FWTMP)
    requires c.env.prefix == FWTMP && r in DeclarationsOf(c.ds, key, c.env, c.probe) && LinesFor(r, key.family, c.env) != []
    ensures JumpsOutside(c, r)
  {
    var l := LinesFor(r, key.family, c.env)[0];
    var word := TargetWord(r.tail);
    CompiledIn(c.ds, c.env, c.probe, key, r);
    DeclarationsAreIn(c.ds, key, c.env, c.probe, r);
    assert TameTarget(TargetWord(RuleIs(r).rule.tail), c.targets, FWTMP);
    BuiltTail(r, key.family, c.env, l);
    PrefixedIsNotJump(FWTMP);
    ReplacedTarget(r.tail, Prefixed(FWTMP));
    assert ChainPlaceable(tables[TabId(key.family, key.table)], RulesetOf(c.ds, c.env, c.probe), key, c.targets);
    if word.Some? && !Plus(word.value) && c.targets(word.value).Jump? {
      assert RuleOf(l, Compiled(c.targets, FWTMP)).target == c.targets(word.value);
    }
  }

  lemma LoadedHitsJumpOutside(c: Config, tables: Tables, f: Family, table: string)
    requires ProbesOnce(c.probe) && Placeable(tables, RulesetOf(c.ds, c.env, c.probe), c.targets) && TameTargets(c.ds, c.targets, FWTMP)
    requires c.env.prefix == FWTMP && EnvFor(c.env, c.ds, c.sets) && WellWritten(c)
    ensures HitsJumpOutside(c, f, table)
  {
    forall chain, r, p |
      r in DeclarationsOf(c.ds, Key(f, table, chain), c.env, c.probe) && DeclHit(r, c.ds, c.env.addrs, f, p)
      ensures JumpsOutside(c, r)
    {
      DeclarationsAreIn(c.ds, Key(f, table, chain), c.env, c.probe, r);
      assert RuleWellWritten(c, RuleIs(r).rule);
      HitHasLines(c, r, f, p);
      LoadedJumpsOutside(c, tables, Key(f, table, chain), r);
    }
  }

  // ---------- the end of it ----------

  /** The version a reload builds on: a commit resumed moves it on. */
  function LiveVersion(m: Machine): nat {
    if m.step.None? then m.version else m.version + 1
  }

  lemma {:induction false} CommitMovesOn(m: Machine, tabs: seq<TabId>)
    requires (forall t :: t in tabs ==> t in m.tables) && CommitRun(m, tabs).ok
    ensures Last(m, CommitRun(m, tabs).states).version == m.version + 1
    decreases StepsLeft(m.step)
  {
    StepOrder();
    if m.step == None {
      var first := m.(step := Some(REAL_TO_DELETE));
      CommitMovesOn(first, tabs);
      LastConcat(m, [first], CommitRun(first, tabs).states);
    } else if m.step != Some(DONE) {
      var turn := Turn(m, tabs, m.step.value);
      var m' := Last(m, turn.states);
      CommitUnrolls(m, tabs);
      TurnKeepsVersion(m, tabs, m.step.value);
      CommitMovesOn(m', tabs);
      LastConcat(m, turn.states, CommitRun(m', tabs).states);
    }
  }

  lemma TurnKeepsVersion(m: Machine, tabs: seq<TabId>, text: string)
    requires forall t :: t in tabs ==> t in m.tables
    ensures Last(m, Turn(m, tabs, text).states).version == m.version
  {
  }

  lemma CleanedVersion(m: Machine, tabs: seq<TabId>)
    requires CanStart(m, tabs)
    ensures Cleaned(m, tabs).version == LiveVersion(m)
  {
    ResumedIdle(m, tabs);
    if m.step.Some? {
      CommitMovesOn(m, tabs);
    }
    CleanupEndsClean(Resumed(m, tabs), tabs);
  }

  lemma CleanedKeepsOthers(m: Machine, tabs: seq<TabId>)
    requires CanStart(m, tabs)
    ensures OthersKept(m, Cleaned(m, tabs)) && Covering(Cleaned(m, tabs), tabs)
  {
    var r := Resumed(m, tabs);
    if m.step.Some? {
      CommitKeepsOthers(m, tabs, r);
    } else {
      CommitKeepsOthers(m, tabs, m);
    }
    CleanupKeepsOthers(r, tabs, CleanedFrom(r, tabs));
    OthersKeptThrough(m, r, Cleaned(m, tabs));
  }

  lemma PreparedKeepsOthers(m: Machine, tabs: seq<TabId>, given: Inputs)
    requires CanStart(m, tabs) && GoodInputs(given)
    ensures OthersKept(m, Prepared(m, tabs, given))
  {
    var c, b := Cleaned(m, tabs), Submitted(m, tabs, given);
    CleanedKeepsOthers(m, tabs);
    SubmitKeepsOthers(c, tabs, given, b);
    PreparingIsOwn(given.order);
    SweepKeepsOthers(b, tabs, ZonePlan(given.order), ZonedFrom(b, tabs, given));
    OthersKeptThrough(m, c, b);
    OthersKeptThrough(m, b, Prepared(m, tabs, given));
  }

  /** The declarations to be read beside what other programs had in table `t` of machine `m`. */
  ghost function ReadIn(m: Machine, src: Source, env: Env, t: TabId): Config
    requires t in m.tables
  {
    Config(src.ds, env, src.probe, src.targets, Others(m.tables[t]), m.sets)
  }

  /** The stages of a reload from `m` whose build, compiled with `env`, was taken. */
  ghost predicate StagedFrom(m: Machine, c: Machine, b: Machine, z: Machine, src: Source, env: Env) {
    && OthersKept(m, z) && b.tables.Keys == c.tables.Keys == m.tables.Keys
    && z.tables == ZonedTables(b.tables) && AllReady(z) && Fresh(c) && ProbesOnce(src.probe) && env.prefix == FWTMP
    && Taken(c, b, src.ds, env, src.probe, src.targets)
    && forall t :: t in m.tables ==> HitsJumpOutside(ReadInNew(z, src, env, t), t.family, t.table)
  }

  /** The sorted chains declared for a hook of a table. */
  ghost function DeclaredZones(src: Source, env: Env, t: TabId, hook: string): seq<string> {
    ZonesOf(RulesetOf(src.ds, env, src.probe), t.family, t.table, hook)
  }

  lemma StagedZones(c: Machine, b: Machine, src: Source, env: Env, t: TabId, hook: string)
    requires Fresh(c) && ProbesOnce(src.probe) && env.prefix == FWTMP && Taken(c, b, src.ds, env, src.probe, src.targets) && t in c.tables
    ensures Stripped(ZoneChains(b.tables[t], hook)) == DeclaredZones(src, env, t, hook)
  {
    FreshHasNoCandidates(c, t);
    ZonesAreDeclared(c.tables[t], src.ds, env, src.probe, t.family, t.table, src.targets, hook);
  }

  lemma StagedOthers(m: Machine, b: Machine, z: Machine, t: TabId, hook: string)
    requires OthersKept(m, z) && AllReady(z) && z.tables == ZonedTables(b.tables)
    requires t in m.tables && t in b.tables && hook in HOOKS && Upper(hook) in m.tables[t]
    ensures Upper(hook) in Zoned(b.tables[t]) && OtherRules(b.tables[t], hook) == ForeignRules(m.tables[t][Upper(hook)])
  {
    HooksAreWords(hook);
    BuiltinsAreForeign(Upper(hook));
    assert SameOthers(m.tables[t], z.tables[t]);
    assert ReadyToSwitch(z.tables[t], z.version);
    UnhookedIsForeign(z.tables[t], z.sets.Keys, z.version, Upper(hook));
  }

  lemma StagedRow(m: Machine, z: Machine, t: TabId, hook: string)
    requires OthersKept(m, z) && AllReady(z) && t in m.tables && hook in HOOKS && Upper(hook) in m.tables[t]
    ensures JumpsIn(ForeignRules(m.tables[t][Upper(hook)]), Outside()) && TestsIn(ForeignRules(m.tables[t][Upper(hook)]), OutsideSets())
  {
    HooksAreWords(hook);
    BuiltinsAreForeign(Upper(hook));
    assert SameOthers(m.tables[t], z.tables[t]);
    assert ReadyToSwitch(z.tables[t], z.version);
    ForeignRow(z.tables[t], z.sets.Keys, z.version, Upper(hook));
  }

  lemma SwitchedOutside(z: Chains, n: Name)
    requires Switchable(z, NEW, OLD) && n in z && n !in BUILTINS
    ensures Switched(z, NEW, OLD)[n] == z[n]
  {
    SwitchedIsStage(z, NEW, OLD);
    OnlyBuiltinsChange(z, Switched(z, NEW, OLD), NEW, OLD, n);
  }

  lemma StagedView(m: Machine, z: Machine, t: TabId)
    requires OthersKept(m, z) && AllReady(z) && t in m.tables
    ensures SameView(Switched(z.tables[t], NEW, OLD), z.sets, Others(m.tables[t]), m.sets, Outside(), OutsideSets())
  {
    var c := z.tables[t];
    assert SameOthers(m.tables[t], c) && ReadyToSwitch(c, z.version);
    forall n | n in c && n !in BUILTINS
      ensures Switched(c, NEW, OLD)[n] == c[n]
    {
      SwitchedOutside(c, n);
    }
    OthersSameView(c, z.sets, z.version, Switched(c, NEW, OLD), m.tables[t], m.sets);
  }

  /** Beside the rules of other programs, declarations are read in the new kernel as beside what `m` had. */
  lemma StagedReadings(m: Machine, z: Machine, src: Source, env: Env, t: TabId, hook: string)
    requires OthersKept(m, z) && AllReady(z) && t in m.tables && HitsJumpOutside(ReadInNew(z, src, env, t), t.family, t.table)
    requires hook in HOOKS && Upper(hook) in m.tables[t]
    ensures AllSameReading(ReadInNew(z, src, env, t), ReadIn(m, src, env, t), t.family, t.table)
    ensures SameWalks(ReadInNew(z, src, env, t), ReadIn(m, src, env, t), ForeignRules(m.tables[t][Upper(hook)]))
  {
    StagedView(m, z, t);
    StagedRow(m, z, t, hook);
    ChainsAlike(ReadInNew(z, src, env, t), ReadIn(m, src, env, t), t.family, t.table);
    OthersWalkAlike(ReadInNew(z, src, env, t), ReadIn(m, src, env, t), ForeignRules(m.tables[t][Upper(hook)]));
  }

  /** A built-in chain in `e` does what the rules of other programs in `m` and then the declarations for its hook say. */
  ghost predicate DeclaredAt(e: Machine, m: Machine, src: Source, env: Env, t: TabId, hook: string) {
    t in m.tables && hook in HOOKS && Upper(hook) in m.tables[t] ==>
      Enforces(e, ReadIn(m, src, env, t), ForeignRules(m.tables[t][Upper(hook)]), t, hook, DeclaredZones(src, env, t, hook))
  }

  /** What was submitted for a hook is what was declared for it. */
  ghost predicate ZonesSay(c: Machine, b: Machine, src: Source, env: Env) {
    forall t, hook :: t in c.tables && t in b.tables ==> Stripped(ZoneChains(b.tables[t], hook)) == DeclaredZones(src, env, t, hook)
  }

  lemma AllZonesSay(c: Machine, b: Machine, src: Source, env: Env)
    requires Fresh(c) && ProbesOnce(src.probe) && env.prefix == FWTMP && Taken(c, b, src.ds, env, src.probe, src.targets)
    ensures ZonesSay(c, b, src, env)
  {
    forall t, hook | t in c.tables
      ensures Stripped(ZoneChains(b.tables[t], hook)) == DeclaredZones(src, env, t, hook)
    {
      StagedZones(c, b, src, env, t, hook);
    }
  }

  predicate HookIn(m: Machine, t: TabId, hook: string) {
    t in m.tables && hook in HOOKS && Upper(hook) in m.tables[t]
  }

  /** The other rules of a hook are those other programs had. */
  ghost predicate OthersSay(m: Machine, b: Machine) {
    forall t, hook :: HookIn(m, t, hook) ==>
      t in b.tables && Upper(hook) in Zoned(b.tables[t]) && OtherRules(b.tables[t], hook) == ForeignRules(m.tables[t][Upper(hook)])
  }

  lemma AllOthersSay(m: Machine, b: Machine, z: Machine)
    requires OthersKept(m, z) && AllReady(z) && z.tables == ZonedTables(b.tables)
    ensures OthersSay(m, b)
  {
    forall t, hook | HookIn(m, t, hook)
      ensures t in b.tables && Upper(hook) in Zoned(b.tables[t]) && OtherRules(b.tables[t], hook) == ForeignRules(m.tables[t][Upper(hook)])
    {
      StagedOthers(m, b, z, t, hook);
    }
  }

  /** Both kernels read a hook alike. */
  ghost predicate ReadingsSay(m: Machine, z: Machine, src: Source, env: Env)
    requires z.tables.Keys == m.tables.Keys
  {
    forall t, hook :: HookIn(m, t, hook) ==>
      && AllSameReading(ReadInNew(z, src, env, t), ReadIn(m, src, env, t), t.family, t.table)
      && SameWalks(ReadInNew(z, src, env, t), ReadIn(m, src, env, t), ForeignRules(m.tables[t][Upper(hook)]))
  }

  lemma AllReadingsSay(m: Machine, z: Machine, src: Source, env: Env)
    requires OthersKept(m, z) && AllReady(z)
    requires forall t :: t in m.tables ==> HitsJumpOutside(ReadInNew(z, src, env, t), t.family, t.table)
    ensures ReadingsSay(m, z, src, env)
  {
    forall t, hook | HookIn(m, t, hook)
      ensures AllSameReading(ReadInNew(z, src, env, t), ReadIn(m, src, env, t), t.family, t.table)
      ensures SameWalks(ReadInNew(z, src, env, t), ReadIn(m, src, env, t), ForeignRules(m.tables[t][Upper(hook)]))
    {
      StagedReadings(m, z, src, env, t, hook);
    }
  }

  lemma AsDeclaredAt(e: Machine, m: Machine, c: Machine, b: Machine, z: Machine, src: Source, env: Env, t: TabId, hook: string)
    requires c.tables.Keys == m.tables.Keys && z.tables.Keys == m.tables.Keys && HookIn(m, t, hook)
    requires ZonesSay(c, b, src, env) && OthersSay(m, b) && ReadingsSay(m, z, src, env) && SubmittedAt(e, b, z, src, env, t, hook)
    ensures DeclaredAt(e, m, src, env, t, hook)
  {
    EnforcedAlike(e, ReadInNew(z, src, env, t), ReadIn(m, src, env, t), ForeignRules(m.tables[t][Upper(hook)]), t, hook, DeclaredZones(src, env, t, hook));
  }

  /** In kernel `e` every built-in chain of a hook does as `m` with the declarations says. */
  ghost predicate EnforcesDeclarations(e: Machine, m: Machine, src: Source, env: Env) {
    e.tables.Keys == m.tables.Keys && forall t, hook :: DeclaredAt(e, m, src, env, t, hook)
  }

  lemma AllDeclaredEnforced(e: Machine, m: Machine, c: Machine, b: Machine, z: Machine, src: Source, env: Env)
    requires EnforcedBy(e, b, z, src, env) && e.tables.Keys == c.tables.Keys == z.tables.Keys == m.tables.Keys
    requires ZonesSay(c, b, src, env) && OthersSay(m, b) && ReadingsSay(m, z, src, env)
    ensures EnforcesDeclarations(e, m, src, env)
  {
    forall t, hook
      ensures DeclaredAt(e, m, src, env, t, hook)
    {
      assert SubmittedAt(e, b, z, src, env, t, hook);
      if HookIn(m, t, hook) {
        AsDeclaredAt(e, m, c, b, z, src, env, t, hook);
      }
    }
  }

  lemma StagedEnforcesDeclared(e: Machine, m: Machine, c: Machine, b: Machine, z: Machine, src: Source, env: Env)
    requires StagedFrom(m, c, b, z, src, env) && EnforcedBy(e, b, z, src, env)
    ensures EnforcesDeclarations(e, m, src, env)
  {
    AllZonesSay(c, b, src, env);
    AllOthersSay(m, b, z);
    AllReadingsSay(m, z, src, env);
    AllDeclaredEnforced(e, m, c, b, z, src, env);
  }

  lemma StagedHits(c: Machine, z: Machine, src: Source, t: TabId)
    requires Careful(src) && Compiles(src.ds, src.lookup, FWTMP, SetPrefix(c.version + 1)) && t in z.tables
    requires Placeable(c.tables, RulesetOf(src.ds, EnvAt(src, c.version), src.probe), src.targets)
    requires SetsLoaded(z.sets, EnvAt(src, c.version).sets, EnvAt(src, c.version).setPrefix)
    ensures HitsJumpOutside(ReadInNew(z, src, EnvAt(src, c.version), t), t.family, t.table)
  {
    NewConfigReads(c, z, src, t);
    LoadedHitsJumpOutside(NewConfig(c, z, src, t), c.tables, t.family, t.table);
  }

  lemma TakenIsStagedFrom(m: Machine, c: Machine, b: Machine, z: Machine, src: Source)
    requires OthersKept(m, z) && c.tables.Keys == m.tables.Keys && z == b.(tables := ZonedTables(b.tables))
    requires AllReady(z) && Fresh(c) && Careful(src) && Buildable(c, src)
    requires Taken(c, b, src.ds, EnvAt(src, c.version), src.probe, src.targets)
    ensures StagedFrom(m, c, b, z, src, EnvAt(src, c.version))
  {
    forall t | t in m.tables
      ensures HitsJumpOutside(ReadInNew(z, src, EnvAt(src, c.version), t), t.family, t.table)
    {
      StagedHits(c, z, src, t);
    }
  }

  lemma ReloadIsStagedFrom(m: Machine, tabs: seq<TabId>, given: Inputs, src: Source)
    requires CanStart(m, tabs) && ReloadOf(given, src) && Careful(src) && !EndingOf(m, tabs, given).NotBuilt?
    ensures var c := Cleaned(m, tabs);
      StagedFrom(m, c, Submitted(m, tabs, given), Prepared(m, tabs, given), src, EnvAt(src, c.version))
  {
    var c, b, z := Cleaned(m, tabs), Submitted(m, tabs, given), Prepared(m, tabs, given);
    CarefulReloadIsGood(given, src);
    PreparedKeepsOthers(m, tabs, given);
    ReloadIsStaged(m, tabs, given);
    BuildTaken(c, b, z, tabs, given, src);
    ZonesResult(b, tabs, given.order);
    StagesOf(m, tabs, given);
    BegunIsReady(c, z, tabs);
    NotBuiltIff(m, tabs, given, src);
    TakenIsStagedFrom(m, c, b, z, src);
  }

  /**
   From whatever state the last reload left, a confirmed reload of a configuration leaves a kernel in
   which every built-in chain of a hook first applies the rules that other programs had there, in
   their order, and then decides as the declarations for the hook, read directly, say: chain by
   chain in sorted order, first match first, through every `+chain` they jump to.
   */
  lemma DeclarationsAreEnforced(m: Machine, tabs: seq<TabId>, given: Inputs, src: Source)
    requires CanStart(m, tabs) && ReloadOf(given, src) && Careful(src) && EndingOf(m, tabs, given).Confirmed?
    ensures EnforcesDeclarations(Last(m, ReloadRun(m, tabs, given).states), m, src, EnvAt(src, LiveVersion(m)))
  {
    CleanedVersion(m, tabs);
    ReloadIsStagedFrom(m, tabs, given, src);
    StagesAreEnforced(m, tabs, given, src);
    var c, b, z := Cleaned(m, tabs), Submitted(m, tabs, given), Prepared(m, tabs, given);
    StagedEnforcesDeclared(Last(m, ReloadRun(m, tabs, given).states), m, c, b, z, src, EnvAt(src, c.version));
  }
}
