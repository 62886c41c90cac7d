/** When the kernel takes a submission, and with that, when a reload succeeds. */
module Acceptance {
  import opened Seqs
  import opened Text
  import opened Netfilter
  import opened Kernel
  import opened Machines
  import opened Generations
  import opened Tidy
  import opened Building
  import opened Declarations
  import opened RuleBuilding
  import opened Meaning
  import opened Compilation
  import opened Compiling
  import opened Submitting
  import opened Loading
  import AliasSets
  import Restoring

  // ---------- what a ruleset asks of the kernel ----------

  /** A jump goes to a chain the table has, or gets with it. */
  predicate JumpThere(c: Chains, rs: Ruleset, f: Family, table: string, x: Target) {
    x.Jump? ==> x.chain !in BUILTINS && (x.chain in c || (FWTMP <= x.chain && Key(f, table, x.chain[|FWTMP|..]) in rs))
  }

  predicate ChainPlaceable(c: Chains, rs: Ruleset, key: Key, targets: Targets)
    requires key in rs
  {
    forall l :: l in rs[key] ==> JumpThere(c, rs, key.family, key.table, RuleOf(l, Compiled(targets, FWTMP)).target)
  }

  /** Every table built for is there, and so is every chain jumped to. */
  ghost predicate Placeable(tables: Tables, rs: Ruleset, targets: Targets) {
    forall key :: key in rs ==>
      TabId(key.family, key.table) in tables && ChainPlaceable(tables[TabId(key.family, key.table)], rs, key, targets)
  }

  lemma NewsNames(rs: Ruleset, f: Family, table: string, targets: Targets, n: Name)
    ensures n in News(rs, f, table, FWTMP, targets) <==> FWTMP <= n && Key(f, table, n[|FWTMP|..]) in rs
    ensures n in News(rs, f, table, FWTMP, targets) ==>
      News(rs, f, table, FWTMP, targets)[n] == RulesOf(rs[Key(f, table, n[|FWTMP|..])], Compiled(targets, FWTMP))
  {
    Restoring.ChainsAre(rs, f, table);
    if FWTMP <= n && Key(f, table, n[|FWTMP|..]) in rs {
      assert FWTMP + n[|FWTMP|..] == n;
      assert n in Restoring.Full(Restoring.ChainsIn(rs, f, table), FWTMP);
    }
  }

  // ---------- the sets are there ----------

  lemma EndpointSetIsThere(address: string, dir: Dir, f: Family, env: Env, sets: Sets, t: Test)
    requires SetsLoaded(sets, env.sets, env.setPrefix)
    requires Endpoint(address, dir, f, env).Some? && t in Endpoint(address, dir, f, env).value && t.SetTest?
    ensures t.name in sets
  {
  }

  lemma LineSetIsThere(r: RuleDecl, f: Family, env: Env, sets: Sets, l: Line, t: Test)
    requires SetsLoaded(sets, env.sets, env.setPrefix) && l in LinesFor(r, f, env) && t in l.tests && t.SetTest?
    ensures t.name in sets
  {
    var srcs, dsts, tail := Expand(r.src, f, env.addrs), Expand(r.dst, f, env.addrs), Replaced(r.tail, Prefixed(env.prefix));
    CrossAre(srcs, dsts, tail, f, env, l);
    var s, d :| s in srcs && d in dsts && l in PairLines(s, d, tail, f, env);
    if t in Endpoint(s, Src, f, env).value {
      EndpointSetIsThere(s, Src, f, env, sets, t);
    } else {
      EndpointSetIsThere(d, Dst, f, env, sets, t);
    }
  }

  /** No rule built names a set that was not built. */
  lemma BuiltSetsAreThere(ds: seq<Decl>, env: Env, probe: Probe, sets: Sets, key: Key, l: Line, t: Test)
    requires ProbesOnce(probe) && SetsLoaded(sets, env.sets, env.setPrefix)
    requires key in RulesetOf(ds, env, probe) && l in RulesetOf(ds, env, probe)[key] && t in l.tests && t.SetTest?
    ensures t.name in sets
  {
    ChainsHoldTheirDeclarations(ds, key, env, probe);
    var r := LineCameFrom(DeclarationsOf(ds, key, env, probe), key.family, env, l);
    LineSetIsThere(r, key.family, env, sets, l, t);
  }

  // ---------- one table ----------

  lemma RuleFitsIff(ds: seq<Decl>, env: Env, probe: Probe, targets: Targets, c: Chains, sets: Sets, key: Key, l: Line)
    requires ProbesOnce(probe) && SetsLoaded(sets, env.sets, env.setPrefix)
    requires key in RulesetOf(ds, env, probe) && l in RulesetOf(ds, env, probe)[key]
    ensures var rs, r := RulesetOf(ds, env, probe), RuleOf(l, Compiled(targets, FWTMP));
      RuleFits(r, c.Keys + News(rs, key.family, key.table, FWTMP, targets).Keys, sets.Keys) <==> JumpThere(c, rs, key.family, key.table, r.target)
  {
    var rs, r := RulesetOf(ds, env, probe), RuleOf(l, Compiled(targets, FWTMP));
    forall t | t in r.tests && t.SetTest?
      ensures t.name in sets.Keys
    {
      BuiltSetsAreThere(ds, env, probe, sets, key, l, t);
    }
    if r.target.Jump? {
      NewsNames(rs, key.family, key.table, targets, r.target.chain);
    }
  }

  lemma ChainFitsIff(ds: seq<Decl>, env: Env, probe: Probe, targets: Targets, c: Chains, sets: Sets, key: Key)
    requires ProbesOnce(probe) && SetsLoaded(sets, env.sets, env.setPrefix) && key in RulesetOf(ds, env, probe)
    ensures var rs := RulesetOf(ds, env, probe);
      var names := c.Keys + News(rs, key.family, key.table, FWTMP, targets).Keys;
      RulesFit(RulesOf(rs[key], Compiled(targets, FWTMP)), names, sets.Keys) <==> ChainPlaceable(c, rs, key, targets)
  {
    var rs := RulesetOf(ds, env, probe);
    var lines, rules := rs[key], RulesOf(rs[key], Compiled(targets, FWTMP));
    forall l | l in lines
      ensures RuleOf(l, Compiled(targets, FWTMP)) in rules
      ensures RuleFits(RuleOf(l, Compiled(targets, FWTMP)), c.Keys + News(rs, key.family, key.table, FWTMP, targets).Keys, sets.Keys)
        <==> JumpThere(c, rs, key.family, key.table, RuleOf(l, Compiled(targets, FWTMP)).target)
    {
      var i :| 0 <= i < |lines| && lines[i] == l;
      assert rules[i] == RuleOf(l, Compiled(targets, FWTMP));
      RuleFitsIff(ds, env, probe, targets, c, sets, key, l);
    }
    forall r | r in rules
      ensures exists l :: l in lines && r == RuleOf(l, Compiled(targets, FWTMP))
    {
      var i :| 0 <= i < |rules| && rules[i] == r;
      assert lines[i] in lines;
    }
  }

  /** The table is there and takes its block. */
  ghost predicate Fits(m: Machine, rs: Ruleset, f: Family, table: string, targets: Targets) {
    TabId(f, table) in m.tables && CanLoad(m.tables[TabId(f, table)], m.sets.Keys, News(rs, f, table, FWTMP, targets))
  }

  /** All that is to go into one table is placeable. */
  ghost predicate BlockPlaceable(c: Chains, rs: Ruleset, f: Family, table: string, targets: Targets) {
    forall key :: key in rs && key.family == f && key.table == table ==> ChainPlaceable(c, rs, key, targets)
  }

  ghost predicate TablePlaceable(tables: Tables, rs: Ruleset, f: Family, table: string, targets: Targets) {
    TabId(f, table) in tables && BlockPlaceable(tables[TabId(f, table)], rs, f, table, targets)
  }

  lemma NameFits(ds: seq<Decl>, env: Env, probe: Probe, targets: Targets, f: Family, table: string, n: Name)
    requires ProbesOnce(probe) && env.prefix == FWTMP && n in News(RulesetOf(ds, env, probe), f, table, FWTMP, targets)
    ensures n !in BUILTINS && |n| < CHAIN_NAME_MAX
  {
    BuiltNamesFit(ds, env, probe, f, table, targets, n);
    NewName(ds, env, probe, f, table, targets, n);
    OneGeneration(n);
    CandidateName(n[|FWTMP|..]);
  }

  /** One chain of the block. */
  predicate RowLoads(c: Chains, sets: set<Name>, news: Chains, n: Name)
    requires n in news
  {
    n !in BUILTINS && |n| < CHAIN_NAME_MAX && RulesFit(news[n], c.Keys + news.Keys, sets)
  }

  lemma RowLoadsIff(ds: seq<Decl>, env: Env, probe: Probe, targets: Targets, c: Chains, sets: Sets, f: Family, table: string, n: Name)
    requires ProbesOnce(probe) && env.prefix == FWTMP && SetsLoaded(sets, env.sets, env.setPrefix)
    requires n in News(RulesetOf(ds, env, probe), f, table, FWTMP, targets)
    ensures var rs := RulesetOf(ds, env, probe);
      && FWTMP <= n && Key(f, table, n[|FWTMP|..]) in rs
      && (RowLoads(c, sets.Keys, News(rs, f, table, FWTMP, targets), n) <==> ChainPlaceable(c, rs, Key(f, table, n[|FWTMP|..]), targets))
  {
    NameFits(ds, env, probe, targets, f, table, n);
    NewsNames(RulesetOf(ds, env, probe), f, table, targets, n);
    ChainFitsIff(ds, env, probe, targets, c, sets, Key(f, table, n[|FWTMP|..]));
  }

  lemma KeyHasName(rs: Ruleset, targets: Targets, key: Key)
    requires key in rs
    ensures FWTMP + key.chain in News(rs, key.family, key.table, FWTMP, targets)
    ensures key == Key(key.family, key.table, (FWTMP + key.chain)[|FWTMP|..])
  {
    assert (FWTMP + key.chain)[|FWTMP|..] == key.chain;
    NewsNames(rs, key.family, key.table, targets, FWTMP + key.chain);
  }

  /** The table takes its block exactly when all its chains can be placed. */
  lemma BlockLoadsIff(ds: seq<Decl>, env: Env, probe: Probe, targets: Targets, c: Chains, sets: Sets, f: Family, table: string)
    requires ProbesOnce(probe) && env.prefix == FWTMP && SetsLoaded(sets, env.sets, env.setPrefix)
    ensures var rs := RulesetOf(ds, env, probe);
      CanLoad(c, sets.Keys, News(rs, f, table, FWTMP, targets)) <==> BlockPlaceable(c, rs, f, table, targets)
  {
    var rs := RulesetOf(ds, env, probe);
    var news := News(rs, f, table, FWTMP, targets);
    assert CanLoad(c, sets.Keys, news) <==> forall n :: n in news ==> RowLoads(c, sets.Keys, news, n);
    forall n | n in news
      ensures FWTMP <= n && Key(f, table, n[|FWTMP|..]) in rs
      ensures RowLoads(c, sets.Keys, news, n) <==> ChainPlaceable(c, rs, Key(f, table, n[|FWTMP|..]), targets)
    {
      RowLoadsIff(ds, env, probe, targets, c, sets, f, table, n);
    }
    forall key | key in rs && key.family == f && key.table == table
      ensures FWTMP + key.chain in news && key == Key(f, table, (FWTMP + key.chain)[|FWTMP|..])
    {
      KeyHasName(rs, targets, key);
    }
  }

  lemma TableFitsIff(m: Machine, ds: seq<Decl>, env: Env, probe: Probe, targets: Targets, f: Family, table: string)
    requires ProbesOnce(probe) && env.prefix == FWTMP && SetsLoaded(m.sets, env.sets, env.setPrefix)
    ensures Fits(m, RulesetOf(ds, env, probe), f, table, targets) <==> TablePlaceable(m.tables, RulesetOf(ds, env, probe), f, table, targets)
  {
    if TabId(f, table) in m.tables {
      BlockLoadsIff(ds, env, probe, targets, m.tables[TabId(f, table)], m.sets, f, table);
    }
  }

  // ---------- all tables ----------

  /** Nothing but one table differs. */
  ghost predicate AllBut(m: Machine, m': Machine, t: TabId) {
    m'.sets == m.sets && m'.tables.Keys == m.tables.Keys && forall x :: x in m.tables && x != t ==> m'.tables[x] == m.tables[x]
  }

  lemma OtherTablesFit(m: Machine, m': Machine, rs: Ruleset, t: TabId, f: Family, table: string, targets: Targets)
    requires AllBut(m, m', t) && TabId(f, table) != t
    ensures Fits(m', rs, f, table, targets) <==> Fits(m, rs, f, table, targets)
  {
  }

  ghost predicate AllFit(m: Machine, rs: Ruleset, f: Family, tables: seq<string>, targets: Targets) {
    forall table :: table in tables ==> Fits(m, rs, f, table, targets)
  }

  lemma LaterFit(m: Machine, m': Machine, rs: Ruleset, f: Family, first: string, later: seq<string>, targets: Targets)
    requires AllBut(m, m', TabId(f, first)) && first !in later
    ensures AllFit(m', rs, f, later, targets) <==> AllFit(m, rs, f, later, targets)
  {
    forall table | table in later
      ensures Fits(m', rs, f, table, targets) <==> Fits(m, rs, f, table, targets)
    {
      OtherTablesFit(m, m', rs, TabId(f, first), f, table, targets);
    }
  }

  lemma FirstTakenIff(m: Machine, t: TabId, news: Chains)
    ensures var after := ExecLoad(m, LoadTable(t, news));
      && (after.Some? <==> t in m.tables && CanLoad(m.tables[t], m.sets.Keys, news))
      && (after.Some? ==> AllBut(m, after.value, t))
  {
  }

  lemma AllFitFirst(m: Machine, rs: Ruleset, f: Family, tables: seq<string>, targets: Targets)
    requires tables != []
    ensures AllFit(m, rs, f, tables, targets) <==> Fits(m, rs, f, tables[0], targets) && AllFit(m, rs, f, tables[1..], targets)
  {
    assert tables == [tables[0]] + tables[1..];
  }

  lemma {:induction false} FamilyFitsIff(m: Machine, rs: Ruleset, f: Family, tables: seq<string>, targets: Targets)
    requires Distinct(tables)
    ensures BuildRun(m, TableLoads(rs, f, tables, FWTMP, targets)).ok <==> AllFit(m, rs, f, tables, targets)
    decreases |tables|
  {
    if tables != [] {
      var l, rest := LoadTable(TabId(f, tables[0]), News(rs, f, tables[0], FWTMP, targets)), TableLoads(rs, f, tables[1..], FWTMP, targets);
      assert TableLoads(rs, f, tables, FWTMP, targets) == [l] + rest && ([l] + rest)[0] == l;
      FirstTakenIff(m, TabId(f, tables[0]), News(rs, f, tables[0], FWTMP, targets));
      AllFitFirst(m, rs, f, tables, targets);
      if ExecLoad(m, l).Some? {
        BuildFirst(m, l, rest);
        DistinctTail(tables);
        LaterFit(m, ExecLoad(m, l).value, rs, f, tables[0], tables[1..], targets);
        FamilyFitsIff(ExecLoad(m, l).value, rs, f, tables[1..], targets);
      }
    }
  }

  lemma OtherFamilyFits(m: Machine, e: Machine, rs: Ruleset, tables: seq<string>, table: string, targets: Targets)
    requires TablesLoaded(m, e, rs, V4, tables, FWTMP, targets)
    ensures Fits(e, rs, V6, table, targets) <==> Fits(m, rs, V6, table, targets)
  {
  }

  /** Both families' streams are taken exactly when every block fits where it is to go. */
  lemma RuleStreamsFitIff(m: Machine, rs: Ruleset, v4: seq<string>, v6: seq<string>, targets: Targets)
    requires Distinct(v4) && Distinct(v6)
    ensures BuildRun(m, TableLoads(rs, V4, v4, FWTMP, targets) + TableLoads(rs, V6, v6, FWTMP, targets)).ok
      <==> AllFit(m, rs, V4, v4, targets) && AllFit(m, rs, V6, v6, targets)
  {
    var first, second := TableLoads(rs, V4, v4, FWTMP, targets), TableLoads(rs, V6, v6, FWTMP, targets);
    BuildConcat(m, first, second);
    FamilyFitsIff(m, rs, V4, v4, targets);
    if BuildRun(m, first).ok {
      var m' := Last(m, BuildRun(m, first).states);
      TableLoadsRun(m, rs, V4, v4, FWTMP, targets);
      FamilyFitsIff(m', rs, V6, v6, targets);
      forall table | table in v6
        ensures Fits(m', rs, V6, table, targets) <==> Fits(m, rs, V6, table, targets)
      {
        OtherFamilyFits(m, m', rs, v4, table, targets);
      }
    }
  }

  ghost predicate FamilyPlaceable(tables: Tables, rs: Ruleset, f: Family, targets: Targets) {
    forall table :: table in Restoring.TablesIn(rs, f) ==> TablePlaceable(tables, rs, f, table, targets)
  }

  lemma PlaceableByTable(tables: Tables, rs: Ruleset, targets: Targets)
    ensures Placeable(tables, rs, targets) <==> FamilyPlaceable(tables, rs, V4, targets) && FamilyPlaceable(tables, rs, V6, targets)
  {
    forall key | key in rs
      ensures key.table in Restoring.TablesIn(rs, key.family)
    {
    }
  }

  lemma RulesTakenIff(m: Machine, ds: seq<Decl>, env: Env, probe: Probe, targets: Targets, rules: seq<Load>)
    requires ProbesOnce(probe) && env.prefix == FWTMP && SetsLoaded(m.sets, env.sets, env.setPrefix)
    requires var rs := RulesetOf(ds, env, probe);
      rules == TableLoads(rs, V4, Sorted(Restoring.TablesIn(rs, V4)), FWTMP, targets)
        + TableLoads(rs, V6, Sorted(Restoring.TablesIn(rs, V6)), FWTMP, targets)
    ensures BuildRun(m, rules).ok <==> Placeable(m.tables, RulesetOf(ds, env, probe), targets)
  {
    var rs := RulesetOf(ds, env, probe);
    SortedIsOrdered(Restoring.TablesIn(rs, V4));
    SortedIsOrdered(Restoring.TablesIn(rs, V6));
    RuleStreamsFitIff(m, rs, Sorted(Restoring.TablesIn(rs, V4)), Sorted(Restoring.TablesIn(rs, V6)), targets);
    forall f, table
      ensures Fits(m, rs, f, table, targets) <==> TablePlaceable(m.tables, rs, f, table, targets)
    {
      TableFitsIff(m, ds, env, probe, targets, f, table);
    }
    PlaceableByTable(m.tables, rs, targets);
  }

  /**
   The kernel takes what was compiled if and only if it has every table built for, and every chain
   jumped to is there or comes along. Names and sets are never the reason to refuse it.
   */
  lemma SubmissionTakenIff(c: Machine, ds: seq<Decl>, env: Env, probe: Probe, targets: Targets)
    requires Fresh(c) && env.setPrefix == SetPrefix(c.version + 1) && OwnNames(env.sets) && ProbesOnce(probe) && env.prefix == FWTMP
    ensures BuildRun(c, LoadsOf(ds, env, probe, targets)).ok <==> Placeable(c.tables, RulesetOf(ds, env, probe), targets)
  {
    var rs := RulesetOf(ds, env, probe);
    var sets := SetLoads(AliasSets.AllLines(env.sets, Sorted(env.sets.Keys), env.setPrefix));
    var v4 := TableLoads(rs, V4, Sorted(Restoring.TablesIn(rs, V4)), FWTMP, targets);
    var v6 := TableLoads(rs, V6, Sorted(Restoring.TablesIn(rs, V6)), FWTMP, targets);
    Associative(sets, v4, v6);
    SetStreamTaken(c, env);
    BuildConcat(c, sets, v4 + v6);
    RulesTakenIff(Last(c, BuildRun(c, sets).states), ds, env, probe, targets, v4 + v6);
  }
}
