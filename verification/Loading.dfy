/** What the kernel holds when a whole submission has been taken. */
module Loading {
  import opened Seqs
  import opened Text
  import opened Netfilter
  import opened Kernel
  import opened Machines
  import opened Generations
  import opened Tidy
  import opened CleanupProof
  import opened CleanupSteps
  import opened Harmless
  import opened Building
  import opened Declarations
  import opened RuleBuilding
  import opened Meaning
  import opened Compilation
  import opened Compiling
  import opened Submitting
  import AliasSets
  import Restoring

  lemma {:induction false} BuildConcat(m: Machine, xs: seq<Load>, ys: seq<Load>)
    ensures var first := BuildRun(m, xs);
      var e := Last(m, first.states);
      && BuildRun(m, xs + ys).ok == (first.ok && BuildRun(e, ys).ok)
      && (first.ok ==> Last(m, BuildRun(m, xs + ys).states) == Last(e, BuildRun(e, ys).states))
    decreases |xs|
  {
    if xs == [] {
      assert xs + ys == ys;
    } else {
      assert (xs + ys)[1..] == xs[1..] + ys;
      var after := ExecLoad(m, xs[0]);
      if after.Some? {
        BuildConcat(after.value, xs[1..], ys);
        LastConcat(m, [after.value], BuildRun(after.value, xs[1..]).states);
        LastConcat(m, [after.value], BuildRun(after.value, xs[1..] + ys).states);
      }
    }
  }

  lemma BuildFirst(m: Machine, l: Load, rest: seq<Load>)
    requires ExecLoad(m, l).Some?
    ensures var e := ExecLoad(m, l).value;
      BuildRun(m, [l] + rest).ok == BuildRun(e, rest).ok && Last(m, BuildRun(m, [l] + rest).states) == Last(e, BuildRun(e, rest).states)
  {
    assert ([l] + rest)[1..] == rest;
    LastConcat(m, [ExecLoad(m, l).value], BuildRun(ExecLoad(m, l).value, rest).states);
  }

  // ---------- sets ----------

  function Adds(name: Name, entries: seq<Entry>): (r: seq<Load>)
    ensures |r| == |entries|
  {
    seq(|entries|, i requires 0 <= i < |entries| => AddTo(name, entries[i]))
  }

  lemma {:induction false} AddsRun(m: Machine, name: Name, entries: seq<Entry>)
    requires name in m.sets
    ensures var run := BuildRun(m, Adds(name, entries));
      run.ok && Last(m, run.states)
        == m.(sets := m.sets[name := SetBody(m.sets[name].kind, m.sets[name].entries + set e | e in entries)])
    decreases |entries|
  {
    var body := m.sets[name];
    if entries == [] {
      assert body.entries + (set e | e in entries) == body.entries;
      assert m.sets[name := SetBody(body.kind, body.entries)] == m.sets;
    } else {
      var m' := m.(sets := m.sets[name := SetBody(body.kind, body.entries + {entries[0]})]);
      assert entries == [entries[0]] + entries[1..];
      assert Adds(name, entries) == [AddTo(name, entries[0])] + Adds(name, entries[1..]);
      BuildFirst(m, AddTo(name, entries[0]), Adds(name, entries[1..]));
      AddsRun(m', name, entries[1..]);
      assert body.entries + {entries[0]} + (set e | e in entries[1..]) == body.entries + (set e | e in entries);
      assert m'.sets[name := SetBody(body.kind, body.entries + (set e | e in entries))]
        == m.sets[name := SetBody(body.kind, body.entries + (set e | e in entries))];
    }
  }

  function BodyOf(s: AliasSets.AliasSet): SetBody {
    SetBody(s.kind, set e | e in s.entries)
  }

  /** One set, created and filled. */
  lemma SetRun(m: Machine, s: AliasSets.AliasSet, prefix: string)
    requires prefix + s.name !in m.sets
    ensures var run := BuildRun(m, SetLoads(AliasSets.LinesOf(s, prefix)));
      run.ok && Last(m, run.states) == m.(sets := m.sets[prefix + s.name := BodyOf(s)])
  {
    var name := prefix + s.name;
    var m' := m.(sets := m.sets[name := SetBody(s.kind, {})]);
    assert SetLoads(AliasSets.LinesOf(s, prefix)) == [MakeSet(name, s.kind)] + Adds(name, s.entries);
    BuildFirst(m, MakeSet(name, s.kind), Adds(name, s.entries));
    AddsRun(m', name, s.entries);
    assert {} + (set e | e in s.entries) == (set e | e in s.entries);
    assert m'.sets[name := BodyOf(s)] == m.sets[name := BodyOf(s)];
  }

  lemma SetLoadsConcat(xs: seq<AliasSets.SetLine>, ys: seq<AliasSets.SetLine>)
    ensures SetLoads(xs + ys) == SetLoads(xs) + SetLoads(ys)
  {
  }

  /** The sets there were, and those named. */
  function SetsWith(before: Sets, made: AliasSets.ByName, names: seq<string>, prefix: string): Sets
    requires forall n :: n in names ==> n in made
  {
    if names == [] then before
    else SetsWith(before, made, names[..|names| - 1], prefix)[prefix + names[|names| - 1] := BodyOf(made[names[|names| - 1]])]
  }

  lemma {:induction false} SetsWithAre(before: Sets, made: AliasSets.ByName, names: seq<string>, prefix: string)
    requires forall n :: n in names ==> n in made
    ensures var after := SetsWith(before, made, names, prefix);
      && (forall n :: n in names ==> prefix + n in after && after[prefix + n] == BodyOf(made[n]))
      && (forall x :: x in after ==> x in before || (prefix <= x && x[|prefix|..] in names))
  {
    if names != [] {
      var shorter, last := names[..|names| - 1], names[|names| - 1];
      assert names == shorter + [last];
      SetsWithAre(before, made, shorter, prefix);
      forall n | n in shorter && prefix + n == prefix + last
        ensures n == last
      {
        assert (prefix + n)[|prefix|..] == n && (prefix + last)[|prefix|..] == last;
      }
    }
  }

  /** The set stream gives every set its entries. */
  lemma {:induction false} AllSetsRun(m: Machine, made: AliasSets.ByName, names: seq<string>, prefix: string)
    requires Distinct(names) && forall n :: n in names ==> n in made && made[n].name == n && prefix + n !in m.sets
    ensures var run := BuildRun(m, SetLoads(AliasSets.AllLines(made, names, prefix)));
      run.ok && Last(m, run.states) == m.(sets := SetsWith(m.sets, made, names, prefix))
    decreases |names|
  {
    if names != [] {
      var shorter, last := names[..|names| - 1], names[|names| - 1];
      assert names == shorter + [last];
      var front, lines := AliasSets.AllLines(made, shorter, prefix), AliasSets.LinesOf(made[last], prefix);
      AllSetsRun(m, made, shorter, prefix);
      SetLoadsConcat(front, lines);
      BuildConcat(m, SetLoads(front), SetLoads(lines));
      NotYetMade(m.sets, made, shorter, prefix, last);
      SetRun(m.(sets := SetsWith(m.sets, made, shorter, prefix)), made[last], prefix);
    }
  }

  lemma NotYetMade(before: Sets, made: AliasSets.ByName, names: seq<string>, prefix: string, n: string)
    requires (forall k :: k in names ==> k in made) && n !in names && prefix + n !in before
    ensures prefix + n !in SetsWith(before, made, names, prefix)
  {
    SetsWithAre(before, made, names, prefix);
    assert (prefix + n)[|prefix|..] == n;
  }

  // ---------- tables ----------

  /** A table, with what was built for it if it is among those named. */
  function WithNews(c: Chains, x: TabId, rs: Ruleset, f: Family, tables: seq<string>, prefix: string, targets: Targets): Chains {
    if x.family == f && x.table in tables then c + News(rs, f, x.table, prefix, targets) else c
  }

  /** The tables of one family named, with what was built for them. */
  ghost predicate TablesLoaded(m: Machine, e: Machine, rs: Ruleset, f: Family, tables: seq<string>, prefix: string, targets: Targets) {
    && e == m.(tables := e.tables) && e.tables.Keys == m.tables.Keys
    && forall x :: x in m.tables ==> e.tables[x] == WithNews(m.tables[x], x, rs, f, tables, prefix, targets)
  }

  lemma LoadIsPut(m: Machine, t: TabId, news: Chains)
    requires ExecLoad(m, LoadTable(t, news)).Some?
    ensures t in m.tables && ExecLoad(m, LoadTable(t, news)).value == Put(m, t, m.tables[t] + news)
  {
  }

  lemma PutIsLoaded(m: Machine, rs: Ruleset, f: Family, table: string, prefix: string, targets: Targets)
    requires TabId(f, table) in m.tables
    ensures var t := TabId(f, table);
      TablesLoaded(m, Put(m, t, m.tables[t] + News(rs, f, table, prefix, targets)), rs, f, [table], prefix, targets)
  {
    assert table in [table];
    forall x: TabId | x.family == f && x.table in [table]
      ensures x == TabId(f, table)
    {
    }
  }

  lemma TablesLoadedOn(m: Machine, m': Machine, e: Machine, rs: Ruleset, f: Family, tables: seq<string>, prefix: string, targets: Targets)
    requires tables != [] && Distinct(tables)
    requires TablesLoaded(m, m', rs, f, [tables[0]], prefix, targets) && TablesLoaded(m', e, rs, f, tables[1..], prefix, targets)
    ensures TablesLoaded(m, e, rs, f, tables, prefix, targets)
  {
    DistinctTail(tables);
    forall x | x in m.tables
      ensures e.tables[x] == WithNews(m.tables[x], x, rs, f, tables, prefix, targets)
    {
      assert x in m'.tables;
    }
  }

  lemma {:induction false} TableLoadsRun(m: Machine, rs: Ruleset, f: Family, tables: seq<string>, prefix: string, targets: Targets)
    requires Distinct(tables) && BuildRun(m, TableLoads(rs, f, tables, prefix, targets)).ok
    ensures TablesLoaded(m, Last(m, BuildRun(m, TableLoads(rs, f, tables, prefix, targets)).states), rs, f, tables, prefix, targets)
    decreases |tables|
  {
    if tables != [] {
      var news := News(rs, f, tables[0], prefix, targets);
      var l := LoadTable(TabId(f, tables[0]), news);
      var rest := TableLoads(rs, f, tables[1..], prefix, targets);
      assert TableLoads(rs, f, tables, prefix, targets) == [l] + rest;
      assert ([l] + rest)[0] == l;
      BuildFirst(m, l, rest);
      var m' := ExecLoad(m, l).value;
      LoadIsPut(m, TabId(f, tables[0]), news);
      PutIsLoaded(m, rs, f, tables[0], prefix, targets);
      DistinctTail(tables);
      TableLoadsRun(m', rs, f, tables[1..], prefix, targets);
      TablesLoadedOn(m, m', Last(m', BuildRun(m', rest).states), rs, f, tables, prefix, targets);
    }
  }

  // ---------- the whole submission ----------

  /** Nothing is left of the version about to be built. */
  ghost predicate Fresh(m: Machine) {
    Clean(m) && forall s :: s in m.sets ==> !(SetPrefix(m.version + 1) <= s)
  }

  /** A cleanup makes room for the next version. */
  lemma CleanupIsFresh(m: Machine, tabs: seq<TabId>)
    requires Covering(m, tabs) && Cleanable(m) && Clean(Last(m, CleanupRun(m, tabs).states))
    ensures Fresh(Last(m, CleanupRun(m, tabs).states))
  {
    CleanupResult(m, tabs);
  }

  /** What a submission leaves: every set filled, and every table with its chains. */
  ghost predicate Taken(c: Machine, b: Machine, ds: seq<Decl>, env: Env, probe: Probe, targets: Targets) {
    && SetsLoaded(b.sets, env.sets, env.setPrefix)
    && b.tables.Keys == c.tables.Keys
    && forall x :: x in c.tables ==> b.tables[x] == c.tables[x] + News(RulesetOf(ds, env, probe), x.family, x.table, env.prefix, targets)
  }

  ghost predicate OwnNames(made: AliasSets.ByName) {
    forall k :: k in made ==> made[k].name == k
  }

  lemma SetStreamTaken(c: Machine, env: Env)
    requires Fresh(c) && env.setPrefix == SetPrefix(c.version + 1) && OwnNames(env.sets)
    ensures var run := BuildRun(c, SetLoads(AliasSets.AllLines(env.sets, Sorted(env.sets.Keys), env.setPrefix)));
      run.ok && SetsLoaded(Last(c, run.states).sets, env.sets, env.setPrefix) && Last(c, run.states) == c.(sets := Last(c, run.states).sets)
  {
    var names := Sorted(env.sets.Keys);
    SortedIsOrdered(env.sets.Keys);
    AllSetsRun(c, env.sets, names, env.setPrefix);
    SetsWithAre(c.sets, env.sets, names, env.setPrefix);
  }

  lemma NoNews(rs: Ruleset, f: Family, table: string, prefix: string, targets: Targets)
    requires table !in Restoring.TablesIn(rs, f)
    ensures News(rs, f, table, prefix, targets) == map[]
  {
    forall k | k in rs && k.family == f
      ensures k.table != table
    {
      assert k.table in Restoring.TablesIn(rs, f);
    }
  }

  lemma FamilyTaken(m: Machine, e: Machine, rs: Ruleset, f: Family, prefix: string, targets: Targets, x: TabId)
    requires TablesLoaded(m, e, rs, f, Sorted(Restoring.TablesIn(rs, f)), prefix, targets) && x in m.tables
    ensures e.tables[x] == if x.family == f then m.tables[x] + News(rs, f, x.table, prefix, targets) else m.tables[x]
  {
    if x.family == f && x.table !in Restoring.TablesIn(rs, f) {
      NoNews(rs, f, x.table, prefix, targets);
      assert m.tables[x] + map[] == m.tables[x];
    }
  }

  /** Both families' streams, one after the other. */
  lemma RuleStreamsTaken(m: Machine, rs: Ruleset, prefix: string, targets: Targets)
    requires var v4, v6 := Sorted(Restoring.TablesIn(rs, V4)), Sorted(Restoring.TablesIn(rs, V6));
      BuildRun(m, TableLoads(rs, V4, v4, prefix, targets) + TableLoads(rs, V6, v6, prefix, targets)).ok
    ensures var v4, v6 := Sorted(Restoring.TablesIn(rs, V4)), Sorted(Restoring.TablesIn(rs, V6));
      var e := Last(m, BuildRun(m, TableLoads(rs, V4, v4, prefix, targets) + TableLoads(rs, V6, v6, prefix, targets)).states);
      && e == m.(tables := e.tables) && e.tables.Keys == m.tables.Keys
      && forall x :: x in m.tables ==> e.tables[x] == m.tables[x] + News(rs, x.family, x.table, prefix, targets)
  {
    var v4, v6 := Sorted(Restoring.TablesIn(rs, V4)), Sorted(Restoring.TablesIn(rs, V6));
    var first, second := TableLoads(rs, V4, v4, prefix, targets), TableLoads(rs, V6, v6, prefix, targets);
    SortedIsOrdered(Restoring.TablesIn(rs, V4));
    SortedIsOrdered(Restoring.TablesIn(rs, V6));
    BuildConcat(m, first, second);
    TableLoadsRun(m, rs, V4, v4, prefix, targets);
    var m' := Last(m, BuildRun(m, first).states);
    TableLoadsRun(m', rs, V6, v6, prefix, targets);
    var e := Last(m', BuildRun(m', second).states);
    forall x | x in m.tables
      ensures e.tables[x] == m.tables[x] + News(rs, x.family, x.table, prefix, targets)
    {
      FamilyTaken(m, m', rs, V4, prefix, targets, x);
      FamilyTaken(m', e, rs, V6, prefix, targets, x);
    }
  }

  /** The set stream, and then both families' rules. */
  lemma StreamsTaken(c: Machine, env: Env, rs: Ruleset, sets: seq<Load>, rules: seq<Load>, targets: Targets)
    requires Fresh(c) && env.setPrefix == SetPrefix(c.version + 1) && OwnNames(env.sets)
    requires sets == SetLoads(AliasSets.AllLines(env.sets, Sorted(env.sets.Keys), env.setPrefix))
    requires rules == TableLoads(rs, V4, Sorted(Restoring.TablesIn(rs, V4)), env.prefix, targets)
      + TableLoads(rs, V6, Sorted(Restoring.TablesIn(rs, V6)), env.prefix, targets)
    requires BuildRun(c, sets + rules).ok
    ensures var b := Last(c, BuildRun(c, sets + rules).states);
      && SetsLoaded(b.sets, env.sets, env.setPrefix) && b.tables.Keys == c.tables.Keys
      && forall x :: x in c.tables ==> b.tables[x] == c.tables[x] + News(rs, x.family, x.table, env.prefix, targets)
  {
    SetStreamTaken(c, env);
    BuildConcat(c, sets, rules);
    RuleStreamsTaken(Last(c, BuildRun(c, sets).states), rs, env.prefix, targets);
  }

  /** A submission taken whole leaves exactly what was compiled, beside what there was. */
  lemma SubmissionTaken(c: Machine, ds: seq<Decl>, env: Env, probe: Probe, targets: Targets)
    requires Fresh(c) && env.setPrefix == SetPrefix(c.version + 1) && OwnNames(env.sets)
    requires BuildRun(c, LoadsOf(ds, env, probe, targets)).ok
    ensures Taken(c, Last(c, BuildRun(c, LoadsOf(ds, env, probe, targets)).states), ds, env, probe, targets)
  {
    var rs := RulesetOf(ds, env, probe);
    var sets := SetLoads(AliasSets.AllLines(env.sets, Sorted(env.sets.Keys), env.setPrefix));
    var v4 := TableLoads(rs, V4, Sorted(Restoring.TablesIn(rs, V4)), env.prefix, targets);
    var v6 := TableLoads(rs, V6, Sorted(Restoring.TablesIn(rs, V6)), env.prefix, targets);
    Associative(sets, v4, v6);
    StreamsTaken(c, env, rs, sets, v4 + v6, targets);
  }
}
