/** The whole of a cleanup: it never fails, leaves nothing stale, and no packet notices. */
module CleanupProof {
  import opened Text
  import opened Netfilter
  import opened Kernel
  import opened Machines
  import opened Hosts
  import opened Generations
  import opened Apply
  import opened Tidy
  import opened Cleanup

  // ---------- the script ----------

  function FlushAndRemove(m: Machine, tabs: seq<TabId>, prefix: string): (r: Run)
    requires forall t :: t in tabs ==> t in m.tables
    ensures forall s :: s in r.states ==> s == m.(tables := s.tables) && s.tables.Keys == m.tables.Keys
  {
    var first := Sweep(m, tabs, ForEach(prefix, FlushChain()));
    if first.ok then Then(first, Sweep(Last(m, first.states), tabs, ForEach(prefix, RemoveChain()))) else first
  }

  function TablesRun(m: Machine, tabs: seq<TabId>): (r: Run)
    requires forall t :: t in tabs ==> t in m.tables
    ensures forall s :: s in r.states ==> s == m.(tables := s.tables) && s.tables.Keys == m.tables.Keys
  {
    var first := FlushAndRemove(m, tabs, FWTMP);
    if first.ok then Then(first, FlushAndRemove(Last(m, first.states), tabs, FWD)) else first
  }

  /** ips_destroy for each set listed: a set some rule still names stays. */
  function DestroyRun(m: Machine, names: seq<Name>): (r: Run)
    ensures forall s :: s in r.states ==> s == m.(sets := s.sets)
    decreases |names|
  {
    if names == [] then Run([], true)
    else if names[0] in m.sets && !SetUsed(m.tables, names[0]) then
      var m' := m.(sets := m.sets - {names[0]});
      Then(Run([m'], true), DestroyRun(m', names[1..]))
    else DestroyRun(m, names[1..])
  }

  function SetsNamed(m: Machine, prefix: string): seq<Name> {
    Sorted(set s | s in m.sets && prefix <= s)
  }

  /** ipset_foreach_starting_with prefix ips_destroy */
  function PrefixRun(m: Machine, prefix: string): (r: Run)
    ensures forall s :: s in r.states ==> s == m.(sets := s.sets)
  {
    DestroyRun(m, SetsNamed(m, prefix))
  }

  lemma {:induction false} DestroyKeepsRest(m: Machine, names: seq<Name>)
    ensures DestroyRun(m, names).ok
    ensures Last(m, DestroyRun(m, names).states) == m.(sets := Last(m, DestroyRun(m, names).states).sets)
    decreases |names|
  {
    if names != [] {
      if names[0] in m.sets && !SetUsed(m.tables, names[0]) {
        DestroyKeepsRest(m.(sets := m.sets - {names[0]}), names[1..]);
      } else {
        DestroyKeepsRest(m, names[1..]);
      }
    }
  }

  function PrefixesRun(m: Machine, last: string, next: string): (r: Run)
    ensures r.ok && forall s :: s in r.states ==> s == m.(sets := s.sets)
  {
    var first := PrefixRun(m, last);
    var m' := Last(m, first.states);
    DestroyKeepsRest(m', SetsNamed(m', next));
    Then(first, PrefixRun(m', next))
  }

  /** The previous version's sets, then the next version's. */
  function SetsRun(m: Machine): (r: Run)
    ensures r.ok && forall s :: s in r.states ==> s == m.(sets := s.sets)
  {
    PrefixesRun(m, SetPrefix(m.version - 1), SetPrefix(m.version + 1))
  }

  function CleanupRun(m: Machine, tabs: seq<TabId>): (r: Run)
    requires forall t :: t in tabs ==> t in m.tables
    ensures forall s :: s in r.states ==> s.tables.Keys == m.tables.Keys
  {
    var first := TablesRun(m, tabs);
    if first.ok then Then(first, SetsRun(Last(m, first.states))) else first
  }

  method FlushAndRemoveAll(h: Host, prefix: string) returns (ok: bool)
    requires h.Ready()
    modifies h
    ensures h.Ready()
    ensures var run := FlushAndRemove(old(h.Now()), h.tabs, prefix); ok == run.ok && h.Went(old(h.Now()), old(h.past), run.states)
  {
    ghost var m, p := h.Now(), h.past;
    ok := h.ForEachChain(prefix, FlushChain());
    if !ok {
      return false;
    }
    ghost var first := Sweep(m, h.tabs, ForEach(prefix, FlushChain())).states;
    Onward(m, p, first, Sweep(h.Now(), h.tabs, ForEach(prefix, RemoveChain())).states);
    ok := h.ForEachChain(prefix, RemoveChain());
  }

  method CleanTables(h: Host) returns (ok: bool)
    requires h.Ready()
    modifies h
    ensures h.Ready()
    ensures var run := TablesRun(old(h.Now()), h.tabs); ok == run.ok && h.Went(old(h.Now()), old(h.past), run.states)
    ensures h.version == old(h.version)
  {
    ghost var m, p := h.Now(), h.past;
    ok := FlushAndRemoveAll(h, FWTMP);
    if !ok {
      return false;
    }
    Onward(m, p, FlushAndRemove(m, h.tabs, FWTMP).states, FlushAndRemove(h.Now(), h.tabs, FWD).states);
    ok := FlushAndRemoveAll(h, FWD);
  }

  /** ipset_foreach_starting_with prefix ips_destroy */
  method DestroySets(h: Host, prefix: string)
    modifies h
    ensures h.Went(old(h.Now()), old(h.past), PrefixRun(old(h.Now()), prefix).states)
    ensures h.tables == old(h.tables)
  {
    var todo := Sorted(set s | s in h.sets && prefix <= s);
    ghost var run := DestroyRun(h.Now(), todo);
    ghost var goal, end := h.past + run.states, Last(h.Now(), run.states);
    while todo != []
      invariant h.tables == old(h.tables)
      invariant h.Owes(DestroyRun(h.Now(), todo).states, goal, end)
    {
      ghost var m, p := h.Now(), h.past;
      var destroyed := h.DestroySet(todo[0]);
      if destroyed {
        Onward(m, p, [h.Now()], DestroyRun(h.Now(), todo[1..]).states);
      }
      todo := todo[1..];
    }
  }

  method CleanSets(h: Host, last: string, next: string)
    modifies h
    ensures h.Went(old(h.Now()), old(h.past), PrefixesRun(old(h.Now()), last, next).states)
    ensures h.tables == old(h.tables)
  {
    ghost var m, p := h.Now(), h.past;
    DestroySets(h, last);
    DestroyKeepsRest(m, SetsNamed(m, last));
    Onward(m, p, PrefixRun(m, last).states, PrefixRun(h.Now(), next).states);
    DestroySets(h, next);
  }

  lemma CleanupParts(m: Machine, tabs: seq<TabId>, cleaned: Machine)
    requires (forall t :: t in tabs ==> t in m.tables) && TablesRun(m, tabs).ok && cleaned == Last(m, TablesRun(m, tabs).states)
    ensures CleanupRun(m, tabs) == Then(TablesRun(m, tabs), SetsRun(cleaned))
  {
  }

  method FwCleanup(h: Host) returns (ok: bool)
    requires h.Ready()
    modifies h
    ensures h.Ready()
    ensures var run := CleanupRun(old(h.Now()), h.tabs); ok == run.ok && h.Went(old(h.Now()), old(h.past), run.states)
  {
    ghost var m, p := h.Now(), h.past;
    var last, next := SetPrefix(h.version - 1), SetPrefix(h.version + 1);
    ok := CleanTables(h);
    if ok {
      ghost var cleaned := h.Now();
      CleanupParts(m, h.tabs, cleaned);
      assert SetsRun(cleaned) == PrefixesRun(cleaned, last, next);
      Onward(m, p, TablesRun(m, h.tabs).states, PrefixesRun(cleaned, last, next).states);
      CleanSets(h, last, next);
    }
  }

  // ---------- one table ----------

  ghost predicate NoName(c: Chains, prefix: string) {
    forall n :: n in c ==> !(prefix < n)
  }

  lemma StaleNames(c: Chains, prefix: string)
    requires StalePrefix(prefix)
    ensures forall n :: n in Listing(c, prefix) ==> n in c && prefix < n && Stale(n)
  {
    ListingIs(c, prefix);
  }

  lemma FlushTable(c: Chains, sets: set<Name>, prefix: string, v: int)
    requires TidyTable(c, v) && StalePrefix(prefix)
    ensures var ops := ForEach(prefix, FlushChain())(c);
      RunOps(c, sets, ops).ok && EndOps(c, sets, ops).Keys == c.Keys && AllFlushed(EndOps(c, sets, ops), prefix)
  {
    var names := Listing(c, prefix);
    assert ForEach(prefix, FlushChain())(c) == Flatten(names, FlushChain());
    StaleNames(c, prefix);
    ListingIs(c, prefix);
    FlushPass(c, sets, names, v);
  }

  lemma RemoveTable(c: Chains, sets: set<Name>, prefix: string, v: int)
    requires TidyTable(c, v) && StalePrefix(prefix) && AllFlushed(c, prefix)
    ensures var ops := ForEach(prefix, RemoveChain())(c);
      RunOps(c, sets, ops).ok && EndOps(c, sets, ops).Keys == set n | n in c && !(prefix < n)
  {
    var names := Listing(c, prefix);
    assert ForEach(prefix, RemoveChain())(c) == Flatten(names, RemoveChain());
    StaleNames(c, prefix);
    ListingIs(c, prefix);
    DropPass(c, sets, names, v, prefix);
    AllButListed(c, prefix);
  }

  lemma AllButListed(c: Chains, prefix: string)
    ensures c.Keys - NamesOf(Listing(c, prefix)) == set n | n in c && !(prefix < n)
  {
    ListingIs(c, prefix);
  }

  /** At every command of either pass the table is tidy. */
  lemma PassesStayTidy(c: Chains, sets: set<Name>, prefix: string, v: int)
    requires TidyTable(c, v) && StalePrefix(prefix)
    ensures forall x :: x in RunOps(c, sets, ForEach(prefix, FlushChain())(c)).states ==> TidyTable(x, v)
    ensures forall x :: x in RunOps(c, sets, ForEach(prefix, RemoveChain())(c)).states ==> TidyTable(x, v)
    ensures TidyTable(EndOps(c, sets, ForEach(prefix, FlushChain())(c)), v)
    ensures TidyTable(EndOps(c, sets, ForEach(prefix, RemoveChain())(c)), v)
  {
    var names := Listing(c, prefix);
    StaleNames(c, prefix);
    CleaningOps(names);
    CleaningKeepsTidy(c, sets, Flatten(names, FlushChain()), v);
    CleaningKeepsTidy(c, sets, Flatten(names, RemoveChain()), v);
  }

  // ---------- all tables ----------

  ghost predicate TidyTables(tables: Tables, v: int) {
    forall t :: t in tables ==> TidyTable(tables[t], v)
  }

  /** The table after the first pass. */
  ghost predicate FlushedTo(c: Chains, e: Chains, prefix: string, v: int) {
    TidyTable(e, v) && e.Keys == c.Keys && AllFlushed(e, prefix)
  }

  /** The table after the second. */
  ghost predicate RemovedTo(c: Chains, e: Chains, prefix: string, v: int) {
    TidyTable(e, v) && e.Keys == set n | n in c && !(prefix < n)
  }

  lemma FlushedTable(c: Chains, sets: set<Name>, prefix: string, v: int)
    requires TidyTable(c, v) && StalePrefix(prefix)
    ensures var ops := ForEach(prefix, FlushChain())(c); RunOps(c, sets, ops).ok && FlushedTo(c, EndOps(c, sets, ops), prefix, v)
  {
    FlushTable(c, sets, prefix, v);
    PassesStayTidy(c, sets, prefix, v);
  }

  lemma RemovedTable(c: Chains, sets: set<Name>, prefix: string, v: int)
    requires TidyTable(c, v) && StalePrefix(prefix) && AllFlushed(c, prefix)
    ensures var ops := ForEach(prefix, RemoveChain())(c); RunOps(c, sets, ops).ok && RemovedTo(c, EndOps(c, sets, ops), prefix, v)
  {
    RemoveTable(c, sets, prefix, v);
    PassesStayTidy(c, sets, prefix, v);
  }

  lemma FlushSweep(m: Machine, tabs: seq<TabId>, prefix: string, v: int)
    requires Covering(m, tabs) && TidyTables(m.tables, v) && StalePrefix(prefix)
    ensures var run := Sweep(m, tabs, ForEach(prefix, FlushChain()));
      var e := Last(m, run.states);
      && run.ok && e == m.(tables := e.tables) && e.tables.Keys == m.tables.Keys
      && forall t :: t in m.tables ==> FlushedTo(m.tables[t], e.tables[t], prefix, v)
  {
    var plan := ForEach(prefix, FlushChain());
    forall t | t in m.tables
      ensures PassOver(m, t, plan).ok && FlushedTo(m.tables[t], AfterPass(m, t, plan), prefix, v)
    {
      FlushedTable(m.tables[t], m.sets.Keys, prefix, v);
    }
    SweptGives(m, tabs, plan);
  }

  lemma RemoveSweep(m: Machine, tabs: seq<TabId>, prefix: string, v: int)
    requires Covering(m, tabs) && TidyTables(m.tables, v) && StalePrefix(prefix)
    requires forall t :: t in m.tables ==> AllFlushed(m.tables[t], prefix)
    ensures var run := Sweep(m, tabs, ForEach(prefix, RemoveChain()));
      var e := Last(m, run.states);
      && run.ok && e == m.(tables := e.tables) && e.tables.Keys == m.tables.Keys
      && forall t :: t in m.tables ==> RemovedTo(m.tables[t], e.tables[t], prefix, v)
  {
    var plan := ForEach(prefix, RemoveChain());
    forall t | t in m.tables
      ensures PassOver(m, t, plan).ok && RemovedTo(m.tables[t], AfterPass(m, t, plan), prefix, v)
    {
      RemovedTable(m.tables[t], m.sets.Keys, prefix, v);
    }
    SweptGives(m, tabs, plan);
  }

  /** Flushing and then removing everything under a stale prefix never fails and leaves nothing under it. */
  lemma FlushAndRemoveResult(m: Machine, tabs: seq<TabId>, prefix: string, v: int)
    requires Covering(m, tabs) && TidyTables(m.tables, v) && StalePrefix(prefix)
    ensures var run := FlushAndRemove(m, tabs, prefix);
      var e := Last(m, run.states);
      && run.ok && TidyTables(e.tables, v) && e == m.(tables := e.tables) && e.tables.Keys == m.tables.Keys
      && forall t :: t in m.tables ==> e.tables[t].Keys == set n | n in m.tables[t] && !(prefix < n)
  {
    FlushSweep(m, tabs, prefix, v);
    var first := Sweep(m, tabs, ForEach(prefix, FlushChain()));
    var m' := Last(m, first.states);
    RemoveSweep(m', tabs, prefix, v);
    LastConcat(m, first.states, Sweep(m', tabs, ForEach(prefix, RemoveChain())).states);
  }

  ghost predicate NothingStale(tables: Tables) {
    forall t, n :: t in tables && n in tables[t] ==> !Stale(n)
  }

  lemma TablesUnroll(m: Machine, tabs: seq<TabId>)
    requires (forall t :: t in tabs ==> t in m.tables) && FlushAndRemove(m, tabs, FWTMP).ok
    ensures var m' := Last(m, FlushAndRemove(m, tabs, FWTMP).states);
      && m'.tables.Keys == m.tables.Keys
      && TablesRun(m, tabs).ok == FlushAndRemove(m', tabs, FWD).ok
      && Last(m, TablesRun(m, tabs).states) == Last(m', FlushAndRemove(m', tabs, FWD).states)
  {
    var first := FlushAndRemove(m, tabs, FWTMP);
    var m' := Last(m, first.states);
    LastConcat(m, first.states, FlushAndRemove(m', tabs, FWD).states);
  }

  lemma NeitherPrefix(c: Chains, c': Chains)
    requires c'.Keys == set n | n in c && !(FWTMP < n)
    ensures (set n | n in c' && !(FWD < n)) == (set n | n in c && !Stale(n))
  {
    assert forall n :: n in c' <==> n in c'.Keys;
  }

  lemma TablesResult(m: Machine, tabs: seq<TabId>, v: int)
    requires Covering(m, tabs) && TidyTables(m.tables, v)
    ensures var run := TablesRun(m, tabs);
      var e := Last(m, run.states);
      && run.ok && TidyTables(e.tables, v) && e == m.(tables := e.tables) && e.tables.Keys == m.tables.Keys
      && forall t :: t in m.tables ==> e.tables[t].Keys == set n | n in m.tables[t] && !Stale(n)
  {
    FlushAndRemoveResult(m, tabs, FWTMP, v);
    TablesUnroll(m, tabs);
    var m' := Last(m, FlushAndRemove(m, tabs, FWTMP).states);
    FlushAndRemoveResult(m', tabs, FWD, v);
    forall t | t in m.tables
      ensures (set n | n in m'.tables[t] && !(FWD < n)) == (set n | n in m.tables[t] && !Stale(n))
    {
      NeitherPrefix(m.tables[t], m'.tables[t]);
    }
  }

  // ---------- the sets ----------

  lemma TidyRowsUnnamed(c: Chains, v: int, k: int, s: Name, n: Name)
    requires RowsTidy(c, v) && n in c && !Stale(n) && k != v && SetPrefix(k) <= s
    ensures !NamesSet(c[n], s)
  {
    assert OtherVersion(s, v);
    forall i, j | 0 <= i < |c[n]| && 0 <= j < |c[n][i].tests| && c[n][i].tests[j].SetTest?
      ensures c[n][i].tests[j].name != s
    {
      assert c[n][i] in c[n] && TestsTidy(c[n][i], v);
      assert c[n][i].tests[j] in c[n][i].tests;
    }
  }

  /** With nothing stale left, no rule names a set of another version. */
  lemma OtherVersionsUnused(tables: Tables, v: int, k: int, s: Name)
    requires TidyTables(tables, v) && NothingStale(tables) && k != v && SetPrefix(k) <= s
    ensures !SetUsed(tables, s)
  {
    forall t, n | t in tables && n in tables[t]
      ensures !NamesSet(tables[t][n], s)
    {
      TidyRowsUnnamed(tables[t], v, k, s, n);
    }
  }

  lemma {:induction false} DestroyAll(m: Machine, names: seq<Name>)
    requires Distinct(names) && forall s :: s in names ==> s in m.sets && !SetUsed(m.tables, s)
    ensures Last(m, DestroyRun(m, names).states) == m.(sets := m.sets - NamesOf(names))
    decreases |names|
  {
    if names == [] {
      assert m.sets - {} == m.sets;
    } else {
      DistinctTail(names);
      var m' := m.(sets := m.sets - {names[0]});
      DestroyAll(m', names[1..]);
      assert names == [names[0]] + names[1..];
      assert m'.sets - NamesOf(names[1..]) == m.sets - NamesOf(names);
      LastConcat(m, [m'], DestroyRun(m', names[1..]).states);
    }
  }

  function SetsUnder(sets: Sets, prefix: string): set<Name> {
    set s | s in sets && prefix <= s
  }

  lemma DestroyPrefix(m: Machine, v: int, k: int)
    requires TidyTables(m.tables, v) && NothingStale(m.tables) && k != v
    ensures Last(m, PrefixRun(m, SetPrefix(k)).states) == m.(sets := m.sets - SetsUnder(m.sets, SetPrefix(k)))
  {
    var names := SetsNamed(m, SetPrefix(k));
    SortedIsOrdered(SetsUnder(m.sets, SetPrefix(k)));
    forall s | s in names
      ensures s in m.sets && !SetUsed(m.tables, s)
    {
      OtherVersionsUnused(m.tables, v, k, s);
    }
    DestroyAll(m, names);
    assert NamesOf(names) == SetsUnder(m.sets, SetPrefix(k));
  }

  /** The sets a cleanup leaves: neither the previous version's nor the next one's. */
  function SetsLeft(sets: Sets, v: int): Sets {
    sets - SetsUnder(sets, SetPrefix(v - 1)) - SetsUnder(sets, SetPrefix(v + 1))
  }

  lemma PrefixesUnroll(m: Machine, last: string, next: string)
    ensures var m' := Last(m, PrefixRun(m, last).states);
      Last(m, PrefixesRun(m, last, next).states) == Last(m', PrefixRun(m', next).states)
  {
    var first := PrefixRun(m, last).states;
    LastConcat(m, first, PrefixRun(Last(m, first), next).states);
  }

  lemma PrefixesResult(m: Machine, v: int, last: string, next: string)
    requires TidyTables(m.tables, v) && NothingStale(m.tables) && last == SetPrefix(v - 1) && next == SetPrefix(v + 1)
    ensures Last(m, PrefixesRun(m, last, next).states) == m.(sets := m.sets - SetsUnder(m.sets, last) - SetsUnder(m.sets, next))
  {
    var m' := m.(sets := m.sets - SetsUnder(m.sets, last));
    DestroyPrefix(m, v, v - 1);
    DestroyPrefix(m', v, v + 1);
    PrefixesUnroll(m, last, next);
    UnderInTwo(m.sets, last, next);
  }

  lemma UnderInTwo(sets: Sets, last: string, next: string)
    ensures var left := sets - SetsUnder(sets, last);
      left - SetsUnder(left, next) == sets - SetsUnder(sets, last) - SetsUnder(sets, next)
  {
  }

  lemma SetsResult(m: Machine)
    requires TidyTables(m.tables, m.version) && NothingStale(m.tables)
    ensures Last(m, SetsRun(m).states) == m.(sets := SetsLeft(m.sets, m.version))
  {
    PrefixesResult(m, m.version, SetPrefix(m.version - 1), SetPrefix(m.version + 1));
  }

  /** No set of the current version is among those destroyed. */
  lemma CurrentSetsStay(sets: Sets, v: int, s: Name)
    requires s in sets && SetPrefix(v) <= s
    ensures s in SetsLeft(sets, v)
  {
    if SetPrefix(v - 1) <= s { OneVersion(s, v - 1, v); }
    if SetPrefix(v + 1) <= s { OneVersion(s, v + 1, v); }
  }

  /**
   A cleanup never fails. It leaves exactly the chains that are neither candidates nor outgoing,
   and every set but those of the previous and next versions.
   */
  lemma CleanupResult(m: Machine, tabs: seq<TabId>)
    requires Covering(m, tabs) && TidyTables(m.tables, m.version)
    ensures var run := CleanupRun(m, tabs);
      var e := Last(m, run.states);
      && run.ok && TidyTables(e.tables, m.version)
      && e == m.(tables := e.tables, sets := SetsLeft(m.sets, m.version)) && e.tables.Keys == m.tables.Keys
      && forall t :: t in m.tables ==> e.tables[t].Keys == set n | n in m.tables[t] && !Stale(n)
  {
    TablesResult(m, tabs, m.version);
    var first := TablesRun(m, tabs);
    var m' := Last(m, first.states);
    SetsResult(m');
    LastConcat(m, first.states, SetsRun(m').states);
  }
}
