/** What holds after every single command of a cleanup. */
module CleanupSteps {
  import opened Text
  import opened Netfilter
  import opened Kernel
  import opened Machines
  import opened Hosts
  import opened Generations
  import opened Tidy
  import opened Cleanup
  import opened CleanupProof
  import opened Harmless

  /** A later state that is as tidy and, when nothing stale could be reached, looks the same to every live chain. */
  ghost predicate Cleaner(m: Machine, s: Machine) {
    && s.step == m.step && s.version == m.version && s.tables.Keys == m.tables.Keys
    && Sound(s) && TidyTables(s.tables, m.version)
    && (Settled(m.tables) ==> SameLive(m, s, m.version) && Settled(s.tables))
  }

  ghost predicate Cleanable(m: Machine) {
    Sound(m) && TidyTables(m.tables, m.version)
  }

  lemma CleanerThrough(m: Machine, s: Machine, e: Machine)
    requires Cleaner(m, s) && Cleaner(s, e)
    ensures Cleaner(m, e)
  {
    if Settled(m.tables) {
      SameLiveThrough(m, s, e, m.version);
    }
  }

  lemma JumpAbsent(c: Chains, n: Name, d: Name)
    requires SettledTable(c) && n in c && !Stale(n) && Stale(d)
    ensures JumpTo(d) !in c[n]
  {
    assert forall i :: 0 <= i < |c[n]| ==> c[n][i] != JumpTo(d);
  }

  lemma CleaningKeepsLive(c: Chains, d: Chains, sets: set<Name>, op: Op)
    requires SettledTable(c) && LiveSame(c, d) && CleaningOp(op) && Exec(d, sets, op).Some?
    ensures LiveSame(c, Exec(d, sets, op).value)
  {
    match op
    case Flush(n) =>
    case Attempt(Delete(h, r)) =>
      if h in d && !Stale(h) { JumpAbsent(c, h, r.target.chain); }
    case Attempt(DropChain(n)) =>
  }

  lemma PassKeepsLive(c: Chains, sets: set<Name>, ops: seq<Op>)
    requires SettledTable(c) && forall op :: op in ops ==> CleaningOp(op)
    ensures forall x :: x in RunOps(c, sets, ops).states ==> LiveSame(c, x)
  {
    forall x, i | LiveSame(c, x) && 0 <= i < |ops| && Exec(x, sets, ops[i]).Some?
      ensures LiveSame(c, Exec(x, sets, ops[i]).value)
    {
      CleaningKeepsLive(c, x, sets, ops[i]);
    }
    RunKeeps(c, sets, ops, x => LiveSame(c, x));
  }

  /** One of the two kinds of pass. */
  ghost predicate CleaningPlan(plan: Plan) {
    forall c: Chains, op: Op :: op in plan(c) ==> CleaningOp(op)
  }

  lemma CleaningPlans(prefix: string)
    requires StalePrefix(prefix)
    ensures CleaningPlan(ForEach(prefix, FlushChain())) && CleaningPlan(ForEach(prefix, RemoveChain()))
  {
    forall c: Chains
      ensures forall op :: op in ForEach(prefix, FlushChain())(c) ==> CleaningOp(op)
      ensures forall op :: op in ForEach(prefix, RemoveChain())(c) ==> CleaningOp(op)
    {
      StaleNames(c, prefix);
      CleaningOps(Listing(c, prefix));
    }
  }

  lemma PassCleaner(c: Chains, sets: set<Name>, plan: Plan, v: int, x: Chains)
    requires TidyTable(c, v) && CleaningPlan(plan) && (x == c || x in RunOps(c, sets, plan(c)).states)
    ensures TidyTable(x, v) && (SettledTable(c) ==> LiveSame(c, x))
  {
    if x != c {
      CleaningKeepsTidy(c, sets, plan(c), v);
      if SettledTable(c) {
        PassKeepsLive(c, sets, plan(c));
      }
    }
  }

  lemma SweepCleaner(m: Machine, tabs: seq<TabId>, plan: Plan, s: Machine)
    requires Covering(m, tabs) && Cleanable(m) && CleaningPlan(plan) && (s == m || s in Sweep(m, tabs, plan).states)
    ensures Cleaner(m, s)
  {
    SweepSound(m, tabs, plan, s);
    if s != m {
      SweepState(m, tabs, plan, s);
    }
    forall t | t in m.tables
      ensures TidyTable(s.tables[t], m.version)
      ensures SettledTable(m.tables[t]) ==> LiveSame(m.tables[t], s.tables[t])
    {
      PassCleaner(m.tables[t], m.sets.Keys, plan, m.version, s.tables[t]);
    }
    CleanerFromTables(m, s);
  }

  lemma CleanerFromTables(m: Machine, s: Machine)
    requires s == m.(tables := s.tables) && s.tables.Keys == m.tables.Keys && Sound(s) && TidyTables(s.tables, m.version)
    requires forall t :: t in m.tables && SettledTable(m.tables[t]) ==> LiveSame(m.tables[t], s.tables[t])
    ensures Cleaner(m, s)
  {
    if Settled(m.tables) {
      assert SameLive(m, s, m.version);
      SettledStays(m, s, m.version);
    }
  }

  lemma CleanerCanGoOn(m: Machine, s: Machine, tabs: seq<TabId>)
    requires Cleaner(m, s) && Covering(m, tabs)
    ensures Covering(s, tabs) && Cleanable(s)
  {
  }

  lemma FlushAndRemoveCleaner(m: Machine, tabs: seq<TabId>, prefix: string, s: Machine)
    requires Covering(m, tabs) && Cleanable(m) && StalePrefix(prefix) && (s == m || s in FlushAndRemove(m, tabs, prefix).states)
    ensures Cleaner(m, s)
  {
    CleaningPlans(prefix);
    var first := Sweep(m, tabs, ForEach(prefix, FlushChain()));
    if s == m || s in first.states {
      SweepCleaner(m, tabs, ForEach(prefix, FlushChain()), s);
    } else {
      var m' := Last(m, first.states);
      SweepCleaner(m, tabs, ForEach(prefix, FlushChain()), m');
      CleanerCanGoOn(m, m', tabs);
      SweepCleaner(m', tabs, ForEach(prefix, RemoveChain()), s);
      CleanerThrough(m, m', s);
    }
  }

  lemma TablesCleaner(m: Machine, tabs: seq<TabId>, s: Machine)
    requires Covering(m, tabs) && Cleanable(m) && (s == m || s in TablesRun(m, tabs).states)
    ensures Cleaner(m, s)
  {
    var first := FlushAndRemove(m, tabs, FWTMP);
    if s == m || s in first.states {
      FlushAndRemoveCleaner(m, tabs, FWTMP, s);
    } else {
      var m' := Last(m, first.states);
      FlushAndRemoveCleaner(m, tabs, FWTMP, m');
      CleanerCanGoOn(m, m', tabs);
      FlushAndRemoveCleaner(m', tabs, FWD, s);
      CleanerThrough(m, m', s);
    }
  }

  lemma DestroyOneCleaner(m: Machine, x: Name, k: int)
    requires Cleanable(m) && !SetUsed(m.tables, x) && k != m.version && SetPrefix(k) <= x
    ensures Cleaner(m, m.(sets := m.sets - {x}))
  {
    var s := m.(sets := m.sets - {x});
    assert OtherVersion(x, m.version);
    SoundWithoutSet(m, x);
    SettledStaysHere(m, s);
    assert SeenSame(m.sets, s.sets, m.version);
  }

  lemma SettledStaysHere(m: Machine, s: Machine)
    requires s.tables == m.tables
    ensures Settled(m.tables) ==> Settled(s.tables)
    ensures forall t :: t in m.tables ==> LiveSame(m.tables[t], s.tables[t])
  {
  }

  ghost predicate AllUnder(names: seq<Name>, prefix: string) {
    forall x :: x in names ==> prefix <= x
  }

  lemma AllUnderTail(names: seq<Name>, prefix: string)
    requires AllUnder(names, prefix) && names != []
    ensures prefix <= names[0] && AllUnder(names[1..], prefix)
  {
    assert names[0] in names && forall x :: x in names[1..] ==> x in names;
  }

  lemma CleanerItself(m: Machine)
    requires Cleanable(m)
    ensures Cleaner(m, m)
  {
    SettledStaysHere(m, m);
  }

  lemma {:induction false} DestroyCleaner(m: Machine, names: seq<Name>, k: int, s: Machine)
    requires Cleanable(m) && k != m.version && AllUnder(names, SetPrefix(k))
    requires s == m || s in DestroyRun(m, names).states
    ensures Cleaner(m, s)
    decreases |names|
  {
    if s == m {
      CleanerItself(m);
    } else {
      AllUnderTail(names, SetPrefix(k));
      if names[0] in m.sets && !SetUsed(m.tables, names[0]) {
        DestroyOneCleaner(m, names[0], k);
        DestroyCleaner(m.(sets := m.sets - {names[0]}), names[1..], k, s);
        CleanerThrough(m, m.(sets := m.sets - {names[0]}), s);
      } else {
        DestroyCleaner(m, names[1..], k, s);
      }
    }
  }

  lemma SetsCleaner(m: Machine, s: Machine)
    requires Cleanable(m) && (s == m || s in SetsRun(m).states)
    ensures Cleaner(m, s)
  {
    var v: int := m.version;
    var first := PrefixRun(m, SetPrefix(v - 1));
    var m' := Last(m, first.states);
    PrefixCleaner(m, v - 1, m');
    if s == m || s in first.states {
      PrefixCleaner(m, v - 1, s);
    } else {
      PrefixCleaner(m', v + 1, s);
      CleanerThrough(m, m', s);
    }
  }

  /** The sets of one other version. */
  lemma PrefixCleaner(m: Machine, k: int, s: Machine)
    requires Cleanable(m) && k != m.version && (s == m || s in PrefixRun(m, SetPrefix(k)).states)
    ensures Cleaner(m, s)
  {
    DestroyCleaner(m, SetsNamed(m, SetPrefix(k)), k, s);
  }

  /**
   After every command of a cleanup the kernel is as tidy as before; and when neither candidate
   nor outgoing chains could be reached, every packet gets the verdict it got before.
   */
  lemma CleanupStates(m: Machine, tabs: seq<TabId>, s: Machine)
    requires Covering(m, tabs) && Cleanable(m) && (s == m || s in CleanupRun(m, tabs).states)
    ensures Cleaner(m, s)
    ensures Settled(m.tables) ==> SameVerdicts(m, s)
  {
    var first := TablesRun(m, tabs);
    var m' := Last(m, first.states);
    TablesCleaner(m, tabs, m');
    if s == m || s in first.states {
      TablesCleaner(m, tabs, s);
    } else {
      SetsCleaner(m', s);
      CleanerThrough(m, m', s);
    }
    if Settled(m.tables) {
      SameLiveSameVerdicts(m, s, m.version);
    }
  }
}
