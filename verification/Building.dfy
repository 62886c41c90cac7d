/** Submitting a build (src/main.rs) and preparing its zones: nothing live notices, however far it gets. */
module Building {
  import opened Text
  import opened Netfilter
  import opened Kernel
  import opened Machines
  import opened Hosts
  import opened Generations
  import opened Delegates
  import opened Apply
  import opened ApplyProof
  import opened Tidy
  import opened Cleanup
  import opened CleanupProof
  import opened CleanupSteps
  import opened Harmless
  import opened Zones

  // ---------- the submission ----------

  /** A line of the set stream, or a whole table block of a rule stream. */
  datatype Load = MakeSet(s: Name, kind: SetType) | AddTo(s: Name, e: Entry) | LoadTable(t: TabId, news: Chains)

  function ExecLoad(m: Machine, l: Load): Option<Machine> {
    match l
    case MakeSet(s, kind) => Some(m.(sets := if s in m.sets then m.sets else m.sets[s := SetBody(kind, {})]))
    case AddTo(s, e) =>
      if s in m.sets then Some(m.(sets := m.sets[s := SetBody(m.sets[s].kind, m.sets[s].entries + {e})])) else None
    case LoadTable(t, news) =>
      if t !in m.tables then None
      else
        var after := Exec(m.tables[t], m.sets.Keys, Op.Load(news));
        if after.Some? then Some(Put(m, t, after.value)) else None
  }

  /** Creating a set that is there leaves it as it is, and adding to one that is not is refused. */
  lemma SetLoadsAre(m: Machine, s: Name, kind: SetType, e: Entry)
    ensures s in m.sets ==> ExecLoad(m, MakeSet(s, kind)) == Some(m)
    ensures s !in m.sets ==> ExecLoad(m, AddTo(s, e)).None? && ExecLoad(m, MakeSet(s, kind)).Some?
  {
  }

  /** The states a submission goes through; the first load refused ends it. */
  function BuildRun(m: Machine, loads: seq<Load>): (r: Run)
    ensures forall s :: s in r.states ==> s.tables.Keys == m.tables.Keys
    decreases |loads|
  {
    if loads == [] then Run([], true)
    else
      var after := ExecLoad(m, loads[0]);
      if after.None? then Run([], false) else Then(Run([after.value], true), BuildRun(after.value, loads[1..]))
  }

  method SubmitOne(h: Host, l: Load) returns (ok: bool)
    modifies h
    ensures ok == ExecLoad(old(h.Now()), l).Some?
    ensures h.Went(old(h.Now()), old(h.past), if ok then [ExecLoad(old(h.Now()), l).value] else [])
  {
    match l
    case MakeSet(s, kind) =>
      h.CreateSet(s, kind);
      ok := true;
    case AddTo(s, e) =>
      ok := h.AddEntry(s, e);
    case LoadTable(t, news) =>
      if t in h.tables {
        ok := h.Do(t, Op.Load(news));
      } else {
        ok := false;
      }
  }

  method Submit(h: Host, loads: seq<Load>) returns (ok: bool)
    modifies h
    ensures var run := BuildRun(old(h.Now()), loads); ok == run.ok && h.Went(old(h.Now()), old(h.past), run.states)
  {
    ghost var run := BuildRun(h.Now(), loads);
    ghost var goal, end := h.past + run.states, Last(h.Now(), run.states);
    var todo := loads;
    while todo != []
      invariant var rest := BuildRun(h.Now(), todo); rest.ok == run.ok && h.Owes(rest.states, goal, end)
    {
      ghost var m, p := h.Now(), h.past;
      ok := SubmitOne(h, todo[0]);
      if !ok {
        return false;
      }
      Onward(m, p, [h.Now()], BuildRun(h.Now(), todo[1..]).states);
      todo := todo[1..];
    }
    return true;
  }

  // ---------- what a build may contain ----------

  /** A rule of a candidate chain: it jumps among candidates or to foreign chains, and names sets of the next version only. */
  ghost predicate CandidateRule(n: Name, r: Rule, v: int) {
    JumpTidy(n, r) && TestsTidy(r, v + 1)
  }

  ghost predicate CandidateOp(op: Op, v: int) {
    match op
    case NewChain(n) => Tmp(n) && (NEW < n ==> HookOfDelegate(n) in HOOKS)
    case Flush(n) => Tmp(n)
    case Append(n, r) => Tmp(n) && CandidateRule(n, r, v)
    case Load(news) => forall n :: n in news ==> Tmp(n) && !(NEW < n) && forall r :: r in news[n] ==> CandidateRule(n, r, v)
    case Attempt(o) => CandidateOp(o, v)
    case _ => false
  }

  ghost predicate CandidateLoad(l: Load, v: int) {
    match l
    case MakeSet(s, _) => SetPrefix(v + 1) <= s
    case AddTo(s, _) => SetPrefix(v + 1) <= s
    case LoadTable(_, news) => CandidateOp(Op.Load(news), v)
  }

  // ---------- a table while a build goes on ----------

  ghost predicate CandidateTests(c: Chains, v: int) {
    forall n, r :: n in c && Tmp(n) && r in c[n] ==> TestsTidy(r, v + 1)
  }

  ghost predicate DelegatesKnown(c: Chains) {
    forall d :: d in c && NEW < d ==> HookOfDelegate(d) in HOOKS
  }

  /** Live chains are as they were in `c`; candidates keep to themselves and to the next version's sets; nothing is outgoing. */
  ghost predicate InBuild(c: Chains, x: Chains, v: int) {
    LiveSame(c, x) && RowsTidy(x, v) && CandidateTests(x, v) && DelegatesKnown(x) && NoName(x, FWD)
  }

  lemma CandidateRowKeeps(c: Chains, x: Chains, v: int, n: Name, rs: seq<Rule>)
    requires InBuild(c, x, v) && Tmp(n) && (n in x || !(NEW < n) || HookOfDelegate(n) in HOOKS)
    requires forall r :: r in rs ==> CandidateRule(n, r, v)
    ensures InBuild(c, x[n := rs], v)
  {
    OneGeneration(n);
    var y := x[n := rs];
    assert LiveSame(c, y) && NoName(y, FWD) && DelegatesKnown(y);
    forall k, r | k in y && r in y[k]
      ensures JumpTidy(k, r) && (!Stale(k) ==> TestsTidy(r, v)) && (Tmp(k) ==> TestsTidy(r, v + 1))
    {
      if k == n {
        assert CandidateRule(n, r, v);
      } else {
        assert r in x[k];
      }
    }
  }

  lemma LoadKeeps(c: Chains, x: Chains, v: int, news: Chains)
    requires InBuild(c, x, v) && CandidateOp(Op.Load(news), v)
    ensures InBuild(c, x + news, v)
  {
    forall n | n in news
      ensures Stale(n) && !Del(n)
    {
      OneGeneration(n);
    }
    assert LiveSame(c, x + news);
  }

  lemma CandidateKeeps(c: Chains, x: Chains, v: int, sets: set<Name>, op: Op)
    requires InBuild(c, x, v) && CandidateOp(op, v) && Exec(x, sets, op).Some?
    ensures InBuild(c, Exec(x, sets, op).value, v)
  {
    match op
    case NewChain(n) => CandidateRowKeeps(c, x, v, n, []);
    case Flush(n) => CandidateRowKeeps(c, x, v, n, []);
    case Append(n, r) => CandidateRowKeeps(c, x, v, n, x[n] + [r]);
    case Load(news) => LoadKeeps(c, x, v, news);
    case Attempt(o) => if Exec(x, sets, o).Some? { CandidateKeeps(c, x, v, sets, o); }
  }

  // ---------- the machine while a build goes on ----------

  /** A machine a cleanup has just left. */
  ghost predicate Clean(m: Machine) {
    Cleanable(m) && NothingStale(m.tables) && Settled(m.tables)
  }

  ghost predicate BuildsOn(m: Machine, s: Machine) {
    && s.step == m.step && s.version == m.version && s.tables.Keys == m.tables.Keys
    && Sound(s) && SeenSame(m.sets, s.sets, m.version) && InBuildTables(m, s)
  }

  lemma CleanIsBuilding(m: Machine)
    requires Clean(m)
    ensures BuildsOn(m, m)
  {
    forall t | t in m.tables
      ensures InBuild(m.tables[t], m.tables[t], m.version)
    {
      var c := m.tables[t];
      assert TidyTable(c, m.version);
      forall n | n in c
        ensures !Tmp(n) && !Del(n) && !(NEW < n)
      {
        assert !Stale(n);
        DelegateGeneration(n);
      }
    }
  }

  lemma NextVersionUnseen(s: Name, v: int)
    requires SetPrefix(v + 1) <= s
    ensures !Seen(v)(s)
  {
    assert OtherVersion(s, v);
  }

  lemma SetKeepsBuilding(m: Machine, s: Machine, x: Name, body: SetBody)
    requires BuildsOn(m, s) && SetPrefix(m.version + 1) <= x
    ensures BuildsOn(m, s.(sets := s.sets[x := body]))
  {
    NextVersionUnseen(x, m.version);
    SoundMoreSets(s, s.sets[x := body]);
  }

  lemma SoundPut(s: Machine, t: TabId, x: Chains)
    requires Sound(s) && SoundTable(x, s.sets.Keys)
    ensures Sound(Put(s, t, x))
  {
  }

  ghost predicate InBuildTables(m: Machine, s: Machine) {
    s.tables.Keys == m.tables.Keys && forall t :: t in m.tables ==> InBuild(m.tables[t], s.tables[t], m.version)
  }

  lemma InBuildPut(m: Machine, s: Machine, t: TabId, x: Chains)
    requires InBuildTables(m, s) && t in m.tables && InBuild(m.tables[t], x, m.version)
    ensures InBuildTables(m, Put(s, t, x))
  {
  }

  lemma TableKeepsBuilding(m: Machine, s: Machine, t: TabId, news: Chains)
    requires BuildsOn(m, s) && t in m.tables && CandidateOp(Op.Load(news), m.version)
    requires CanLoad(s.tables[t], s.sets.Keys, news)
    ensures BuildsOn(m, Put(s, t, s.tables[t] + news))
  {
    SoundLoaded(s.tables[t], s.sets.Keys, news);
    LoadKeeps(m.tables[t], s.tables[t], m.version, news);
    SoundPut(s, t, s.tables[t] + news);
    InBuildPut(m, s, t, s.tables[t] + news);
  }

  lemma LoadKeepsBuilding(m: Machine, s: Machine, l: Load)
    requires BuildsOn(m, s) && CandidateLoad(l, m.version) && ExecLoad(s, l).Some?
    ensures BuildsOn(m, ExecLoad(s, l).value)
  {
    match l
    case MakeSet(x, kind) => SetKeepsBuilding(m, s, x, SetBody(kind, {}));
    case AddTo(x, e) => SetKeepsBuilding(m, s, x, SetBody(s.sets[x].kind, s.sets[x].entries + {e}));
    case LoadTable(t, news) => TableKeepsBuilding(m, s, t, news);
  }

  /** After any part of a submission only candidates and next-version sets differ. */
  lemma {:induction false} BuildStates(m: Machine, b: Machine, loads: seq<Load>, s: Machine)
    requires BuildsOn(m, b) && (forall l :: l in loads ==> CandidateLoad(l, m.version))
    requires s == b || s in BuildRun(b, loads).states
    ensures BuildsOn(m, s)
    decreases |loads|
  {
    if s != b {
      assert loads[0] in loads;
      LoadKeepsBuilding(m, b, loads[0]);
      assert forall l :: l in loads[1..] ==> l in loads;
      BuildStates(m, ExecLoad(b, loads[0]).value, loads[1..], s);
    }
  }

  lemma BuildingSameLive(m: Machine, s: Machine)
    requires BuildsOn(m, s)
    ensures SameLive(m, s, m.version)
  {
  }

  /** A build is inert: after any part of its submission every packet gets the verdict it got before. */
  lemma BuildIsInert(m: Machine, loads: seq<Load>, s: Machine)
    requires Clean(m) && (forall l :: l in loads ==> CandidateLoad(l, m.version))
    requires s in BuildRun(m, loads).states
    ensures BuildsOn(m, s) && SameVerdicts(m, s)
  {
    CleanIsBuilding(m);
    BuildStates(m, m, loads, s);
    BuildingSameLive(m, s);
    SameLiveSameVerdicts(m, s, m.version);
  }

  // ---------- zones ----------

  lemma ZoneJumpTidy(d: Name, z: Name, v: int)
    requires Tmp(d) && Tmp(z)
    ensures CandidateRule(d, JumpTo(z), v)
  {
    OneGeneration(d);
  }

  lemma {:induction false} AppendsAreCandidate(d: Name, zones: seq<Name>, v: int)
    requires Tmp(d) && forall z :: z in zones ==> Tmp(z)
    ensures forall op :: op in Appends(d, zones) ==> CandidateOp(op, v)
  {
    if zones != [] {
      ZoneJumpTidy(d, zones[0], v);
      AppendsAreCandidate(d, zones[1..], v);
    }
  }

  lemma PreparingIsCandidate(c: Chains, hook: string, v: int)
    ensures forall op :: op in PrepareHook(WantedOf(Listing(c, FWTMP)))(hook) ==> CandidateOp(op, v)
  {
    var wanted := WantedOf(Listing(c, FWTMP));
    var d := Delegate(hook);
    if hook in wanted {
      WantedAre(c, hook);
      DelegateBack(hook);
      assert FWTMP < d;
      var zones := wanted[hook];
      AppendsAreCandidate(d, zones, v);
      assert PrepareHook(wanted)(hook) == [Attempt(NewChain(d)), Flush(d)] + Appends(d, zones);
      assert CandidateOp(Attempt(NewChain(d)), v) && CandidateOp(Flush(d), v);
    }
  }

  lemma {:induction false} PlanIsCandidate(c: Chains, order: seq<string>, v: int)
    ensures forall op :: op in Flatten(order, PrepareHook(WantedOf(Listing(c, FWTMP)))) ==> CandidateOp(op, v)
    decreases |order|
  {
    if order != [] {
      PreparingIsCandidate(c, order[0], v);
      PlanIsCandidate(c, order[1..], v);
    }
  }

  lemma PreparingKeeps(c: Chains, x: Chains, sets: set<Name>, order: seq<string>, v: int)
    requires InBuild(c, x, v)
    ensures forall y :: y == x || y in RunOps(x, sets, ZonePlan(order)(x)).states ==> InBuild(c, y, v)
  {
    var ops := Flatten(order, PrepareHook(WantedOf(Listing(x, FWTMP))));
    PlanIsCandidate(x, order, v);
    forall y, i | InBuild(c, y, v) && 0 <= i < |ops| && Exec(y, sets, ops[i]).Some?
      ensures InBuild(c, Exec(y, sets, ops[i]).value, v)
    {
      CandidateKeeps(c, y, v, sets, ops[i]);
    }
    RunKeeps(x, sets, ops, y => InBuild(c, y, v));
  }

  /** After any command of preparing zones, too, only candidates differ. */
  lemma ZonesStates(m: Machine, b: Machine, tabs: seq<TabId>, order: seq<string>, s: Machine)
    requires BuildsOn(m, b) && Covering(b, tabs) && (s == b || s in Sweep(b, tabs, ZonePlan(order)).states)
    ensures BuildsOn(m, s)
  {
    SweepSound(b, tabs, ZonePlan(order), s);
    if s != b {
      SweepState(b, tabs, ZonePlan(order), s);
    }
    forall t | t in m.tables
      ensures InBuild(m.tables[t], s.tables[t], m.version)
    {
      PreparingKeeps(m.tables[t], b.tables[t], b.sets.Keys, order, m.version);
    }
  }
}
