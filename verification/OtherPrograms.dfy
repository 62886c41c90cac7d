/** What belongs to other programs: no state of any reload has touched it. */
module OtherPrograms {
  import opened Seqs
  import opened Text
  import opened Netfilter
  import opened Kernel
  import opened Machines
  import opened Hosts
  import opened Generations
  import opened Delegates
  import opened Apply
  import opened Commit
  import opened CommitProof
  import opened Tidy
  import opened Cleanup
  import opened CleanupProof
  import opened CleanupSteps
  import opened Zones
  import opened Building
  import opened Reload
  import opened ReloadProof

  // ---------- rules of other programs ----------

  /** A rule that does not jump to a chain of the firewall. */
  predicate ForeignRule(r: Rule) {
    r.target.Jump? ==> Foreign(r.target.chain)
  }

  function ForeignRules(rs: seq<Rule>): seq<Rule> {
    if rs == [] then [] else (if ForeignRule(rs[0]) then [rs[0]] else []) + ForeignRules(rs[1..])
  }

  lemma {:induction false} ForeignConcat(xs: seq<Rule>, ys: seq<Rule>)
    ensures ForeignRules(xs + ys) == ForeignRules(xs) + ForeignRules(ys)
    decreases |xs|
  {
    if xs == [] {
      assert xs + ys == ys;
    } else {
      assert (xs + ys)[1..] == xs[1..] + ys;
      ForeignConcat(xs[1..], ys);
    }
  }

  lemma ForeignOne(rs: seq<Rule>, r: Rule)
    requires !ForeignRule(r)
    ensures ForeignRules(rs + [r]) == ForeignRules(rs)
  {
    ForeignConcat(rs, [r]);
    assert [r][1..] == [];
  }

  lemma {:induction false} ForeignRemoved(rs: seq<Rule>, r: Rule)
    requires !ForeignRule(r)
    ensures ForeignRules(RemoveFirst(rs, r)) == ForeignRules(rs)
    decreases |rs|
  {
    if rs != [] && rs[0] != r {
      ForeignRemoved(rs[1..], r);
      assert ([rs[0]] + RemoveFirst(rs[1..], r))[1..] == RemoveFirst(rs[1..], r);
    }
  }

  lemma {:induction false} ForeignRelabelled(rs: seq<Rule>, a: Name, b: Name)
    requires !Foreign(a) && !Foreign(b)
    ensures ForeignRules(Relabel(rs, Substitute(a, b))) == ForeignRules(rs)
    decreases |rs|
  {
    if rs != [] {
      var f := Substitute(a, b);
      ForeignRelabelled(rs[1..], a, b);
      assert Relabel(rs, f)[1..] == Relabel(rs[1..], f);
      assert Relabel(rs, f)[0] == Retarget(rs[0], f);
      assert ForeignRule(rs[0]) ==> Retarget(rs[0], f) == rs[0];
    }
  }

  // ---------- one command ----------

  /** The same chains of other programs, with the same rules of theirs in the same order. */
  ghost predicate SameOthers(c: Chains, d: Chains) {
    forall n :: Foreign(n) ==> (n in c <==> n in d) && (n in c ==> ForeignRules(d[n]) == ForeignRules(c[n]))
  }

  lemma SameOthersThrough(c: Chains, d: Chains, e: Chains)
    requires SameOthers(c, d) && SameOthers(d, e)
    ensures SameOthers(c, e)
  {
  }

  /** A command on a chain of the firewall, or about a jump to one. */
  predicate OwnOp(op: Op) {
    match op
    case NewChain(n) => !Foreign(n)
    case Append(n, r) => !Foreign(n) || !ForeignRule(r)
    case Delete(n, r) => !Foreign(n) || !ForeignRule(r)
    case Flush(n) => !Foreign(n)
    case DropChain(n) => !Foreign(n)
    case Rename(n, b) => !Foreign(n) && !Foreign(b)
    case Load(news) => forall n :: n in news ==> !Foreign(n)
    case Attempt(o) => OwnOp(o)
  }

  lemma RenameKeepsOthers(c: Chains, a: Name, b: Name)
    requires a in c && !Foreign(a) && !Foreign(b)
    ensures SameOthers(c, Renamed(c, a, b))
  {
    forall n | Foreign(n) && n in c
      ensures ForeignRules(Renamed(c, a, b)[n]) == ForeignRules(c[n])
    {
      ForeignRelabelled(c[n], a, b);
    }
  }

  lemma {:induction false} OwnOpKeepsOthers(c: Chains, sets: set<Name>, op: Op)
    requires OwnOp(op) && Exec(c, sets, op).Some?
    ensures SameOthers(c, Exec(c, sets, op).value)
  {
    match op
    case NewChain(n) =>
    case Append(n, r) => if Foreign(n) { ForeignOne(c[n], r); }
    case Delete(n, r) => if Foreign(n) { ForeignRemoved(c[n], r); }
    case Flush(n) =>
    case DropChain(n) =>
    case Rename(n, b) => RenameKeepsOthers(c, n, b);
    case Load(news) =>
    case Attempt(o) => if Exec(c, sets, o).Some? { OwnOpKeepsOthers(c, sets, o); }
  }

  lemma OwnOpsKeepOthers(c: Chains, sets: set<Name>, ops: seq<Op>)
    requires forall op :: op in ops ==> OwnOp(op)
    ensures forall d :: d in RunOps(c, sets, ops).states ==> SameOthers(c, d)
  {
    forall d, i | SameOthers(c, d) && 0 <= i < |ops| && Exec(d, sets, ops[i]).Some?
      ensures SameOthers(c, Exec(d, sets, ops[i]).value)
    {
      OwnOpKeepsOthers(d, sets, ops[i]);
      SameOthersThrough(c, d, Exec(d, sets, ops[i]).value);
    }
    RunKeeps(c, sets, ops, d => SameOthers(c, d));
  }

  // ---------- the passes ----------

  /** However the table looks, the pass has only the firewall's own commands. */
  ghost predicate OwnPlan(plan: Plan) {
    forall c: Chains, op: Op :: op in plan(c) ==> OwnOp(op)
  }

  ghost predicate OwnAct(act: Name -> seq<Op>, prefix: string) {
    forall n: Name, op: Op :: prefix < n && op in act(n) ==> OwnOp(op)
  }

  lemma {:induction false} NamesAreOwn(names: seq<Name>, act: Name -> seq<Op>, prefix: string)
    requires OwnAct(act, prefix) && forall n :: n in names ==> prefix < n
    ensures forall op :: op in Flatten(names, act) ==> OwnOp(op)
    decreases |names|
  {
    if names != [] {
      assert names[0] in names && forall n :: n in names[1..] ==> n in names;
      NamesAreOwn(names[1..], act, prefix);
    }
  }

  lemma OwnActIsOwnPlan(act: Name -> seq<Op>, prefix: string)
    requires OwnAct(act, prefix)
    ensures OwnPlan(ForEach(prefix, act))
  {
    forall c: Chains, op: Op | op in ForEach(prefix, act)(c)
      ensures OwnOp(op)
    {
      ListingIs(c, prefix);
      NamesAreOwn(Listing(c, prefix), act, prefix);
    }
  }

  predicate Generation(prefix: string) {
    prefix == FWR || prefix == FWTMP || prefix == FWD
  }

  lemma RenamingIsOwn(from: string, to: string)
    requires Generation(from) && Generation(to)
    ensures OwnPlan(RenamePass(from, to))
  {
    OwnActIsOwnPlan(RenameChain(from, to), from);
  }

  lemma HookingIsOwn(prefix: string)
    requires prefix == NEW || prefix == OLD
    ensures OwnPlan(ForEach(prefix, AddJump())) && OwnPlan(ForEach(prefix, RemoveJump()))
  {
    forall d: Name | prefix < d
      ensures !Foreign(d)
    {
      DelegateGeneration(d);
    }
    OwnActIsOwnPlan(AddJump(), prefix);
    OwnActIsOwnPlan(RemoveJump(), prefix);
  }

  lemma CleaningIsOwn(prefix: string)
    requires StalePrefix(prefix)
    ensures OwnPlan(ForEach(prefix, FlushChain())) && OwnPlan(ForEach(prefix, RemoveChain()))
  {
    CleaningPlans(prefix);
    assert forall op :: CleaningOp(op) ==> OwnOp(op);
  }

  lemma {:induction false} CandidateIsOwn(op: Op, v: int)
    requires CandidateOp(op, v)
    ensures OwnOp(op)
  {
    match op
    case Attempt(o) => CandidateIsOwn(o, v);
    case _ =>
  }

  lemma PreparingIsOwn(order: seq<string>)
    ensures OwnPlan(ZonePlan(order))
  {
    forall c: Chains, op: Op | op in ZonePlan(order)(c)
      ensures OwnOp(op)
    {
      PlanIsCandidate(c, order, 0);
      CandidateIsOwn(op, 0);
    }
  }

  // ---------- the whole machine ----------

  /** A set the firewall made, of whatever version. */
  ghost predicate Versioned(s: Name) {
    exists k: int :: SetPrefix(k) <= s
  }

  ghost predicate SameOtherSets(a: Sets, b: Sets) {
    forall s :: !Versioned(s) ==> (s in a <==> s in b) && (s in a ==> b[s] == a[s])
  }

  /** Nothing of another program differs. */
  ghost predicate OthersKept(m: Machine, s: Machine) {
    && s.tables.Keys == m.tables.Keys && SameOtherSets(m.sets, s.sets)
    && forall t :: t in m.tables ==> SameOthers(m.tables[t], s.tables[t])
  }

  lemma OthersKeptThrough(m: Machine, s: Machine, e: Machine)
    requires OthersKept(m, s) && OthersKept(s, e)
    ensures OthersKept(m, e)
  {
    forall t | t in m.tables
      ensures SameOthers(m.tables[t], e.tables[t])
    {
      SameOthersThrough(m.tables[t], s.tables[t], e.tables[t]);
    }
  }

  lemma SweepKeepsOthers(m: Machine, tabs: seq<TabId>, plan: Plan, s: Machine)
    requires Covering(m, tabs) && OwnPlan(plan) && (s == m || s in Sweep(m, tabs, plan).states)
    ensures OthersKept(m, s) && Covering(s, tabs)
  {
    if s != m {
      SweepState(m, tabs, plan, s);
      forall t | t in m.tables
        ensures SameOthers(m.tables[t], s.tables[t])
      {
        OwnOpsKeepOthers(m.tables[t], m.sets.Keys, plan(m.tables[t]));
      }
    }
  }

  // ---------- the scripts ----------

  lemma TurnKeepsOthers(m: Machine, tabs: seq<TabId>, text: string, s: Machine)
    requires Covering(m, tabs) && s in Turn(m, tabs, text).states
    ensures OthersKept(m, s) && Covering(s, tabs)
  {
    var (from, to) := if text == REAL_TO_DELETE then (FWR, FWD) else (FWTMP, FWR);
    var sweep := Sweep(m, tabs, RenamePass(from, to));
    RenamingIsOwn(from, to);
    SweepKeepsOthers(m, tabs, RenamePass(from, to), if s in sweep.states then s else Last(m, sweep.states));
  }

  lemma {:induction false} CommitKeepsOthers(m: Machine, tabs: seq<TabId>, s: Machine)
    requires Covering(m, tabs) && (s == m || s in CommitRun(m, tabs).states)
    ensures OthersKept(m, s) && Covering(s, tabs)
    decreases StepsLeft(m.step)
  {
    StepOrder();
    if s == m {
    } else if m.step == None {
      CommitKeepsOthers(m.(step := Some(REAL_TO_DELETE)), tabs, s);
    } else if m.step != Some(DONE) {
      var turn := Turn(m, tabs, m.step.value);
      CommitUnrolls(m, tabs);
      if s in turn.states {
        TurnKeepsOthers(m, tabs, m.step.value, s);
      } else {
        TurnKeepsOthers(m, tabs, m.step.value, Last(m, turn.states));
        CommitKeepsOthers(Last(m, turn.states), tabs, s);
        OthersKeptThrough(m, Last(m, turn.states), s);
      }
    }
  }

  lemma FlushAndRemoveKeepsOthers(m: Machine, tabs: seq<TabId>, prefix: string, s: Machine)
    requires Covering(m, tabs) && StalePrefix(prefix) && (s == m || s in FlushAndRemove(m, tabs, prefix).states)
    ensures OthersKept(m, s) && Covering(s, tabs)
  {
    var first := Sweep(m, tabs, ForEach(prefix, FlushChain()));
    CleaningIsOwn(prefix);
    if s == m || s in first.states {
      SweepKeepsOthers(m, tabs, ForEach(prefix, FlushChain()), s);
    } else {
      var m' := Last(m, first.states);
      SweepKeepsOthers(m, tabs, ForEach(prefix, FlushChain()), m');
      SweepKeepsOthers(m', tabs, ForEach(prefix, RemoveChain()), s);
      OthersKeptThrough(m, m', s);
    }
  }

  lemma TablesKeepOthers(m: Machine, tabs: seq<TabId>, s: Machine)
    requires Covering(m, tabs) && (s == m || s in TablesRun(m, tabs).states)
    ensures OthersKept(m, s) && Covering(s, tabs)
  {
    var first := FlushAndRemove(m, tabs, FWTMP);
    if s == m || s in first.states {
      FlushAndRemoveKeepsOthers(m, tabs, FWTMP, s);
    } else {
      var m' := Last(m, first.states);
      FlushAndRemoveKeepsOthers(m, tabs, FWTMP, m');
      FlushAndRemoveKeepsOthers(m', tabs, FWD, s);
      OthersKeptThrough(m, m', s);
    }
  }

  lemma {:induction false} DestroyKeepsOthers(m: Machine, names: seq<Name>, k: int, s: Machine)
    requires AllUnder(names, SetPrefix(k)) && (s == m || s in DestroyRun(m, names).states)
    ensures s == m.(sets := s.sets) && SameOtherSets(m.sets, s.sets)
    decreases |names|
  {
    if s != m {
      AllUnderTail(names, SetPrefix(k));
      assert Versioned(names[0]);
      if names[0] in m.sets && !SetUsed(m.tables, names[0]) {
        DestroyKeepsOthers(m.(sets := m.sets - {names[0]}), names[1..], k, s);
      } else {
        DestroyKeepsOthers(m, names[1..], k, s);
      }
    }
  }

  lemma PrefixKeepsOthers(m: Machine, k: int, s: Machine)
    requires s == m || s in PrefixRun(m, SetPrefix(k)).states
    ensures s == m.(sets := s.sets) && SameOtherSets(m.sets, s.sets)
  {
    DestroyKeepsOthers(m, SetsNamed(m, SetPrefix(k)), k, s);
  }

  lemma SetsKeepOthers(m: Machine, s: Machine)
    requires s == m || s in SetsRun(m).states
    ensures s == m.(sets := s.sets) && SameOtherSets(m.sets, s.sets)
  {
    var v: int := m.version;
    var first := PrefixRun(m, SetPrefix(v - 1));
    if s == m || s in first.states {
      PrefixKeepsOthers(m, v - 1, s);
    } else {
      var m' := Last(m, first.states);
      PrefixKeepsOthers(m, v - 1, m');
      PrefixKeepsOthers(m', v + 1, s);
    }
  }

  lemma CleanupKeepsOthers(m: Machine, tabs: seq<TabId>, s: Machine)
    requires Covering(m, tabs) && (s == m || s in CleanupRun(m, tabs).states)
    ensures OthersKept(m, s) && Covering(s, tabs)
  {
    var first := TablesRun(m, tabs);
    if s == m || s in first.states {
      TablesKeepOthers(m, tabs, s);
    } else {
      TablesKeepOthers(m, tabs, Last(m, first.states));
      SetsKeepOthers(Last(m, first.states), s);
    }
  }

  lemma SetKeepsOthers(m: Machine, x: Name, body: SetBody)
    requires Versioned(x)
    ensures OthersKept(m, m.(sets := m.sets[x := body]))
  {
  }

  lemma TableKeepsOthers(m: Machine, t: TabId, news: Chains)
    requires t in m.tables && (forall n :: n in news ==> !Foreign(n))
    ensures OthersKept(m, Put(m, t, m.tables[t] + news))
  {
    assert SameOthers(m.tables[t], m.tables[t] + news);
  }

  lemma CandidateLoadIsOwn(l: Load, v: int)
    requires CandidateLoad(l, v)
    ensures l.MakeSet? || l.AddTo? ==> Versioned(l.s)
    ensures l.LoadTable? ==> forall n :: n in l.news ==> !Foreign(n)
  {
    if l.LoadTable? {
      CandidateIsOwn(Op.Load(l.news), v);
    }
  }

  lemma LoadKeepsOthers(m: Machine, l: Load, v: int)
    requires CandidateLoad(l, v) && ExecLoad(m, l).Some?
    ensures OthersKept(m, ExecLoad(m, l).value)
  {
    CandidateLoadIsOwn(l, v);
    match l
    case MakeSet(s, kind) => SetKeepsOthers(m, s, SetBody(kind, {}));
    case AddTo(s, e) => SetKeepsOthers(m, s, SetBody(m.sets[s].kind, m.sets[s].entries + {e}));
    case LoadTable(t, news) => TableKeepsOthers(m, t, news);
  }

  lemma {:induction false} BuildKeepsOthers(m: Machine, loads: seq<Load>, v: int, s: Machine)
    requires (forall l :: l in loads ==> CandidateLoad(l, v)) && (s == m || s in BuildRun(m, loads).states)
    ensures OthersKept(m, s)
    decreases |loads|
  {
    if s != m {
      assert loads[0] in loads && forall l :: l in loads[1..] ==> l in loads;
      var m' := ExecLoad(m, loads[0]).value;
      LoadKeepsOthers(m, loads[0], v);
      BuildKeepsOthers(m', loads[1..], v, s);
      OthersKeptThrough(m, m', s);
    }
  }

  lemma SwitchKeepsOthers(m: Machine, tabs: seq<TabId>, up: string, down: string, s: Machine)
    requires Covering(m, tabs) && (up == NEW || up == OLD) && (down == NEW || down == OLD)
    requires s == m || s in SwitchRun(m, tabs, up, down).states
    ensures OthersKept(m, s) && Covering(s, tabs)
  {
    var first := Sweep(m, tabs, ForEach(up, AddJump()));
    HookingIsOwn(up);
    HookingIsOwn(down);
    if s == m || s in first.states {
      SweepKeepsOthers(m, tabs, ForEach(up, AddJump()), s);
    } else {
      var m' := Last(m, first.states);
      SweepKeepsOthers(m, tabs, ForEach(up, AddJump()), m');
      SweepKeepsOthers(m', tabs, ForEach(down, RemoveJump()), s);
      OthersKeptThrough(m, m', s);
    }
  }

  lemma AnswerKeepsOthers(m: Machine, tabs: seq<TabId>, confirmed: bool, s: Machine)
    requires Covering(m, tabs) && s in AnswerRun(m, tabs, confirmed).states
    ensures OthersKept(m, s)
  {
    if !confirmed {
      SwitchKeepsOthers(m, tabs, OLD, NEW, s);
    } else if s in CommitRun(m, tabs).states {
      CommitKeepsOthers(m, tabs, s);
    } else {
      var e := Last(m, CommitRun(m, tabs).states);
      CommitKeepsOthers(m, tabs, e);
      CleanupKeepsOthers(e, tabs, s);
      OthersKeptThrough(m, e, s);
    }
  }

  lemma ApplyKeepsOthers(m: Machine, tabs: seq<TabId>, confirmed: bool, s: Machine)
    requires Covering(m, tabs) && s in ApplyRun(m, tabs, confirmed).states
    ensures OthersKept(m, s)
  {
    var switch := SwitchRun(m, tabs, NEW, OLD);
    if s in switch.states {
      SwitchKeepsOthers(m, tabs, NEW, OLD, s);
    } else {
      SwitchKeepsOthers(m, tabs, NEW, OLD, Last(m, switch.states));
      AnswerKeepsOthers(Last(m, switch.states), tabs, confirmed, s);
      OthersKeptThrough(m, Last(m, switch.states), s);
    }
  }

  lemma ReadyKeepsOthers(m: Machine, tabs: seq<TabId>, given: Inputs, s: Machine)
    requires Covering(m, tabs) && s in ReadyRun(m, tabs, given).states
    ensures OthersKept(m, s)
  {
    var zones := ZonesRun(m, tabs, given.order);
    PreparingIsOwn(given.order);
    if s in zones.states {
      SweepKeepsOthers(m, tabs, ZonePlan(given.order), s);
    } else {
      SweepKeepsOthers(m, tabs, ZonePlan(given.order), Last(m, zones.states));
      ApplyKeepsOthers(Last(m, zones.states), tabs, given.confirmed, s);
      OthersKeptThrough(m, Last(m, zones.states), s);
    }
  }

  lemma SubmitKeepsOthers(m: Machine, tabs: seq<TabId>, given: Inputs, s: Machine)
    requires Covering(m, tabs) && GoodInputs(given) && (s == m || s in SubmitRun(m, given.build(m.version)).states)
    ensures OthersKept(m, s) && Covering(s, tabs)
  {
    if s != m {
      BuildKeepsOthers(m, given.build(m.version).value, m.version, s);
      SameTablesCovered(m, s, tabs);
    }
  }

  lemma CleanKeepsOthers(m: Machine, tabs: seq<TabId>, given: Inputs, s: Machine)
    requires Covering(m, tabs) && GoodInputs(given) && s in CleanRun(m, tabs, given).states
    ensures OthersKept(m, s)
  {
    var submit := SubmitRun(m, given.build(m.version));
    if s in submit.states {
      SubmitKeepsOthers(m, tabs, given, s);
    } else {
      SubmitKeepsOthers(m, tabs, given, Last(m, submit.states));
      ReadyKeepsOthers(Last(m, submit.states), tabs, given, s);
      OthersKeptThrough(m, Last(m, submit.states), s);
    }
  }

  lemma IdleKeepsOthers(m: Machine, tabs: seq<TabId>, given: Inputs, s: Machine)
    requires Covering(m, tabs) && GoodInputs(given) && s in IdleRun(m, tabs, given).states
    ensures OthersKept(m, s)
  {
    var cleanup := CleanupRun(m, tabs);
    if s in cleanup.states {
      CleanupKeepsOthers(m, tabs, s);
    } else {
      CleanupKeepsOthers(m, tabs, Last(m, cleanup.states));
      CleanKeepsOthers(Last(m, cleanup.states), tabs, given, s);
      OthersKeptThrough(m, Last(m, cleanup.states), s);
    }
  }

  /**
   At every state of a reload, whatever it started from and however it went, the chains of other
   programs are there with their rules in their order, and so are the sets of other programs with
   their entries.
   */
  lemma ReloadKeepsOthers(m: Machine, tabs: seq<TabId>, given: Inputs, s: Machine)
    requires Covering(m, tabs) && GoodInputs(given) && s in ReloadRun(m, tabs, given).states
    ensures OthersKept(m, s)
  {
    var resume := ResumeRun(m, tabs);
    if s in resume.states {
      CommitKeepsOthers(m, tabs, s);
    } else {
      CommitKeepsOthers(m, tabs, Last(m, resume.states));
      IdleKeepsOthers(Last(m, resume.states), tabs, given, s);
      OthersKeptThrough(m, Last(m, resume.states), s);
    }
  }
}
