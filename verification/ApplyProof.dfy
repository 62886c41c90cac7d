/** What a switch does to verdicts at every moment, and what switching back restores. */
module ApplyProof {
  import opened Text
  import opened Netfilter
  import opened Kernel
  import opened Machines
  import opened Hosts
  import opened Generations
  import opened Delegates
  import opened Apply

  ghost predicate AllSwitchable(m: Machine, up: string, down: string) {
    forall t :: t in m.tables ==> Switchable(m.tables[t], up, down)
  }

  ghost predicate Stages(m: Machine, s: Machine, up: string, down: string) {
    && s == m.(tables := s.tables) && s.tables.Keys == m.tables.Keys
    && forall t :: t in m.tables ==> Stage(m.tables[t], s.tables[t], up, down)
  }

  function JoinedMachine(m: Machine, up: string): Machine {
    m.(tables := map t | t in m.tables :: Joined(m.tables[t], up))
  }

  function SwitchedMachine(m: Machine, up: string, down: string): Machine {
    m.(tables := map t | t in m.tables :: Switched(m.tables[t], up, down))
  }

  /** Every delegate under `up` has its built-in chain in its table. */
  ghost predicate HooksThere(c: Chains, up: string) {
    forall d :: d in c && up < d ==> HookOf(d) in c
  }

  ghost predicate AllHooksThere(m: Machine, up: string) {
    forall t :: t in m.tables ==> HooksThere(m.tables[t], up)
  }

  lemma FirstSweepEnds(m: Machine, tabs: seq<TabId>, up: string, down: string)
    requires Covering(m, tabs) && AllSwitchable(m, up, down)
    ensures var run := Sweep(m, tabs, ForEach(up, AddJump()));
      (run.ok <==> AllHooksThere(m, up)) && (run.ok ==> Last(m, run.states) == JoinedMachine(m, up))
  {
    var plan := ForEach(up, AddJump());
    forall t | t in m.tables
      ensures PassOver(m, t, plan).ok <==> HooksThere(m.tables[t], up)
      ensures PassOver(m, t, plan).ok ==> AfterPass(m, t, plan) == Joined(m.tables[t], up)
    {
      UpPass(m.tables[t], m.sets.Keys, up);
    }
    if AllHooksThere(m, up) {
      SweepGives(m, tabs, plan, JoinedMachine(m, up).tables);
    } else {
      var t :| t in m.tables && !HooksThere(m.tables[t], up);
      SweepRefused(m, tabs, plan, t);
    }
  }

  lemma FirstSweepStages(m: Machine, tabs: seq<TabId>, up: string, down: string, s: Machine)
    requires Covering(m, tabs) && AllSwitchable(m, up, down) && s in Sweep(m, tabs, ForEach(up, AddJump())).states
    ensures Stages(m, s, up, down)
  {
    SweepState(m, tabs, ForEach(up, AddJump()), s);
    forall t | t in m.tables
      ensures Stage(m.tables[t], s.tables[t], up, down)
    {
      if s.tables[t] != m.tables[t] {
        UpPassStates(m.tables[t], m.sets.Keys, up, s.tables[t]);
      }
    }
  }

  lemma DownPassAfterUp(c: Chains, sets: set<Name>, up: string, down: string)
    requires Hooked(c, down)
    ensures var ops := ForEach(down, RemoveJump())(Joined(c, up));
      && RunOps(Joined(c, up), sets, ops).ok && EndOps(Joined(c, up), sets, ops) == Switched(c, up, down)
      && forall x :: x == Joined(c, up) || x in RunOps(Joined(c, up), sets, ops).states ==> Stage(c, x, up, down)
  {
    StagesUp(c, Joined(c, up), up, down);
    JoinedLists(c, up, down);
    DownPass(Joined(c, up), sets, down);
    ClearedAfterJoined(c, up, down);
    forall x | PartlyDown(Joined(c, up), x, down)
      ensures Stage(c, x, up, down)
    {
      StagesDown(c, x, up, down);
    }
  }

  lemma SecondSweepEnds(m: Machine, tabs: seq<TabId>, up: string, down: string)
    requires Covering(m, tabs) && AllSwitchable(m, up, down)
    ensures var m' := JoinedMachine(m, up);
      var run := Sweep(m', tabs, ForEach(down, RemoveJump()));
      run.ok && Last(m', run.states) == SwitchedMachine(m, up, down)
  {
    forall t | t in m.tables
      ensures PassOver(JoinedMachine(m, up), t, ForEach(down, RemoveJump())).ok
      ensures AfterPass(JoinedMachine(m, up), t, ForEach(down, RemoveJump())) == Switched(m.tables[t], up, down)
    {
      DownPassAfterUp(m.tables[t], m.sets.Keys, up, down);
    }
    SweepGives(JoinedMachine(m, up), tabs, ForEach(down, RemoveJump()), SwitchedMachine(m, up, down).tables);
  }

  lemma SecondStage(c: Chains, sets: set<Name>, up: string, down: string, x: Chains)
    requires Switchable(c, up, down)
    requires x == Joined(c, up) || x in RunOps(Joined(c, up), sets, ForEach(down, RemoveJump())(Joined(c, up))).states
    ensures Stage(c, x, up, down)
  {
    DownPassAfterUp(c, sets, up, down);
  }

  lemma SecondSweepState(m: Machine, m': Machine, tabs: seq<TabId>, up: string, down: string, s: Machine, t: TabId)
    requires m' == JoinedMachine(m, up) && Covering(m', tabs) && t in m.tables
    requires s in Sweep(m', tabs, ForEach(down, RemoveJump())).states
    ensures s == m.(tables := s.tables) && s.tables.Keys == m.tables.Keys
    ensures var j := Joined(m.tables[t], up);
      s.tables[t] == j || s.tables[t] in RunOps(j, m.sets.Keys, ForEach(down, RemoveJump())(j)).states
  {
    SweepState(m', tabs, ForEach(down, RemoveJump()), s);
  }

  lemma SecondStageAt(m: Machine, m': Machine, tabs: seq<TabId>, up: string, down: string, s: Machine, t: TabId)
    requires m' == JoinedMachine(m, up) && Covering(m', tabs) && t in m.tables && Switchable(m.tables[t], up, down)
    requires s in Sweep(m', tabs, ForEach(down, RemoveJump())).states
    ensures s == m.(tables := s.tables) && s.tables.Keys == m.tables.Keys && Stage(m.tables[t], s.tables[t], up, down)
  {
    SecondSweepState(m, m', tabs, up, down, s, t);
    SecondStage(m.tables[t], m.sets.Keys, up, down, s.tables[t]);
  }

  lemma SecondSweepStages(m: Machine, m': Machine, tabs: seq<TabId>, up: string, down: string, s: Machine)
    requires m' == JoinedMachine(m, up) && Covering(m', tabs) && AllSwitchable(m, up, down)
    requires s in Sweep(m', tabs, ForEach(down, RemoveJump())).states
    ensures Stages(m, s, up, down)
  {
    SweepState(m', tabs, ForEach(down, RemoveJump()), s);
    forall t | t in m.tables
      ensures Stage(m.tables[t], s.tables[t], up, down)
    {
      SecondStageAt(m, m', tabs, up, down, s, t);
    }
  }

  /** A switch gets to its end exactly when every new delegate's built-in chain exists, and then every table is switched. */
  lemma SwitchEnds(m: Machine, tabs: seq<TabId>, up: string, down: string)
    requires Covering(m, tabs) && AllSwitchable(m, up, down)
    ensures var run := SwitchRun(m, tabs, up, down);
      (run.ok <==> AllHooksThere(m, up)) && (run.ok ==> Last(m, run.states) == SwitchedMachine(m, up, down))
  {
    FirstSweepEnds(m, tabs, up, down);
    SecondSweepEnds(m, tabs, up, down);
    var first := Sweep(m, tabs, ForEach(up, AddJump()));
    if first.ok {
      LastConcat(m, first.states, Sweep(Last(m, first.states), tabs, ForEach(down, RemoveJump())).states);
    }
  }

  /** At every moment each chain is untouched, has both jumps, or has been switched; nothing else has changed. */
  lemma SwitchStages(m: Machine, tabs: seq<TabId>, up: string, down: string, s: Machine)
    requires Covering(m, tabs) && AllSwitchable(m, up, down) && s in SwitchRun(m, tabs, up, down).states
    ensures Stages(m, s, up, down)
  {
    FirstSweepEnds(m, tabs, up, down);
    if s in Sweep(m, tabs, ForEach(up, AddJump())).states {
      FirstSweepStages(m, tabs, up, down, s);
    } else {
      SecondSweepStages(m, JoinedMachine(m, up), tabs, up, down, s);
    }
  }

  // ---------- make before break ----------

  lemma {:induction false} RemoveFromFront(xs: seq<Rule>, ys: seq<Rule>, r: Rule)
    ensures RemoveFirst(xs + ys, r) == if r in xs then RemoveFirst(xs, r) + ys else xs + RemoveFirst(ys, r)
  {
    if xs == [] {
      assert xs + ys == ys;
    } else {
      assert (xs + ys)[1..] == xs[1..] + ys;
      assert xs == [xs[0]] + xs[1..];
      RemoveFromFront(xs[1..], ys, r);
    }
  }

  /** A rule list parted at its first `r`. */
  lemma {:induction false} Part(rs: seq<Rule>, r: Rule) returns (before: seq<Rule>, after: seq<Rule>)
    requires r in rs
    ensures rs == before + [r] + after && r !in before && RemoveFirst(rs, r) == before + after
  {
    if rs[0] == r {
      before, after := [], rs[1..];
    } else {
      before, after := Part(rs[1..], r);
      before := [rs[0]] + before;
      assert rs == [rs[0]] + rs[1..];
    }
  }

  /** Dropping a rule that decides nothing does not matter to what comes after. */
  lemma UndecidedInTheMiddle(c: Chains, sets: Sets, before: seq<Rule>, r: Rule, after: seq<Rule>, last: seq<Rule>, p: Packet, depth: nat)
    requires Walk(c, sets, before + [r] + after, p, depth).Through?
    ensures Walk(c, sets, before + after + last, p, depth) == Walk(c, sets, last, p, depth)
  {
    WalkConcat(c, sets, before + [r], after, p, depth);
    WalkConcat(c, sets, before, [r], p, depth);
    WalkConcat(c, sets, before, after, p, depth);
    WalkConcat(c, sets, before + after, last, p, depth);
  }

  /** With both jumps in place a packet ends as with the old one alone, or else as with the new one alone. */
  lemma BothDecideAsOne(c: Chains, sets: Sets, b: seq<Rule>, gone: Rule, last: seq<Rule>, p: Packet, depth: nat)
    requires gone in b
    ensures var o := Walk(c, sets, b, p, depth);
      Walk(c, sets, b + last, p, depth) == if o.Through? then Walk(c, sets, RemoveFirst(b, gone) + last, p, depth) else o
  {
    var before, after := Part(b, gone);
    WalkConcat(c, sets, b, last, p, depth);
    if Walk(c, sets, b, p, depth).Through? {
      UndecidedInTheMiddle(c, sets, before, gone, after, last, p, depth);
    }
  }

  function NotBuiltin(): Name -> bool {
    n => n !in BUILTINS
  }

  function AnySet(): Name -> bool {
    s => true
  }

  lemma ForIs(c: Chains, prefix: string, n: Name)
    ensures var d := For(c, prefix, n); d.Some? ==> d.value in c && prefix < d.value && HookOf(d.value) == n
    ensures For(c, prefix, n).None? ==> forall d :: d in c && prefix < d ==> HookOf(d) != n
  {
    DelegateOfIs(Listing(c, prefix), n);
    ListingIs(c, prefix);
  }

  lemma OnlyBuiltinsChange(c: Chains, x: Chains, up: string, down: string, n: Name)
    requires Stage(c, x, up, down) && Hooked(c, up) && Hooked(c, down) && n in c && n !in BUILTINS
    ensures x[n] == c[n]
  {
    ForIs(c, up, n);
    ForIs(c, down, n);
  }

  lemma SoundJumps(c: Chains, sets: set<Name>, n: Name)
    requires SoundTable(c, sets) && n in c
    ensures JumpsIn(c[n], NotBuiltin())
  {
    assert forall i :: 0 <= i < |c[n]| ==> c[n][i] in c[n];
  }

  /** No rule jumps to a built-in chain, so a walk over given rules is the same at every stage. */
  lemma StagesWalkAlike(c: Chains, x: Chains, sets: Sets, up: string, down: string, rs: seq<Rule>, p: Packet, depth: nat)
    requires SoundTable(c, sets.Keys) && Stage(c, x, up, down) && Hooked(c, up) && Hooked(c, down)
    requires JumpsIn(rs, NotBuiltin())
    ensures Walk(x, sets, rs, p, depth) == Walk(c, sets, rs, p, depth)
  {
    forall n | NotBuiltin()(n) && n in c
      ensures c[n] == x[n] && JumpsIn(c[n], NotBuiltin()) && TestsIn(c[n], AnySet())
    {
      OnlyBuiltinsChange(c, x, up, down, n);
      SoundJumps(c, sets.Keys, n);
    }
    assert TestsIn(rs, AnySet());
    ViewWalk(c, sets, x, sets, NotBuiltin(), AnySet(), rs, p, depth);
  }

  /** What a packet entering at a built-in chain with these rules ends with. */
  ghost function RowFate(c: Chains, sets: Sets, rs: seq<Rule>, p: Packet, depth: nat): Outcome {
    var o := Walk(c, sets, rs, p, depth);
    if o.Returned? then Through else o
  }

  lemma FateIsRowFate(c: Chains, sets: Sets, n: Name, p: Packet, depth: nat)
    requires n in c
    ensures Fate(c, sets, n, p, depth) == RowFate(c, sets, c[n], p, depth)
  {
  }

  lemma StageJumps(c: Chains, x: Chains, sets: set<Name>, up: string, down: string, n: Name)
    requires SoundTable(c, sets) && Stage(c, x, up, down) && Hooked(c, up) && n in c
    ensures JumpsIn(x[n], NotBuiltin())
  {
    SoundJumps(c, sets, n);
    ForIs(c, up, n);
    var both := With(c[n], For(c, up, n));
    assert JumpsIn(both, NotBuiltin());
    if For(c, down, n).Some? {
      RemovedJumps(both, JumpTo(For(c, down, n).value), NotBuiltin());
    }
  }

  lemma RemovedJumps(rs: seq<Rule>, r: Rule, live: Name -> bool)
    requires JumpsIn(rs, live)
    ensures JumpsIn(RemoveFirst(rs, r), live)
  {
    RemovedIsIn(rs, r);
    var out := RemoveFirst(rs, r);
    forall i | 0 <= i < |out| && out[i].target.Jump?
      ensures live(out[i].target.chain)
    {
      assert out[i] in rs;
    }
  }

  /** The fate of a packet at a built-in chain depends only on that chain's rules, at every stage. */
  lemma StageFate(c: Chains, x: Chains, sets: Sets, up: string, down: string, n: Name, p: Packet, depth: nat)
    requires SoundTable(c, sets.Keys) && Stage(c, x, up, down) && Hooked(c, up) && Hooked(c, down) && n in c
    ensures Fate(x, sets, n, p, depth) == RowFate(c, sets, x[n], p, depth)
  {
    StageJumps(c, x, sets.Keys, up, down, n);
    StagesWalkAlike(c, x, sets, up, down, x[n], p, depth);
    FateIsRowFate(x, sets, n, p, depth);
  }

  lemma SwitchedIsStage(c: Chains, up: string, down: string)
    ensures Stage(c, Switched(c, up, down), up, down)
  {
  }

  /** The rules of a chain whose new jump has been added: the old jump, if any, is still where it was. */
  lemma SwitchedRow(c: Chains, up: string, down: string, n: Name)
    requires Switchable(c, up, down) && n in c
    ensures For(c, down, n).Some? ==> JumpTo(For(c, down, n).value) in c[n]
    ensures Switched(c, up, down)[n] == With(Without(c[n], For(c, down, n)), For(c, up, n))
  {
    ForIs(c, down, n);
    var u, d := For(c, up, n), For(c, down, n);
    if d.Some? && u.Some? {
      RemoveFromFront(c[n], [JumpTo(u.value)], JumpTo(d.value));
    }
  }

  /** With the new jump added, a row decides what it decided before, or else what it will decide without the old jump. */
  lemma JoinedRowFate(c: Chains, sets: Sets, b: seq<Rule>, u: Option<Name>, d: Option<Name>, p: Packet, depth: nat)
    requires d.Some? ==> JumpTo(d.value) in b
    ensures var before, now := RowFate(c, sets, b, p, depth), RowFate(c, sets, With(b, u), p, depth);
      && (now == before || now == RowFate(c, sets, With(Without(b, d), u), p, depth))
      && (!before.Through? ==> now == before)
  {
    var last := if u.Some? then [JumpTo(u.value)] else [];
    assert b + [] == b && With(b, u) == b + last;
    if d.Some? {
      BothDecideAsOne(c, sets, b, JumpTo(d.value), last, p, depth);
      assert RemoveFirst(b, JumpTo(d.value)) + [] == RemoveFirst(b, JumpTo(d.value));
      assert With(Without(b, d), u) == RemoveFirst(b, JumpTo(d.value)) + last;
    } else {
      WalkConcat(c, sets, b, last, p, depth);
    }
  }

  /** The old jump of a chain is still where it was, or there was none. */
  ghost predicate OldStillThere(c: Chains, x: Chains, down: string, n: Name)
    requires n in x
  {
    For(c, down, n).Some? ==> JumpTo(For(c, down, n).value) in x[n]
  }

  lemma OldJumpGone(c: Chains, up: string, down: string, n: Name)
    requires Switchable(c, up, down) && n in c && For(c, down, n).Some?
    ensures !OldStillThere(c, Switched(c, up, down), down, n)
  {
    var u, d := For(c, up, n), For(c, down, n);
    SwitchedRow(c, up, down, n);
    ForIs(c, down, n);
    ForIs(c, up, n);
  }

  /**
   Throughout a switch, every packet at every chain gets the verdict it had before or the one it
   will have after; and as long as the old jump of a chain is there, or there is none, a packet
   that the chain already decided keeps its verdict.
   */
  lemma OldOrNewVerdict(c: Chains, x: Chains, sets: Sets, up: string, down: string, n: Name, p: Packet, depth: nat)
    requires SoundTable(c, sets.Keys) && Switchable(c, up, down) && Stage(c, x, up, down) && n in c
    ensures var before, now, after := Fate(c, sets, n, p, depth), Fate(x, sets, n, p, depth), Fate(Switched(c, up, down), sets, n, p, depth);
      && (now == before || now == after)
      && (!before.Through? && OldStillThere(c, x, down, n) ==> now == before)
  {
    var u, d := For(c, up, n), For(c, down, n);
    SwitchedIsStage(c, up, down);
    StageFate(c, x, sets, up, down, n, p, depth);
    StageFate(c, Switched(c, up, down), sets, up, down, n, p, depth);
    FateIsRowFate(c, sets, n, p, depth);
    SwitchedRow(c, up, down, n);
    JoinedRowFate(c, sets, c[n], u, d, p, depth);
    if x[n] == Switched(c, up, down)[n] && d.Some? {
      OldJumpGone(c, up, down, n);
    }
  }

  lemma AddedOnce(rs: seq<Rule>, r: Rule)
    requires r !in rs
    ensures r !in RemoveFirst(rs, r) && r !in RemoveFirst(rs + [r], r)
  {
    RemovedIsIn(rs, r);
    RemoveFromFront(rs, [r], r);
    assert RemoveFirst([r], r) == [];
  }

  lemma KeptOnce(rs: seq<Rule>, r: Rule, last: seq<Rule>)
    requires Once(rs, r) && r !in last
    ensures r !in RemoveFirst(rs + last, r)
  {
    RemoveFromFront(rs, last, r);
  }

  lemma NewJumpOnce(c: Chains, x: Chains, up: string, down: string, n: Name)
    requires Switchable(c, up, down) && Stage(c, x, up, down) && n in c && For(c, up, n).Some?
    ensures var r := JumpTo(For(c, up, n).value); r !in RemoveFirst(x[n], r)
  {
    var u, d := For(c, up, n).value, For(c, down, n);
    ForIs(c, up, n);
    ListingIs(c, up);
    SwitchedRow(c, up, down, n);
    if d.Some? {
      RemovedIsIn(c[n], JumpTo(d.value));
    }
    AddedOnce(c[n], JumpTo(u));
    AddedOnce(Without(c[n], d), JumpTo(u));
  }

  lemma OldJumpOnce(c: Chains, x: Chains, up: string, down: string, n: Name)
    requires Switchable(c, up, down) && Stage(c, x, up, down) && n in c && For(c, down, n).Some?
    ensures var r := JumpTo(For(c, down, n).value); r !in RemoveFirst(x[n], r)
  {
    var u, d := For(c, up, n), For(c, down, n).value;
    ForIs(c, up, n);
    ForIs(c, down, n);
    if u.Some? {
      KeptOnce(c[n], JumpTo(d), [JumpTo(u.value)]);
    }
    OldJumpGone(c, up, down, n);
    RemovedIsIn(Switched(c, up, down)[n], JumpTo(d));
  }

  /** At every stage a chain with both delegates has one of the two jumps, and has neither of them twice. */
  lemma MakeBeforeBreak(c: Chains, x: Chains, up: string, down: string, n: Name)
    requires Switchable(c, up, down) && Stage(c, x, up, down) && n in c
    ensures var u, d := For(c, up, n), For(c, down, n);
      && (u.Some? && d.Some? ==> JumpTo(u.value) in x[n] || JumpTo(d.value) in x[n])
      && (u.Some? ==> JumpTo(u.value) !in RemoveFirst(x[n], JumpTo(u.value)))
      && (d.Some? ==> JumpTo(d.value) !in RemoveFirst(x[n], JumpTo(d.value)))
  {
    SwitchedRow(c, up, down, n);
    if For(c, up, n).Some? {
      NewJumpOnce(c, x, up, down, n);
    }
    if For(c, down, n).Some? {
      OldJumpOnce(c, x, up, down, n);
    }
  }

  // ---------- switching back ----------

  lemma SwitchedLists(c: Chains, up: string, down: string, prefix: string)
    ensures Switched(c, up, down).Keys == c.Keys && Listing(Switched(c, up, down), prefix) == Listing(c, prefix)
  {
    var d := Switched(c, up, down);
    assert (set n | n in d && prefix < n) == (set n | n in c && prefix < n);
  }

  lemma ForAtHook(c: Chains, prefix: string, d: Name)
    requires OnePerHook(Listing(c, prefix)) && d in c && prefix < d
    ensures For(c, prefix, HookOf(d)) == Some(d)
  {
    ListingIs(c, prefix);
    ForIs(c, prefix, HookOf(d));
  }

  /** After a switch the roles are reversed: the new delegates are attached and the old ones loose. */
  lemma SwitchedIsSwitchable(c: Chains, up: string, down: string)
    requires Switchable(c, up, down) && HooksThere(c, up)
    ensures Switchable(Switched(c, up, down), down, up)
  {
    var e := Switched(c, up, down);
    SwitchedLists(c, up, down, up);
    SwitchedLists(c, up, down, down);
    ListingIs(c, up);
    ListingIs(c, down);
    forall d | d in c && down < d
      ensures JumpTo(d) !in e[HookOf(d)]
    {
      ForAtHook(c, down, d);
      OldJumpGone(c, up, down, HookOf(d));
    }
    forall d | d in c && up < d
      ensures HookOf(d) in e && Once(e[HookOf(d)], JumpTo(d))
    {
      ForAtHook(c, up, d);
      SwitchedRow(c, up, down, HookOf(d));
      NewJumpOnce(c, e, up, down, HookOf(d));
    }
  }

  function RolledBack(c: Chains, up: string, down: string): Chains {
    Switched(Switched(c, up, down), down, up)
  }

  /** Switching there and back leaves a chain as it was, but for its own jump, which is now the last rule. */
  lemma RollbackRow(c: Chains, up: string, down: string, n: Name)
    requires Switchable(c, up, down) && HooksThere(c, up) && n in c
    ensures RolledBack(c, up, down)[n] == With(Without(c[n], For(c, down, n)), For(c, down, n))
  {
    var u, d := For(c, up, n), For(c, down, n);
    var e := Switched(c, up, down);
    var kept := Without(c[n], d);
    SwitchedLists(c, up, down, up);
    SwitchedLists(c, up, down, down);
    SwitchedRow(c, up, down, n);
    SwitchedIsSwitchable(c, up, down);
    SwitchedRow(e, down, up, n);
    if u.Some? {
      ForIs(c, up, n);
      ListingIs(c, up);
      if d.Some? { RemovedIsIn(c[n], JumpTo(d.value)); }
      RemoveFromFront(kept, [JumpTo(u.value)], JumpTo(u.value));
      assert RemoveFirst([JumpTo(u.value)], JumpTo(u.value)) == [];
      assert kept + [] == kept;
    }
  }

  ghost predicate JumpIsLast(rs: seq<Rule>, d: Option<Name>) {
    d.Some? ==> rs != [] && rs[|rs| - 1] == JumpTo(d.value)
  }

  lemma LastOfPart(before: seq<Rule>, r: Rule, after: seq<Rule>)
    requires after != []
    ensures var rs := before + [r] + after; rs[|rs| - 1] in before + after
  {
    assert (before + after)[|before + after| - 1] == after[|after| - 1];
  }

  lemma MovedToEnd(rs: seq<Rule>, r: Rule)
    requires r in rs
    ensures RemoveFirst(rs, r) + [r] == rs ==> rs[|rs| - 1] == r
    ensures Once(rs, r) && rs[|rs| - 1] == r ==> RemoveFirst(rs, r) + [r] == rs
  {
    if RemoveFirst(rs, r) + [r] == rs {
      assert (RemoveFirst(rs, r) + [r])[|rs| - 1] == r;
    }
    if Once(rs, r) && rs[|rs| - 1] == r {
      var before, after := Part(rs, r);
      if after != [] {
        LastOfPart(before, r, after);
      }
      assert before + [] == before;
    }
  }

  /** Rolling back restores a chain exactly when its own jump was its last rule, or it had none. */
  lemma RollbackRestores(c: Chains, up: string, down: string, n: Name)
    requires Switchable(c, up, down) && HooksThere(c, up) && n in c
    ensures RolledBack(c, up, down)[n] == c[n] <==> JumpIsLast(c[n], For(c, down, n))
    ensures Without(RolledBack(c, up, down)[n], For(c, down, n)) == Without(c[n], For(c, down, n))
  {
    var d := For(c, down, n);
    RollbackRow(c, up, down, n);
    SwitchedRow(c, up, down, n);
    if d.Some? {
      ForIs(c, down, n);
      MovedToEnd(c[n], JumpTo(d.value));
      RemoveFromFront(RemoveFirst(c[n], JumpTo(d.value)), [JumpTo(d.value)], JumpTo(d.value));
      assert RemoveFirst(c[n], JumpTo(d.value)) + [] == RemoveFirst(c[n], JumpTo(d.value));
    }
  }

  lemma AppliedIsSwitchable(m: Machine, up: string, down: string)
    requires AllSwitchable(m, up, down) && AllHooksThere(m, up)
    ensures AllSwitchable(SwitchedMachine(m, up, down), down, up) && AllHooksThere(SwitchedMachine(m, up, down), down)
  {
    forall t | t in m.tables
      ensures Switchable(Switched(m.tables[t], up, down), down, up) && HooksThere(Switched(m.tables[t], up, down), down)
    {
      SwitchedIsSwitchable(m.tables[t], up, down);
      SwitchedLists(m.tables[t], up, down, down);
    }
  }

  function RolledBackMachine(m: Machine, up: string, down: string): Machine {
    m.(tables := map t | t in m.tables :: RolledBack(m.tables[t], up, down))
  }

  lemma SwitchedTwice(m: Machine, up: string, down: string)
    ensures SwitchedMachine(SwitchedMachine(m, up, down), down, up) == RolledBackMachine(m, up, down)
  {
    assert SwitchedMachine(SwitchedMachine(m, up, down), down, up).tables == RolledBackMachine(m, up, down).tables;
  }

  /** A switch that got to its end and the switch back: every table is as it was but for where its own jumps stand. */
  lemma RollbackUndoesApply(m: Machine, tabs: seq<TabId>, up: string, down: string)
    requires Covering(m, tabs) && AllSwitchable(m, up, down) && SwitchRun(m, tabs, up, down).ok
    ensures var applied := Last(m, SwitchRun(m, tabs, up, down).states);
      && Covering(applied, tabs) && SwitchRun(applied, tabs, down, up).ok
      && Last(applied, SwitchRun(applied, tabs, down, up).states) == RolledBackMachine(m, up, down)
  {
    SwitchEnds(m, tabs, up, down);
    AppliedIsSwitchable(m, up, down);
    var applied := SwitchedMachine(m, up, down);
    SwitchEnds(applied, tabs, down, up);
    SwitchedTwice(m, up, down);
  }

  function Always(verdict: string): Rule {
    Rule([], [], Verdict(verdict))
  }

  lemma AlwaysDecides(c: Chains, sets: Sets, verdict: string, after: seq<Rule>, p: Packet, depth: nat)
    ensures Walk(c, sets, [Always(verdict)] + after, p, depth) == Decided(verdict)
  {
  }

  lemma DelegateDecides(c: Chains, sets: Sets, d: Name, verdict: string, after: seq<Rule>, p: Packet, depth: nat)
    requires d in c && c[d] == [Always(verdict)] && depth > 0
    ensures Walk(c, sets, [JumpTo(d)] + after, p, depth) == Decided(verdict)
  {
    AlwaysDecides(c, sets, verdict, [], p, depth - 1);
    assert c[d] == [Always(verdict)] + [];
  }

  /**
   Restoring all but the place of the jump is not restoring the verdicts: where a rule of another
   program follows the jump, a rollback lets that rule decide first.
   */
  lemma RollbackCanChangeAVerdict(c: Chains, sets: Sets, up: string, down: string, d: Name, p: Packet, depth: nat)
    requires Switchable(c, up, down) && HooksThere(c, up) && depth > 0
    requires d in c && down < d && HookOf(d) in c && c[HookOf(d)] == [JumpTo(d), Always("DROP")]
    requires d !in BUILTINS && c[d] == [Always("ACCEPT")]
    ensures RowFate(c, sets, c[HookOf(d)], p, depth) == Decided("ACCEPT")
    ensures RowFate(c, sets, RolledBack(c, up, down)[HookOf(d)], p, depth) == Decided("DROP")
  {
    var rs := c[HookOf(d)];
    DelegateDecides(c, sets, d, "ACCEPT", [Always("DROP")], p, depth);
    assert rs == [JumpTo(d)] + [Always("DROP")];
    ForAtHook(c, down, d);
    RollbackRow(c, up, down, HookOf(d));
    assert RemoveFirst(rs, JumpTo(d)) == [Always("DROP")];
    AlwaysDecides(c, sets, "DROP", [JumpTo(d)], p, depth);
  }
}
