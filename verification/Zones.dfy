/** subcommands/fw_prepare_zones: one candidate delegate per hook, jumping to the zones built for it. */
module Zones {
  import opened Sorting
  import opened Text
  import opened Netfilter
  import opened Kernel
  import opened Machines
  import opened Hosts
  import opened Generations
  import opened Delegates
  import opened Apply

  /** $IPTABLES_CHAINS */
  const HOOKS: set<string> := {"prerouting", "postrouting", "input", "forward", "output"}

  /** `${entry##*+}` in lower case: the hook a built chain is for, if it is a hook at all. */
  function HookNamed(entry: Name): string {
    Lower(AfterLast(entry, '+'))
  }

  /** A built chain that some hook is to jump to; the delegates themselves are not zones. */
  predicate ZoneFor(entry: Name, hook: string) {
    !(NEW <= entry) && HookNamed(entry) == hook
  }

  /** The zones of a hook among these built chains, in their order. */
  function ZonesIn(built: seq<Name>, hook: string): seq<Name> {
    if built == [] then []
    else (if ZoneFor(built[0], hook) then [built[0]] else []) + ZonesIn(built[1..], hook)
  }

  function WantedOf(built: seq<Name>): map<string, seq<Name>> {
    map hook | hook in HOOKS && ZonesIn(built, hook) != [] :: ZonesIn(built, hook)
  }

  function Delegate(hook: string): Name {
    NEW + hook
  }

  function Appends(chain: Name, zones: seq<Name>): seq<Op> {
    if zones == [] then [] else [Append(chain, JumpTo(zones[0]))] + Appends(chain, zones[1..])
  }

  function PrepareHook(wanted: map<string, seq<Name>>): string -> seq<Op> {
    (hook: string) =>
      if hook in wanted then
        [Attempt(NewChain(Delegate(hook))), Flush(Delegate(hook))] + Appends(Delegate(hook), wanted[hook])
      else []
  }

  /** What is done to a table when the hooks are taken in this order. */
  function ZonePlan(order: seq<string>): Plan {
    (c: Chains) => Flatten(order, PrepareHook(WantedOf(Listing(c, FWTMP))))
  }

  lemma {:induction false} ZonesInConcat(xs: seq<Name>, ys: seq<Name>, hook: string)
    ensures ZonesIn(xs + ys, hook) == ZonesIn(xs, hook) + ZonesIn(ys, hook)
  {
    if xs == [] {
      assert xs + ys == ys;
    } else {
      assert (xs + ys)[1..] == xs[1..] + ys;
      ZonesInConcat(xs[1..], ys, hook);
    }
  }

  lemma ZonesInOne(entry: Name, hook: string)
    ensures ZonesIn([entry], hook) == if ZoneFor(entry, hook) then [entry] else []
  {
    assert [entry][1..] == [];
  }

  /** What one more built chain does to the array. */
  function Noted(wanted: map<string, seq<Name>>, entry: Name): map<string, seq<Name>> {
    var hook := HookNamed(entry);
    if NEW <= entry || hook !in HOOKS then wanted
    else wanted[hook := (if hook in wanted then wanted[hook] else []) + [entry]]
  }

  lemma WantedStep(built: seq<Name>, entry: Name)
    ensures WantedOf(built + [entry]) == Noted(WantedOf(built), entry)
  {
    var before, after := WantedOf(built), WantedOf(built + [entry]);
    forall hook | hook in HOOKS
      ensures ZonesIn(built + [entry], hook) == ZonesIn(built, hook) + if ZoneFor(entry, hook) then [entry] else []
    {
      ZonesInConcat(built, [entry], hook);
      ZonesInOne(entry, hook);
    }
    var e := Noted(before, entry);
    forall hook | hook in HOOKS
      ensures hook in after <==> hook in e
      ensures hook in after ==> after[hook] == e[hook]
    {
    }
    assert after.Keys == e.Keys;
  }

  /** The loop that fills the `wanted` array. */
  method FillWanted(built: seq<Name>) returns (wanted: map<string, seq<Name>>)
    ensures wanted == WantedOf(built)
  {
    wanted := map[];
    for i := 0 to |built|
      invariant wanted == WantedOf(built[..i])
    {
      var entry := built[i];
      assert built[..i + 1] == built[..i] + [entry];
      WantedStep(built[..i], entry);
      if !(NEW <= entry) {
        var hook := HookNamed(entry);
        if hook in HOOKS {
          wanted := wanted[hook := (if hook in wanted then wanted[hook] else []) + [entry]];
        }
      }
    }
    assert built[..|built|] == built;
  }

  method FwPrepareZones(h: Host, order: seq<string>) returns (ok: bool)
    requires h.Ready()
    modifies h
    ensures h.Ready()
    ensures var run := Sweep(old(h.Now()), h.tabs, ZonePlan(order)); ok == run.ok && h.Went(old(h.Now()), old(h.past), run.states)
  {
    ghost var plan := ZonePlan(order);
    ghost var run := Sweep(h.Now(), h.tabs, plan);
    ghost var goal, end := h.past + run.states, Last(h.Now(), run.states);
    var todo := h.tabs;
    while todo != []
      invariant h.tables.Keys == old(h.tables.Keys) && forall t :: t in todo ==> t in h.tables
      invariant var rest := Sweep(h.Now(), todo, plan); rest.ok == run.ok && h.Owes(rest.states, goal, end)
    {
      var t := todo[0];
      ghost var m, p := h.Now(), h.past;
      LiftLast(m, t, plan);
      var built := Listing(h.tables[t], FWTMP);
      var wanted := FillWanted(built);
      assert plan(m.tables[t]) == Flatten(order, PrepareHook(wanted));
      ok := h.OverChains(t, order, PrepareHook(wanted));
      if !ok {
        return false;
      }
      Onward(m, p, OnTable(m, t, plan(m.tables[t])).states, Sweep(h.Now(), todo[1..], plan).states);
      todo := todo[1..];
    }
    return true;
  }

  // ---------- what it leaves ----------

  function JumpsTo(zones: seq<Name>): (r: seq<Rule>)
    ensures |r| == |zones|
  {
    seq(|zones|, i requires 0 <= i < |zones| => JumpTo(zones[i]))
  }

  /** The rows of the delegates made when the hooks are taken in this order. */
  function ZoneRows(wanted: map<string, seq<Name>>, order: seq<string>): Chains {
    if order == [] then map[]
    else (if order[0] in wanted then map[Delegate(order[0]) := JumpsTo(wanted[order[0]])] else map[])
         + ZoneRows(wanted, order[1..])
  }

  lemma {:induction false} AppendsRun(c: Chains, sets: set<Name>, chain: Name, zones: seq<Name>)
    requires chain in c && forall z :: z in zones ==> z in c && z !in BUILTINS
    ensures var ops := Appends(chain, zones);
      RunOps(c, sets, ops).ok && EndOps(c, sets, ops) == c[chain := c[chain] + JumpsTo(zones)]
    decreases |zones|
  {
    if zones == [] {
      assert c[chain] + JumpsTo([]) == c[chain];
      assert c[chain := c[chain]] == c;
    } else {
      var op := Append(chain, JumpTo(zones[0]));
      var c' := c[chain := c[chain] + [JumpTo(zones[0])]];
      assert Exec(c, sets, op) == Some(c');
      RunFirst(c, sets, op, Appends(chain, zones[1..]));
      AppendsRun(c', sets, chain, zones[1..]);
      assert c'[chain] + JumpsTo(zones[1..]) == c[chain] + JumpsTo(zones);
      assert c'[chain := c[chain] + JumpsTo(zones)] == c[chain := c[chain] + JumpsTo(zones)];
    }
  }

  lemma MadeBare(c: Chains, sets: set<Name>, d: Name)
    requires |d| < CHAIN_NAME_MAX
    ensures var made := if d in c then c else c[d := []];
      Exec(c, sets, Attempt(NewChain(d))) == Some(made) && Exec(made, sets, Flush(d)) == Some(c[d := []])
  {
    assert d !in c ==> c[d := []][d := []] == c[d := []];
  }

  lemma PrepareRun(c: Chains, sets: set<Name>, wanted: map<string, seq<Name>>, hook: string)
    requires hook in wanted && |Delegate(hook)| < CHAIN_NAME_MAX && forall z :: z in wanted[hook] ==> z in c && z !in BUILTINS
    ensures var ops := PrepareHook(wanted)(hook);
      RunOps(c, sets, ops).ok && EndOps(c, sets, ops) == c[Delegate(hook) := JumpsTo(wanted[hook])]
  {
    var d, zones := Delegate(hook), wanted[hook];
    var rest := Appends(d, zones);
    var made := if d in c then c else c[d := []];
    var bare := c[d := []];
    assert PrepareHook(wanted)(hook) == [Attempt(NewChain(d))] + ([Flush(d)] + rest);
    MadeBare(c, sets, d);
    RunFirst(c, sets, Attempt(NewChain(d)), [Flush(d)] + rest);
    RunFirst(made, sets, Flush(d), rest);
    AppendsRun(bare, sets, d, zones);
    assert bare[d] + JumpsTo(zones) == JumpsTo(zones);
    assert bare[d := JumpsTo(zones)] == c[d := JumpsTo(zones)];
  }

  /** What the delegates need: each zone is there, and each delegate's name fits. */
  ghost predicate Makeable(c: Chains, wanted: map<string, seq<Name>>) {
    forall hook :: hook in wanted ==>
      |Delegate(hook)| < CHAIN_NAME_MAX && forall z :: z in wanted[hook] ==> z in c && z !in BUILTINS
  }

  lemma RowsOfFirst(c: Chains, wanted: map<string, seq<Name>>, hook: string, rest: seq<string>)
    ensures c + ZoneRows(wanted, [hook] + rest) ==
      (if hook in wanted then c[Delegate(hook) := JumpsTo(wanted[hook])] else c) + ZoneRows(wanted, rest)
  {
    assert ([hook] + rest)[1..] == rest;
  }

  lemma PrepareAny(c: Chains, sets: set<Name>, wanted: map<string, seq<Name>>, hook: string)
    requires Makeable(c, wanted)
    ensures var ops := PrepareHook(wanted)(hook);
      && RunOps(c, sets, ops).ok
      && EndOps(c, sets, ops) == (if hook in wanted then c[Delegate(hook) := JumpsTo(wanted[hook])] else c)
      && Makeable(EndOps(c, sets, ops), wanted)
  {
    if hook in wanted {
      PrepareRun(c, sets, wanted, hook);
    }
  }

  lemma {:induction false} ZonePass(c: Chains, sets: set<Name>, wanted: map<string, seq<Name>>, order: seq<string>)
    requires Makeable(c, wanted)
    ensures var ops := Flatten(order, PrepareHook(wanted));
      RunOps(c, sets, ops).ok && EndOps(c, sets, ops) == c + ZoneRows(wanted, order)
    decreases |order|
  {
    if order == [] {
      assert c + map[] == c;
    } else {
      var hook, rest := order[0], order[1..];
      assert order == [hook] + rest;
      RunConcat(c, sets, PrepareHook(wanted)(hook), Flatten(rest, PrepareHook(wanted)));
      PrepareAny(c, sets, wanted, hook);
      ZonePass(EndOps(c, sets, PrepareHook(wanted)(hook)), sets, wanted, rest);
      RowsOfFirst(c, wanted, hook, rest);
    }
  }

  function HookOfDelegate(d: Name): string {
    if |NEW| <= |d| then d[|NEW|..] else ""
  }

  lemma DelegateBack(hook: string)
    ensures HookOfDelegate(Delegate(hook)) == hook
  {
  }

  /** The delegates of all wanted hooks, in no particular order. */
  function AllRows(wanted: map<string, seq<Name>>): Chains {
    map d | d in (set hook | hook in wanted :: Delegate(hook)) && HookOfDelegate(d) in wanted :: JumpsTo(wanted[HookOfDelegate(d)])
  }

  /** The order in which the hooks are taken makes no difference. */
  lemma {:induction false} OrderIsImmaterial(wanted: map<string, seq<Name>>, order: seq<string>, d: Name)
    ensures d in ZoneRows(wanted, order) <==> exists hook :: hook in order && hook in wanted && d == Delegate(hook)
    ensures d in ZoneRows(wanted, order) ==> HookOfDelegate(d) in wanted && ZoneRows(wanted, order)[d] == JumpsTo(wanted[HookOfDelegate(d)])
    decreases |order|
  {
    if order != [] {
      OrderIsImmaterial(wanted, order[1..], d);
      DelegateBack(order[0]);
      assert order == [order[0]] + order[1..];
      if d in ZoneRows(wanted, order) && d !in ZoneRows(wanted, order[1..]) {
        assert order[0] in wanted && d == Delegate(order[0]);
      }
    }
  }

  lemma ZoneRowsAll(wanted: map<string, seq<Name>>, order: seq<string>)
    requires forall hook :: hook in wanted ==> hook in order
    ensures ZoneRows(wanted, order) == AllRows(wanted)
  {
    forall d
      ensures d in ZoneRows(wanted, order) <==> d in AllRows(wanted)
      ensures d in ZoneRows(wanted, order) ==> ZoneRows(wanted, order)[d] == AllRows(wanted)[d]
    {
      OrderIsImmaterial(wanted, order, d);
      if d in (set hook | hook in wanted :: Delegate(hook)) {
        var hook :| hook in wanted && d == Delegate(hook);
        DelegateBack(hook);
      }
    }
  }

  // ---------- the zones of a hook ----------

  lemma FirstOfPart(s: set<Name>, part: set<Name>)
    requires TotalOrder(LexLe) && part <= s && s != {} && FirstOf(s, LexLe) in part
    ensures FirstOf(part, LexLe) == FirstOf(s, LexLe)
  {
    assert First(FirstOf(s, LexLe), part, LexLe);
  }

  function ZonesAmong(s: set<Name>, hook: string): set<Name> {
    set z | z in s && ZoneFor(z, hook)
  }

  /** The zones of a hook are exactly the built chains named for it, each once and in sorted order. */
  lemma {:induction false} ZonesAreSorted(s: set<Name>, hook: string)
    ensures ZonesIn(Sorted(s), hook) == Sorted(ZonesAmong(s, hook))
    decreases |s|
  {
    LexOrder();
    if s != {} {
      var x := FirstOf(s, LexLe);
      var part := ZonesAmong(s, hook);
      ZonesAreSorted(s - {x}, hook);
      assert Sorted(s) == [x] + Sorted(s - {x});
      if ZoneFor(x, hook) {
        FirstOfPart(s, part);
        assert ZonesAmong(s - {x}, hook) == part - {x};
      } else {
        assert ZonesAmong(s - {x}, hook) == part;
      }
    }
  }

  function Built(c: Chains): set<Name> {
    set n | n in c && FWTMP < n
  }

  /** The table after fw_prepare_zones: every hook some zone is named for has its delegate. */
  function Zoned(c: Chains): Chains {
    c + AllRows(WantedOf(Listing(c, FWTMP)))
  }

  lemma WantedAre(c: Chains, hook: string)
    ensures var wanted := WantedOf(Listing(c, FWTMP));
      && (hook in wanted <==> hook in HOOKS && ZonesAmong(Built(c), hook) != {})
      && (hook in wanted ==> wanted[hook] == Sorted(ZonesAmong(Built(c), hook)))
  {
    ZonesAreSorted(Built(c), hook);
    assert Listing(c, FWTMP) == Sorted(Built(c));
  }

  /** A delegate prepared jumps to exactly the built chains named for its hook, in sorted order; there is none for a hook without any. */
  lemma DelegatesPrepared(c: Chains, hook: string)
    requires hook in HOOKS
    ensures ZonesAmong(Built(c), hook) != {} ==>
      Delegate(hook) in Zoned(c) && Zoned(c)[Delegate(hook)] == JumpsTo(Sorted(ZonesAmong(Built(c), hook)))
    ensures ZonesAmong(Built(c), hook) == {} && Delegate(hook) !in c ==> Delegate(hook) !in Zoned(c)
  {
    WantedAre(c, hook);
    AllRowsAt(WantedOf(Listing(c, FWTMP)), hook);
  }

  /** Of two zones of a hook, the delegate jumps first to the one with the smaller character where they part. */
  lemma ZonesInOrder(c: Chains, hook: string, x: Name, y: Name, k: nat) returns (i: nat, j: nat)
    requires hook in HOOKS && x in ZonesAmong(Built(c), hook) && y in ZonesAmong(Built(c), hook) && PartsBefore(x, y, k)
    ensures Delegate(hook) in Zoned(c)
    ensures var row := Zoned(c)[Delegate(hook)]; i < j < |row| && row[i] == JumpTo(x) && row[j] == JumpTo(y)
  {
    DelegatesPrepared(c, hook);
    i, j := ListedBefore(ZonesAmong(Built(c), hook), x, y, k);
  }

  /** The hooks are the built-in chains, spelled in lower case. */
  lemma HooksAreBuiltins(hook: string)
    ensures hook in HOOKS <==> Lower(hook) == hook && Upper(hook) in BUILTINS
  {
    HooksSpelled();
    CaseUndone(hook);
  }

  lemma HooksSpelled()
    ensures forall h :: h in HOOKS ==> Lower(h) == h && Upper(h) in BUILTINS
    ensures forall b :: b in BUILTINS ==> Lower(b) in HOOKS
  {
    assert Upper("prerouting") == "PREROUTING" && Upper("postrouting") == "POSTROUTING" && Upper("input") == "INPUT";
    assert Upper("forward") == "FORWARD" && Upper("output") == "OUTPUT";
    assert Lower("prerouting") == "prerouting" && Lower("postrouting") == "postrouting" && Lower("input") == "input";
    assert Lower("forward") == "forward" && Lower("output") == "output";
    BuiltinsSpelled();
  }

  lemma BuiltinsSpelled()
    ensures forall b :: b in BUILTINS ==> Lower(b) in HOOKS
  {
    assert Lower("PREROUTING") == "prerouting" && Lower("POSTROUTING") == "postrouting" && Lower("INPUT") == "input";
    assert Lower("FORWARD") == "forward" && Lower("OUTPUT") == "output";
  }

  lemma AllRowsAt(wanted: map<string, seq<Name>>, hook: string)
    ensures Delegate(hook) in AllRows(wanted) <==> hook in wanted
    ensures hook in wanted ==> AllRows(wanted)[Delegate(hook)] == JumpsTo(wanted[hook])
  {
    DelegateBack(hook);
    if hook in wanted {
      assert Delegate(hook) in (set k | k in wanted :: Delegate(k));
    }
  }

  lemma ZonedKeys(c: Chains, n: Name)
    requires !(NEW <= n)
    ensures n in Zoned(c) <==> n in c
    ensures n in c ==> Zoned(c)[n] == c[n]
  {
    assert forall hook :: NEW <= Delegate(hook);
  }

  lemma SameZones(c: Chains, hook: string)
    ensures ZonesAmong(Built(Zoned(c)), hook) == ZonesAmong(Built(c), hook)
  {
    forall n | ZoneFor(n, hook)
      ensures n in Zoned(c) <==> n in c
    {
      ZonedKeys(c, n);
    }
  }

  lemma SameWanted(c: Chains)
    ensures WantedOf(Listing(Zoned(c), FWTMP)) == WantedOf(Listing(c, FWTMP))
  {
    var w, w' := WantedOf(Listing(c, FWTMP)), WantedOf(Listing(Zoned(c), FWTMP));
    forall hook
      ensures (hook in w <==> hook in w') && (hook in w ==> w[hook] == w'[hook])
    {
      SameZones(c, hook);
      WantedAre(c, hook);
      WantedAre(Zoned(c), hook);
    }
    assert w.Keys == w'.Keys;
  }

  /** Preparing zones a second time changes nothing. */
  lemma PreparingAgain(c: Chains)
    ensures Zoned(Zoned(c)) == Zoned(c)
  {
    SameWanted(c);
  }

  lemma HooksFit(hook: string)
    requires hook in HOOKS
    ensures |Delegate(hook)| < CHAIN_NAME_MAX
  {
    assert |NEW| == 16;
    assert |"prerouting"| == 10 && |"postrouting"| == 11 && |"input"| == 5 && |"forward"| == 7 && |"output"| == 6;
  }

  lemma AlwaysMakeable(c: Chains)
    ensures Makeable(c, WantedOf(Listing(c, FWTMP)))
  {
    var wanted := WantedOf(Listing(c, FWTMP));
    forall hook | hook in wanted
      ensures |Delegate(hook)| < CHAIN_NAME_MAX && forall z :: z in wanted[hook] ==> z in c && z !in BUILTINS
    {
      HooksFit(hook);
      WantedAre(c, hook);
      forall z | z in wanted[hook]
        ensures z in c && z !in BUILTINS
      {
        OneGeneration(z);
      }
    }
  }

  function ZonedTables(tables: Tables): (zoned: Tables)
    ensures zoned.Keys == tables.Keys
  {
    map t | t in tables :: Zoned(tables[t])
  }

  /** One table: nothing is refused, and every hook some zone is named for has its delegate. */
  lemma ZonedTable(c: Chains, sets: set<Name>, order: seq<string>)
    requires forall hook :: hook in HOOKS ==> hook in order
    ensures RunOps(c, sets, ZonePlan(order)(c)).ok && EndOps(c, sets, ZonePlan(order)(c)) == Zoned(c)
  {
    var wanted := WantedOf(Listing(c, FWTMP));
    AlwaysMakeable(c);
    ZonePass(c, sets, wanted, order);
    ZoneRowsAll(wanted, order);
  }

  /** Preparing zones never fails, and leaves every table with its delegates whatever the order of the hooks. */
  lemma ZonesResult(m: Machine, tabs: seq<TabId>, order: seq<string>)
    requires Covering(m, tabs) && forall hook :: hook in HOOKS ==> hook in order
    ensures var run := Sweep(m, tabs, ZonePlan(order)); run.ok && Last(m, run.states) == m.(tables := ZonedTables(m.tables))
  {
    forall t | t in m.tables
      ensures PassOver(m, t, ZonePlan(order)).ok && AfterPass(m, t, ZonePlan(order)) == Zoned(m.tables[t])
    {
      ZonedTable(m.tables[t], m.sets.Keys, order);
    }
    SweepGives(m, tabs, ZonePlan(order), ZonedTables(m.tables));
  }
}
