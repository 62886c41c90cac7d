/** What a commit does to verdicts, when it is refused, and what it leaves behind. */
module CommitProof {
  import opened Text
  import opened Netfilter
  import opened Kernel
  import opened Machines
  import opened Hosts
  import opened Generations
  import opened Commit

  // ---------- verdicts ----------

  lemma RenameCarries(c: Chains, a: Name, b: Name)
    requires Closed(c) && a in c && b !in c
    ensures Carries(c, Renamed(c, a, b), Substitute(a, b)) && OneToOne(c.Keys, Substitute(a, b))
  {
  }

  lemma RenameCloses(c: Chains, a: Name, b: Name)
    requires Closed(c) && a in c
    ensures Closed(Renamed(c, a, b))
  {
  }

  /** A rename to a fresh name is an isomorphism of the jump graph. */
  lemma RenameIsIso(c: Chains, a: Name, b: Name)
    requires Closed(c) && a in c && b !in c
    ensures Iso(c, Renamed(c, a, b), Substitute(a, b))
  {
    RenameCarries(c, a, b);
    forall m | m in Renamed(c, a, b)
      ensures exists n :: n in c && Substitute(a, b)(n) == m
    {
      assert Substitute(a, b)(if m == b then a else m) == m;
    }
  }

  /** Renaming another chain to a fresh name changes no verdict. */
  lemma RenameKeepsFates(c: Chains, sets: Sets, a: Name, b: Name, n: Name)
    requires Closed(c) && a in c && b !in c && n in c && n != a
    ensures SameFates(c, sets, Renamed(c, a, b), sets, n)
  {
    var d, f := Renamed(c, a, b), Substitute(a, b);
    RenameCarries(c, a, b);
    forall p, depth: nat
      ensures Fate(c, sets, n, p, depth) == Fate(d, sets, n, p, depth)
    {
      IsoDescend(c, d, f, sets, n, p, depth + 1);
    }
  }

  lemma RenameKeepsFatesOnwards(c: Chains, d: Chains, sets: Sets, a: Name, b: Name, n: Name)
    requires Closed(d) && a in d && b !in d && n in d && n != a && SameFates(c, sets, d, sets, n)
    ensures Closed(Renamed(d, a, b)) && n in Renamed(d, a, b) && SameFates(c, sets, Renamed(d, a, b), sets, n)
  {
    RenameCloses(d, a, b);
    RenameKeepsFates(d, sets, a, b, n);
  }

  lemma {:induction false} RenameOps(names: seq<Name>, from: string, to: string)
    ensures var ops := Flatten(names, RenameChain(from, to));
      |ops| == |names| && forall i :: 0 <= i < |ops| ==> ops[i] == Rename(names[i], Swap(names[i], from, to))
  {
    if names != [] {
      RenameOps(names[1..], from, to);
    }
  }

  lemma PassCloses(c: Chains, sets: Sets, from: string, to: string)
    requires Closed(c)
    ensures forall d :: d in RunOps(c, sets.Keys, RenamePass(from, to)(c)).states ==> Closed(d)
  {
    var names := Listing(c, from);
    var ops := Flatten(names, RenameChain(from, to));
    RenameOps(names, from, to);
    forall d, i | Closed(d) && 0 <= i < |ops| && Exec(d, sets.Keys, ops[i]).Some?
      ensures Closed(Exec(d, sets.Keys, ops[i]).value)
    {
      RenameCloses(d, names[i], Swap(names[i], from, to));
    }
    RunKeeps(c, sets.Keys, ops, d => Closed(d));
  }

  /** Every state of a renaming pass decides every packet as before, entering at any foreign chain. */
  lemma PassKeepsFates(c: Chains, sets: Sets, from: string, to: string, n: Name)
    requires Closed(c) && n in c && !(from < n)
    ensures forall d :: d in RunOps(c, sets.Keys, RenamePass(from, to)(c)).states ==> n in d && SameFates(c, sets, d, sets, n)
  {
    var names := Listing(c, from);
    var ops := Flatten(names, RenameChain(from, to));
    ListingIs(c, from);
    RenameOps(names, from, to);
    forall d, i | DecidesAs(c, d, sets, n) && 0 <= i < |ops| && Exec(d, sets.Keys, ops[i]).Some?
      ensures DecidesAs(c, Exec(d, sets.Keys, ops[i]).value, sets, n)
    {
      assert names[i] in names;
      RenameKeepsFatesOnwards(c, d, sets, names[i], Swap(names[i], from, to), n);
    }
    RunKeeps(c, sets.Keys, ops, d => DecidesAs(c, d, sets, n));
  }

  /** Entering at `n`, `d` decides every packet as `c` does. */
  ghost predicate DecidesAs(c: Chains, d: Chains, sets: Sets, n: Name) {
    Closed(d) && n in d && SameFates(c, sets, d, sets, n)
  }

  /** One table of a renaming sweep. */
  lemma PassState(c: Chains, sets: Sets, from: string, to: string, x: Chains, n: Name)
    requires Closed(c) && n in c && !(from < n) && (x == c || x in RunOps(c, sets.Keys, RenamePass(from, to)(c)).states)
    ensures n in x && SameFates(c, sets, x, sets, n)
  {
    PassKeepsFates(c, sets, from, to, n);
  }

  lemma SweepCloses(m: Machine, tabs: seq<TabId>, from: string, to: string, s: Machine)
    requires Along(m, s, tabs, RenamePass(from, to)) && ClosedTables(m)
    ensures ClosedTables(s)
  {
    forall t | t in m.tables
      ensures Closed(s.tables[t])
    {
      PassCloses(m.tables[t], m.sets, from, to);
    }
  }

  lemma SweepKeepsVerdicts(m: Machine, tabs: seq<TabId>, from: string, to: string, s: Machine)
    requires NoRepeat(tabs) && (forall t :: t in tabs ==> t in m.tables) && ClosedTables(m)
    requires (forall n :: Foreign(n) ==> !(from < n)) && (s == m || s in Sweep(m, tabs, RenamePass(from, to)).states)
    ensures SameVerdicts(m, s) && ClosedTables(s)
  {
    SweepStates(m, tabs, RenamePass(from, to));
    assert Along(m, s, tabs, RenamePass(from, to));
    SweepCloses(m, tabs, from, to, s);
    forall t, n | t in m.tables && n in m.tables[t] && Foreign(n)
      ensures n in s.tables[t] && SameFates(m.tables[t], m.sets, s.tables[t], s.sets, n)
    {
      PassState(m.tables[t], m.sets, from, to, s.tables[t], n);
    }
  }

  lemma TurnKeepsVerdicts(m: Machine, tabs: seq<TabId>, text: string, s: Machine)
    requires NoRepeat(tabs) && (forall t :: t in tabs ==> t in m.tables) && ClosedTables(m)
    requires s in Turn(m, tabs, text).states
    ensures SameVerdicts(m, s) && ClosedTables(s)
  {
    var (from, to) := if text == REAL_TO_DELETE then (FWR, FWD) else (FWTMP, FWR);
    var sweep := Sweep(m, tabs, RenamePass(from, to));
    var e := Last(m, sweep.states);
    SweepKeepsVerdicts(m, tabs, from, to, if s in sweep.states then s else e);
  }

  /** At every state a commit goes through, whether or not it is refused in the end, every packet gets the verdict it got before. */
  lemma {:induction false} CommitKeepsVerdicts(m: Machine, tabs: seq<TabId>, s: Machine)
    requires NoRepeat(tabs) && (forall t :: t in tabs ==> t in m.tables) && ClosedTables(m)
    requires s in CommitRun(m, tabs).states
    ensures SameVerdicts(m, s) && ClosedTables(s)
    decreases StepsLeft(m.step)
  {
    StepOrder();
    if m.step == None {
      var first := m.(step := Some(REAL_TO_DELETE));
      if s != first {
        CommitKeepsVerdicts(first, tabs, s);
      }
    } else if m.step != Some(DONE) {
      var turn := Turn(m, tabs, m.step.value);
      CommitUnrolls(m, tabs);
      if s in turn.states {
        TurnKeepsVerdicts(m, tabs, m.step.value, s);
      } else {
        var m' := Last(m, turn.states);
        TurnKeepsVerdicts(m, tabs, m.step.value, m');
        CommitKeepsVerdicts(m', tabs, s);
        SameVerdictsThrough(m, m', s);
      }
    }
  }

  // ---------- when a pass is refused, and what it leaves ----------

  /** Every chain a pass would rename can take its new name: nothing has it yet, and it fits. */
  predicate Renamable(c: Chains, from: string, to: string) {
    forall n :: n in c && from < n ==> CanRename(c, n, Swap(n, from, to))
  }

  lemma RenamableStep(c: Chains, a: Name, from: string, to: string)
    requires Apart(from, to) && from < a && CanRename(c, a, Swap(a, from, to))
    ensures Renamable(c, from, to) <==> Renamable(Renamed(c, a, Swap(a, from, to)), from, to)
  {
    var b := Swap(a, from, to);
    forall n | from < n && n != a
      ensures Swap(n, from, to) != a && Swap(n, from, to) != b && n != b
    {
      SwapBack(n, from, to);
      SwapBack(a, from, to);
      if to <= a { CommonPrefix(from, to, a); }
      if from <= b { CommonPrefix(from, to, b); }
    }
  }

  lemma PassStopsAtFirst(c: Chains, sets: set<Name>, from: string, to: string)
    requires Apart(from, to) && Listing(c, from) != []
    requires var a := Listing(c, from)[0]; !CanRename(c, a, Swap(a, from, to))
    ensures var ops := RenamePass(from, to)(c); !RunOps(c, sets, ops).ok && EndOps(c, sets, ops) == c
  {
    var names := Listing(c, from);
    FlattenFirst(names, RenameChain(from, to));
    var op := Rename(names[0], Swap(names[0], from, to));
    assert Exec(c, sets, op).None?;
    RunFirst(c, sets, op, Flatten(names[1..], RenameChain(from, to)));
  }

  lemma OpsUnroll(c: Chains, sets: set<Name>, op: Op, c': Chains, rest: seq<Op>, ops: seq<Op>)
    requires ops == [op] + rest && Exec(c, sets, op) == Some(c')
    ensures EndOps(c, sets, ops) == EndOps(c', sets, rest) && RunOps(c, sets, ops).ok == RunOps(c', sets, rest).ok
  {
    RunFirst(c, sets, op, rest);
  }

  /** A pass renames the first chain listed and goes on as a pass over what that gives. */
  lemma PassUnrolls(c: Chains, sets: set<Name>, from: string, to: string, c': Chains)
    requires Apart(from, to) && Listing(c, from) != []
    requires var a := Listing(c, from)[0]; CanRename(c, a, Swap(a, from, to)) && c' == Renamed(c, a, Swap(a, from, to))
    ensures |Listing(c', from)| < |Listing(c, from)|
    ensures EndOps(c, sets, RenamePass(from, to)(c)) == EndOps(c', sets, RenamePass(from, to)(c'))
    ensures RunOps(c, sets, RenamePass(from, to)(c)).ok == RunOps(c', sets, RenamePass(from, to)(c')).ok
  {
    var a := Listing(c, from)[0];
    var b := Swap(a, from, to);
    PlanAfter(c, from, to, a, b, c');
    RenameTaken(c, sets, a, b);
    OpsUnroll(c, sets, Rename(a, b), c', RenamePass(from, to)(c'), RenamePass(from, to)(c));
  }

  lemma RenameTaken(c: Chains, sets: set<Name>, a: Name, b: Name)
    requires CanRename(c, a, b)
    ensures Exec(c, sets, Rename(a, b)) == Some(Renamed(c, a, b))
  {
  }

  lemma PlanAfter(c: Chains, from: string, to: string, a: Name, b: Name, c': Chains)
    requires Apart(from, to) && Listing(c, from) != [] && a == Listing(c, from)[0] && b == Swap(a, from, to)
    requires a in c && c' == Renamed(c, a, b)
    ensures RenamePass(from, to)(c) == [Rename(a, b)] + RenamePass(from, to)(c') && |Listing(c', from)| < |Listing(c, from)|
  {
    PlanUnrolls(c, from, to);
  }

  /** A pass gets to its end exactly when no new name is taken or too long to begin with. */
  lemma {:induction false} PassRefusal(c: Chains, sets: set<Name>, from: string, to: string)
    requires Apart(from, to)
    ensures RunOps(c, sets, RenamePass(from, to)(c)).ok <==> Renamable(c, from, to)
    decreases |Listing(c, from)|
  {
    ListingIs(c, from);
    if Listing(c, from) != [] {
      var a := Listing(c, from)[0];
      if CanRename(c, a, Swap(a, from, to)) {
        PassUnrolls(c, sets, from, to, Renamed(c, a, Swap(a, from, to)));
        PassRefusal(Renamed(c, a, Swap(a, from, to)), sets, from, to);
        RenamableStep(c, a, from, to);
      } else {
        PassStopsAtFirst(c, sets, from, to);
      }
    } else {
      assert forall n :: n in c && from < n ==> n in Listing(c, from);
    }
  }

  function Moved(from: string, to: string): Name -> Name {
    (n: Name) => if from < n then Swap(n, from, to) else n
  }

  ghost function Preimage(names: set<Name>, f: Name -> Name, m: Name): Name
    requires exists n :: n in names && f(n) == m
  {
    var n :| n in names && f(n) == m; n
  }

  /** The one table that `c` becomes when its chains are renamed by `f`. */
  ghost function Image(c: Chains, f: Name -> Name): Chains {
    map m | m in (set n | n in c :: f(n)) :: Relabel(c[Preimage(c.Keys, f, m)], f)
  }

  lemma ImageIsIso(c: Chains, f: Name -> Name)
    requires OneToOne(c.Keys, f)
    ensures Iso(c, Image(c, f), f)
  {
    forall n | n in c
      ensures f(n) in Image(c, f) && Image(c, f)[f(n)] == Relabel(c[n], f)
    {
      assert Preimage(c.Keys, f, f(n)) == n;
    }
  }

  lemma RenamableIsOneToOne(c: Chains, from: string, to: string)
    requires Renamable(c, from, to)
    ensures OneToOne(c.Keys, Moved(from, to))
  {
    forall n, m | n in c && m in c && Moved(from, to)(n) == Moved(from, to)(m)
      ensures n == m
    {
      if from < n { SwapBack(n, from, to); }
      if from < m { SwapBack(m, from, to); }
    }
  }

  /** A relabelling that moves none of the names there are leaves the table as it is. */
  lemma IsoByNothing(e: Chains, d: Chains, f: Name -> Name)
    requires Closed(e) && Iso(e, d, f) && forall n :: n in e ==> f(n) == n
    ensures e == d
  {
    forall n | n in e
      ensures n in d && e[n] == d[n]
    {
      assert Relabel(e[n], f) == e[n];
    }
  }

  lemma RelabelTwice(rs: seq<Rule>, f: Name -> Name, a: Name, b: Name)
    requires f(a) == f(b)
    ensures Relabel(Relabel(rs, Substitute(a, b)), f) == Relabel(rs, f)
  {
  }

  /** A renaming that sends `a` and `b` to one place does not notice that `a` was renamed to `b`. */
  lemma RenameConverges(c: Chains, d: Chains, f: Name -> Name, a: Name, b: Name)
    requires Iso(c, d, f) && a in c && b !in c && f(a) == f(b)
    ensures Iso(Renamed(c, a, b), d, f)
  {
    var c' := Renamed(c, a, b);
    forall n | n in c'
      ensures f(n) in d && d[f(n)] == Relabel(c'[n], f)
    {
      RelabelTwice(if n == b then c[a] else c[n], f, a, b);
    }
    assert Covers(c', d, f) by {
      forall m | m in d
        ensures exists n :: n in c' && f(n) == m
      {
        var n :| n in c && f(n) == m;
        assert (if n == a then b else n) in c';
      }
    }
  }

  lemma {:induction false} PassConverges(c: Chains, d: Chains, sets: set<Name>, from: string, to: string)
    requires Apart(from, to) && Iso(c, d, Moved(from, to))
    ensures Iso(EndOps(c, sets, RenamePass(from, to)(c)), d, Moved(from, to))
    decreases |Listing(c, from)|
  {
    if Listing(c, from) != [] {
      var a := Listing(c, from)[0];
      var b := Swap(a, from, to);
      ListingIs(c, from);
      if CanRename(c, a, b) {
        PassUnrolls(c, sets, from, to, Renamed(c, a, b));
        if from <= b { CommonPrefix(from, to, b); }
        RenameConverges(c, d, Moved(from, to), a, b);
        PassConverges(Renamed(c, a, b), d, sets, from, to);
      } else {
        PassStopsAtFirst(c, sets, from, to);
      }
    }
  }

  /** A pass that gets to its end has renamed every chain it was to rename. */
  lemma PassLeavesNone(c: Chains, sets: set<Name>, from: string, to: string)
    requires Apart(from, to) && RunOps(c, sets, RenamePass(from, to)(c)).ok
    ensures forall n :: n in EndOps(c, sets, RenamePass(from, to)(c)) ==> !(from < n)
  {
    var plan := RenamePass(from, to);
    var e := EndOps(c, sets, plan(c));
    RenamePassResumes(from, to, sets);
    PassDone(c, sets, plan);
    ListingIs(e, from);
    RenameOps(Listing(e, from), from, to);
    assert |plan(e)| == |Listing(e, from)|;
    assert forall n :: n in e && from < n ==> n in Listing(e, from);
  }

  /** A pass that gets to its end leaves the table it started with, relabelled all at once. */
  lemma PassResult(c: Chains, sets: Sets, from: string, to: string)
    requires Apart(from, to) && Closed(c) && Renamable(c, from, to)
    ensures var e := EndOps(c, sets.Keys, RenamePass(from, to)(c));
      Closed(e) && Iso(c, e, Moved(from, to)) && forall n :: n in e ==> !(from < n)
  {
    var f := Moved(from, to);
    RenamableIsOneToOne(c, from, to);
    ImageIsIso(c, f);
    PassConverges(c, Image(c, f), sets.Keys, from, to);
    PassEnds(c, sets, from, to);
    IsoByNothing(EndOps(c, sets.Keys, RenamePass(from, to)(c)), Image(c, f), f);
  }

  lemma PassEnds(c: Chains, sets: Sets, from: string, to: string)
    requires Apart(from, to) && Closed(c) && Renamable(c, from, to)
    ensures var e := EndOps(c, sets.Keys, RenamePass(from, to)(c)); Closed(e) && forall n :: n in e ==> !(from < n)
  {
    PassRefusal(c, sets.Keys, from, to);
    PassLeavesNone(c, sets.Keys, from, to);
    PassCloses(c, sets, from, to);
  }

  // ---------- when a commit is refused, and what it leaves ----------

  ghost predicate AllRenamable(m: Machine, from: string, to: string) {
    forall t :: t in m.tables ==> Renamable(m.tables[t], from, to)
  }

  /** Only tables differ, and each is the first one's relabelled by `f`. */
  ghost predicate IsoMachines(m: Machine, e: Machine, f: Name -> Name) {
    && e.tables.Keys == m.tables.Keys && e.sets == m.sets
    && forall t :: t in m.tables ==> Iso(m.tables[t], e.tables[t], f)
  }

  ghost predicate NoneLeft(m: Machine, prefix: string) {
    forall t, n :: t in m.tables && n in m.tables[t] ==> !(prefix < n)
  }

  lemma SweepResult(m: Machine, tabs: seq<TabId>, from: string, to: string)
    requires Covering(m, tabs) && ClosedTables(m) && Apart(from, to)
    ensures var run := Sweep(m, tabs, RenamePass(from, to));
      var e := Last(m, run.states);
      && (run.ok <==> AllRenamable(m, from, to))
      && (run.ok ==> IsoMachines(m, e, Moved(from, to)) && ClosedTables(e) && NoneLeft(e, from) && e == m.(tables := e.tables))
  {
    var plan := RenamePass(from, to);
    SweepEnds(m, tabs, plan);
    forall t | t in m.tables
      ensures PassOver(m, t, plan).ok <==> Renamable(m.tables[t], from, to)
    {
      PassRefusal(m.tables[t], m.sets.Keys, from, to);
    }
    forall t | t in m.tables && Renamable(m.tables[t], from, to)
      ensures var e := AfterPass(m, t, plan); Closed(e) && Iso(m.tables[t], e, Moved(from, to)) && forall n :: n in e ==> !(from < n)
    {
      PassResult(m.tables[t], m.sets, from, to);
    }
  }

  lemma RelabelThrough(rs: seq<Rule>, f: Name -> Name, g: Name -> Name, h: Name -> Name)
    requires forall n :: h(n) == g(f(n))
    ensures Relabel(Relabel(rs, f), g) == Relabel(rs, h)
  {
  }

  lemma IsoThrough(c: Chains, d: Chains, e: Chains, f: Name -> Name, g: Name -> Name, h: Name -> Name)
    requires Iso(c, d, f) && Iso(d, e, g) && forall n :: h(n) == g(f(n))
    ensures Iso(c, e, h)
  {
    forall n | n in c
      ensures h(n) in e && e[h(n)] == Relabel(c[n], h)
    {
      RelabelThrough(c[n], f, g, h);
      assert f(n) in d;
    }
    forall m | m in e
      ensures exists n :: n in c && h(n) == m
    {
      var k :| k in d && g(k) == m;
      var n :| n in c && f(n) == k;
      assert h(n) == m;
    }
  }

  /** Where a commit takes each chain: the live generation goes out, the candidate becomes the live one. */
  function Committed(): Name -> Name {
    (n: Name) => if Real(n) then Swap(n, FWR, FWD) else if Tmp(n) then Swap(n, FWTMP, FWR) else n
  }

  lemma CommittedInTwo(n: Name)
    ensures Committed()(n) == Moved(FWTMP, FWR)(Moved(FWR, FWD)(n))
  {
    OneGeneration(n);
    if Real(n) { OneGeneration(Swap(n, FWR, FWD)); }
  }

  /** Once no live chain is left under the live prefix, every candidate chain can take it. */
  lemma SecondPassIsFree(c: Chains, d: Chains, sets: set<Name>)
    requires SoundTable(c, sets) && Iso(c, d, Moved(FWR, FWD)) && forall n :: n in d ==> !Real(n)
    ensures Renamable(d, FWTMP, FWR)
  {
    forall n | n in d && Tmp(n)
      ensures CanRename(d, n, Swap(n, FWTMP, FWR))
    {
      var k :| k in c && Moved(FWR, FWD)(k) == n;
      if Real(k) { OneGeneration(Swap(k, FWR, FWD)); }
      OneGeneration(n);
      OneGeneration(Swap(n, FWTMP, FWR));
    }
  }

  /** The phase of one step, when it gets to its end. */
  lemma TurnResult(m: Machine, tabs: seq<TabId>, text: string, from: string, to: string, next: string)
    requires Covering(m, tabs) && ClosedTables(m) && Apart(from, to)
    requires Turn(m, tabs, text) == Phase(m, tabs, RenamePass(from, to), next)
    ensures var turn := Turn(m, tabs, text);
      var e := Last(m, turn.states);
      && (turn.ok <==> AllRenamable(m, from, to))
      && (turn.ok ==> IsoMachines(m, e, Moved(from, to)) && ClosedTables(e) && NoneLeft(e, from))
      && (turn.ok ==> e == m.(tables := e.tables, step := Some(next)))
  {
    SweepResult(m, tabs, from, to);
  }

  /** A finished commit, seen from the state it began in. */
  ghost predicate Finished(m: Machine, e: Machine, f: Name -> Name) {
    IsoMachines(m, e, f) && ClosedTables(e) && e.step == None && e.version == m.version + 1
  }

  /** A commit resumed in its second half. */
  lemma SecondHalf(m: Machine, tabs: seq<TabId>)
    requires Covering(m, tabs) && ClosedTables(m) && m.step == Some(TMP_TO_REAL)
    ensures var run := CommitRun(m, tabs);
      && (run.ok <==> AllRenamable(m, FWTMP, FWR))
      && (run.ok ==> Finished(m, Last(m, run.states), Moved(FWTMP, FWR)))
  {
    StepOrder();
    PrefixesApart();
    TurnResult(m, tabs, TMP_TO_REAL, FWTMP, FWR, DONE);
    CommitUnrolls(m, tabs);
  }

  /**
   A commit started from the beginning gets to its end exactly when no live chain has an outgoing
   namesake or a name too long for one. It then leaves every table relabelled, live chains going
   out and candidates going live, and the set version moved on.
   */
  lemma CommitResult(m: Machine, tabs: seq<TabId>)
    requires Covering(m, tabs) && Sound(m) && (m.step == None || m.step == Some(REAL_TO_DELETE))
    ensures var run := CommitRun(m, tabs);
      && (run.ok <==> AllRenamable(m, FWR, FWD))
      && (run.ok ==> Finished(m, Last(m, run.states), Committed()))
  {
    if m.step == None {
      var m0 := m.(step := Some(REAL_TO_DELETE));
      FirstHalf(m0, tabs);
      LastConcat(m, [m0], CommitRun(m0, tabs).states);
      StepWrittenFirst(m, m0, tabs);
    } else {
      FirstHalf(m, tabs);
    }
  }

  lemma StepWrittenFirst(m: Machine, m0: Machine, tabs: seq<TabId>)
    requires (forall t :: t in tabs ==> t in m.tables) && m.step == None && m0 == m.(step := Some(REAL_TO_DELETE))
    ensures CommitRun(m, tabs) == Then(Run([m0], true), CommitRun(m0, tabs))
    ensures AllRenamable(m0, FWR, FWD) <==> AllRenamable(m, FWR, FWD)
    ensures forall e, f :: Finished(m0, e, f) <==> Finished(m, e, f)
  {
  }

  lemma FirstHalf(m: Machine, tabs: seq<TabId>)
    requires Covering(m, tabs) && Sound(m) && m.step == Some(REAL_TO_DELETE)
    ensures var run := CommitRun(m, tabs);
      && (run.ok <==> AllRenamable(m, FWR, FWD))
      && (run.ok ==> Finished(m, Last(m, run.states), Committed()))
  {
    StepOrder();
    PrefixesApart();
    SoundIsClosedEverywhere(m);
    TurnResult(m, tabs, REAL_TO_DELETE, FWR, FWD, TMP_TO_REAL);
    CommitUnrolls(m, tabs);
    var turn := Turn(m, tabs, REAL_TO_DELETE);
    if turn.ok {
      var half := Last(m, turn.states);
      SecondHalf(half, tabs);
      HalvesMeet(m, half, Last(half, CommitRun(half, tabs).states));
      LastConcat(m, turn.states, CommitRun(half, tabs).states);
    }
  }

  lemma SoundIsClosedEverywhere(m: Machine)
    requires Sound(m)
    ensures ClosedTables(m)
  {
    forall t | t in m.tables
      ensures Closed(m.tables[t])
    {
      SoundIsClosed(m.tables[t], m.sets.Keys);
    }
  }

  lemma HalvesMeet(m: Machine, half: Machine, e: Machine)
    requires Sound(m) && IsoMachines(m, half, Moved(FWR, FWD)) && NoneLeft(half, FWR)
    ensures AllRenamable(half, FWTMP, FWR)
    ensures IsoMachines(half, e, Moved(FWTMP, FWR)) ==> IsoMachines(m, e, Committed())
  {
    forall t | t in m.tables
      ensures Renamable(half.tables[t], FWTMP, FWR)
    {
      SecondPassIsFree(m.tables[t], half.tables[t], m.sets.Keys);
    }
    if IsoMachines(half, e, Moved(FWTMP, FWR)) {
      forall n {
        CommittedInTwo(n);
      }
      forall t | t in m.tables
        ensures Iso(m.tables[t], e.tables[t], Committed())
      {
        IsoThrough(m.tables[t], half.tables[t], e.tables[t], Moved(FWR, FWD), Moved(FWTMP, FWR), Committed());
      }
    }
  }
}
