/**
 The machine a reload runs on: iptables tables, IP sets, the commit step file and the set
 version file, and the commands that change them. A command that is refused changes nothing.
 */
module Kernel {
  import opened Seqs
  import opened Text
  import opened Netfilter

  /** Chain names are shorter than this. */
  const CHAIN_NAME_MAX: nat := 29

  const BUILTINS: set<Name> := {"PREROUTING", "INPUT", "FORWARD", "OUTPUT", "POSTROUTING"}

  // ---------- commands on one table ----------

  datatype Op =
    | NewChain(n: Name)                 // -N
    | Append(n: Name, r: Rule)          // -A
    | Delete(n: Name, r: Rule)          // -D
    | Flush(n: Name)                    // -F
    | DropChain(n: Name)                // -X
    | Rename(n: Name, b: Name)          // -E
    | Load(news: Chains)                // a table block of iptables-restore --noflush
    | Attempt(op: Op)                   // op 2>/dev/null || true

  predicate Mentioned(c: Chains, n: Name) {
    exists m, i :: m in c && 0 <= i < |c[m]| && c[m][i].target == Jump(n)
  }

  predicate RuleFits(r: Rule, chains: set<Name>, sets: set<Name>) {
    && (r.target.Jump? ==> r.target.chain in chains && r.target.chain !in BUILTINS)
    && (forall t :: t in r.tests && t.SetTest? ==> t.name in sets)
  }

  predicate RulesFit(rs: seq<Rule>, chains: set<Name>, sets: set<Name>) {
    forall r :: r in rs ==> RuleFits(r, chains, sets)
  }

  /** `-D` takes the first rule equal to `r`. */
  function RemoveFirst(rs: seq<Rule>, r: Rule): seq<Rule> {
    if rs == [] then [] else if rs[0] == r then rs[1..] else [rs[0]] + RemoveFirst(rs[1..], r)
  }

  function Substitute(a: Name, b: Name): Name -> Name {
    n => if n == a then b else n
  }

  /** `-E a b`: the chain and every jump to it take the new name. */
  function Renamed(c: Chains, a: Name, b: Name): Chains
    requires a in c
  {
    map n | n in c.Keys - {a} + {b} :: Relabel(if n == b then c[a] else c[n], Substitute(a, b))
  }

  predicate CanRename(c: Chains, a: Name, b: Name) {
    a in c && b !in c && a !in BUILTINS && b !in BUILTINS && |b| < CHAIN_NAME_MAX
  }

  predicate CanLoad(c: Chains, sets: set<Name>, news: Chains) {
    forall n :: n in news ==>
      n !in BUILTINS && |n| < CHAIN_NAME_MAX && RulesFit(news[n], c.Keys + news.Keys, sets)
  }

  /** The table after the command, or None when it is refused. `sets` are the sets that exist. */
  function Exec(c: Chains, sets: set<Name>, op: Op): Option<Chains> {
    match op
    case NewChain(n) => if n !in c && |n| < CHAIN_NAME_MAX then Some(c[n := []]) else None
    case Append(n, r) => if n in c && RuleFits(r, c.Keys, sets) then Some(c[n := c[n] + [r]]) else None
    case Delete(n, r) => if n in c && r in c[n] then Some(c[n := RemoveFirst(c[n], r)]) else None
    case Flush(n) => if n in c then Some(c[n := []]) else None
    case DropChain(n) => if n in c && n !in BUILTINS && c[n] == [] && !Mentioned(c, n) then Some(c - {n}) else None
    case Rename(a, b) => if CanRename(c, a, b) then Some(Renamed(c, a, b)) else None
    case Load(news) => if CanLoad(c, sets, news) then Some(c + news) else None
    case Attempt(o) =>
      var after := Exec(c, sets, o);
      Some(if after.Some? then after.value else c)
  }

  /** A chain is made only where there is none, emptied only where there is one, and a rule or its removal needs its chain. */
  lemma RefusalsAre(c: Chains, sets: set<Name>, n: Name, r: Rule)
    ensures Exec(c, sets, NewChain(n)) == if n in c || |n| >= 29 then None else Some(c[n := []])
    ensures Exec(c, sets, Flush(n)).Some? <==> n in c
    ensures n !in c ==> Exec(c, sets, Append(n, r)).None? && Exec(c, sets, Delete(n, r)).None?
    ensures n in c && r !in c[n] ==> Exec(c, sets, Delete(n, r)).None?
    ensures r.target.Jump? && (r.target.chain !in c || r.target.chain in BUILTINS) ==> Exec(c, sets, Append(n, r)).None?
  {
  }

  /** A chain with rules, a built-in one, and one that something jumps to are not dropped; one that is leaves all others as they are. */
  lemma DropIs(c: Chains, sets: set<Name>, n: Name)
    ensures Exec(c, sets, DropChain(n)).Some? <==>
      n in c && |c[n]| == 0 && n !in BUILTINS && forall m, r :: m in c && r in c[m] ==> r.target != Jump(n)
    ensures Exec(c, sets, DropChain(n)).Some? ==> Exec(c, sets, DropChain(n)).value == map m | m in c && m != n :: c[m]
  {
    if Mentioned(c, n) {
      var m, i :| m in c && 0 <= i < |c[m]| && c[m][i].target == Jump(n);
      assert c[m][i] in c[m];
    }
    if m, r :| m in c && r in c[m] && r.target == Jump(n) {
      var i :| 0 <= i < |c[m]| && c[m][i] == r;
    }
  }

  /** Taking out the first equal rule leaves the rules before it, and those after it, in their order. */
  lemma {:induction false} FirstIsRemoved(before: seq<Rule>, r: Rule, after: seq<Rule>)
    requires r !in before
    ensures RemoveFirst(before + [r] + after, r) == before + after
    decreases |before|
  {
    var rs := before + [r] + after;
    if before == [] {
      assert rs == [r] + after;
    } else {
      assert rs[0] == before[0] && rs[1..] == before[1..] + [r] + after;
      FirstIsRemoved(before[1..], r, after);
      assert before + after == [before[0]] + (before[1..] + after);
    }
  }

  /** The tables a list of commands goes through; it stops at the first one refused. */
  datatype Trace = Trace(states: seq<Chains>, ok: bool)

  function RunOps(c: Chains, sets: set<Name>, ops: seq<Op>): Trace
    decreases |ops|
  {
    if ops == [] then Trace([], true)
    else
      var after := Exec(c, sets, ops[0]);
      if after.None? then Trace([], false)
      else
        var rest := RunOps(after.value, sets, ops[1..]);
        Trace([after.value] + rest.states, rest.ok)
  }

  function LastOf(c: Chains, states: seq<Chains>): Chains {
    if states == [] then c else states[|states| - 1]
  }

  function EndOps(c: Chains, sets: set<Name>, ops: seq<Op>): Chains {
    LastOf(c, RunOps(c, sets, ops).states)
  }

  lemma RunFirst(c: Chains, sets: set<Name>, op: Op, rest: seq<Op>)
    ensures var after := Exec(c, sets, op);
      if after.None? then RunOps(c, sets, [op] + rest) == Trace([], false) && EndOps(c, sets, [op] + rest) == c
      else
        var later := RunOps(after.value, sets, rest);
        && RunOps(c, sets, [op] + rest) == Trace([after.value] + later.states, later.ok)
        && EndOps(c, sets, [op] + rest) == EndOps(after.value, sets, rest)
  {
    assert ([op] + rest)[1..] == rest;
  }

  lemma {:induction false} RunConcat(c: Chains, sets: set<Name>, xs: seq<Op>, ys: seq<Op>)
    ensures var first := RunOps(c, sets, xs);
      var second := RunOps(EndOps(c, sets, xs), sets, ys);
      && RunOps(c, sets, xs + ys) == (if first.ok then Trace(first.states + second.states, second.ok) else first)
      && EndOps(c, sets, xs + ys) == (if first.ok then EndOps(EndOps(c, sets, xs), sets, ys) else EndOps(c, sets, xs))
    decreases |xs|
  {
    if xs == [] {
      assert xs + ys == ys;
    } else {
      var op, rest := xs[0], xs[1..];
      assert xs == [op] + rest;
      Associative([op], rest, ys);
      RunFirst(c, sets, op, rest + ys);
      RunFirst(c, sets, op, rest);
      var after := Exec(c, sets, op);
      if after.Some? {
        RunConcat(after.value, sets, rest, ys);
        Associative([after.value], RunOps(after.value, sets, rest).states, RunOps(EndOps(after.value, sets, rest), sets, ys).states);
      }
    }
  }

  /** What every command that succeeds keeps, every state of a run has. */
  lemma {:induction false} RunKeeps(c: Chains, sets: set<Name>, ops: seq<Op>, inv: Chains -> bool)
    requires inv(c)
    requires forall d, i :: inv(d) && 0 <= i < |ops| && Exec(d, sets, ops[i]).Some? ==> inv(Exec(d, sets, ops[i]).value)
    ensures forall d :: d in RunOps(c, sets, ops).states ==> inv(d)
    ensures inv(EndOps(c, sets, ops))
    decreases |ops|
  {
    if ops != [] {
      var after := Exec(c, sets, ops[0]);
      if after.Some? {
        assert forall i :: 0 <= i < |ops[1..]| ==> ops[1..][i] == ops[i + 1];
        RunKeeps(after.value, sets, ops[1..], inv);
        var rest := RunOps(after.value, sets, ops[1..]).states;
        assert RunOps(c, sets, ops).states == [after.value] + rest;
      }
    }
  }

  // ---------- what the kernel guarantees between commands ----------

  /** Names fit, and every jump and every set match names something that exists. */
  ghost predicate SoundTable(c: Chains, sets: set<Name>) {
    forall n :: n in c ==> |n| < CHAIN_NAME_MAX && RulesFit(c[n], c.Keys, sets)
  }

  lemma SoundIsClosed(c: Chains, sets: set<Name>)
    requires SoundTable(c, sets)
    ensures Closed(c)
  {
    forall n | n in c
      ensures TargetsIn(c[n], c.Keys)
    {
      assert forall i :: 0 <= i < |c[n]| ==> c[n][i] in c[n];
    }
  }

  lemma FitsMore(rs: seq<Rule>, chains: set<Name>, sets: set<Name>, chains': set<Name>, sets': set<Name>)
    requires RulesFit(rs, chains, sets) && chains <= chains' && sets <= sets'
    ensures RulesFit(rs, chains', sets')
  {
  }

  /** Replacing one chain's rules by fitting ones, the chain being there or new. */
  lemma SoundWithRules(c: Chains, sets: set<Name>, n: Name, rs: seq<Rule>)
    requires SoundTable(c, sets) && |n| < CHAIN_NAME_MAX && RulesFit(rs, c.Keys + {n}, sets)
    ensures SoundTable(c[n := rs], sets)
  {
    forall m | m in c
      ensures RulesFit(c[m], c.Keys + {n}, sets)
    {
      FitsMore(c[m], c.Keys, sets, c.Keys + {n}, sets);
    }
    assert c[n := rs].Keys == c.Keys + {n};
  }

  lemma SoundWithoutChain(c: Chains, sets: set<Name>, n: Name)
    requires SoundTable(c, sets) && !Mentioned(c, n)
    ensures SoundTable(c - {n}, sets)
  {
    forall m | m in c && m != n
      ensures RulesFit(c[m], c.Keys - {n}, sets)
    {
      forall r | r in c[m]
        ensures r.target != Jump(n)
      {
        var i :| 0 <= i < |c[m]| && c[m][i] == r;
        assert c[m][i].target != Jump(n);
      }
    }
    assert (c - {n}).Keys == c.Keys - {n};
  }

  lemma SoundRenamed(c: Chains, sets: set<Name>, a: Name, b: Name)
    requires SoundTable(c, sets) && CanRename(c, a, b)
    ensures SoundTable(Renamed(c, a, b), sets)
  {
    var c' := Renamed(c, a, b);
    forall n | n in c'
      ensures |n| < CHAIN_NAME_MAX && RulesFit(c'[n], c'.Keys, sets)
    {
      var was := if n == b then c[a] else c[n];
      RelabelledFit(was, c.Keys, sets, a, b);
      assert c'.Keys == c.Keys - {a} + {b};
    }
  }

  lemma RelabelledFit(rs: seq<Rule>, chains: set<Name>, sets: set<Name>, a: Name, b: Name)
    requires RulesFit(rs, chains, sets) && b !in BUILTINS
    ensures RulesFit(Relabel(rs, Substitute(a, b)), chains - {a} + {b}, sets)
  {
    var rs' := Relabel(rs, Substitute(a, b));
    forall r | r in rs'
      ensures RuleFits(r, chains - {a} + {b}, sets)
    {
      var i :| 0 <= i < |rs'| && rs'[i] == r;
      assert rs[i] in rs && r == Retarget(rs[i], Substitute(a, b));
    }
  }

  lemma SoundLoaded(c: Chains, sets: set<Name>, news: Chains)
    requires SoundTable(c, sets) && CanLoad(c, sets, news)
    ensures SoundTable(c + news, sets)
  {
    forall m | m in c
      ensures RulesFit(c[m], c.Keys + news.Keys, sets)
    {
      FitsMore(c[m], c.Keys, sets, c.Keys + news.Keys, sets);
    }
    assert (c + news).Keys == c.Keys + news.Keys;
  }

  lemma RemovedIsIn(rs: seq<Rule>, r: Rule)
    ensures forall x :: x in RemoveFirst(rs, r) ==> x in rs
  {
  }

  /** No command leaves a dangling jump, a match on a missing set, or a name that does not fit. */
  lemma ExecSound(c: Chains, sets: set<Name>, op: Op)
    requires SoundTable(c, sets) && Exec(c, sets, op).Some?
    ensures SoundTable(Exec(c, sets, op).value, sets)
  {
    match op
    case NewChain(n) => SoundWithRules(c, sets, n, []);
    case Append(n, r) =>
      assert c.Keys + {n} == c.Keys;
      SoundWithRules(c, sets, n, c[n] + [r]);
    case Delete(n, r) =>
      assert c.Keys + {n} == c.Keys;
      RemovedIsIn(c[n], r);
      SoundWithRules(c, sets, n, RemoveFirst(c[n], r));
    case Flush(n) => SoundWithRules(c, sets, n, []);
    case DropChain(n) => SoundWithoutChain(c, sets, n);
    case Rename(a, b) => SoundRenamed(c, sets, a, b);
    case Load(news) => SoundLoaded(c, sets, news);
    case Attempt(o) =>
      if Exec(c, sets, o).Some? {
        ExecSound(c, sets, o);
      }
  }

  lemma RunSound(c: Chains, sets: set<Name>, ops: seq<Op>)
    requires SoundTable(c, sets)
    ensures forall x :: x in RunOps(c, sets, ops).states ==> SoundTable(x, sets)
  {
    forall x, i | SoundTable(x, sets) && 0 <= i < |ops| && Exec(x, sets, ops[i]).Some?
      ensures SoundTable(Exec(x, sets, ops[i]).value, sets)
    {
      ExecSound(x, sets, ops[i]);
    }
    RunKeeps(c, sets, ops, x => SoundTable(x, sets));
  }
}
