/** subcommands/fw_cleanup: removing every candidate and outgoing chain, and the sets of other versions. */
module Cleanup {
  import opened Text
  import opened Netfilter
  import opened Kernel
  import opened Machines
  import opened Hosts
  import opened Generations
  import opened Delegates
  import opened Apply
  import opened Tidy

  const CFW: string := "CFW"

  /** `^CFW[^_]+_delegate_` */
  predicate LooksDelegate(n: Name) {
    CFW <= n
    && var rest := n[|CFW|..];
       var word := Before(rest, '_');
       word != "" && word + "_delegate_" <= rest
  }

  /** By its characters: CFW, something without underscores, _delegate_, and whatever follows. */
  lemma LooksDelegateIff(n: Name)
    ensures LooksDelegate(n) <==> exists word, hook :: word != "" && '_' !in word && n == "CFW" + word + "_delegate_" + hook
  {
    if LooksDelegate(n) {
      var rest := n[|CFW|..];
      var word := Before(rest, '_');
      var hook := rest[|word + "_delegate_"|..];
      BeforeHasNone(rest, '_');
      assert rest == word + "_delegate_" + hook;
      assert n == "CFW" + word + "_delegate_" + hook;
    }
    if word, hook :| word != "" && '_' !in word && n == "CFW" + word + "_delegate_" + hook {
      var rest := n[|CFW|..];
      assert n[..3] == "CFW" && rest == word + "_delegate_" + hook;
      assert "_delegate_" == "_" + "delegate_";
      assert word + ['_'] <= rest;
      BeforeSeparator(word, '_', rest);
    }
  }

  lemma {:induction false} BeforeHasNone(s: string, c: char)
    ensures c !in Before(s, c)
  {
    if s != [] && s[0] != c {
      BeforeHasNone(s[1..], c);
    }
  }

  /** ipt_flush: empty the chain and, when it is a delegate, take its jump out. */
  function FlushChain(): Name -> seq<Op> {
    (n: Name) => [Flush(n)] + (if LooksDelegate(n) then [Attempt(Delete(HookOf(n), JumpTo(n)))] else [])
  }

  /** ipt_remove: the attempt to drop; refused, it changes nothing. */
  function RemoveChain(): Name -> seq<Op> {
    (n: Name) => [Attempt(DropChain(n))]
  }

  lemma CandidateLooksDelegate(n: Name)
    requires NEW < n
    ensures LooksDelegate(n)
  {
    var rest := n[|CFW|..];
    var word := "TMP";
    assert NEW == CFW + (word + "_delegate_");
    assert n[..|CFW|] == NEW[..|CFW|] == CFW;
    assert rest[..|word + "_delegate_"|] == NEW[|CFW|..] == word + "_delegate_";
    assert word + ['_'] <= word + "_delegate_";
    BeforeSeparator(word, '_', rest);
  }

  // ---------- what flushing and removing do to a tidy table ----------

  lemma FlushShrinks(c: Chains, n: Name)
    requires n in c && Stale(n)
    ensures Shrunk(c, c[n := []])
  {
  }

  lemma DeleteShrinks(c: Chains, h: Name, d: Name)
    requires h in c && Stale(d)
    ensures Shrunk(c, c[h := RemoveFirst(c[h], JumpTo(d))])
  {
  }

  lemma DropShrinks(c: Chains, n: Name)
    requires Stale(n)
    ensures Shrunk(c, c - {n})
  {
  }

  predicate CleaningOp(op: Op) {
    match op
    case Flush(n) => Stale(n)
    case Attempt(Delete(h, r)) => r.target.Jump? && r == JumpTo(r.target.chain) && Stale(r.target.chain)
    case Attempt(DropChain(n)) => Stale(n)
    case _ => false
  }

  lemma CleaningShrinks(c: Chains, sets: set<Name>, op: Op)
    requires CleaningOp(op) && Exec(c, sets, op).Some?
    ensures Shrunk(c, Exec(c, sets, op).value)
  {
    match op
    case Flush(n) => FlushShrinks(c, n);
    case Attempt(Delete(h, r)) =>
      if h in c && r in c[h] { DeleteShrinks(c, h, r.target.chain); }
    case Attempt(DropChain(n)) => DropShrinks(c, n);
  }

  lemma {:induction false} CleaningOps(names: seq<Name>)
    requires forall n :: n in names ==> Stale(n)
    ensures forall op :: op in Flatten(names, FlushChain()) ==> CleaningOp(op)
    ensures forall op :: op in Flatten(names, RemoveChain()) ==> CleaningOp(op)
  {
    if names != [] {
      CleaningOps(names[1..]);
      assert forall op :: op in FlushChain()(names[0]) ==> CleaningOp(op);
    }
  }

  /** Cleaning keeps a table tidy at every command. */
  lemma CleaningKeepsTidy(c: Chains, sets: set<Name>, ops: seq<Op>, v: int)
    requires TidyTable(c, v) && forall op :: op in ops ==> CleaningOp(op)
    ensures forall x :: x in RunOps(c, sets, ops).states ==> TidyTable(x, v)
    ensures TidyTable(EndOps(c, sets, ops), v)
  {
    forall x, i | TidyTable(x, v) && 0 <= i < |ops| && Exec(x, sets, ops[i]).Some?
      ensures TidyTable(Exec(x, sets, ops[i]).value, v)
    {
      CleaningShrinks(x, sets, ops[i]);
      ShrunkStaysTidy(x, Exec(x, sets, ops[i]).value, v);
    }
    RunKeeps(c, sets, ops, x => TidyTable(x, v));
  }

  // ---------- flushing ----------

  /** Nothing is left in chain `x`, and no foreign chain jumps to it. */
  ghost predicate NoTrace(c: Chains, x: Name) {
    (x in c ==> c[x] == []) && forall n :: n in c && Foreign(n) ==> JumpTo(x) !in c[n]
  }

  lemma CleaningLeavesNoTrace(c: Chains, sets: set<Name>, ops: seq<Op>, x: Name)
    requires NoTrace(c, x) && forall op :: op in ops ==> CleaningOp(op)
    ensures NoTrace(EndOps(c, sets, ops), x)
  {
    forall y, i | NoTrace(y, x) && 0 <= i < |ops| && Exec(y, sets, ops[i]).Some?
      ensures NoTrace(Exec(y, sets, ops[i]).value, x)
    {
      NoTraceStays(y, sets, ops[i], x);
    }
    RunKeeps(c, sets, ops, y => NoTrace(y, x));
  }

  lemma NoTraceStays(c: Chains, sets: set<Name>, op: Op, x: Name)
    requires NoTrace(c, x) && CleaningOp(op) && Exec(c, sets, op).Some?
    ensures NoTrace(Exec(c, sets, op).value, x)
  {
    match op
    case Flush(n) =>
    case Attempt(Delete(h, r)) => if h in c { RemovedIsIn(c[h], r); }
    case Attempt(DropChain(n)) =>
  }

  /** In a tidy table only the chain a delegate hooks can jump to it from outside the generations, and only a delegate is hooked. */
  lemma OnlyHooksJump(c: Chains, v: int, n: Name, x: Name)
    requires RowsTidy(c, v) && n in c && Foreign(n) && Stale(x) && JumpTo(x) in c[n]
    ensures NEW < x && HookOf(x) == n
  {
    assert JumpTidy(n, JumpTo(x));
    DelegateGeneration(x);
  }

  /** The table after ipt_flush of one chain. */
  function Flushed(c: Chains, x: Name): Chains {
    var c' := c[x := []];
    if LooksDelegate(x) && HookOf(x) in c' then c'[HookOf(x) := RemoveFirst(c'[HookOf(x)], JumpTo(x))] else c'
  }

  lemma FlushOps(c: Chains, sets: set<Name>, x: Name)
    requires x in c
    ensures var ops := FlushChain()(x); RunOps(c, sets, ops).ok && EndOps(c, sets, ops) == Flushed(c, x)
    ensures Flushed(c, x).Keys == c.Keys
  {
    var c' := c[x := []];
    var h, j := HookOf(x), JumpTo(x);
    var rest := if LooksDelegate(x) then [Attempt(Delete(h, j))] else [];
    assert FlushChain()(x) == [Flush(x)] + rest;
    assert Exec(c, sets, Flush(x)) == Some(c');
    RunFirst(c, sets, Flush(x), rest);
    if LooksDelegate(x) {
      assert rest == [Attempt(Delete(h, j))] + [];
      RunFirst(c', sets, Attempt(Delete(h, j)), []);
      DeleteAttempt(c', sets, h, j);
    }
  }

  /** Deleting a rule that may not be there. */
  lemma DeleteAttempt(c: Chains, sets: set<Name>, h: Name, j: Rule)
    ensures Exec(c, sets, Attempt(Delete(h, j))) == Some(if h in c then c[h := RemoveFirst(c[h], j)] else c)
  {
    if h in c && j !in c[h] {
      RemoveAbsent(c[h], j);
      assert c[h := c[h]] == c;
    }
  }

  lemma FlushedLeavesNoTrace(c: Chains, x: Name, v: int)
    requires TidyTable(c, v) && x in c && Stale(x)
    ensures NoTrace(Flushed(c, x), x)
  {
    var h, j := HookOf(x), JumpTo(x);
    var e := Flushed(c, x);
    forall n | n in c && Foreign(n)
      ensures j !in e[n]
    {
      RemovedIsIn(c[n], j);
      if j in c[n] {
        OnlyHooksJump(c, v, n, x);
        CandidateLooksDelegate(x);
        assert AtMostOnce(c[h], j);
      }
    }
  }

  lemma FlushOne(c: Chains, sets: set<Name>, x: Name, v: int)
    requires TidyTable(c, v) && x in c && Stale(x)
    ensures var ops := FlushChain()(x);
      RunOps(c, sets, ops).ok && NoTrace(EndOps(c, sets, ops), x) && EndOps(c, sets, ops).Keys == c.Keys
  {
    FlushOps(c, sets, x);
    FlushedLeavesNoTrace(c, x, v);
  }

  /** Flushing one chain leaves no trace of it, whatever is flushed after. */
  lemma FlushFirst(c: Chains, sets: set<Name>, x: Name, rest: seq<Name>, v: int)
    requires TidyTable(c, v) && x in c && Stale(x) && forall n :: n in rest ==> Stale(n)
    ensures var c' := EndOps(c, sets, FlushChain()(x));
      && TidyTable(c', v) && c'.Keys == c.Keys && RunOps(c, sets, FlushChain()(x)).ok
      && NoTrace(EndOps(c', sets, Flatten(rest, FlushChain())), x)
  {
    FlushOne(c, sets, x, v);
    CleaningOps([x]);
    assert Flatten([x], FlushChain()) == FlushChain()(x);
    CleaningKeepsTidy(c, sets, FlushChain()(x), v);
    CleaningOps(rest);
    CleaningLeavesNoTrace(EndOps(c, sets, FlushChain()(x)), sets, Flatten(rest, FlushChain()), x);
  }

  /** The pass over these chains is not refused, keeps all chains, and leaves no trace of these. */
  ghost predicate PassFlushes(c: Chains, sets: set<Name>, names: seq<Name>) {
    var ops := Flatten(names, FlushChain());
    && RunOps(c, sets, ops).ok && EndOps(c, sets, ops).Keys == c.Keys
    && forall x :: x in names ==> NoTrace(EndOps(c, sets, ops), x)
  }

  lemma FlushesThrough(c: Chains, sets: set<Name>, x: Name, rest: seq<Name>)
    requires var c' := EndOps(c, sets, FlushChain()(x));
      && RunOps(c, sets, FlushChain()(x)).ok && c'.Keys == c.Keys
      && NoTrace(EndOps(c', sets, Flatten(rest, FlushChain())), x) && PassFlushes(c', sets, rest)
    ensures PassFlushes(c, sets, [x] + rest)
  {
    RunConcat(c, sets, FlushChain()(x), Flatten(rest, FlushChain()));
    assert Flatten([x] + rest, FlushChain()) == FlushChain()(x) + Flatten(([x] + rest)[1..], FlushChain()) && ([x] + rest)[1..] == rest;
  }

  lemma {:induction false} FlushPass(c: Chains, sets: set<Name>, names: seq<Name>, v: int)
    requires TidyTable(c, v) && forall n :: n in names ==> n in c && Stale(n)
    ensures PassFlushes(c, sets, names)
    decreases |names|
  {
    if names != [] {
      var x, rest := names[0], names[1..];
      assert names == [x] + rest;
      FlushFirst(c, sets, x, rest, v);
      FlushPass(EndOps(c, sets, FlushChain()(x)), sets, rest, v);
      FlushesThrough(c, sets, x, rest);
    }
  }

  // ---------- removing ----------

  ghost predicate AllFlushed(c: Chains, prefix: string) {
    forall x :: x in c && prefix < x ==> NoTrace(c, x)
  }

  /** Candidate and outgoing chains: the prefixes cleaned. */
  predicate StalePrefix(prefix: string) {
    prefix == FWTMP || prefix == FWD
  }

  lemma FlushedIsUnmentioned(c: Chains, v: int, prefix: string, x: Name)
    requires RowsTidy(c, v) && StalePrefix(prefix) && AllFlushed(c, prefix) && prefix < x && x in c
    ensures !Mentioned(c, x)
  {
    assert forall n :: n in c && prefix < n ==> c[n] == [] by {
      assert forall n :: n in c && prefix < n ==> NoTrace(c, n);
    }
    assert NoTrace(c, x);
    OneGeneration(x);
    forall n, i | n in c && !(prefix < n) && 0 <= i < |c[n]|
      ensures c[n][i].target != Jump(x)
    {
      var r := c[n][i];
      assert r in c[n] && JumpTidy(n, r);
    }
  }

  lemma FlushedWithout(c: Chains, prefix: string, x: Name)
    requires AllFlushed(c, prefix)
    ensures AllFlushed(c - {x}, prefix)
  {
    forall y | y in c - {x} && prefix < y
      ensures NoTrace(c - {x}, y)
    {
      assert NoTrace(c, y);
    }
  }

  lemma DropIsTaken(c: Chains, sets: set<Name>, x: Name, v: int, prefix: string)
    requires RowsTidy(c, v) && StalePrefix(prefix) && AllFlushed(c, prefix) && x in c && prefix < x
    ensures Exec(c, sets, Attempt(DropChain(x))) == Some(c - {x})
  {
    OneGeneration(x);
    FlushedIsUnmentioned(c, v, prefix, x);
    assert NoTrace(c, x);
    assert Exec(c, sets, DropChain(x)) == Some(c - {x});
  }

  lemma DropOne(c: Chains, sets: set<Name>, x: Name, v: int, prefix: string)
    requires TidyTable(c, v) && StalePrefix(prefix) && AllFlushed(c, prefix) && x in c && prefix < x
    ensures Exec(c, sets, Attempt(DropChain(x))) == Some(c - {x})
    ensures TidyTable(c - {x}, v) && AllFlushed(c - {x}, prefix)
  {
    DropIsTaken(c, sets, x, v, prefix);
    DropKeepsTidy(c, x, v);
    FlushedWithout(c, prefix, x);
  }

  lemma DropKeepsTidy(c: Chains, x: Name, v: int)
    requires TidyTable(c, v) && Stale(x)
    ensures TidyTable(c - {x}, v)
  {
    DropShrinks(c, x);
    ShrunkStaysTidy(c, c - {x}, v);
  }

  ghost function NamesOf(names: seq<Name>): set<Name> {
    set n | n in names
  }

  lemma DropUnrolls(c: Chains, sets: set<Name>, names: seq<Name>, c': Chains)
    requires names != [] && Exec(c, sets, Attempt(DropChain(names[0]))) == Some(c')
    ensures var ops, rest := Flatten(names, RemoveChain()), Flatten(names[1..], RemoveChain());
      RunOps(c, sets, ops).ok == RunOps(c', sets, rest).ok && EndOps(c, sets, ops) == EndOps(c', sets, rest)
  {
    FlattenFirst(names, RemoveChain());
    RunFirst(c, sets, Attempt(DropChain(names[0])), Flatten(names[1..], RemoveChain()));
  }

  /** The names are those of chains under the prefix, each once. */
  ghost predicate Listed(c: Chains, names: seq<Name>, prefix: string) {
    Distinct(names) && forall n :: n in names ==> n in c && prefix < n
  }

  lemma ListedTail(c: Chains, names: seq<Name>, prefix: string)
    requires Listed(c, names, prefix) && names != []
    ensures names[0] in c && prefix < names[0] && Listed(c - {names[0]}, names[1..], prefix)
    ensures (c - {names[0]}).Keys - NamesOf(names[1..]) == c.Keys - NamesOf(names)
  {
    DistinctTail(names);
    assert names == [names[0]] + names[1..];
    assert NamesOf(names) == {names[0]} + NamesOf(names[1..]);
  }

  lemma {:induction false} DropPass(c: Chains, sets: set<Name>, names: seq<Name>, v: int, prefix: string)
    requires TidyTable(c, v) && StalePrefix(prefix) && AllFlushed(c, prefix) && Listed(c, names, prefix)
    ensures var ops := Flatten(names, RemoveChain());
      RunOps(c, sets, ops).ok && EndOps(c, sets, ops).Keys == c.Keys - NamesOf(names)
    decreases |names|
  {
    if names != [] {
      ListedTail(c, names, prefix);
      DropFirst(c, sets, names, v, prefix);
      DropPass(c - {names[0]}, sets, names[1..], v, prefix);
    }
  }

  /** The first chain goes, and the pass goes on without it. */
  lemma DropFirst(c: Chains, sets: set<Name>, names: seq<Name>, v: int, prefix: string)
    requires TidyTable(c, v) && StalePrefix(prefix) && AllFlushed(c, prefix) && names != [] && names[0] in c && prefix < names[0]
    ensures var ops, rest, c' := Flatten(names, RemoveChain()), Flatten(names[1..], RemoveChain()), c - {names[0]};
      && TidyTable(c', v) && AllFlushed(c', prefix)
      && RunOps(c, sets, ops).ok == RunOps(c', sets, rest).ok && EndOps(c, sets, ops) == EndOps(c', sets, rest)
  {
    DropOne(c, sets, names[0], v, prefix);
    DropUnrolls(c, sets, names, c - {names[0]});
  }
}
