/** Hooking delegate chains into built-in chains and out of them (subcommands/fw_common.sh, modify_chain_builtin). */
module Delegates {
  import opened Text
  import opened Netfilter
  import opened Kernel
  import opened Machines
  import opened Hosts
  import opened Generations

  /** `${chain##*_}` in upper case: the built-in chain a delegate is for. */
  function HookOf(chain: Name): Name {
    Upper(AfterLast(chain, '_'))
  }

  /** modify_chain_builtin remove */
  function RemoveJump(): Name -> seq<Op> {
    (d: Name) => [Attempt(Delete(HookOf(d), JumpTo(d)))]
  }

  /** modify_chain_builtin add */
  function AddJump(): Name -> seq<Op> {
    (d: Name) => [Attempt(Delete(HookOf(d), JumpTo(d))), Append(HookOf(d), JumpTo(d))]
  }

  // ---------- rows ----------

  /** The jumps that these delegates have in chain `n`. */
  function Jumps(names: seq<Name>, n: Name): seq<Rule> {
    if names == [] then []
    else (if HookOf(names[0]) == n then [JumpTo(names[0])] else []) + Jumps(names[1..], n)
  }

  function DetachRow(rs: seq<Rule>, n: Name, names: seq<Name>): seq<Rule>
    decreases |names|
  {
    if names == [] then rs
    else DetachRow(if HookOf(names[0]) == n then RemoveFirst(rs, JumpTo(names[0])) else rs, n, names[1..])
  }

  function AttachTab(c: Chains, names: seq<Name>): Chains {
    map n | n in c :: c[n] + Jumps(names, n)
  }

  function DetachTab(c: Chains, names: seq<Name>): Chains {
    map n | n in c :: DetachRow(c[n], n, names)
  }

  lemma {:induction false} RemoveAbsent(rs: seq<Rule>, r: Rule)
    requires r !in rs
    ensures RemoveFirst(rs, r) == rs
  {
    if rs != [] {
      RemoveAbsent(rs[1..], r);
    }
  }

  /** None of these delegates is attached. */
  ghost predicate Loose(c: Chains, names: seq<Name>) {
    forall d :: d in names && HookOf(d) in c ==> JumpTo(d) !in c[HookOf(d)]
  }

  ghost predicate Jumpable(c: Chains, names: seq<Name>) {
    forall d :: d in names ==> d in c && d !in BUILTINS
  }

  lemma AttachOne(c: Chains, sets: set<Name>, d: Name)
    requires d in c && d !in BUILTINS && (HookOf(d) in c ==> JumpTo(d) !in c[HookOf(d)])
    ensures RunOps(c, sets, AddJump()(d)) ==
      if HookOf(d) in c then Trace([c, AttachTab(c, [d])], true) else Trace([c], false)
  {
    var h, j := HookOf(d), JumpTo(d);
    var first, second := Attempt(Delete(h, j)), Append(h, j);
    assert Exec(c, sets, first).value == c;
    RunFirst(c, sets, first, [second]);
    RunFirst(c, sets, second, []);
    assert AddJump()(d) == [first] + [second] && [second] + [] == [second];
    if h in c {
      assert AttachTab(c, [d]) == c[h := c[h] + [j]] by {
        assert [d][1..] == [];
        forall n | n in c
          ensures c[n] + Jumps([d], n) == c[h := c[h] + [j]][n]
        {
        }
      }
    }
  }

  lemma AttachMore(c: Chains, d: Name, rest: seq<Name>)
    ensures AttachTab(AttachTab(c, [d]), rest) == AttachTab(c, [d] + rest)
  {
    assert ([d] + rest)[1..] == rest && [d][1..] == [];
    forall n | n in c
      ensures (c[n] + Jumps([d], n)) + Jumps(rest, n) == c[n] + Jumps([d] + rest, n)
    {
    }
  }

  lemma AttachKeepsLoose(c: Chains, d: Name, rest: seq<Name>)
    requires Loose(c, rest) && d !in rest
    ensures Loose(AttachTab(c, [d]), rest)
  {
    assert [d][1..] == [];
    forall e | e in rest && HookOf(e) in c
      ensures JumpTo(e) !in AttachTab(c, [d])[HookOf(e)]
    {
      assert Jumps([d], HookOf(e)) == [] || Jumps([d], HookOf(e)) == [JumpTo(d)];
    }
  }

  /** The table is on its way to having the delegates attached: some of them are. */
  ghost predicate Attaching(c: Chains, x: Chains, names: seq<Name>) {
    exists i :: 0 <= i <= |names| && x == AttachTab(c, names[..i])
  }

  lemma AttachingLater(c: Chains, x: Chains, d: Name, rest: seq<Name>)
    requires Attaching(AttachTab(c, [d]), x, rest)
    ensures Attaching(c, x, [d] + rest)
  {
    var i :| 0 <= i <= |rest| && x == AttachTab(AttachTab(c, [d]), rest[..i]);
    AttachMore(c, d, rest[..i]);
    assert ([d] + rest)[..i + 1] == [d] + rest[..i];
  }

  lemma AttachNone(c: Chains, names: seq<Name>)
    ensures AttachTab(c, []) == c && Attaching(c, c, names)
  {
    assert forall n :: n in c ==> c[n] + Jumps([], n) == c[n];
    assert AttachTab(c, []) == c;
    assert names[..0] == [];
  }

  /** Attaching delegates that are loose: one is attached, then the others. */
  lemma AttachUnrolls(c: Chains, sets: set<Name>, d: Name, rest: seq<Name>)
    requires d in c && d !in BUILTINS && HookOf(d) in c && JumpTo(d) !in c[HookOf(d)]
    ensures var c' := AttachTab(c, [d]);
      var ops, ops' := Flatten([d] + rest, AddJump()), Flatten(rest, AddJump());
      && RunOps(c, sets, ops) == Trace([c, c'] + RunOps(c', sets, ops').states, RunOps(c', sets, ops').ok)
      && EndOps(c, sets, ops) == EndOps(c', sets, ops')
  {
    AttachOne(c, sets, d);
    assert ([d] + rest)[1..] == rest;
    RunConcat(c, sets, AddJump()(d), Flatten(rest, AddJump()));
  }

  lemma AttachRefused(c: Chains, sets: set<Name>, d: Name, rest: seq<Name>)
    requires d in c && d !in BUILTINS && HookOf(d) !in c
    ensures RunOps(c, sets, Flatten([d] + rest, AddJump())) == Trace([c], false)
  {
    AttachOne(c, sets, d);
    assert ([d] + rest)[1..] == rest;
    RunConcat(c, sets, AddJump()(d), Flatten(rest, AddJump()));
  }

  /** Jumps are appended one by one, until a hook is missing. */
  lemma {:induction false} AttachRun(c: Chains, sets: set<Name>, names: seq<Name>)
    requires Distinct(names) && Jumpable(c, names) && Loose(c, names)
    ensures var ops := Flatten(names, AddJump());
      && (RunOps(c, sets, ops).ok <==> forall d :: d in names ==> HookOf(d) in c)
      && (RunOps(c, sets, ops).ok ==> EndOps(c, sets, ops) == AttachTab(c, names))
    decreases |names|
  {
    if names == [] {
      AttachNone(c, []);
    } else {
      var d, rest := names[0], names[1..];
      DistinctTail(names);
      assert names == [d] + rest;
      if HookOf(d) in c {
        AttachUnrolls(c, sets, d, rest);
        AttachKeepsLoose(c, d, rest);
        AttachRun(AttachTab(c, [d]), sets, rest);
        AttachMore(c, d, rest);
      } else {
        AttachRefused(c, sets, d, rest);
      }
    }
  }

  lemma {:induction false} AttachStates(c: Chains, sets: set<Name>, names: seq<Name>, x: Chains)
    requires Distinct(names) && Jumpable(c, names) && Loose(c, names)
    requires x in RunOps(c, sets, Flatten(names, AddJump())).states
    ensures Attaching(c, x, names)
    decreases |names|
  {
    AttachNone(c, names);
    if x != c {
      var d, rest := names[0], names[1..];
      DistinctTail(names);
      assert names == [d] + rest;
      if HookOf(d) in c {
        var c' := AttachTab(c, [d]);
        var later := RunOps(c', sets, Flatten(rest, AddJump())).states;
        AttachUnrolls(c, sets, d, rest);
        assert RunOps(c, sets, Flatten(names, AddJump())).states == [c, c'] + later;
        AttachKeepsLoose(c, d, rest);
        AttachNone(c', rest);
        if x != c' {
          assert x in later;
          AttachStates(c', sets, rest, x);
        }
        AttachingLater(c, x, d, rest);
      } else {
        AttachRefused(c, sets, d, rest);
      }
    }
  }

  // ---------- taking delegates out ----------

  ghost predicate Detaching(c: Chains, x: Chains, names: seq<Name>) {
    exists i :: 0 <= i <= |names| && x == DetachTab(c, names[..i])
  }

  lemma DetachRowOne(rs: seq<Rule>, n: Name, d: Name)
    ensures DetachRow(rs, n, [d]) == if HookOf(d) == n then RemoveFirst(rs, JumpTo(d)) else rs
  {
    var rs' := if HookOf(d) == n then RemoveFirst(rs, JumpTo(d)) else rs;
    assert [d][1..] == [];
    assert DetachRow(rs', n, []) == rs';
  }

  lemma DetachOne(c: Chains, sets: set<Name>, d: Name)
    ensures RunOps(c, sets, RemoveJump()(d)) == Trace([DetachTab(c, [d])], true)
  {
    var h, j := HookOf(d), JumpTo(d);
    var op := Attempt(Delete(h, j));
    assert RemoveJump()(d) == [op] + [];
    RunFirst(c, sets, op, []);
    if h in c && j !in c[h] {
      RemoveAbsent(c[h], j);
    }
    forall n | n in c
      ensures DetachTab(c, [d])[n] == if n == h then RemoveFirst(c[n], j) else c[n]
    {
      DetachRowOne(c[n], n, d);
    }
    assert Exec(c, sets, op).value == DetachTab(c, [d]);
  }

  lemma DetachMore(c: Chains, d: Name, rest: seq<Name>)
    ensures DetachTab(DetachTab(c, [d]), rest) == DetachTab(c, [d] + rest)
  {
    assert ([d] + rest)[1..] == rest && [d][1..] == [];
    forall n | n in c
      ensures DetachRow(DetachRow(c[n], n, [d]), n, rest) == DetachRow(c[n], n, [d] + rest)
    {
    }
  }

  lemma DetachNone(c: Chains, names: seq<Name>)
    ensures DetachTab(c, []) == c && Detaching(c, c, names)
  {
    assert DetachTab(c, []) == c;
    assert names[..0] == [];
  }

  lemma DetachingLater(c: Chains, x: Chains, d: Name, rest: seq<Name>)
    requires Detaching(DetachTab(c, [d]), x, rest)
    ensures Detaching(c, x, [d] + rest)
  {
    var i :| 0 <= i <= |rest| && x == DetachTab(DetachTab(c, [d]), rest[..i]);
    DetachMore(c, d, rest[..i]);
    assert ([d] + rest)[..i + 1] == [d] + rest[..i];
  }

  /** Taking delegates out never fails. */
  lemma {:induction false} DetachRun(c: Chains, sets: set<Name>, names: seq<Name>)
    ensures var tr := RunOps(c, sets, Flatten(names, RemoveJump()));
      tr.ok && forall x :: x in tr.states ==> Detaching(c, x, names)
    ensures EndOps(c, sets, Flatten(names, RemoveJump())) == DetachTab(c, names)
    decreases |names|
  {
    if names == [] {
      DetachNone(c, []);
    } else {
      var d, rest := names[0], names[1..];
      assert names == [d] + rest;
      DetachOne(c, sets, d);
      RunConcat(c, sets, RemoveJump()(d), Flatten(rest, RemoveJump()));
      var c' := DetachTab(c, [d]);
      DetachRun(c', sets, rest);
      DetachMore(c, d, rest);
      DetachNone(c', rest);
      forall x | Detaching(c', x, rest)
        ensures Detaching(c, x, names)
      {
        DetachingLater(c, x, d, rest);
      }
    }
  }

  // ---------- one delegate per hook ----------

  ghost predicate OnePerHook(names: seq<Name>) {
    Distinct(names) && forall d, e :: d in names && e in names && HookOf(d) == HookOf(e) ==> d == e
  }

  /** The jump, if there is one, that the delegate of `n` among these has. */
  function DelegateOf(names: seq<Name>, n: Name): Option<Name> {
    if names == [] then None else if HookOf(names[0]) == n then Some(names[0]) else DelegateOf(names[1..], n)
  }

  lemma {:induction false} DelegateOfIs(names: seq<Name>, n: Name)
    ensures DelegateOf(names, n).Some? ==> DelegateOf(names, n).value in names && HookOf(DelegateOf(names, n).value) == n
    ensures DelegateOf(names, n).None? ==> forall d :: d in names ==> HookOf(d) != n
  {
    if names != [] {
      DelegateOfIs(names[1..], n);
      assert names == [names[0]] + names[1..];
    }
  }

  lemma OnePerHookTail(names: seq<Name>)
    requires OnePerHook(names) && names != []
    ensures OnePerHook(names[1..]) && forall d :: d in names[1..] ==> HookOf(d) != HookOf(names[0])
  {
    DistinctTail(names);
  }

  lemma {:induction false} RowsOfOne(names: seq<Name>, n: Name, rs: seq<Rule>)
    requires OnePerHook(names)
    ensures var d := DelegateOf(names, n);
      && Jumps(names, n) == (if d.Some? then [JumpTo(d.value)] else [])
      && DetachRow(rs, n, names) == (if d.Some? then RemoveFirst(rs, JumpTo(d.value)) else rs)
    decreases |names|
  {
    if names != [] {
      OnePerHookTail(names);
      if HookOf(names[0]) == n {
        DelegateOfIs(names[1..], n);
        RowsOfOne(names[1..], n, RemoveFirst(rs, JumpTo(names[0])));
      } else {
        RowsOfOne(names[1..], n, rs);
      }
    }
  }

  /** Part of a listing has the delegate of the whole, or none. */
  lemma OnePerHookPart(names: seq<Name>, i: nat, n: Name)
    requires OnePerHook(names) && i <= |names|
    ensures OnePerHook(names[..i])
    ensures DelegateOf(names[..i], n) == None || DelegateOf(names[..i], n) == DelegateOf(names, n)
  {
    DelegateOfIs(names, n);
    DelegateOfIs(names[..i], n);
  }
}
