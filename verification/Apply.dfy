/** subcommands/fw_apply: switching from one generation's delegates to the other's, and back. */
module Apply {
  import opened Text
  import opened Netfilter
  import opened Kernel
  import opened Machines
  import opened Hosts
  import opened Generations
  import opened Delegates

  const NEW: string := FWTMP + "delegate_"
  const OLD: string := FWR + "delegate_"

  /** Hook every delegate under `up`, then take out every delegate under `down`. */
  function SwitchRun(m: Machine, tabs: seq<TabId>, up: string, down: string): (r: Run)
    requires forall t :: t in tabs ==> t in m.tables
    ensures forall s :: s in r.states ==> s == m.(tables := s.tables) && s.tables.Keys == m.tables.Keys
  {
    var first := Sweep(m, tabs, ForEach(up, AddJump()));
    if first.ok then Then(first, Sweep(Last(m, first.states), tabs, ForEach(down, RemoveJump()))) else first
  }

  method ApplyConfig(h: Host) returns (ok: bool)
    requires h.Ready()
    modifies h
    ensures h.Ready()
    ensures var run := SwitchRun(old(h.Now()), h.tabs, NEW, OLD); ok == run.ok && h.Went(old(h.Now()), old(h.past), run.states)
  {
    ghost var m, p := h.Now(), h.past;
    ok := h.ForEachChain(NEW, AddJump());
    if !ok {
      return false;
    }
    ghost var first := Sweep(m, h.tabs, ForEach(NEW, AddJump())).states;
    Onward(m, p, first, Sweep(h.Now(), h.tabs, ForEach(OLD, RemoveJump())).states);
    ok := h.ForEachChain(OLD, RemoveJump());
  }

  method RollbackConfig(h: Host) returns (ok: bool)
    requires h.Ready()
    modifies h
    ensures h.Ready()
    ensures var run := SwitchRun(old(h.Now()), h.tabs, OLD, NEW); ok == run.ok && h.Went(old(h.Now()), old(h.past), run.states)
  {
    ghost var m, p := h.Now(), h.past;
    ok := h.ForEachChain(OLD, AddJump());
    if !ok {
      return false;
    }
    ghost var first := Sweep(m, h.tabs, ForEach(OLD, AddJump())).states;
    Onward(m, p, first, Sweep(h.Now(), h.tabs, ForEach(NEW, RemoveJump())).states);
    ok := h.ForEachChain(NEW, RemoveJump());
  }

  // ---------- one table ----------

  /** The delegate under `prefix` for built-in chain `n`, if there is one. */
  function For(c: Chains, prefix: string, n: Name): Option<Name> {
    DelegateOf(Listing(c, prefix), n)
  }

  function With(rs: seq<Rule>, d: Option<Name>): seq<Rule> {
    if d.Some? then rs + [JumpTo(d.value)] else rs
  }

  function Without(rs: seq<Rule>, d: Option<Name>): seq<Rule> {
    if d.Some? then RemoveFirst(rs, JumpTo(d.value)) else rs
  }

  ghost predicate Once(rs: seq<Rule>, r: Rule) {
    r in rs && r !in RemoveFirst(rs, r)
  }

  /** Every delegate under `prefix` is for a built-in chain of its own. */
  ghost predicate Hooked(c: Chains, prefix: string) {
    OnePerHook(Listing(c, prefix)) && forall d :: d in c && prefix < d ==> d !in BUILTINS && HookOf(d) in BUILTINS
  }

  ghost predicate AllLoose(c: Chains, prefix: string) {
    Hooked(c, prefix) && Loose(c, Listing(c, prefix))
  }

  ghost predicate AllAttached(c: Chains, prefix: string) {
    Hooked(c, prefix) && forall d :: d in c && prefix < d ==> HookOf(d) in c && Once(c[HookOf(d)], JumpTo(d))
  }

  ghost predicate Switchable(c: Chains, up: string, down: string) {
    AllLoose(c, up) && AllAttached(c, down)
  }

  /** The table after a switch: in each built-in chain the new jump comes last and the old one is gone. */
  function Switched(c: Chains, up: string, down: string): Chains {
    map n | n in c :: Without(With(c[n], For(c, up, n)), For(c, down, n))
  }

  /** A table during a switch: each chain is untouched, has both jumps, or has been switched. */
  ghost predicate Stage(c: Chains, x: Chains, up: string, down: string) {
    && x.Keys == c.Keys
    && forall n :: n in c ==>
      || x[n] == c[n] || x[n] == With(c[n], For(c, up, n)) || x[n] == Switched(c, up, down)[n]
  }

  lemma AttachedRow(c: Chains, up: string, i: nat, n: Name)
    requires OnePerHook(Listing(c, up)) && i <= |Listing(c, up)| && n in c
    ensures AttachTab(c, Listing(c, up)[..i])[n] == c[n] || AttachTab(c, Listing(c, up)[..i])[n] == With(c[n], For(c, up, n))
    ensures i == |Listing(c, up)| ==> AttachTab(c, Listing(c, up)[..i])[n] == With(c[n], For(c, up, n))
  {
    var names := Listing(c, up);
    OnePerHookPart(names, i, n);
    RowsOfOne(names[..i], n, c[n]);
    assert c[n] + [] == c[n];
    assert i == |names| ==> names[..i] == names;
  }

  lemma DetachedRow(c: Chains, down: string, i: nat, n: Name)
    requires OnePerHook(Listing(c, down)) && i <= |Listing(c, down)| && n in c
    ensures DetachTab(c, Listing(c, down)[..i])[n] == c[n] || DetachTab(c, Listing(c, down)[..i])[n] == Without(c[n], For(c, down, n))
    ensures i == |Listing(c, down)| ==> DetachTab(c, Listing(c, down)[..i])[n] == Without(c[n], For(c, down, n))
  {
    var names := Listing(c, down);
    OnePerHookPart(names, i, n);
    RowsOfOne(names[..i], n, c[n]);
    assert i == |names| ==> names[..i] == names;
  }

  /** The table with every delegate under `up` hooked. */
  function Joined(c: Chains, up: string): Chains {
    map n | n in c :: With(c[n], For(c, up, n))
  }

  lemma JoinedIs(c: Chains, up: string)
    requires OnePerHook(Listing(c, up))
    ensures AttachTab(c, Listing(c, up)) == Joined(c, up)
  {
    var names := Listing(c, up);
    assert names[..|names|] == names;
    forall n | n in c
      ensures AttachTab(c, names)[n] == Joined(c, up)[n]
    {
      AttachedRow(c, up, |names|, n);
    }
  }

  lemma LooseIsJumpable(c: Chains, up: string)
    requires AllLoose(c, up)
    ensures var names := Listing(c, up); Distinct(names) && Jumpable(c, names) && Loose(c, names)
    ensures (forall d :: d in Listing(c, up) ==> HookOf(d) in c) <==> (forall d :: d in c && up < d ==> HookOf(d) in c)
  {
    ListingIs(c, up);
  }

  lemma UpPass(c: Chains, sets: set<Name>, up: string)
    requires AllLoose(c, up)
    ensures var ops := ForEach(up, AddJump())(c);
      && (RunOps(c, sets, ops).ok <==> forall d :: d in c && up < d ==> HookOf(d) in c)
      && (RunOps(c, sets, ops).ok ==> EndOps(c, sets, ops) == Joined(c, up))
  {
    var names := Listing(c, up);
    assert ForEach(up, AddJump())(c) == Flatten(names, AddJump());
    LooseIsJumpable(c, up);
    AttachRun(c, sets, names);
    JoinedIs(c, up);
  }

  ghost predicate PartlyUp(c: Chains, x: Chains, up: string) {
    x.Keys == c.Keys && forall n :: n in c ==> x[n] == c[n] || x[n] == With(c[n], For(c, up, n))
  }

  ghost predicate PartlyDown(c: Chains, x: Chains, down: string) {
    x.Keys == c.Keys && forall n :: n in c ==> x[n] == c[n] || x[n] == Without(c[n], For(c, down, n))
  }

  /** Part of the way up, each chain has its new jump or has not. */
  lemma UpPassStates(c: Chains, sets: set<Name>, up: string, x: Chains)
    requires AllLoose(c, up) && x in RunOps(c, sets, ForEach(up, AddJump())(c)).states
    ensures PartlyUp(c, x, up)
  {
    var names := Listing(c, up);
    assert ForEach(up, AddJump())(c) == Flatten(names, AddJump());
    LooseIsJumpable(c, up);
    AttachStates(c, sets, names, x);
    AttachingRows(c, x, up);
  }

  lemma AttachingRows(c: Chains, x: Chains, up: string)
    requires OnePerHook(Listing(c, up)) && Attaching(c, x, Listing(c, up))
    ensures PartlyUp(c, x, up)
  {
    var i :| 0 <= i <= |Listing(c, up)| && x == AttachTab(c, Listing(c, up)[..i]);
    forall n | n in c
      ensures x[n] == c[n] || x[n] == With(c[n], For(c, up, n))
    {
      AttachedRow(c, up, i, n);
    }
  }

  lemma DetachingRows(c: Chains, x: Chains, down: string)
    requires OnePerHook(Listing(c, down)) && Detaching(c, x, Listing(c, down))
    ensures PartlyDown(c, x, down)
  {
    var i :| 0 <= i <= |Listing(c, down)| && x == DetachTab(c, Listing(c, down)[..i]);
    forall n | n in c
      ensures x[n] == c[n] || x[n] == Without(c[n], For(c, down, n))
    {
      DetachedRow(c, down, i, n);
    }
  }

  /** The table with every delegate under `down` taken out. */
  function Cleared(c: Chains, down: string): Chains {
    map n | n in c :: Without(c[n], For(c, down, n))
  }

  lemma ClearedIs(c: Chains, down: string)
    requires OnePerHook(Listing(c, down))
    ensures DetachTab(c, Listing(c, down)) == Cleared(c, down)
  {
    var names := Listing(c, down);
    assert names[..|names|] == names;
    forall n | n in c
      ensures DetachTab(c, names)[n] == Cleared(c, down)[n]
    {
      DetachedRow(c, down, |names|, n);
    }
  }

  lemma DownPass(c: Chains, sets: set<Name>, down: string)
    requires OnePerHook(Listing(c, down))
    ensures var ops := ForEach(down, RemoveJump())(c); RunOps(c, sets, ops).ok && EndOps(c, sets, ops) == Cleared(c, down)
    ensures forall x :: x in RunOps(c, sets, ForEach(down, RemoveJump())(c)).states ==> PartlyDown(c, x, down)
  {
    var names := Listing(c, down);
    assert ForEach(down, RemoveJump())(c) == Flatten(names, RemoveJump());
    DetachRun(c, sets, names);
    ClearedIs(c, down);
    forall x | Detaching(c, x, names)
      ensures PartlyDown(c, x, down)
    {
      DetachingRows(c, x, down);
    }
  }

  /** Joining keeps the names, so the listings and the hooks are the same afterwards. */
  lemma JoinedLists(c: Chains, up: string, prefix: string)
    ensures Joined(c, up).Keys == c.Keys && Listing(Joined(c, up), prefix) == Listing(c, prefix)
  {
    var d := Joined(c, up);
    assert (set n | n in d && prefix < n) == (set n | n in c && prefix < n);
  }

  lemma ClearedAfterJoined(c: Chains, up: string, down: string)
    ensures Cleared(Joined(c, up), down) == Switched(c, up, down)
  {
    JoinedLists(c, up, down);
  }

  lemma StagesUp(c: Chains, x: Chains, up: string, down: string)
    requires PartlyUp(c, x, up)
    ensures Stage(c, x, up, down)
  {
  }

  lemma StagesDown(c: Chains, x: Chains, up: string, down: string)
    requires PartlyDown(Joined(c, up), x, down)
    ensures Stage(c, x, up, down)
  {
    JoinedLists(c, up, down);
  }
}
