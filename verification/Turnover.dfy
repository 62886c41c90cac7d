/** The table after a switch, and after the commit or the rollback that follows it. */
module Turnover {
  import opened Text
  import opened Netfilter
  import opened Kernel
  import opened Machines
  import opened Hosts
  import opened Generations
  import opened Delegates
  import opened Apply
  import opened ApplyProof
  import opened Commit
  import opened CommitProof
  import opened Tidy
  import opened CleanupProof
  import opened Harmless
  import opened Zones
  import opened Building
  import opened Switching

  // ---------- after the switch ----------

  /** The rules a foreign chain has once its table is switched: no jump into the generations but the candidate's. */
  ghost predicate AppliedRule(n: Name, r: Rule) {
    && TestsForeign(r)
    && (r.target.Jump? ==> Foreign(r.target.chain) || (ManagedJump(n, r) && NEW < r.target.chain))
  }

  /** A table switched to the candidate generation. */
  ghost predicate Applied(c: Chains, v: int) {
    && (forall n, r :: n in c && r in c[n] ==> if Foreign(n) then AppliedRule(n, r) else JumpTidy(n, r))
    && CandidateTests(c, v) && DelegatesKnown(c) && NoName(c, FWD) && RoomToLeave(c)
    && AllAttached(c, NEW)
  }

  lemma OnlyHooksSwitched(c: Chains, n: Name)
    requires Switchable(c, NEW, OLD) && n in c && !Foreign(n)
    ensures Switched(c, NEW, OLD)[n] == c[n]
  {
    ForIs(c, NEW, n);
    ForIs(c, OLD, n);
    if n in BUILTINS { OneGeneration(n); }
  }

  /** A settled hook has no jump left but to foreign chains and to its own new delegate. */
  lemma SwitchedRule(c: Chains, sets: set<Name>, v: int, n: Name, r: Rule)
    requires ReadyToSwitch(c, v) && SoundTable(c, sets) && n in c && Foreign(n) && r in Switched(c, NEW, OLD)[n]
    ensures AppliedRule(n, r)
  {
    SwitchedRowIn(c, n, r);
    if r in c[n] {
      KeptRule(c, sets, v, n, r);
    } else {
      AddedRule(c, v, n, r);
    }
  }

  lemma AddedRule(c: Chains, v: int, n: Name, r: Rule)
    requires Hooked(c, NEW) && n in c && r in With(c[n], For(c, NEW, n)) && r !in c[n]
    ensures AppliedRule(n, r)
  {
    UpRow(c, NEW, n, r);
    ForIs(c, NEW, n);
    DelegateGeneration(r.target.chain);
  }

  lemma SwitchedRowIn(c: Chains, n: Name, r: Rule)
    requires Switchable(c, NEW, OLD) && n in c && r in Switched(c, NEW, OLD)[n]
    ensures r in With(c[n], For(c, NEW, n))
  {
    SwitchedRow(c, NEW, OLD, n);
    var d := For(c, OLD, n);
    if d.Some? {
      RemovedIsIn(c[n], JumpTo(d.value));
    }
  }

  lemma KeptRule(c: Chains, sets: set<Name>, v: int, n: Name, r: Rule)
    requires ReadyToSwitch(c, v) && SoundTable(c, sets) && n in c && Foreign(n) && r in c[n] && r in Switched(c, NEW, OLD)[n]
    ensures AppliedRule(n, r)
  {
    assert JumpTidy(n, r) && TestsForeign(r);
    if r.target.Jump? && !Foreign(r.target.chain) {
      var d := r.target.chain;
      StillLive(c, n, r);
      assert RuleFits(r, c.Keys, sets);
      ForAtHook(c, OLD, d);
      OldJumpGone(c, NEW, OLD, n);
    }
  }

  lemma StillLive(c: Chains, n: Name, r: Rule)
    requires SettledTable(c) && n in c && Foreign(n) && r in c[n] && ManagedJump(n, r)
    ensures OLD < r.target.chain
  {
    var i :| 0 <= i < |c[n]| && c[n][i] == r;
    assert NotStale()(r.target.chain);
    DelegateGeneration(r.target.chain);
  }

  lemma SwitchedRows(c: Chains, sets: set<Name>, v: int)
    requires ReadyToSwitch(c, v) && SoundTable(c, sets)
    ensures var e := Switched(c, NEW, OLD);
      forall n, r :: n in e && r in e[n] ==> if Foreign(n) then AppliedRule(n, r) else JumpTidy(n, r)
  {
    var e := Switched(c, NEW, OLD);
    forall n, r | n in e && r in e[n]
      ensures if Foreign(n) then AppliedRule(n, r) else JumpTidy(n, r)
    {
      if Foreign(n) {
        SwitchedRule(c, sets, v, n, r);
      } else {
        OnlyHooksSwitched(c, n);
        assert r in c[n];
      }
    }
  }

  lemma SwitchedCandidates(c: Chains, v: int)
    requires ReadyToSwitch(c, v)
    ensures var e := Switched(c, NEW, OLD);
      CandidateTests(e, v) && DelegatesKnown(e) && NoName(e, FWD) && RoomToLeave(e)
  {
    var e := Switched(c, NEW, OLD);
    forall n, r | n in e && Tmp(n) && r in e[n]
      ensures TestsTidy(r, v + 1)
    {
      OnlyHooksSwitched(c, n);
    }
  }

  lemma SwitchedIsApplied(c: Chains, sets: set<Name>, v: int)
    requires ReadyToSwitch(c, v) && SoundTable(c, sets) && HooksThere(c, NEW)
    ensures Applied(Switched(c, NEW, OLD), v)
  {
    SwitchedRows(c, sets, v);
    SwitchedCandidates(c, v);
    SwitchedIsSwitchable(c, NEW, OLD);
  }

  // ---------- after the commit ----------

  /** Where each chain goes, by generation. */
  lemma CommittedGeneration(n: Name)
    requires !Del(n)
    ensures var m := Committed()(n);
      (Del(m) <==> Real(n)) && (Real(m) <==> Tmp(n)) && !Tmp(m) && (Foreign(m) <==> Foreign(n)) && (Foreign(n) ==> m == n)
  {
    OneGeneration(n);
    OneGeneration(Committed()(n));
  }

  lemma CommittedIsRenamable(c: Chains)
    requires NoName(c, FWD) && RoomToLeave(c)
    ensures Renamable(c, FWR, FWD)
  {
    forall n | n in c && Real(n)
      ensures CanRename(c, n, Swap(n, FWR, FWD))
    {
      OneGeneration(n);
      OneGeneration(Swap(n, FWR, FWD));
    }
  }

  /** A candidate delegate becomes the live delegate of the same hook. */
  lemma DelegateMoves(d: Name)
    requires NEW < d && Suffix(d, NEW) in HOOKS
    ensures var e := Committed()(d);
      OLD < e && Suffix(e, OLD) == Suffix(d, NEW) && HookOf(e) == HookOf(d)
  {
    var hook := Suffix(d, NEW);
    var e := Committed()(d);
    DelegateGeneration(d);
    SwappedDelegate(d);
    HookOfKnown(d, NEW);
    HookOfKnown(e, OLD);
  }

  lemma SwappedDelegate(d: Name)
    requires NEW < d
    ensures var e := Swap(d, FWTMP, FWR); OLD < e && Suffix(e, OLD) == Suffix(d, NEW)
  {
    var hook := Suffix(d, NEW);
    assert d == NEW + hook == FWTMP + "delegate_" + hook;
    assert d[|FWTMP|..] == "delegate_" + hook;
    assert Swap(d, FWTMP, FWR) == FWR + ("delegate_" + hook) == OLD + hook;
  }

  /** A live delegate after the commit was a candidate delegate before it. */
  lemma DelegateCame(n: Name)
    requires !Del(n) && OLD < Committed()(n)
    ensures NEW < n
  {
    var m := Committed()(n);
    DelegateGeneration(m);
    CommittedGeneration(n);
    assert m == FWR + n[|FWTMP|..];
    assert OLD == FWR + "delegate_" && NEW == FWTMP + "delegate_";
    assert m[..|OLD|] == OLD && m[|FWR|..] == n[|FWTMP|..];
    assert n[|FWTMP|..][..9] == OLD[|FWR|..] == "delegate_";
    assert n[..|NEW|] == FWTMP + "delegate_";
  }

  lemma HookRuleMoves(c: Chains, n: Name, r: Rule)
    requires Foreign(n) && AppliedRule(n, r) && DelegatesKnown(c) && (r.target.Jump? ==> r.target.chain in c)
    ensures JumpTidy(n, Retarget(r, Committed()))
    ensures TestsForeign(Retarget(r, Committed()))
  {
    var r' := Retarget(r, Committed());
    assert r'.tests == r.tests;
    assert forall v: int :: TestsTidy(r, v) ==> TestsTidy(r', v);
    if r.target.Jump? && !Foreign(r.target.chain) {
      DelegateMoves(r.target.chain);
    } else if r.target.Jump? {
      OneGeneration(r.target.chain);
      CommittedGeneration(r.target.chain);
    }
  }

  lemma ChainRuleMoves(n: Name, r: Rule)
    requires !Foreign(n) && !Del(n) && JumpTidy(n, r)
    ensures JumpTidy(Committed()(n), Retarget(r, Committed()))
  {
    CommittedGeneration(n);
    OneGeneration(n);
    OneGeneration(Committed()(n));
    if r.target.Jump? && !Del(r.target.chain) {
      CommittedGeneration(r.target.chain);
    }
  }

  lemma CommittedRule(c: Chains, sets: set<Name>, v: int, n: Name, r: Rule)
    requires Applied(c, v) && SoundTable(c, sets) && n in c && r in c[n]
    ensures var m, r' := Committed()(n), Retarget(r, Committed());
      RuleTidy(m, r', v + 1)
  {
    var r' := Retarget(r, Committed());
    CommittedGeneration(n);
    assert RuleFits(r, c.Keys, sets);
    assert TestsTidy(r, v + 1) ==> TestsTidy(r', v + 1);
    if Foreign(n) {
      HookRuleMoves(c, n, r);
    } else {
      ChainRuleMoves(n, r);
    }
  }

  /** Where a chain of the committed table came from. */
  lemma CameFrom(c: Chains, e: Chains, m: Name) returns (n: Name)
    requires NoName(c, FWD) && Iso(c, e, Committed()) && m in e
    ensures n in c && !Del(n) && Committed()(n) == m && e[m] == Relabel(c[n], Committed())
  {
    n :| n in c && Committed()(n) == m;
  }

  lemma RuleCameFrom(c: Chains, e: Chains, m: Name, r': Rule) returns (n: Name, r: Rule)
    requires NoName(c, FWD) && Iso(c, e, Committed()) && m in e && r' in e[m]
    ensures n in c && !Del(n) && Committed()(n) == m && r in c[n] && r' == Retarget(r, Committed())
  {
    n := CameFrom(c, e, m);
    var i :| 0 <= i < |e[m]| && e[m][i] == r';
    r := c[n][i];
  }

  lemma CommittedRows(c: Chains, e: Chains, sets: set<Name>, v: int)
    requires Applied(c, v) && SoundTable(c, sets) && Iso(c, e, Committed())
    ensures RowsTidy(e, v + 1)
  {
    forall m, r' | m in e && r' in e[m]
      ensures RuleTidy(m, r', v + 1)
    {
      var n, r := RuleCameFrom(c, e, m, r');
      CommittedRule(c, sets, v, n, r);
    }
  }

  /** A candidate's name is as long as the name it will have when it goes out. */
  lemma OutgoingFits(n: Name)
    requires Tmp(n)
    ensures |Swap(Committed()(n), FWR, FWD)| == |n|
  {
    OneGeneration(n);
    assert |FWD| == |FWTMP|;
  }

  lemma CommittedRoom(c: Chains, e: Chains, sets: set<Name>)
    requires NoName(c, FWD) && SoundTable(c, sets) && Iso(c, e, Committed())
    ensures RoomToLeave(e)
  {
    forall m | m in e && Real(m)
      ensures |Swap(m, FWR, FWD)| < CHAIN_NAME_MAX
    {
      var n := CameFrom(c, e, m);
      CommittedGeneration(n);
      OutgoingFits(n);
    }
  }

  lemma NoCandidateLeft(c: Chains, e: Chains)
    requires NoName(c, FWD) && Iso(c, e, Committed())
    ensures NoName(e, FWTMP) && Hooked(e, NEW) && NeverTwice(e, NEW)
  {
    forall m | m in e
      ensures !Tmp(m)
    {
      var n := CameFrom(c, e, m);
      CommittedGeneration(n);
    }
    forall d | NEW < d
      ensures Tmp(d)
    {
      DelegateGeneration(d);
    }
    assert Known(e, NEW);
    KnownIsHooked(e, NEW);
  }

  lemma {:induction false} RelabelRemove(rs: seq<Rule>, r: Rule, f: Name -> Name, names: set<Name>)
    requires OneToOne(names, f) && TargetsIn(rs, names) && (r.target.Jump? ==> r.target.chain in names)
    ensures RemoveFirst(Relabel(rs, f), Retarget(r, f)) == Relabel(RemoveFirst(rs, r), f)
    ensures Retarget(r, f) in Relabel(rs, f) <==> r in rs
  {
    if rs != [] {
      RelabelRemove(rs[1..], r, f, names);
      assert Relabel(rs, f) == [Retarget(rs[0], f)] + Relabel(rs[1..], f);
      assert Relabel(rs, f)[1..] == Relabel(rs[1..], f);
      assert Retarget(rs[0], f) == Retarget(r, f) <==> rs[0] == r;
      assert RemoveFirst(rs, r) == if rs[0] == r then rs[1..] else [rs[0]] + RemoveFirst(rs[1..], r);
    }
  }

  lemma RelabelOnce(rs: seq<Rule>, r: Rule, f: Name -> Name, names: set<Name>)
    requires OneToOne(names, f) && TargetsIn(rs, names) && (r.target.Jump? ==> r.target.chain in names) && Once(rs, r)
    ensures Once(Relabel(rs, f), Retarget(r, f))
  {
    RelabelRemove(rs, r, f, names);
    forall i | 0 <= i < |RemoveFirst(rs, r)| && RemoveFirst(rs, r)[i].target.Jump?
      ensures RemoveFirst(rs, r)[i].target.chain in names
    {
      RemovedIsIn(rs, r);
      assert RemoveFirst(rs, r)[i] in rs;
    }
    RelabelRemove(RemoveFirst(rs, r), r, f, names);
  }

  lemma CommittedIsHooked(c: Chains, e: Chains)
    requires NoName(c, FWD) && DelegatesKnown(c) && Iso(c, e, Committed())
    ensures Hooked(e, OLD)
  {
    forall m | m in e && OLD < m
      ensures Suffix(m, OLD) in HOOKS
    {
      var n := CameFrom(c, e, m);
      DelegateCame(n);
      DelegateMoves(n);
    }
    KnownIsHooked(e, OLD);
  }

  lemma CommittedAttached(c: Chains, e: Chains, sets: set<Name>, v: int, m: Name)
    requires Applied(c, v) && SoundTable(c, sets) && Iso(c, e, Committed()) && m in e && OLD < m
    ensures HookOf(m) in e && Once(e[HookOf(m)], JumpTo(m))
  {
    var d := CameFrom(c, e, m);
    DelegateCame(d);
    DelegateMoves(d);
    var h := HookOf(d);
    HookOfKnown(d, NEW);
    BuiltinsAreForeign(h);
    OneGeneration(h);
    CommittedGeneration(h);
    SoundIsClosed(c, sets);
    RelabelOnce(c[h], JumpTo(d), Committed(), c.Keys);
    assert Retarget(JumpTo(d), Committed()) == JumpTo(m);
  }

  lemma CommittedSettled(c: Chains, e: Chains, sets: set<Name>, v: int)
    requires Applied(c, v) && SoundTable(c, sets) && Iso(c, e, Committed())
    ensures SettledTable(e)
  {
    CommittedRows(c, e, sets, v);
    NoCandidateLeft(c, e);
    forall m, i | m in e && !Stale(m) && 0 <= i < |e[m]| && e[m][i].target.Jump?
      ensures !Stale(e[m][i].target.chain)
    {
      var n, r := RuleCameFrom(c, e, m, e[m][i]);
      CommittedGeneration(n);
      CommittedTarget(c, sets, v, n, r);
    }
  }

  lemma CommittedTarget(c: Chains, sets: set<Name>, v: int, n: Name, r: Rule)
    requires Applied(c, v) && SoundTable(c, sets) && n in c && !Real(n) && r in c[n] && r.target.Jump?
    ensures !Stale(Committed()(r.target.chain))
  {
    var x := r.target.chain;
    assert RuleFits(r, c.Keys, sets);
    CommittedGeneration(x);
    OneGeneration(n);
    assert if Foreign(n) then AppliedRule(n, r) else JumpTidy(n, r);
    DelegateGeneration(x);
    OneGeneration(x);
  }

  /** Committing a switched table leaves a tidy table of the next version from which nothing stale can be reached. */
  lemma CommittedIsTidy(c: Chains, e: Chains, sets: set<Name>, v: int)
    requires Applied(c, v) && SoundTable(c, sets) && Iso(c, e, Committed())
    ensures TidyTable(e, v + 1) && SettledTable(e)
  {
    CommittedRows(c, e, sets, v);
    CommittedRoom(c, e, sets);
    NoCandidateLeft(c, e);
    CommittedIsHooked(c, e);
    CommittedSettled(c, e, sets, v);
    forall m | m in e && OLD < m
      ensures HookOf(m) in e && Once(e[HookOf(m)], JumpTo(m))
    {
      CommittedAttached(c, e, sets, v, m);
    }
  }

  // ---------- after the rollback ----------

  /** Switching there and back brings no rule a chain did not have. */
  lemma RolledBackRules(c: Chains, n: Name, r: Rule)
    requires Switchable(c, NEW, OLD) && HooksThere(c, NEW) && n in c && r in RolledBack(c, NEW, OLD)[n]
    ensures r in c[n]
  {
    RollbackRow(c, NEW, OLD, n);
    SwitchedRow(c, NEW, OLD, n);
    var d := For(c, OLD, n);
    if d.Some? {
      RemovedIsIn(c[n], JumpTo(d.value));
    }
  }

  lemma RolledBackAttached(c: Chains)
    requires Switchable(c, NEW, OLD) && HooksThere(c, NEW)
    ensures var e := RolledBack(c, NEW, OLD); e.Keys == c.Keys && AllAttached(e, OLD) && AllLoose(e, NEW)
  {
    var mid := Switched(c, NEW, OLD);
    SwitchedIsSwitchable(c, NEW, OLD);
    SwitchedLists(c, NEW, OLD, OLD);
    assert HooksThere(mid, OLD);
    SwitchedIsSwitchable(mid, OLD, NEW);
  }

  lemma SubsetRows(c: Chains, e: Chains, v: int)
    requires RowsTidy(c, v) && e.Keys == c.Keys && forall n, r :: n in e && r in e[n] ==> r in c[n]
    ensures RowsTidy(e, v)
  {
  }

  /** Rolling back leaves a tidy table of the same version from which nothing stale can be reached. */
  lemma RolledBackIsTidy(c: Chains, v: int)
    requires ReadyToSwitch(c, v) && HooksThere(c, NEW)
    ensures TidyTable(RolledBack(c, NEW, OLD), v) && SettledTable(RolledBack(c, NEW, OLD))
  {
    var e := RolledBack(c, NEW, OLD);
    RolledBackAttached(c);
    forall n, r | n in e && r in e[n]
      ensures r in c[n]
    {
      RolledBackRules(c, n, r);
    }
    SubsetRows(c, e, v);
    LooseIsNeverTwice(e);
    SubsetSettled(c, e);
  }

  lemma SubsetSettled(c: Chains, e: Chains)
    requires SettledTable(c) && e.Keys == c.Keys && forall n, r :: n in e && r in e[n] ==> r in c[n]
    ensures SettledTable(e)
  {
    forall n, i | n in e && !Stale(n) && 0 <= i < |e[n]| && e[n][i].target.Jump?
      ensures !Stale(e[n][i].target.chain)
    {
      assert e[n][i] in c[n];
      var j :| 0 <= j < |c[n]| && c[n][j] == e[n][i];
      assert NotStale()(c[n][j].target.chain);
    }
  }
}
