/** What holds of the kernel whenever no switch is under way, whatever the last reload left behind. */
module Tidy {
  import opened Text
  import opened Netfilter
  import opened Kernel
  import opened Machines
  import opened Hosts
  import opened Generations
  import opened Delegates
  import opened Apply

  // ---------- set versions ----------

  function Signed(k: int): string {
    if k < 0 then "-" + Decimal(-k) else Decimal(k)
  }

  /** `CFW_<version>_`: LAST, CURRENT or NEXT, by what is added to the recorded version. */
  function SetPrefix(k: int): string {
    FWR + Signed(k) + "_"
  }

  lemma SignedHasNoUnderscore(k: int)
    ensures '_' !in Signed(k)
  {
    var d := Decimal(if k < 0 then -k else k);
    assert forall i :: 0 <= i < |d| ==> Digit(d[i]);
  }

  lemma SignedInjective(j: int, k: int)
    requires Signed(j) == Signed(k)
    ensures j == k
  {
    var a, b := Decimal(if j < 0 then -j else j), Decimal(if k < 0 then -k else k);
    assert Digit(a[0]) && Digit(b[0]);
    if j < 0 { assert Signed(j)[1..] == a; }
    if k < 0 { assert Signed(k)[1..] == b; }
    DecimalInjective(if j < 0 then -j else j, if k < 0 then -k else k);
  }

  /** No set belongs to two versions, however many digits they have. */
  lemma OneVersion(s: Name, j: int, k: int)
    requires SetPrefix(j) <= s && SetPrefix(k) <= s
    ensures j == k
  {
    var rest := s[|FWR|..];
    SignedHasNoUnderscore(j);
    SignedHasNoUnderscore(k);
    VersionStarts(s, j);
    VersionStarts(s, k);
    BeforeSeparator(Signed(j), '_', rest);
    BeforeSeparator(Signed(k), '_', rest);
    SignedInjective(j, k);
  }

  lemma VersionStarts(s: Name, k: int)
    requires SetPrefix(k) <= s
    ensures |FWR| <= |s| && Signed(k) + ['_'] <= s[|FWR|..]
  {
    var word := Signed(k) + ['_'];
    assert SetPrefix(k) == FWR + word;
    assert s[..|FWR + word|] == FWR + word;
    assert s[|FWR|..][..|word|] == word;
  }

  /** A generated set of a version other than this one. */
  ghost predicate OtherVersion(s: Name, v: int) {
    exists k: int :: k != v && SetPrefix(k) <= s
  }

  // ---------- one rule, one table ----------

  /** The jump a delegate has in the chain it hooks, and nothing else about it. */
  ghost predicate ManagedJump(n: Name, r: Rule) {
    r.target.Jump? && r == JumpTo(r.target.chain) && HookOf(r.target.chain) == n
    && (OLD < r.target.chain || NEW < r.target.chain)
  }

  /** Generations jump only within themselves and to foreign chains; foreign chains only by managed jumps. */
  ghost predicate JumpTidy(n: Name, r: Rule) {
    r.target.Jump? ==>
      var x := r.target.chain;
      if Real(n) then !Stale(x)
      else if Tmp(n) then Foreign(x) || Tmp(x)
      else if Del(n) then Foreign(x) || Del(x)
      else Foreign(x) || ManagedJump(n, r)
  }

  ghost predicate TestsTidy(r: Rule, v: int) {
    forall t :: t in r.tests && t.SetTest? ==> !OtherVersion(t.name, v)
  }

  /** Rules the firewall did not write name no set it made. */
  ghost predicate TestsForeign(r: Rule) {
    forall v: int :: TestsTidy(r, v)
  }

  ghost predicate RuleTidy(n: Name, r: Rule, v: int) {
    JumpTidy(n, r) && (!Stale(n) ==> TestsTidy(r, v)) && (Foreign(n) ==> TestsForeign(r))
  }

  ghost predicate RowsTidy(c: Chains, v: int) {
    forall n, r :: n in c && r in c[n] ==> RuleTidy(n, r, v)
  }

  /** A live chain can also take the name it will have when it goes out. */
  ghost predicate RoomToLeave(c: Chains) {
    forall n :: n in c && Real(n) ==> |Swap(n, FWR, FWD)| < CHAIN_NAME_MAX
  }

  ghost predicate AtMostOnce(rs: seq<Rule>, r: Rule) {
    r !in RemoveFirst(rs, r)
  }

  ghost predicate NeverTwice(c: Chains, prefix: string) {
    forall d :: d in c && prefix < d && HookOf(d) in c ==> AtMostOnce(c[HookOf(d)], JumpTo(d))
  }

  /**
   A table between switches: generations keep apart, live chains name no set of another version,
   each live delegate is attached exactly once, and each candidate delegate at most once.
   */
  ghost predicate TidyTable(c: Chains, v: int) {
    RowsTidy(c, v) && AllAttached(c, OLD) && Hooked(c, NEW) && NeverTwice(c, NEW) && RoomToLeave(c)
  }

  // ---------- losing stale rules and chains ----------

  ghost predicate RowShrunk(n: Name, rs: seq<Rule>, rs': seq<Rule>) {
    rs' == rs || (Stale(n) && rs' == []) || exists d :: Stale(d) && rs' == RemoveFirst(rs, JumpTo(d))
  }

  /** Only stale chains and jumps to stale chains are missing. */
  ghost predicate Shrunk(c: Chains, c': Chains) {
    && (forall n :: n in c' ==> n in c && RowShrunk(n, c[n], c'[n]))
    && (forall n :: n in c && !Stale(n) ==> n in c')
  }

  lemma {:induction false} RemoveCommutes(rs: seq<Rule>, a: Rule, b: Rule)
    ensures RemoveFirst(RemoveFirst(rs, a), b) == RemoveFirst(RemoveFirst(rs, b), a)
  {
    if rs != [] {
      RemoveCommutes(rs[1..], a, b);
    }
  }

  lemma {:induction false} RemoveKeepsOthers(rs: seq<Rule>, a: Rule, b: Rule)
    requires a != b
    ensures b in RemoveFirst(rs, a) <==> b in rs
  {
    if rs != [] {
      RemoveKeepsOthers(rs[1..], a, b);
      assert rs == [rs[0]] + rs[1..];
    }
  }

  lemma RowShrunkKeeps(n: Name, rs: seq<Rule>, rs': seq<Rule>, d: Name)
    requires RowShrunk(n, rs, rs') && !Stale(n)
    ensures forall r :: r in rs' ==> r in rs
    ensures AtMostOnce(rs, JumpTo(d)) ==> AtMostOnce(rs', JumpTo(d))
    ensures !Stale(d) ==> (JumpTo(d) in rs' <==> JumpTo(d) in rs)
  {
    if rs' != rs {
      var e :| Stale(e) && rs' == RemoveFirst(rs, JumpTo(e));
      RemovedIsIn(rs, JumpTo(e));
      RemoveCommutes(rs, JumpTo(e), JumpTo(d));
      RemovedIsIn(RemoveFirst(rs, JumpTo(d)), JumpTo(e));
      if !Stale(d) {
        RemoveKeepsOthers(rs, JumpTo(e), JumpTo(d));
      }
    }
  }

  lemma BuiltinsAreForeign(n: Name)
    requires n in BUILTINS
    ensures Foreign(n) && !Stale(n)
  {
    OneGeneration(n);
  }

  /** A delegate of the live generation is live, one of the candidate generation is a candidate. */
  lemma DelegateGeneration(d: Name)
    ensures OLD < d ==> Real(d) && !Stale(d)
    ensures NEW < d ==> Tmp(d) && !Real(d)
  {
    assert FWR <= OLD && FWTMP <= NEW;
    OneGeneration(d);
  }

  lemma HookedSubset(c: Chains, c': Chains, prefix: string)
    requires Hooked(c, prefix) && c'.Keys <= c.Keys
    ensures Hooked(c', prefix)
  {
    ListingIs(c, prefix);
    ListingIs(c', prefix);
  }

  lemma RowsStayTidy(c: Chains, c': Chains, v: int)
    requires RowsTidy(c, v) && Shrunk(c, c')
    ensures RowsTidy(c', v)
  {
    forall n, r | n in c' && r in c'[n]
      ensures r in c[n]
    {
      if c'[n] != c[n] {
        var d :| Stale(d) && c'[n] == RemoveFirst(c[n], JumpTo(d));
        RemovedIsIn(c[n], JumpTo(d));
      }
    }
  }

  lemma StillAttached(c: Chains, c': Chains)
    requires AllAttached(c, OLD) && Shrunk(c, c')
    ensures AllAttached(c', OLD)
  {
    HookedSubset(c, c', OLD);
    forall d | d in c' && OLD < d
      ensures HookOf(d) in c' && Once(c'[HookOf(d)], JumpTo(d))
    {
      var h := HookOf(d);
      BuiltinsAreForeign(h);
      DelegateGeneration(d);
      RowShrunkKeeps(h, c[h], c'[h], d);
    }
  }

  lemma StillNeverTwice(c: Chains, c': Chains)
    requires Hooked(c, NEW) && NeverTwice(c, NEW) && Shrunk(c, c')
    ensures NeverTwice(c', NEW)
  {
    forall d | d in c' && NEW < d && HookOf(d) in c'
      ensures AtMostOnce(c'[HookOf(d)], JumpTo(d))
    {
      BuiltinsAreForeign(HookOf(d));
      RowShrunkKeeps(HookOf(d), c[HookOf(d)], c'[HookOf(d)], d);
    }
  }

  lemma ShrunkStaysTidy(c: Chains, c': Chains, v: int)
    requires TidyTable(c, v) && Shrunk(c, c')
    ensures TidyTable(c', v)
  {
    RowsStayTidy(c, c', v);
    StillAttached(c, c');
    HookedSubset(c, c', NEW);
    StillNeverTwice(c, c');
  }
}
