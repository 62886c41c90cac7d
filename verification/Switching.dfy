/** What a switch finds and what it leaves, in terms of tidiness. */
module Switching {
  import opened Text
  import opened Netfilter
  import opened Kernel
  import opened Machines
  import opened Hosts
  import opened Generations
  import opened Delegates
  import opened Apply
  import opened ApplyProof
  import opened Tidy
  import opened CleanupProof
  import opened CleanupSteps
  import opened Harmless
  import opened Zones
  import opened Building

  // ---------- hooks ----------

  lemma HooksAreWords(hook: string)
    requires hook in HOOKS
    ensures '_' !in hook && Lower(hook) == hook && Upper(hook) in BUILTINS
  {
    assert Upper("prerouting") == "PREROUTING" && Upper("postrouting") == "POSTROUTING" && Upper("input") == "INPUT";
    assert Upper("forward") == "FORWARD" && Upper("output") == "OUTPUT";
    assert Lower("prerouting") == "prerouting" && Lower("postrouting") == "postrouting" && Lower("input") == "input";
    assert Lower("forward") == "forward" && Lower("output") == "output";
  }

  /** What follows a delegate prefix. */
  function Suffix(d: Name, prefix: string): string {
    if |prefix| <= |d| then d[|prefix|..] else ""
  }

  lemma HookOfKnown(d: Name, prefix: string)
    requires (prefix == OLD || prefix == NEW) && prefix < d && Suffix(d, prefix) in HOOKS
    ensures d == prefix + Suffix(d, prefix) && HookOf(d) == Upper(Suffix(d, prefix)) && HookOf(d) in BUILTINS
  {
    var hook := Suffix(d, prefix);
    var start := prefix[..|prefix| - 1];
    HooksAreWords(hook);
    assert prefix == start + ['_'];
    assert d == start + ['_'] + hook;
    AfterLastWord(start, '_', hook);
  }

  ghost predicate Known(c: Chains, prefix: string) {
    forall d :: d in c && prefix < d ==> Suffix(d, prefix) in HOOKS
  }

  /** Delegates named for hooks are each for a built-in chain of its own. */
  lemma KnownIsHooked(c: Chains, prefix: string)
    requires (prefix == OLD || prefix == NEW) && Known(c, prefix)
    ensures Hooked(c, prefix)
  {
    ListingIs(c, prefix);
    forall d | d in c && prefix < d
      ensures d !in BUILTINS && HookOf(d) in BUILTINS
    {
      HookOfKnown(d, prefix);
      DelegateGeneration(d);
      if d in BUILTINS { BuiltinsAreForeign(d); }
    }
    forall d, e | d in c && e in c && prefix < d && prefix < e && HookOf(d) == HookOf(e)
      ensures d == e
    {
      SameHook(d, e, prefix);
    }
  }

  lemma SameHook(d: Name, e: Name, prefix: string)
    requires (prefix == OLD || prefix == NEW) && prefix < d && prefix < e
    requires Suffix(d, prefix) in HOOKS && Suffix(e, prefix) in HOOKS && HookOf(d) == HookOf(e)
    ensures d == e
  {
    HookOfKnown(d, prefix);
    HookOfKnown(e, prefix);
    HooksAreWords(Suffix(d, prefix));
    HooksAreWords(Suffix(e, prefix));
    UpperKeepsLowerWords(Suffix(d, prefix), Suffix(e, prefix));
  }

  // ---------- what a switch finds ----------

  lemma BuiltIsHooked(x: Chains)
    requires DelegatesKnown(x)
    ensures Hooked(x, NEW)
  {
    assert Known(x, NEW);
    KnownIsHooked(x, NEW);
  }

  lemma SameListing(c: Chains, x: Chains)
    requires LiveSame(c, x)
    ensures Listing(x, OLD) == Listing(c, OLD)
  {
    forall d | OLD < d
      ensures d in c <==> d in x
    {
      DelegateGeneration(d);
    }
    assert (set n | n in x && OLD < n) == (set n | n in c && OLD < n);
  }

  lemma BuildKeepsAttached(c: Chains, x: Chains)
    requires AllAttached(c, OLD) && LiveSame(c, x)
    ensures AllAttached(x, OLD)
  {
    SameListing(c, x);
    forall d | d in x && OLD < d
      ensures d !in BUILTINS && HookOf(d) in BUILTINS && HookOf(d) in x && Once(x[HookOf(d)], JumpTo(d))
    {
      DelegateGeneration(d);
      BuiltinsAreForeign(HookOf(d));
    }
  }

  lemma BuildKeepsSettled(c: Chains, x: Chains)
    requires SettledTable(c) && LiveSame(c, x)
    ensures SettledTable(x)
  {
  }

  lemma SettledIsLoose(x: Chains)
    requires SettledTable(x) && Hooked(x, NEW)
    ensures AllLoose(x, NEW)
  {
    ListingIs(x, NEW);
    forall d | d in x && NEW < d && HookOf(d) in x
      ensures JumpTo(d) !in x[HookOf(d)]
    {
      BuiltinsAreForeign(HookOf(d));
      DelegateGeneration(d);
      JumpAbsent(x, HookOf(d), d);
    }
  }

  lemma LooseIsNeverTwice(x: Chains)
    requires AllLoose(x, NEW)
    ensures NeverTwice(x, NEW)
  {
    ListingIs(x, NEW);
    forall d | d in x && NEW < d && HookOf(d) in x
      ensures AtMostOnce(x[HookOf(d)], JumpTo(d))
    {
      RemovedIsIn(x[HookOf(d)], JumpTo(d));
    }
  }

  lemma BuildKeepsRoom(c: Chains, x: Chains)
    requires RoomToLeave(c) && LiveSame(c, x)
    ensures RoomToLeave(x)
  {
    forall n | n in x && Real(n)
      ensures n in c
    {
      OneGeneration(n);
    }
  }

  /** After any part of a build a table is tidy and settled, and ready to be switched. */
  lemma BuiltIsReady(c: Chains, x: Chains, v: int)
    requires TidyTable(c, v) && SettledTable(c) && InBuild(c, x, v)
    ensures TidyTable(x, v) && SettledTable(x) && Switchable(x, NEW, OLD)
  {
    BuiltIsHooked(x);
    BuildKeepsAttached(c, x);
    BuildKeepsSettled(c, x);
    SettledIsLoose(x);
    LooseIsNeverTwice(x);
    BuildKeepsRoom(c, x);
  }

  /** A table ready to be switched: what a build leaves. */
  ghost predicate ReadyToSwitch(c: Chains, v: int) {
    && TidyTable(c, v) && SettledTable(c) && Switchable(c, NEW, OLD)
    && CandidateTests(c, v) && DelegatesKnown(c) && NoName(c, FWD)
  }

  ghost predicate AllReady(m: Machine) {
    Sound(m) && forall t :: t in m.tables ==> ReadyToSwitch(m.tables[t], m.version)
  }

  lemma BuildingIsBuilt(m: Machine, s: Machine)
    requires Clean(m) && BuildsOn(m, s)
    ensures AllReady(s)
  {
    forall t | t in s.tables
      ensures ReadyToSwitch(s.tables[t], s.version)
    {
      assert t in m.tables;
      BuiltIsReady(m.tables[t], s.tables[t], m.version);
    }
  }

  // ---------- stopped on the way up ----------

  lemma UpRow(c: Chains, up: string, n: Name, r: Rule)
    requires (up == NEW || up == OLD) && n in c && r in With(c[n], For(c, up, n)) && r !in c[n] && Hooked(c, up)
    ensures JumpTidy(n, r) && TestsForeign(r) && ManagedJump(n, r)
  {
    ForIs(c, up, n);
    var d := For(c, up, n).value;
    assert r == JumpTo(d);
    DelegateGeneration(d);
    BuiltinsAreForeign(n);
  }

  lemma UpRowsTidy(c: Chains, x: Chains, v: int)
    requires RowsTidy(c, v) && Hooked(c, NEW) && PartlyUp(c, x, NEW)
    ensures RowsTidy(x, v)
  {
    forall n, r | n in x && r in x[n]
      ensures RuleTidy(n, r, v)
    {
      if r !in c[n] {
        UpRow(c, NEW, n, r);
        assert TestsTidy(r, v);
      }
    }
  }

  lemma UpKeepsAttached(c: Chains, x: Chains)
    requires AllAttached(c, OLD) && Hooked(c, NEW) && PartlyUp(c, x, NEW)
    ensures AllAttached(x, OLD)
  {
    HookedSubset(c, x, OLD);
    forall d | d in x && OLD < d
      ensures HookOf(d) in x && Once(x[HookOf(d)], JumpTo(d))
    {
      var h := HookOf(d);
      ForIs(c, NEW, h);
      DelegateGeneration(d);
      if x[h] != c[h] {
        var u := For(c, NEW, h).value;
        DelegateGeneration(u);
        KeptOnce(c[h], JumpTo(d), [JumpTo(u)]);
      }
    }
  }

  lemma UpNeverTwice(c: Chains, x: Chains)
    requires AllLoose(c, NEW) && PartlyUp(c, x, NEW)
    ensures NeverTwice(x, NEW)
  {
    ListingIs(c, NEW);
    forall d | d in x && NEW < d && HookOf(d) in x
      ensures AtMostOnce(x[HookOf(d)], JumpTo(d))
    {
      ForAtHook(c, NEW, d);
      AddedOnce(c[HookOf(d)], JumpTo(d));
    }
  }

  /** A switch stopped before any old jump is taken out leaves a table a cleanup can start from. */
  lemma UpStaysTidy(c: Chains, x: Chains, v: int)
    requires TidyTable(c, v) && AllLoose(c, NEW) && PartlyUp(c, x, NEW)
    ensures TidyTable(x, v)
  {
    UpRowsTidy(c, x, v);
    UpKeepsAttached(c, x);
    HookedSubset(c, x, NEW);
    UpNeverTwice(c, x);
  }

  // ---------- stopped anywhere in a switch ----------

  lemma StageRowsTidy(c: Chains, x: Chains, up: string, down: string, v: int)
    requires (up == NEW || up == OLD) && RowsTidy(c, v) && Hooked(c, up) && Stage(c, x, up, down)
    ensures RowsTidy(x, v)
  {
    forall n, r | n in x && r in x[n]
      ensures RuleTidy(n, r, v)
    {
      StageRowIn(c, x, up, down, n, r);
      if r !in c[n] {
        UpRow(c, up, n, r);
        assert TestsTidy(r, v);
      }
    }
  }

  lemma StageRowIn(c: Chains, x: Chains, up: string, down: string, n: Name, r: Rule)
    requires Stage(c, x, up, down) && n in x && r in x[n]
    ensures r in With(c[n], For(c, up, n))
  {
    var both := With(c[n], For(c, up, n));
    if For(c, down, n).Some? {
      RemovedIsIn(both, JumpTo(For(c, down, n).value));
    }
  }

  lemma StageNeverTwice(c: Chains, x: Chains, up: string, down: string)
    requires (up == NEW || down == NEW) && Switchable(c, up, down) && Stage(c, x, up, down)
    ensures NeverTwice(x, NEW)
  {
    forall d | d in x && NEW < d && HookOf(d) in x
      ensures AtMostOnce(x[HookOf(d)], JumpTo(d))
    {
      ForAtHook(c, NEW, d);
      MakeBeforeBreak(c, x, up, down, HookOf(d));
    }
  }

  /** A table stopped anywhere in a switch either way is tidy as long as its live delegates are attached. */
  lemma StageStaysTidy(c: Chains, x: Chains, up: string, down: string, v: int)
    requires ((up == NEW && down == OLD) || (up == OLD && down == NEW)) && RowsTidy(c, v) && RoomToLeave(c)
    requires Switchable(c, up, down) && Stage(c, x, up, down) && AllAttached(x, OLD)
    ensures TidyTable(x, v)
  {
    StageRowsTidy(c, x, up, down, v);
    HookedSubset(c, x, NEW);
    StageNeverTwice(c, x, up, down);
  }

  /** A switched table, as far as tidiness goes without its live delegates. */
  lemma SwitchedRowsTidy(c: Chains, v: int)
    requires ReadyToSwitch(c, v)
    ensures RowsTidy(Switched(c, NEW, OLD), v) && RoomToLeave(Switched(c, NEW, OLD))
  {
    SwitchedIsStage(c, NEW, OLD);
    StageRowsTidy(c, Switched(c, NEW, OLD), NEW, OLD, v);
  }
}
