/** What holds between reloads, however many there have been and however they ended. */
module BetweenRuns {
  import opened Text
  import opened Netfilter
  import opened Kernel
  import opened Machines
  import opened Hosts
  import opened Generations
  import opened Delegates
  import opened Apply
  import opened ApplyProof
  import opened Commit
  import opened Tidy
  import opened CleanupProof
  import opened CleanupSteps
  import opened Harmless
  import opened Reload
  import opened Resting
  import opened ReloadProof
  import opened ReloadResults

  // ---------- any number of reloads ----------

  /** `s` is what a reload from `m` leaves: its end, or where it was killed, unless live delegates were out just then. */
  ghost predicate LeftBehind(m: Machine, s: Machine, tabs: seq<TabId>, given: Inputs)
    requires forall t :: t in tabs ==> t in m.tables
  {
    var states := ReloadRun(m, tabs, given).states;
    s == Last(m, states) || (s in states && Startable(s))
  }

  /** `s` is what up to this many reloads leave, each confirmed, declined, refused, or killed with its live delegates hooked. */
  ghost predicate AfterReloads(m: Machine, s: Machine, tabs: seq<TabId>, reloads: nat)
    decreases reloads
  {
    || s == m
    || (reloads > 0 && exists m', given ::
        AfterReloads(m, m', tabs, reloads - 1) && Covering(m', tabs) && GoodInputs(given) && LeftBehind(m', s, tabs, given))
  }

  lemma LeftCanStart(m: Machine, s: Machine, tabs: seq<TabId>, given: Inputs)
    requires CanStart(m, tabs) && GoodInputs(given) && LeftBehind(m, s, tabs, given)
    ensures CanStart(s, tabs)
  {
    if s == Last(m, ReloadRun(m, tabs, given).states) {
      ReloadEnds(m, tabs, given);
    } else {
      ReloadStates(m, tabs, given, s);
    }
  }

  /** Whatever reloads have gone before, the next one can start. */
  lemma {:induction false} ReloadsCanStart(m: Machine, s: Machine, tabs: seq<TabId>, reloads: nat)
    requires CanStart(m, tabs) && AfterReloads(m, s, tabs, reloads)
    ensures CanStart(s, tabs)
    decreases reloads
  {
    if s != m {
      var m', given :| AfterReloads(m, m', tabs, reloads - 1) && Covering(m', tabs) && GoodInputs(given) && LeftBehind(m', s, tabs, given);
      ReloadsCanStart(m, m', tabs, reloads - 1);
      LeftCanStart(m', s, tabs, given);
    }
  }

  /** And once one of them is left to run with its switch not refused half-way, everything is quiet again. */
  lemma NextReloadSettles(m: Machine, s: Machine, tabs: seq<TabId>, reloads: nat, given: Inputs)
    requires CanStart(m, tabs) && AfterReloads(m, s, tabs, reloads) && GoodInputs(given) && Covering(s, tabs)
    requires !EndingOf(s, tabs, given).NotSwitched?
    ensures Quiet(Last(s, ReloadRun(s, tabs, given).states))
  {
    ReloadsCanStart(m, s, tabs, reloads);
    ReloadEnds(s, tabs, given);
  }

  // ---------- what quiet means ----------

  /** A chain is reached from another by so many jumps. */
  ghost predicate Reaches(c: Chains, from: Name, to: Name, jumps: nat)
    decreases jumps
  {
    if jumps == 0 then from == to
    else exists n :: Reaches(c, from, n, jumps - 1) && n in c && exists i :: 0 <= i < |c[n]| && c[n][i].target == Jump(to)
  }

  /** No candidate or outgoing chain can be reached from a chain the firewall did not make. */
  lemma {:induction false} NothingStaleIsReached(c: Chains, from: Name, to: Name, jumps: nat)
    requires SettledTable(c) && Foreign(from) && Reaches(c, from, to, jumps)
    ensures !Stale(to)
    decreases jumps
  {
    if jumps > 0 {
      var n :| Reaches(c, from, n, jumps - 1) && n in c && exists i :: 0 <= i < |c[n]| && c[n][i].target == Jump(to);
      NothingStaleIsReached(c, from, n, jumps - 1);
      var i :| 0 <= i < |c[n]| && c[n][i].target == Jump(to);
      assert NotStale()(c[n][i].target.chain);
    }
  }

  /** The generated sets a reachable rule names exist, and are of the recorded version. */
  lemma ReachedSetsAreCurrent(m: Machine, t: TabId, from: Name, n: Name, jumps: nat, i: nat, x: Test)
    requires Quiet(m) && t in m.tables && Foreign(from) && Reaches(m.tables[t], from, n, jumps)
    requires n in m.tables[t] && i < |m.tables[t][n]| && x in m.tables[t][n][i].tests && x.SetTest?
    ensures x.name in m.sets && forall k: int :: SetPrefix(k) <= x.name ==> k == m.version
  {
    var c := m.tables[t];
    NothingStaleIsReached(c, from, n, jumps);
    assert c[n][i] in c[n] && TidyTable(c, m.version);
    assert RuleFits(c[n][i], c.Keys, m.sets.Keys);
    assert RuleTidy(n, c[n][i], m.version);
    assert !OtherVersion(x.name, m.version);
  }

  /**
   A foreign chain jumps to a chain of the firewall only from the built-in chain a live delegate is
   for, by that delegate's bare jump, and it has that jump exactly once.
   */
  lemma OnlyLiveDelegatesAreHooked(m: Machine, t: TabId, n: Name, r: Rule)
    requires Quiet(m) && t in m.tables && n in m.tables[t] && r in m.tables[t][n] && Foreign(n)
    requires r.target.Jump? && !Foreign(r.target.chain)
    ensures var d := r.target.chain;
      OLD < d && d in m.tables[t] && n in BUILTINS && r == JumpTo(d) && n == HookOf(d) && Once(m.tables[t][n], r)
  {
    var c := m.tables[t];
    assert TidyTable(c, m.version) && SettledTable(c) && SoundTable(c, m.sets.Keys);
    HookedByLiveDelegate(c, m.sets.Keys, m.version, n, r);
  }

  lemma HookedByLiveDelegate(c: Chains, sets: set<Name>, v: int, n: Name, r: Rule)
    requires TidyTable(c, v) && SettledTable(c) && SoundTable(c, sets) && n in c && r in c[n] && Foreign(n)
    requires r.target.Jump? && !Foreign(r.target.chain)
    ensures var d := r.target.chain; OLD < d && d in c && n in BUILTINS && r == JumpTo(d) && n == HookOf(d) && Once(c[n], r)
  {
    assert RuleTidy(n, r, v);
    var i :| 0 <= i < |c[n]| && c[n][i] == r;
    assert NotStale()(c[n][i].target.chain);
    DelegateGeneration(r.target.chain);
    assert RuleFits(r, c.Keys, sets);
  }
}
