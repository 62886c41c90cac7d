/** Changes no live chain can see. */
module Harmless {
  import opened Text
  import opened Netfilter
  import opened Kernel
  import opened Machines
  import opened Generations
  import opened Tidy

  function NotStale(): Name -> bool {
    n => !Stale(n)
  }

  /** The sets a live rule may name at this version. */
  ghost function Seen(v: int): Name -> bool {
    s => !OtherVersion(s, v)
  }

  ghost predicate SettledTable(c: Chains) {
    forall n :: n in c && !Stale(n) ==> JumpsIn(c[n], NotStale())
  }

  /** Neither a candidate nor an outgoing chain can be reached. */
  ghost predicate Settled(tables: Tables) {
    forall t :: t in tables ==> SettledTable(tables[t])
  }

  ghost predicate LiveSame(c: Chains, d: Chains) {
    && (forall n :: !Stale(n) ==> (n in c <==> n in d))
    && (forall n :: n in c && !Stale(n) ==> n in d && c[n] == d[n])
  }

  ghost predicate SeenSame(sets: Sets, sets': Sets, v: int) {
    && (forall s :: Seen(v)(s) ==> (s in sets <==> s in sets'))
    && (forall s :: s in sets && Seen(v)(s) ==> s in sets' && sets[s] == sets'[s])
  }

  /** Live chains and the sets they may name are the same in both. */
  ghost predicate SameLive(m: Machine, s: Machine, v: int) {
    && s.tables.Keys == m.tables.Keys && SeenSame(m.sets, s.sets, v)
    && (forall t :: t in m.tables ==> LiveSame(m.tables[t], s.tables[t]))
  }

  lemma SameLiveThrough(m: Machine, s: Machine, e: Machine, v: int)
    requires SameLive(m, s, v) && SameLive(s, e, v)
    ensures SameLive(m, e, v)
  {
    forall t | t in m.tables
      ensures LiveSame(m.tables[t], e.tables[t])
    {
      assert t in s.tables;
    }
  }

  lemma SettledStays(m: Machine, s: Machine, v: int)
    requires Settled(m.tables) && SameLive(m, s, v)
    ensures Settled(s.tables)
  {
    forall t | t in s.tables
      ensures SettledTable(s.tables[t])
    {
      assert t in m.tables;
    }
  }

  lemma TidyTests(c: Chains, v: int, n: Name)
    requires RowsTidy(c, v) && n in c && !Stale(n)
    ensures TestsIn(c[n], Seen(v))
  {
    forall i, t | 0 <= i < |c[n]| && t in c[n][i].tests && t.SetTest?
      ensures Seen(v)(t.name)
    {
      assert c[n][i] in c[n] && TestsTidy(c[n][i], v);
    }
  }

  /** When nothing stale can be reached, what no live chain can see changes no verdict. */
  lemma SameLiveSameVerdicts(m: Machine, s: Machine, v: int)
    requires Settled(m.tables) && SameLive(m, s, v) && forall t :: t in m.tables ==> RowsTidy(m.tables[t], v)
    ensures SameVerdicts(m, s)
  {
    forall t, n | t in m.tables && n in m.tables[t] && Foreign(n)
      ensures n in s.tables[t] && SameFates(m.tables[t], m.sets, s.tables[t], s.sets, n)
    {
      var c := m.tables[t];
      forall k | NotStale()(k) && k in c
        ensures TestsIn(c[k], Seen(v))
      {
        TidyTests(c, v, k);
      }
      ViewFates(c, m.sets, s.tables[t], s.sets, NotStale(), Seen(v), n);
    }
  }
}
