/** The three generations of chains that live side by side in the kernel, told apart by prefix. */
module Generations {
  import opened Text
  import opened Netfilter
  import opened Kernel
  import opened Machines

  const FWR: string := "CFW_"
  const FWTMP: string := "CFWTMP_"
  const FWD: string := "CFWDEL_"

  /** The live generation, the candidate one, and the outgoing one. */
  predicate Real(n: Name) { FWR < n }
  predicate Tmp(n: Name) { FWTMP < n }
  predicate Del(n: Name) { FWD < n }

  predicate Stale(n: Name) { Tmp(n) || Del(n) }

  /** Everything the firewall did not make: built-in chains and chains of other programs. */
  predicate Foreign(n: Name) { !Real(n) && !Tmp(n) && !Del(n) }

  lemma PrefixesApart()
    ensures Apart(FWR, FWTMP) && Apart(FWR, FWD) && Apart(FWTMP, FWD)
  {
    assert FWR[3] == '_' && FWTMP[3] == 'T' && FWD[3] == 'D';
  }

  lemma OneGeneration(n: Name)
    ensures Real(n) ==> !Tmp(n) && !Del(n)
    ensures Tmp(n) ==> !Del(n)
    ensures n in BUILTINS ==> Foreign(n)
  {
    assert FWR[3] == '_' && FWTMP[3] == 'T' && FWD[3] == 'D';
    assert FWR[0] == 'C' && FWTMP[0] == 'C' && FWD[0] == 'C';
  }

  ghost predicate ClosedTables(m: Machine) {
    forall t :: t in m.tables ==> Closed(m.tables[t])
  }

  /** A packet entering at any chain the firewall did not make, built-in chains first, ends the same way in both. */
  ghost predicate SameVerdicts(m: Machine, s: Machine) {
    && s.tables.Keys == m.tables.Keys
    && (forall t, n :: t in m.tables && n in m.tables[t] && Foreign(n) ==>
        n in s.tables[t] && SameFates(m.tables[t], m.sets, s.tables[t], s.sets, n))
  }

  lemma SameVerdictsThrough(m: Machine, s: Machine, e: Machine)
    requires SameVerdicts(m, s) && SameVerdicts(s, e)
    ensures SameVerdicts(m, e)
  {
    forall t, n | t in m.tables && n in m.tables[t] && Foreign(n)
      ensures n in e.tables[t] && SameFates(m.tables[t], m.sets, e.tables[t], e.sets, n)
    {
      assert n in s.tables[t];
    }
  }
}
