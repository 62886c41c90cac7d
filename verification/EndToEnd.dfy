/** From the declarations to the packets: what a confirmed reload enforces is what was declared. */
module EndToEnd {
  import opened Text
  import opened Netfilter
  import opened Kernel
  import opened Machines
  import opened Hosts
  import opened Generations
  import opened Delegates
  import opened Apply
  import opened ApplyProof
  import opened Tidy
  import opened CleanupProof
  import opened Zones
  import opened Building
  import opened Switching
  import opened Turnover
  import opened Declarations
  import opened RuleBuilding
  import opened Meaning
  import opened Compilation
  import opened Compiling
  import opened Submitting
  import opened Loading
  import Restoring
  import Grouping

  // ---------- the chains built, when they are in use ----------

  /** A built chain's rules in a table of the submission. */
  lemma LoadedRow(c: Chains, rs: Ruleset, f: Family, table: string, targets: Targets, name: string)
    requires NoName(c, FWTMP) && Ordinary(name)
    ensures var key := Key(f, table, name);
      RowOf(c + News(rs, f, table, FWTMP, targets), FWTMP + name)
        == if key in rs then RulesOf(rs[key], Compiled(targets, FWTMP)) else []
  {
    CandidateName(name);
    var n := FWTMP + name;
    assert n[|FWTMP|..] == name;
    Restoring.ChainsAre(rs, f, table);
    assert n in Restoring.NewChains(rs, f, table, FWTMP) <==> Key(f, table, name) in rs;
  }

  lemma BuiltRow(c: Chains, ds: seq<Decl>, env: Env, probe: Probe, f: Family, table: string, targets: Targets, name: string)
    requires NoName(c, FWTMP) && Ordinary(name)
    ensures RowOf(c + News(RulesetOf(ds, env, probe), f, table, FWTMP, targets), FWTMP + name)
      == RulesOf(Grouping.Under(AllRules(ds, env, probe), Key(f, table, name)), Compiled(targets, FWTMP))
  {
    LoadedRow(c, RulesetOf(ds, env, probe), f, table, targets, name);
    Grouping.UnderAbsent(AllRules(ds, env, probe), Key(f, table, name));
  }

  /** Preparing zones and switching leave the built chains as they were submitted. */
  lemma RowInUse(b: Chains, name: string)
    requires Switchable(Zoned(b), NEW, OLD) && Ordinary(name)
    ensures RowOf(Switched(Zoned(b), NEW, OLD), FWTMP + name) == RowOf(b, FWTMP + name)
  {
    var n := FWTMP + name;
    CandidateName(name);
    NotUnderNew(name);
    ZonedKeys(b, n);
    OneGeneration(n);
    if n in Zoned(b) {
      OnlyHooksSwitched(Zoned(b), n);
    }
  }

  lemma NotUnderNew(name: string)
    requires Ordinary(name)
    ensures !(NEW <= FWTMP + name)
  {
    if NEW <= FWTMP + name {
      CommonStart(FWTMP, "delegate_", name);
    }
  }

  /** So once switched, the table holds every chain as it was compiled. */
  lemma ChainsInUse(c: Chains, ds: seq<Decl>, env: Env, probe: Probe, f: Family, table: string, targets: Targets, sets: Sets)
    requires NoName(c, FWTMP) && env.prefix == FWTMP
    requires var b := c + News(RulesetOf(ds, env, probe), f, table, FWTMP, targets); Switchable(Zoned(b), NEW, OLD)
    ensures var b := c + News(RulesetOf(ds, env, probe), f, table, FWTMP, targets);
      ChainsLoaded(Config(ds, env, probe, targets, Switched(Zoned(b), NEW, OLD), sets), f, table)
  {
    var b := c + News(RulesetOf(ds, env, probe), f, table, FWTMP, targets);
    forall name: string | Ordinary(name)
      ensures RowOf(Switched(Zoned(b), NEW, OLD), FWTMP + name)
        == RulesOf(Grouping.Under(AllRules(ds, env, probe), Key(f, table, name)), Compiled(targets, FWTMP))
    {
      RowInUse(b, name);
      BuiltRow(c, ds, env, probe, f, table, targets, name);
    }
  }

  // ---------- a delegate ----------

  /** The zones of a hook, read one after another until one decides. */
  ghost function ReadZones(c: Config, f: Family, table: string, zones: seq<string>, p: Packet, depth: nat): Outcome {
    if zones == [] then Through
    else if depth == 0 then Deep
    else
      var key := Key(f, table, zones[0]);
      var o := Ended(Reading(c, key, DeclarationsOf(c.ds, key, c.env, c.probe), p, depth - 1));
      if o.Through? then ReadZones(c, f, table, zones[1..], p, depth) else o
  }

  function Candidates(zones: seq<string>): (r: seq<Name>)
    ensures |r| == |zones|
  {
    seq(|zones|, i requires 0 <= i < |zones| => FWTMP + zones[i])
  }

  lemma FirstZone(c: Config, f: Family, table: string, zone: string, rest: seq<Rule>, p: Packet, depth: nat)
    requires Faithful(c, f, table) && c.env.prefix == FWTMP && Ordinary(zone) && depth > 0
    ensures var key := Key(f, table, zone);
      var o := Ended(Reading(c, key, DeclarationsOf(c.ds, key, c.env, c.probe), p, depth - 1));
      Walk(c.kernel, c.sets, [JumpTo(FWTMP + zone)] + rest, p, depth) == if o.Through? then Walk(c.kernel, c.sets, rest, p, depth) else o
  {
    JumpIsRead(c, FWTMP + zone, p, depth);
    ChainIsRead(c, f, table, zone, p, depth - 1);
    assert ([JumpTo(FWTMP + zone)] + rest)[1..] == rest;
  }

  predicate AllOrdinary(zones: seq<string>) {
    forall z :: z in zones ==> Ordinary(z)
  }

  lemma ZonesSplit(zones: seq<string>)
    requires AllOrdinary(zones) && zones != []
    ensures Ordinary(zones[0]) && AllOrdinary(zones[1..])
    ensures JumpsTo(Candidates(zones)) == [JumpTo(FWTMP + zones[0])] + JumpsTo(Candidates(zones[1..]))
  {
    assert zones[0] in zones && forall z :: z in zones[1..] ==> z in zones;
  }

  /** Walking a delegate's jumps is reading its zones. */
  lemma {:induction false} DelegateIsRead(c: Config, f: Family, table: string, zones: seq<string>, p: Packet, depth: nat)
    requires Faithful(c, f, table) && c.env.prefix == FWTMP && AllOrdinary(zones)
    ensures Walk(c.kernel, c.sets, JumpsTo(Candidates(zones)), p, depth) == ReadZones(c, f, table, zones, p, depth)
    decreases |zones|
  {
    if zones != [] {
      ZonesSplit(zones);
      if depth > 0 {
        FirstZone(c, f, table, zones[0], JumpsTo(Candidates(zones[1..])), p, depth);
        DelegateIsRead(c, f, table, zones[1..], p, depth);
      }
    }
  }

  // ---------- a hook ----------

  /** The chains of a table built for a hook, in sorted order. */
  function ZoneChains(b: Chains, hook: string): seq<Name> {
    Sorted(ZonesAmong(Built(b), hook))
  }

  function Stripped(names: seq<Name>): (r: seq<string>)
    ensures |r| == |names|
  {
    seq(|names|, i requires 0 <= i < |names| => Suffix(names[i], FWTMP))
  }

  lemma StrippedBack(b: Chains, hook: string)
    ensures Candidates(Stripped(ZoneChains(b, hook))) == ZoneChains(b, hook) && AllOrdinary(Stripped(ZoneChains(b, hook)))
  {
    var names := ZoneChains(b, hook);
    forall i | 0 <= i < |names|
      ensures FWTMP + Stripped(names)[i] == names[i] && Ordinary(Stripped(names)[i])
    {
      assert names[i] in names;
      ZoneIsOrdinary(names[i], hook);
    }
  }

  lemma ZoneIsOrdinary(n: Name, hook: string)
    requires Tmp(n) && ZoneFor(n, hook)
    ensures FWTMP + Suffix(n, FWTMP) == n && Ordinary(Suffix(n, FWTMP))
  {
    var name := Suffix(n, FWTMP);
    assert n == FWTMP + name;
    if "delegate_" <= name {
      SameStart(FWTMP, "delegate_", name);
    }
  }

  lemma SameStart(start: string, word: string, s: string)
    requires word <= s
    ensures start + word <= start + s
  {
    assert s == word + s[|word|..];
    assert start + s == start + word + s[|word|..];
  }

  lemma PreparedDelegate(b: Chains, d: Name)
    requires NoName(b, NEW) && d in Zoned(b) && NEW < d
    ensures Suffix(d, NEW) in HOOKS && ZonesAmong(Built(b), Suffix(d, NEW)) != {} && d == Delegate(Suffix(d, NEW))
  {
    var wanted := WantedOf(Listing(b, FWTMP));
    var hook :| hook in wanted && d == Delegate(hook);
    WantedAre(b, hook);
    DelegateBack(hook);
  }

  lemma HookOfPrepared(hook: string)
    requires hook in HOOKS
    ensures NEW < Delegate(hook) && Suffix(Delegate(hook), NEW) == hook && HookOf(Delegate(hook)) == Upper(hook)
  {
    assert hook != "";
    DelegateBack(hook);
    HookOfKnown(Delegate(hook), NEW);
  }

  lemma SameHookWord(hook: string, other: string)
    requires hook in HOOKS && other in HOOKS && Upper(hook) == Upper(other)
    ensures hook == other
  {
    HooksAreWords(hook);
    HooksAreWords(other);
    UpperKeepsLowerWords(hook, other);
  }

  /** The delegate prepared for a hook is the one its built-in chain gets, and it jumps to the hook's zones. */
  lemma DelegateAtHook(b: Chains, hook: string)
    requires NoName(b, NEW) && hook in HOOKS && Hooked(Zoned(b), NEW)
    ensures For(Zoned(b), NEW, Upper(hook)) == if ZoneChains(b, hook) == [] then None else Some(Delegate(hook))
    ensures ZoneChains(b, hook) != [] ==> Delegate(hook) in Zoned(b) && Zoned(b)[Delegate(hook)] == JumpsTo(ZoneChains(b, hook))
  {
    var z := Zoned(b);
    DelegatesPrepared(b, hook);
    HookOfPrepared(hook);
    ForIs(z, NEW, Upper(hook));
    if For(z, NEW, Upper(hook)).Some? {
      var d := For(z, NEW, Upper(hook)).value;
      PreparedDelegate(b, d);
      HookOfPrepared(Suffix(d, NEW));
      SameHookWord(Suffix(d, NEW), hook);
    }
    assert ZoneChains(b, hook) == [] <==> ZonesAmong(Built(b), hook) == {};
  }

  /** What a built-in chain decides: its other rules first, then the zones of its hook. */
  ghost function HookReading(c: Config, others: seq<Rule>, f: Family, table: string, zones: seq<string>, p: Packet, depth: nat): Outcome {
    var o := Walk(c.kernel, c.sets, others, p, depth);
    if !o.Through? then Ended(o)
    else if zones == [] then Through
    else if depth == 0 then Deep
    else Ended(ReadZones(c, f, table, zones, p, depth - 1))
  }

  /** A built-in chain with its delegate, if it has one, last. */
  ghost predicate HookHolds(k: Chains, n: Name, others: seq<Rule>, d: Option<Name>, zones: seq<string>) {
    && n in k && k[n] == With(others, d) && (d.None? <==> zones == [])
    && (d.Some? ==> d.value in k && k[d.value] == JumpsTo(Candidates(zones)))
  }

  lemma LastJump(c: Chains, sets: Sets, d: Name, p: Packet, depth: nat)
    requires d in c
    ensures Walk(c, sets, [JumpTo(d)], p, depth) == if depth == 0 then Deep else Ended(Walk(c, sets, c[d], p, depth - 1))
  {
    assert [JumpTo(d)][1..] == [];
  }

  lemma RowIsRead(c: Config, n: Name, others: seq<Rule>, d: Option<Name>, f: Family, table: string, zones: seq<string>, p: Packet, depth: nat)
    requires Faithful(c, f, table) && c.env.prefix == FWTMP && AllOrdinary(zones) && HookHolds(c.kernel, n, others, d, zones)
    ensures Fate(c.kernel, c.sets, n, p, depth) == HookReading(c, others, f, table, zones, p, depth)
  {
    FateIsRowFate(c.kernel, c.sets, n, p, depth);
    if d.Some? {
      WalkConcat(c.kernel, c.sets, others, [JumpTo(d.value)], p, depth);
      LastJump(c.kernel, c.sets, d.value, p, depth);
      if depth > 0 {
        DelegateIsRead(c, f, table, zones, p, depth - 1);
      }
    }
  }

  /** The rules of a built-in chain that are not the old generation's jump. */
  function OtherRules(b: Chains, hook: string): seq<Rule>
    requires Upper(hook) in Zoned(b)
  {
    Without(Zoned(b)[Upper(hook)], For(Zoned(b), OLD, Upper(hook)))
  }

  lemma DelegateKept(b: Chains, hook: string)
    requires hook in HOOKS && Switchable(Zoned(b), NEW, OLD) && Delegate(hook) in Zoned(b)
    ensures var a := Switched(Zoned(b), NEW, OLD);
      Delegate(hook) in a && a[Delegate(hook)] == Zoned(b)[Delegate(hook)]
  {
    HookOfPrepared(hook);
    DelegateGeneration(Delegate(hook));
    OneGeneration(Delegate(hook));
    OnlyHooksSwitched(Zoned(b), Delegate(hook));
  }

  lemma HookInUse(b: Chains, hook: string)
    requires NoName(b, NEW) && hook in HOOKS && Switchable(Zoned(b), NEW, OLD) && Upper(hook) in Zoned(b)
    ensures HookHolds(Switched(Zoned(b), NEW, OLD), Upper(hook), OtherRules(b, hook), For(Zoned(b), NEW, Upper(hook)), Stripped(ZoneChains(b, hook)))
  {
    SwitchedRow(Zoned(b), NEW, OLD, Upper(hook));
    DelegateAtHook(b, hook);
    StrippedBack(b, hook);
    if ZoneChains(b, hook) != [] {
      DelegateKept(b, hook);
    }
  }

  /** Once switched, a built-in chain decides every packet by its other rules and then as the declarations for its hook say. */
  lemma HookIsRead(c: Config, b: Chains, hook: string, f: Family, table: string, p: Packet, depth: nat)
    requires NoName(b, NEW) && hook in HOOKS && Switchable(Zoned(b), NEW, OLD) && Upper(hook) in Zoned(b)
    requires c.kernel == Switched(Zoned(b), NEW, OLD) && Faithful(c, f, table) && c.env.prefix == FWTMP
    ensures Fate(c.kernel, c.sets, Upper(hook), p, depth)
      == HookReading(c, OtherRules(b, hook), f, table, Stripped(ZoneChains(b, hook)), p, depth)
  {
    HookInUse(b, hook);
    StrippedBack(b, hook);
    RowIsRead(c, Upper(hook), OtherRules(b, hook), For(Zoned(b), NEW, Upper(hook)), f, table, Stripped(ZoneChains(b, hook)), p, depth);
  }
}
