/** The compiled rules mean what the declarations say. */
module Meaning {
  import opened Text
  import opened Grouping
  import opened Netfilter
  import opened Declarations
  import opened Resolution
  import opened AliasSets
  import opened ChainNames
  import opened RuleBuilding
  import opened RuleText

  // ---------- tails ----------

  /** The first word a `-j` is followed by. */
  function TargetWord(tail: seq<string>): Option<string> {
    if |tail| < 2 then None
    else if tail[0] == "-j" && tail[1] != "-j" then Some(tail[1])
    else TargetWord(tail[1..])
  }

  /** The tail without its `-j` and the word after each. */
  function Options(tail: seq<string>): seq<string> {
    if tail == [] then []
    else if |tail| > 1 && tail[0] == "-j" && tail[1] != "-j" then Options(tail[2..])
    else [tail[0]] + Options(tail[1..])
  }

  /** A tail is read as its target, the word after its -j, and everything else. */
  lemma {:induction false} TailReads(before: seq<string>, word: string, after: seq<string>)
    requires "-j" !in before && word != "-j" && "-j" !in after
    ensures TargetWord(before + ["-j", word] + after) == Some(word)
    ensures Options(before + ["-j", word] + after) == before + after
    decreases |before|
  {
    var tail := before + ["-j", word] + after;
    if before == [] {
      assert tail[0] == "-j" && tail[1] == word && tail[2..] == after;
      NoTarget(after);
    } else {
      assert tail[1..] == before[1..] + ["-j", word] + after && tail[0] == before[0];
      TailReads(before[1..], word, after);
      assert before + after == [before[0]] + (before[1..] + after);
    }
  }

  /** Without -j there is none, and all of it is options. */
  lemma {:induction false} NoTarget(tail: seq<string>)
    requires "-j" !in tail
    ensures TargetWord(tail) == None && Options(tail) == tail
    decreases |tail|
  {
    if tail != [] {
      NoTarget(tail[1..]);
      assert tail == [tail[0]] + tail[1..];
    }
  }

  // ---------- what a declaration says ----------

  /** A host with a port, if one is given, both seen from the same side of the packet. */
  ghost predicate HostHit(host: string, spec: Option<string>, f: Family, dir: Dir, p: Packet) {
    (f == V6 <==> ':' in host) && p.within(dir, host) && (spec.Some? ==> p.port(dir, spec.value))
  }

  /**
   The packet is one of those an alias declaration names. A bare port names v4 traffic only: there
   is no v6 half for a rule to use.
   */
  ghost predicate AliasHit(a: Alias, addrs: Addresses, f: Family, dir: Dir, p: Packet) {
    exists spec :: PortSays(spec, a) && HostOrPortHit(a.host, spec, addrs, f, dir, p)
  }

  /** With the port spelled out. */
  ghost predicate HostOrPortHit(host: string, spec: Option<string>, addrs: Addresses, f: Family, dir: Dir, p: Packet) {
    if AnyWord(host) then f == V4 && spec.Some? && p.port(dir, spec.value)
    else if AddressWord(host) then HostHit(host, spec, f, dir, p)
    else exists x :: x in AddressesFor(addrs, host) && HostHit(x, spec, f, dir, p)
  }

  lemma SpelledOut(a: Alias, addrs: Addresses, f: Family, dir: Dir, p: Packet)
    ensures AliasHit(a, addrs, f, dir, p) <==> HostOrPortHit(a.host, SpecOf(a), addrs, f, dir, p)
  {
    forall spec
      ensures PortSays(spec, a) <==> spec == SpecOf(a)
    {
      SpecIsSaid(spec, a);
    }
  }

  /** A literal or resolved host, whatever the port. */
  ghost predicate HostHits(host: string, addrs: Addresses, f: Family, dir: Dir, p: Packet) {
    if AddressWord(host) then HostHit(host, None, f, dir, p)
    else exists x :: x in AddressesFor(addrs, host) && HostHit(x, None, f, dir, p)
  }

  /** An endpoint read directly: an alias first, then any, a literal, or a resolved name. */
  ghost predicate EndpointHit(host: string, ds: seq<Decl>, addrs: Addresses, f: Family, dir: Dir, p: Packet) {
    if host in AliasNames(ds) then exists d :: d in ds && d.AliasIs? && d.alias.name == host && AliasHit(d.alias, addrs, f, dir, p)
    else
      AnyWord(host) || HostHits(host, addrs, f, dir, p)
  }

  ghost predicate DeclHit(r: RuleDecl, ds: seq<Decl>, addrs: Addresses, f: Family, p: Packet) {
    && EndpointHit(r.src, ds, addrs, f, Src, p) && EndpointHit(r.dst, ds, addrs, f, Dst, p)
    && (Options(r.tail) == [] || p.meets(Options(r.tail)))
  }

  // ---------- what a compiled rule says ----------

  /** How iptables takes a target word. */
  type Targets = string -> Target

  function RuleOf(l: Line, targets: Targets): Rule {
    var word := TargetWord(l.tail);
    Rule(l.tests, Options(l.tail), if word.Some? then targets(word.value) else Continue)
  }

  function RulesOf(lines: seq<Line>, targets: Targets): (rs: seq<Rule>)
    ensures |rs| == |lines|
  {
    seq(|lines|, i requires 0 <= i < |lines| => RuleOf(lines[i], targets))
  }

  /** Every built set is there, with exactly its entries. */
  ghost predicate SetsLoaded(sets: Sets, made: ByName, setPrefix: string) {
    forall k :: k in made ==>
      setPrefix + made[k].name in sets
      && sets[setPrefix + made[k].name] == SetBody(made[k].kind, set e | e in made[k].entries)
  }

  // ---------- tails keep their meaning ----------

  lemma ReplacedTail(tail: seq<string>, with: string -> string, k: nat)
    requires k <= |tail| && (k == 0 || k == |tail| || tail[k - 1] != "-j" || !Plus(tail[k]))
    ensures Replaced(tail, with)[k..] == Replaced(tail[k..], with)
  {
  }

  /** Rewriting the targets leaves the options alone. */
  lemma {:induction false} ReplacedOptions(tail: seq<string>, with: string -> string)
    requires forall w :: Plus(w) ==> with(w) != "-j"
    ensures Options(Replaced(tail, with)) == Options(tail)
    decreases |tail|
  {
    if tail != [] {
      var out := Replaced(tail, with);
      assert out[0] == tail[0];
      if |tail| > 1 && tail[0] == "-j" && tail[1] != "-j" {
        assert |tail| == 2 || tail[1] != "-j";
        ReplacedTail(tail, with, 2);
        ReplacedOptions(tail[2..], with);
      } else {
        assert |tail| > 1 ==> !(tail[0] == "-j" && Plus(tail[1]));
        ReplacedTail(tail, with, 1);
        ReplacedOptions(tail[1..], with);
      }
    }
  }

  /** And the target word is the one rewritten. */
  lemma {:induction false} ReplacedTarget(tail: seq<string>, with: string -> string)
    requires forall w :: Plus(w) ==> with(w) != "-j"
    ensures TargetWord(Replaced(tail, with))
      == (var w := TargetWord(tail); if w.Some? && Plus(w.value) then Some(with(w.value)) else w)
    decreases |tail|
  {
    if |tail| >= 2 {
      var out := Replaced(tail, with);
      assert out[0] == tail[0] && (out[1] == "-j" <==> tail[1] == "-j");
      if !(tail[0] == "-j" && tail[1] != "-j") {
        ReplacedTail(tail, with, 1);
        ReplacedTarget(tail[1..], with);
      }
    }
  }

  // ---------- aliases and their sets ----------

  /** One entry of a set, seen from one side of the packet. */
  ghost predicate EntryHit(a: Addition, dir: Dir, p: Packet) {
    && (!a.kind.Port? ==> p.within(dir, a.entry.host))
    && (!a.kind.Net? ==> a.entry.port.Some? && p.port(dir, a.entry.port.value))
  }

  lemma HostItemHit(a: Alias, host: string, f: Family, dir: Dir, p: Packet)
    ensures var x := HostItem(a, host).what; (x.family == f && EntryHit(x, dir, p)) <==> HostHit(host, SpecOf(a), f, dir, p)
  {
  }

  /** An alias declaration names a packet exactly when one of the entries it makes for the family does. */
  lemma AliasHitItems(a: Alias, addrs: Addresses, f: Family, dir: Dir, p: Packet)
    ensures AliasHit(a, addrs, f, dir, p) <==> exists x :: Add(x) in ItemsIn(a, addrs) && x.family == f && EntryHit(x, dir, p)
  {
    SpelledOut(a, addrs, f, dir, p);
    Classified(a.host);
    match Classify(a.host)
    case AnyHost =>
      if a.port.Some? {
        assert ItemsIn(a, addrs)[0] == Add(Addition(a.name, V4, Port, Entry("", SpecOf(a)), a.origin));
      }
    case Literal(host) =>
      HostItemHit(a, host, f, dir, p);
      assert ItemsIn(a, addrs)[0] == HostItem(a, host);
    case HostName(name) =>
      HostNameHitItems(a, AddressesFor(addrs, name), f, dir, p);
  }

  lemma HostNameHitItems(a: Alias, hosts: seq<string>, f: Family, dir: Dir, p: Packet)
    ensures (exists x :: x in hosts && HostHit(x, SpecOf(a), f, dir, p))
      <==> exists x :: Add(x) in HostItems(a, hosts) && x.family == f && EntryHit(x, dir, p)
  {
    var items := HostItems(a, hosts);
    if h :| h in hosts && HostHit(h, SpecOf(a), f, dir, p) {
      var i :| 0 <= i < |hosts| && hosts[i] == h;
      HostItemHit(a, h, f, dir, p);
      assert items[i] == Add(HostItem(a, h).what);
    }
    if x :| Add(x) in items && x.family == f && EntryHit(x, dir, p) {
      var i :| 0 <= i < |items| && items[i] == Add(x);
      HostItemHit(a, hosts[i], f, dir, p);
      assert hosts[i] in hosts;
    }
  }

  /** A set match with the same direction in each dimension is membership of one of the entries. */
  lemma SetHitEntries(declared: seq<Addition>, kind: SetType, dir: Dir, p: Packet)
    requires forall x :: x in declared ==> x.kind == kind
    ensures SetHit(SetBody(kind, set e | e in EntriesOf(declared)), seq(Dimensions(kind), _ => dir), p)
      <==> exists x :: x in declared && EntryHit(x, dir, p)
  {
    var body := SetBody(kind, set e | e in EntriesOf(declared));
    if x :| x in declared && EntryHit(x, dir, p) {
      var i :| 0 <= i < |declared| && declared[i] == x;
      assert EntriesOf(declared)[i] == x.entry;
      assert x.entry in body.entries;
    }
    if SetHit(body, seq(Dimensions(kind), _ => dir), p) {
      var e :| e in body.entries && (!kind.Port? ==> p.within(dir, e.host)) && (!kind.Net? ==> e.port.Some? && p.port(dir, e.port.value));
      var i :| 0 <= i < |EntriesOf(declared)| && EntriesOf(declared)[i] == e;
      assert declared[i] in declared && EntryHit(declared[i], dir, p);
    }
  }

  // ---------- endpoints ----------

  /** The sets of a configuration were built, and are loaded. */
  ghost predicate EnvFor(env: Env, ds: seq<Decl>, sets: Sets) {
    && UsableNames(ds, env.setPrefix) && Consistent(AllItems(ds, env.addrs))
    && env.sets == Gathered(AdditionsIn(AllItems(ds, env.addrs)))
    && SetsLoaded(sets, env.sets, env.setPrefix)
  }

  /** One variant of an endpoint exists for the family and matches. */
  ghost predicate VariantHit(one: string, dir: Dir, f: Family, env: Env, sets: Sets, p: Packet) {
    Endpoint(one, dir, f, env).Some? && forall t :: t in Endpoint(one, dir, f, env).value ==> Passes(t, sets, p)
  }

  lemma ItemsKeepAlias(a: Alias, addrs: Addresses, x: Addition)
    requires Add(x) in ItemsIn(a, addrs)
    ensures x.alias == a.name
  {
  }

  lemma DeclaredHit(ds: seq<Decl>, addrs: Addresses, alias: string, f: Family, dir: Dir, p: Packet)
    ensures (exists x :: x in DeclaredIn(AdditionsIn(AllItems(ds, addrs)), alias, f) && EntryHit(x, dir, p))
      <==> exists d :: d in ds && d.AliasIs? && d.alias.name == alias && AliasHit(d.alias, addrs, f, dir, p)
  {
    var adds := AdditionsIn(AllItems(ds, addrs));
    if x :| x in DeclaredIn(adds, alias, f) && EntryHit(x, dir, p) {
      DeclaredAre(adds, alias, f, x);
      AdditionFrom(ds, addrs, x);
      var d :| d in ds && d.AliasIs? && Add(x) in ItemsIn(d.alias, addrs);
      ItemsKeepAlias(d.alias, addrs, x);
      AliasHitItems(d.alias, addrs, f, dir, p);
    }
    if d :| d in ds && d.AliasIs? && d.alias.name == alias && AliasHit(d.alias, addrs, f, dir, p) {
      AliasHitItems(d.alias, addrs, f, dir, p);
      var x :| Add(x) in ItemsIn(d.alias, addrs) && x.family == f && EntryHit(x, dir, p);
      ItemsKeepAlias(d.alias, addrs, x);
      AdditionFrom(ds, addrs, x);
      DeclaredAre(adds, alias, f, x);
    }
  }

  lemma AliasIsUsable(ds: seq<Decl>, prefix: string, alias: string)
    requires UsableNames(ds, prefix) && alias in AliasNames(ds)
    ensures UsableName(alias, prefix)
  {
    var i :| 0 <= i < |ds| && ds[i].AliasIs? && ds[i].alias.name == alias;
    assert ds[i] in ds;
  }

  /** Matching the set of an alias is being one of the packets the alias names. */
  lemma AliasVariantHit(ds: seq<Decl>, env: Env, sets: Sets, alias: string, f: Family, dir: Dir, p: Packet)
    requires EnvFor(env, ds, sets) && alias in AliasNames(ds) && Classify(alias).HostName?
    ensures VariantHit(alias, dir, f, env, sets, p)
      <==> exists d :: d in ds && d.AliasIs? && d.alias.name == alias && AliasHit(d.alias, env.addrs, f, dir, p)
  {
    var declared := DeclaredIn(AdditionsIn(AllItems(ds, env.addrs)), alias, f);
    AliasIsUsable(ds, env.setPrefix, alias);
    SetsHoldTheirAliases(ds, env.addrs, env.setPrefix, alias, f);
    DeclaredHit(ds, env.addrs, alias, f, dir, p);
    var got := Get(env.sets, alias, f);
    if got.Some? {
      SetHitEntries(declared, got.value.kind, dir, p);
      SetVariantHit(ds, env, sets, alias, f, dir, p);
    }
  }

  lemma SetVariantHit(ds: seq<Decl>, env: Env, sets: Sets, alias: string, f: Family, dir: Dir, p: Packet)
    requires SetsLoaded(sets, env.sets, env.setPrefix) && Classify(alias).HostName? && Get(env.sets, alias, f).Some?
    ensures var s := Get(env.sets, alias, f).value;
      VariantHit(alias, dir, f, env, sets, p)
      <==> SetHit(SetBody(s.kind, set e | e in s.entries), seq(Dimensions(s.kind), _ => dir), p)
  {
    var s := Get(env.sets, alias, f).value;
    var t := SetTest(env.setPrefix + s.name, seq(Dimensions(s.kind), _ => dir));
    assert Endpoint(alias, dir, f, env) == Some([t]) && t in [t];
    assert SetName(alias, f) in env.sets;
    assert sets[env.setPrefix + s.name] == SetBody(s.kind, set e | e in s.entries);
  }

  lemma LiteralVariantHit(literal: string, dir: Dir, f: Family, env: Env, sets: Sets, p: Packet)
    requires Classify(literal) == Literal(literal)
    ensures VariantHit(literal, dir, f, env, sets, p) <==> HostHit(literal, None, f, dir, p)
  {
    if FamilyOf(literal) == f {
      assert Endpoint(literal, dir, f, env) == Some([NetTest(dir, literal)]);
      assert NetTest(dir, literal) in [NetTest(dir, literal)];
    }
  }

  /** A resolved name matches as one of its addresses. */
  lemma NameVariantsHit(name: string, dir: Dir, f: Family, env: Env, sets: Sets, p: Packet)
    requires Classify(name).HostName? && AddressesFor(env.addrs, name) != []
    ensures (exists v :: v in Expand(name, f, env.addrs) && VariantHit(v, dir, f, env, sets, p))
      <==> exists x :: x in AddressesFor(env.addrs, name) && HostHit(x, None, f, dir, p)
  {
    var all := AddressesFor(env.addrs, name);
    if v :| v in Expand(name, f, env.addrs) && VariantHit(v, dir, f, env, sets, p) {
      OfFamilyIn(all, f, v);
      AddressIsLiteral(v);
      LiteralVariantHit(v, dir, f, env, sets, p);
    }
    if x :| x in all && HostHit(x, None, f, dir, p) {
      OfFamilyIn(all, f, x);
      AddressIsLiteral(x);
      LiteralVariantHit(x, dir, f, env, sets, p);
    }
  }

  /** An alias is written so that it is not taken for anything else, and a name that is not an alias is resolved. */
  predicate Unambiguous(host: string, ds: seq<Decl>, addrs: Addresses) {
    if host in AliasNames(ds) then NameWord(host) && AddressesFor(addrs, host) == []
    else NameWord(host) ==> AddressesFor(addrs, host) != []
  }

  lemma EndpointVariantsHit(host: string, ds: seq<Decl>, dir: Dir, f: Family, env: Env, sets: Sets, p: Packet)
    requires EnvFor(env, ds, sets) && Unambiguous(host, ds, env.addrs)
    ensures (exists v :: v in Expand(host, f, env.addrs) && VariantHit(v, dir, f, env, sets, p))
      <==> EndpointHit(host, ds, env.addrs, f, dir, p)
  {
    Classified(host);
    if host in AliasNames(ds) {
      AliasVariantHit(ds, env, sets, host, f, dir, p);
      assert Expand(host, f, env.addrs) == [host];
      OneVariant(host, dir, f, env, sets, p);
    } else if Classify(host).HostName? {
      NameVariantsHit(host, dir, f, env, sets, p);
    } else {
      OneVariant(host, dir, f, env, sets, p);
      if Classify(host).Literal? {
        LiteralVariantHit(host, dir, f, env, sets, p);
      }
    }
  }

  lemma OneVariant(host: string, dir: Dir, f: Family, env: Env, sets: Sets, p: Packet)
    ensures (exists v :: v in [host] && VariantHit(v, dir, f, env, sets, p)) <==> VariantHit(host, dir, f, env, sets, p)
  {
    assert host in [host];
  }

  // ---------- one declaration ----------

  predicate UnambiguousRule(r: RuleDecl, ds: seq<Decl>, addrs: Addresses) {
    Unambiguous(r.src, ds, addrs) && Unambiguous(r.dst, ds, addrs)
  }

  ghost predicate AnyHit(lines: seq<Line>, targets: Targets, sets: Sets, p: Packet) {
    exists l :: l in lines && Hit(RuleOf(l, targets), sets, p)
  }

  ghost predicate OptionsMet(tail: seq<string>, p: Packet) {
    Options(tail) == [] || p.meets(Options(tail))
  }

  lemma PairHit(s: string, d: string, tail: seq<string>, f: Family, env: Env, targets: Targets, sets: Sets, p: Packet)
    ensures AnyHit(PairLines(s, d, tail, f, env), targets, sets, p)
      <==> VariantHit(s, Src, f, env, sets, p) && VariantHit(d, Dst, f, env, sets, p) && OptionsMet(tail, p)
  {
    var src, dst := Endpoint(s, Src, f, env), Endpoint(d, Dst, f, env);
    if src.Some? && dst.Some? {
      var l := Line(src.value + dst.value, tail);
      assert PairLines(s, d, tail, f, env) == [l] && l in [l];
      assert forall t :: t in l.tests <==> t in src.value || t in dst.value;
      PairLineHit(l, src.value, dst.value, targets, sets, p);
    }
  }

  lemma PairLineHit(l: Line, src: seq<Test>, dst: seq<Test>, targets: Targets, sets: Sets, p: Packet)
    requires forall t :: t in l.tests <==> t in src || t in dst
    ensures Hit(RuleOf(l, targets), sets, p)
      <==> (forall t :: t in src ==> Passes(t, sets, p)) && (forall t :: t in dst ==> Passes(t, sets, p)) && OptionsMet(l.tail, p)
  {
  }

  lemma PrefixedIsNotJump(prefix: string)
    ensures forall w :: Plus(w) ==> Prefixed(prefix)(w) != "-j"
  {
    forall w | Plus(w)
      ensures prefix + w != "-j"
    {
      assert '+' in prefix + w;
    }
  }

  /** The rules a declaration expands to match a packet exactly when the declaration, read directly, does. */
  lemma ExpansionHits(r: RuleDecl, ds: seq<Decl>, f: Family, env: Env, targets: Targets, sets: Sets, p: Packet)
    requires EnvFor(env, ds, sets) && UnambiguousRule(r, ds, env.addrs)
    ensures AnyHit(LinesFor(r, f, env), targets, sets, p) <==> DeclHit(r, ds, env.addrs, f, p)
  {
    var srcs, dsts, tail := Expand(r.src, f, env.addrs), Expand(r.dst, f, env.addrs), Replaced(r.tail, Prefixed(env.prefix));
    EndpointVariantsHit(r.src, ds, Src, f, env, sets, p);
    EndpointVariantsHit(r.dst, ds, Dst, f, env, sets, p);
    PrefixedIsNotJump(env.prefix);
    ReplacedOptions(r.tail, Prefixed(env.prefix));
    CrossHits(srcs, dsts, tail, f, env, targets, sets, p);
  }

  lemma CrossHits(srcs: seq<string>, dsts: seq<string>, tail: seq<string>, f: Family, env: Env, targets: Targets, sets: Sets, p: Packet)
    ensures AnyHit(CrossLines(srcs, dsts, tail, f, env), targets, sets, p)
      <==> ((exists s :: s in srcs && VariantHit(s, Src, f, env, sets, p))
            && (exists d :: d in dsts && VariantHit(d, Dst, f, env, sets, p)) && OptionsMet(tail, p))
  {
    var lines := CrossLines(srcs, dsts, tail, f, env);
    if l :| l in lines && Hit(RuleOf(l, targets), sets, p) {
      CrossAre(srcs, dsts, tail, f, env, l);
      var s, d :| s in srcs && d in dsts && l in PairLines(s, d, tail, f, env);
      PairHit(s, d, tail, f, env, targets, sets, p);
    }
    if s, d :| s in srcs && VariantHit(s, Src, f, env, sets, p) && d in dsts && VariantHit(d, Dst, f, env, sets, p) && OptionsMet(tail, p) {
      PairHit(s, d, tail, f, env, targets, sets, p);
      var l :| l in PairLines(s, d, tail, f, env) && Hit(RuleOf(l, targets), sets, p);
      CrossAre(srcs, dsts, tail, f, env, l);
    }
  }
}
