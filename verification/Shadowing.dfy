/** Aliases that are written like something else: when a rule naming one still means what the alias says. */
module Shadowing {
  import opened Text
  import opened Netfilter
  import opened Declarations
  import opened Resolution
  import opened AliasSets
  import opened RuleBuilding
  import opened Meaning

  /** A rule naming the endpoint is compiled to matches one of which takes the packet. */
  ghost predicate CompiledHit(host: string, dir: Dir, f: Family, env: Env, sets: Sets, p: Packet) {
    exists v :: v in Expand(host, f, env.addrs) && VariantHit(v, dir, f, env, sets, p)
  }

  /** The endpoint means, for every packet, what it says. */
  ghost predicate KeepsMeaning(host: string, ds: seq<Decl>, dir: Dir, f: Family, env: Env, sets: Sets) {
    forall p :: CompiledHit(host, dir, f, env, sets, p) <==> EndpointHit(host, ds, env.addrs, f, dir, p)
  }

  // ---------- what an endpoint is taken for ----------

  /** The alias is read as an alias only if its name is a name, and not one that was resolved. */
  predicate TakenForAlias(host: string, addrs: Addresses) {
    NameWord(host) && AddressesFor(addrs, host) == []
  }

  /** Otherwise it is taken for these networks, or, written like `any`, for everything. */
  predicate TakenFor(host: string, addrs: Addresses, f: Family, network: string) {
    && (f == V6 <==> ':' in network)
    && !AnyWord(host)
    && if AddressWord(host) then network == host else network in AddressesFor(addrs, host)
  }

  lemma TakenForHits(host: string, dir: Dir, f: Family, env: Env, sets: Sets, p: Packet)
    requires !TakenForAlias(host, env.addrs) && !AnyWord(host)
    ensures CompiledHit(host, dir, f, env, sets, p) <==> exists h :: TakenFor(host, env.addrs, f, h) && p.within(dir, h)
  {
    Classified(host);
    if NameWord(host) {
      NameVariantsHit(host, dir, f, env, sets, p);
      if x :| x in AddressesFor(env.addrs, host) && HostHit(x, None, f, dir, p) {
        assert TakenFor(host, env.addrs, f, x);
      }
    } else {
      OneVariant(host, dir, f, env, sets, p);
      LiteralVariantHit(host, dir, f, env, sets, p);
      if HostHit(host, None, f, dir, p) {
        assert TakenFor(host, env.addrs, f, host);
      }
    }
  }

  lemma AnyHits(host: string, dir: Dir, f: Family, env: Env, sets: Sets, p: Packet)
    requires AnyWord(host)
    ensures CompiledHit(host, dir, f, env, sets, p)
  {
    Classified(host);
    assert host in Expand(host, f, env.addrs) && Endpoint(host, dir, f, env) == Some([]);
  }

  // ---------- packets that tell ----------

  /** In no network but this one, and on no port. */
  function Only(network: string): Packet {
    Packet((_, x) => x == network, (_, _) => false, _ => true)
  }

  /** In this network or in none, and on every port. */
  function OnPorts(network: Option<string>): Packet {
    Packet((_, x) => Some(x) == network, (_, _) => true, _ => true)
  }

  // ---------- when the meaning is kept ----------

  function EntriesFor(ds: seq<Decl>, addrs: Addresses, alias: string, f: Family): seq<Addition> {
    DeclaredIn(AdditionsIn(AllItems(ds, addrs)), alias, f)
  }

  /** The alias names exactly the networks it is taken for, without ports. */
  ghost predicate SameNetworks(host: string, ds: seq<Decl>, addrs: Addresses, f: Family) {
    && (forall x :: x in EntriesFor(ds, addrs, host, f) ==> !x.kind.Port? && TakenFor(host, addrs, f, x.entry.host))
    && (forall h :: TakenFor(host, addrs, f, h) ==> exists x :: x in EntriesFor(ds, addrs, host, f) && x.kind.Net? && x.entry.host == h)
  }

  lemma EntriesHavePorts(ds: seq<Decl>, addrs: Addresses, alias: string, f: Family, x: Addition)
    requires x in EntriesFor(ds, addrs, alias, f)
    ensures !x.kind.Net? ==> x.entry.port.Some?
  {
    DeclaredAre(AdditionsIn(AllItems(ds, addrs)), alias, f, x);
    AdditionFrom(ds, addrs, x);
  }

  lemma SameNetworksSuffice(host: string, ds: seq<Decl>, dir: Dir, f: Family, env: Env, sets: Sets, p: Packet)
    requires host in AliasNames(ds) && !TakenForAlias(host, env.addrs) && !AnyWord(host) && SameNetworks(host, ds, env.addrs, f)
    ensures CompiledHit(host, dir, f, env, sets, p) <==> EndpointHit(host, ds, env.addrs, f, dir, p)
  {
    TakenForHits(host, dir, f, env, sets, p);
    DeclaredHit(ds, env.addrs, host, f, dir, p);
    if h :| TakenFor(host, env.addrs, f, h) && p.within(dir, h) {
      var x :| x in EntriesFor(ds, env.addrs, host, f) && x.kind.Net? && x.entry.host == h;
      assert EntryHit(x, dir, p);
    }
  }

  /** A network taken for the alias, but not among its entries without a port, tells the two apart. */
  lemma NetworksAreEntries(host: string, ds: seq<Decl>, dir: Dir, f: Family, env: Env, sets: Sets, h: string)
    requires host in AliasNames(ds) && !TakenForAlias(host, env.addrs) && !AnyWord(host)
    requires KeepsMeaning(host, ds, dir, f, env, sets) && TakenFor(host, env.addrs, f, h)
    ensures exists x :: x in EntriesFor(ds, env.addrs, host, f) && x.kind.Net? && x.entry.host == h
  {
    var p := Only(h);
    TakenForHits(host, dir, f, env, sets, p);
    DeclaredHit(ds, env.addrs, host, f, dir, p);
    assert p.within(dir, h) && CompiledHit(host, dir, f, env, sets, p);
    var x :| x in EntriesFor(ds, env.addrs, host, f) && EntryHit(x, dir, p);
  }

  /** So does an entry for a port alone, or for a network it is not taken for. */
  lemma EntriesAreNetworks(host: string, ds: seq<Decl>, dir: Dir, f: Family, env: Env, sets: Sets, x: Addition)
    requires host in AliasNames(ds) && !TakenForAlias(host, env.addrs) && !AnyWord(host)
    requires KeepsMeaning(host, ds, dir, f, env, sets) && x in EntriesFor(ds, env.addrs, host, f)
    ensures !x.kind.Port? && TakenFor(host, env.addrs, f, x.entry.host)
  {
    var p := OnPorts(if x.kind.Port? then None else Some(x.entry.host));
    EntriesHavePorts(ds, env.addrs, host, f, x);
    assert EntryHit(x, dir, p);
    TakenForHits(host, dir, f, env, sets, p);
    DeclaredHit(ds, env.addrs, host, f, dir, p);
    assert CompiledHit(host, dir, f, env, sets, p);
  }

  /** An alias written like `any` is taken for everything, which no alias is. */
  lemma AnyNeverKeeps(host: string, ds: seq<Decl>, dir: Dir, f: Family, env: Env, sets: Sets)
    requires host in AliasNames(ds) && AnyWord(host)
    ensures !KeepsMeaning(host, ds, dir, f, env, sets)
  {
    var p := Packet((_, _) => false, (_, _) => false, _ => true);
    AnyHits(host, dir, f, env, sets, p);
    DeclaredHit(ds, env.addrs, host, f, dir, p);
    assert !EndpointHit(host, ds, env.addrs, f, dir, p);
  }

  /**
   A rule naming an alias means what the alias says if and only if the name is taken for an alias, or
   is taken for networks that are the alias's own, without ports.
   */
  lemma AliasKeepsMeaningIff(host: string, ds: seq<Decl>, dir: Dir, f: Family, env: Env, sets: Sets)
    requires EnvFor(env, ds, sets) && host in AliasNames(ds)
    ensures KeepsMeaning(host, ds, dir, f, env, sets)
      <==> TakenForAlias(host, env.addrs) || (!AnyWord(host) && SameNetworks(host, ds, env.addrs, f))
  {
    if TakenForAlias(host, env.addrs) {
      forall p
        ensures CompiledHit(host, dir, f, env, sets, p) <==> EndpointHit(host, ds, env.addrs, f, dir, p)
      {
        EndpointVariantsHit(host, ds, dir, f, env, sets, p);
      }
    } else if AnyWord(host) {
      AnyNeverKeeps(host, ds, dir, f, env, sets);
    } else {
      SameNetworksIff(host, ds, dir, f, env, sets);
    }
  }

  lemma SameNetworksIff(host: string, ds: seq<Decl>, dir: Dir, f: Family, env: Env, sets: Sets)
    requires host in AliasNames(ds) && !TakenForAlias(host, env.addrs) && !AnyWord(host)
    ensures KeepsMeaning(host, ds, dir, f, env, sets) <==> SameNetworks(host, ds, env.addrs, f)
  {
    if SameNetworks(host, ds, env.addrs, f) {
      forall p
        ensures CompiledHit(host, dir, f, env, sets, p) <==> EndpointHit(host, ds, env.addrs, f, dir, p)
      {
        SameNetworksSuffice(host, ds, dir, f, env, sets, p);
      }
    }
    if KeepsMeaning(host, ds, dir, f, env, sets) {
      forall x | x in EntriesFor(ds, env.addrs, host, f)
        ensures !x.kind.Port? && TakenFor(host, env.addrs, f, x.entry.host)
      {
        EntriesAreNetworks(host, ds, dir, f, env, sets, x);
      }
      forall h | TakenFor(host, env.addrs, f, h)
        ensures exists x :: x in EntriesFor(ds, env.addrs, host, f) && x.kind.Net? && x.entry.host == h
      {
        NetworksAreEntries(host, ds, dir, f, env, sets, h);
      }
    }
  }

  /** An alias with the name of a host that is looked up: a rule naming it gets the host's addresses, and no port. */
  lemma ShadowedAliasLosesItsPort(f: Family, dir: Dir, env: Env, sets: Sets)
    requires f == V4 && env.addrs == map["www" := ["1.2.3.4"]]
    ensures var ds := [AliasIs(Alias("www", "www", Some("80"), Some("tcp"), Origin("10_www.sh", 1)))];
      var p := Packet((_, _) => true, (_, _) => false, _ => true);
      && !EndpointHit("www", ds, env.addrs, f, dir, p)
      && exists v :: v in Expand("www", f, env.addrs) && VariantHit(v, dir, f, env, sets, p)
  {
    var ds := [AliasIs(Alias("www", "www", Some("80"), Some("tcp"), Origin("10_www.sh", 1)))];
    var p := Packet((_, _) => true, (_, _) => false, _ => true);
    WwwIsAName();
    assert ds[0].alias.name in AliasNames(ds);
    var all: seq<Address> := AddressesFor(env.addrs, "www");
    assert all == ["1.2.3.4"] && all[0] in all;
    assert HostHit(all[0], None, f, dir, p);
    NameVariantsHit("www", dir, f, env, sets, p);
  }

  lemma WwwIsAName()
    ensures Classify("www") == HostName("www")
  {
    assert Lower("www")[0] == 'w' && "any"[0] == 'a';
    assert "www"[0] == 'w' && !Digit('w');
  }
}
