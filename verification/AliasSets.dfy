/** src/sets.rs: alias declarations gathered into typed sets, one for each alias and family. */
module AliasSets {
  import opened Seqs
  import opened Text
  import opened Grouping
  import opened Netfilter
  import opened Declarations
  import opened Resolution

  const V6_SUFFIX: string := "_v6"

  /** The longest set name, prefix included. */
  const IPSET_NAME_MAX: nat := 31

  function SetName(alias: string, f: Family): string {
    if f.V4? then alias else alias + V6_SUFFIX
  }

  /** The half of an alias for IPv4 has its name, and the one for IPv6 three characters more. */
  lemma SetNameIs(alias: string, f: Family)
    ensures alias <= SetName(alias, f) && SetName(alias, f)[|alias|..] == if f == V6 then "_v6" else ""
  {
  }

  /** Colons tell: with one it is IPv6, otherwise IPv4. */
  function FamilyOf(literal: string): (f: Family)
    ensures f == V6 <==> ':' in literal
  {
    if ':' in literal then V6 else V4
  }

  /** The spec is the protocol, a colon and the port, or the port alone where no protocol of three letters is given. */
  predicate SpecSays(spec: string, port: string, proto: Option<string>) {
    if proto.Some? && |proto.value| == 3 then |spec| >= 4 && spec[..3] == proto.value && spec[3] == ':' && spec[4..] == port
    else spec == port
  }

  lemma OneSpec(spec: string, other: string, port: string, proto: Option<string>)
    requires SpecSays(spec, port, proto) && SpecSays(other, port, proto)
    ensures spec == other
  {
    if proto.Some? && |proto.value| == 3 {
      assert spec == spec[..3] + [spec[3]] + spec[4..] && other == other[..3] + [other[3]] + other[4..];
    }
  }

  /** src/sets.rs port_spec */
  function PortSpec(port: string, proto: Option<string>): string {
    if proto.Some? && |proto.value| == 3 then proto.value + ":" + port else port
  }

  lemma PortSpecSays(port: string, proto: Option<string>)
    ensures SpecSays(PortSpec(port, proto), port, proto)
  {
    if proto.Some? && |proto.value| == 3 {
      assert proto.value + ":" + port == proto.value + (":" + port);
    }
  }

  datatype AliasSet = AliasSet(name: string, family: Family, kind: SetType, entries: seq<Entry>)
  type ByName = map<string, AliasSet>

  function Get(sets: ByName, alias: string, f: Family): Option<AliasSet> {
    if SetName(alias, f) in sets then Some(sets[SetName(alias, f)]) else None
  }

  // ---------- what the declarations ask for ----------

  datatype Addition = Addition(alias: string, family: Family, kind: SetType, entry: Entry, origin: Origin)
  datatype Item = Add(what: Addition) | NoPort(alias: string, origin: Origin)

  /** A spec where the alias has a port, saying that port and its protocol. */
  predicate PortSays(spec: Option<string>, a: Alias) {
    (spec.Some? <==> a.port.Some?) && (spec.Some? ==> SpecSays(spec.value, a.port.value, a.proto))
  }

  lemma SpecIsSaid(spec: Option<string>, a: Alias)
    ensures PortSays(spec, a) <==> spec == SpecOf(a)
  {
    if a.port.Some? {
      PortSpecSays(a.port.value, a.proto);
    }
    if PortSays(spec, a) && spec.Some? {
      OneSpec(spec.value, SpecOf(a).value, a.port.value, a.proto);
    }
  }

  function SpecOf(a: Alias): Option<string> {
    if a.port.Some? then Some(PortSpec(a.port.value, a.proto)) else None
  }

  function HostItem(a: Alias, host: string): Item {
    Add(Addition(a.name, FamilyOf(host), if a.port.Some? then NetPort else Net, Entry(host, SpecOf(a)), a.origin))
  }

  function HostItems(a: Alias, hosts: seq<string>): (items: seq<Item>)
    ensures |items| == |hosts|
  {
    seq(|hosts|, i requires 0 <= i < |hosts| => HostItem(a, hosts[i]))
  }

  function AddressesFor(addrs: Addresses, name: string): seq<Address> {
    if name in addrs then addrs[name] else []
  }

  /** The entries of one alias declaration: one, or one for each address of its host. */
  function ItemsIn(a: Alias, addrs: Addresses): seq<Item> {
    match Classify(a.host)
    case AnyHost =>
      if a.port.None? then [NoPort(a.name, a.origin)]
      else [Add(Addition(a.name, V4, Port, Entry("", SpecOf(a)), a.origin))]
    case Literal(host) => [HostItem(a, host)]
    case HostName(name) => HostItems(a, AddressesFor(addrs, name))
  }

  function AllItems(ds: seq<Decl>, addrs: Addresses): seq<Item> {
    if ds == [] then []
    else AllItems(ds[..|ds| - 1], addrs)
         + if ds[|ds| - 1].AliasIs? then ItemsIn(ds[|ds| - 1].alias, addrs) else []
  }

  // ---------- problems ----------

  datatype Rejection = TooLong(alias: string, origin: Origin, over: nat) | Suffixed(alias: string, origin: Origin)

  datatype Problem =
    | Unusable(rejected: seq<Rejection>)
    | NeedsPort(alias: string, origin: Origin)
    | Mixed(alias: string, origin: Origin, had: SetType, got: SetType)

  predicate EndsWith(s: string, suffix: string) {
    |suffix| <= |s| && s[|s| - |suffix|..] == suffix
  }

  /** check_name_length and check_name_suffix */
  function Rejected(a: Alias, prefix: string): seq<Rejection> {
    var longest := |prefix + a.name + V6_SUFFIX|;
    (if longest > IPSET_NAME_MAX then [TooLong(a.name, a.origin, longest - IPSET_NAME_MAX)] else [])
    + (if EndsWith(a.name, V6_SUFFIX) then [Suffixed(a.name, a.origin)] else [])
  }

  function AllRejected(ds: seq<Decl>, prefix: string): seq<Rejection> {
    if ds == [] then []
    else AllRejected(ds[..|ds| - 1], prefix)
         + if ds[|ds| - 1].AliasIs? then Rejected(ds[|ds| - 1].alias, prefix) else []
  }

  /** The sets some additions make, the type of each being that of its first entry. */
  function Keyed(adds: seq<Addition>): (r: seq<(string, Addition)>)
    ensures |r| == |adds|
  {
    seq(|adds|, i requires 0 <= i < |adds| => (SetName(adds[i].alias, adds[i].family), adds[i]))
  }

  function EntriesOf(adds: seq<Addition>): (r: seq<Entry>)
    ensures |r| == |adds|
  {
    seq(|adds|, i requires 0 <= i < |adds| => adds[i].entry)
  }

  function SetOf(name: string, adds: seq<Addition>): AliasSet
    requires adds != []
  {
    AliasSet(name, adds[0].family, adds[0].kind, EntriesOf(adds))
  }

  function Gathered(adds: seq<Addition>): (sets: ByName)
    ensures sets.Keys == KeysOf(Keyed(adds))
  {
    map k | k in KeysOf(Keyed(adds)) ::
      UnderAbsent(Keyed(adds), k);
      SetOf(k, Under(Keyed(adds), k))
  }

  /** What adding one more would make of the sets, or why it cannot. */
  function Added(sets: ByName, item: Item): Result<ByName, Problem> {
    match item
    case NoPort(alias, origin) => Err(NeedsPort(alias, origin))
    case Add(a) =>
      var name := SetName(a.alias, a.family);
      var had := if name in sets then sets[name] else AliasSet(name, a.family, a.kind, []);
      if had.kind != a.kind then Err(Mixed(a.alias, a.origin, had.kind, a.kind))
      else Ok(sets[name := had.(entries := had.entries + [a.entry])])
  }

  function AdditionsIn(items: seq<Item>): seq<Addition> {
    if items == [] then []
    else AdditionsIn(items[..|items| - 1]) + if items[|items| - 1].Add? then [items[|items| - 1].what] else []
  }

  /** Two entries of one set have one type, and `any` always has a port. */
  ghost predicate Consistent(items: seq<Item>) {
    && (forall i :: 0 <= i < |items| ==> items[i].Add?)
    && (forall i, j :: 0 <= i < |items| && 0 <= j < |items| && SameSet(items[i], items[j]) ==> items[i].what.kind == items[j].what.kind)
  }

  predicate SameSet(x: Item, y: Item) {
    x.Add? && y.Add? && SetName(x.what.alias, x.what.family) == SetName(y.what.alias, y.what.family)
  }

  // ---------- one more entry ----------

  lemma KeyedPush(adds: seq<Addition>, a: Addition)
    ensures Keyed(adds + [a]) == Keyed(adds) + [(SetName(a.alias, a.family), a)]
  {
  }

  lemma GatheredPush(adds: seq<Addition>, a: Addition)
    ensures var name := SetName(a.alias, a.family);
      var sets := Gathered(adds);
      Gathered(adds + [a]) == sets[name := if name in sets then sets[name].(entries := sets[name].entries + [a.entry]) else AliasSet(name, a.family, a.kind, [a.entry])]
  {
    var name := SetName(a.alias, a.family);
    KeyedPush(adds, a);
    KeysOfPush(Keyed(adds), (name, a));
    forall k | k in KeysOf(Keyed(adds)) + {name}
      ensures Under(Keyed(adds + [a]), k) == Under(Keyed(adds), k) + if k == name then [a] else []
    {
      UnderConcat(Keyed(adds), [(name, a)], k);
      UnderOne((name, a), k);
    }
    UnderAbsent(Keyed(adds), name);
    GatheredName(adds, a);
    forall k | k in KeysOf(Keyed(adds)) && k != name
      ensures Gathered(adds + [a])[k] == Gathered(adds)[k]
    {
      assert Under(Keyed(adds), k) + [] == Under(Keyed(adds), k);
    }
    assert Gathered(adds + [a]).Keys == Gathered(adds).Keys + {name};
  }

  lemma GatheredName(adds: seq<Addition>, a: Addition)
    requires var name := SetName(a.alias, a.family);
      name in KeysOf(Keyed(adds + [a])) && Under(Keyed(adds + [a]), name) == Under(Keyed(adds), name) + [a]
    ensures var name := SetName(a.alias, a.family);
      var had := Under(Keyed(adds), name);
      Gathered(adds + [a])[name] == if had == [] then AliasSet(name, a.family, a.kind, [a.entry]) else SetOf(name, had).(entries := EntriesOf(had) + [a.entry])
  {
    var name := SetName(a.alias, a.family);
    var had := Under(Keyed(adds), name);
    assert EntriesOf(had + [a]) == EntriesOf(had) + [a.entry];
    assert EntriesOf(had) + [a.entry] == [a.entry] || had != [];
  }

  lemma {:induction false} AdditionsAre(items: seq<Item>, a: Addition)
    ensures a in AdditionsIn(items) <==> Add(a) in items
  {
    if items != [] {
      var shorter, last := items[..|items| - 1], items[|items| - 1];
      AdditionsAre(shorter, a);
      assert items == shorter + [last];
    }
  }

  lemma AdditionsPush(items: seq<Item>, item: Item)
    ensures AdditionsIn(items + [item]) == AdditionsIn(items) + if item.Add? then [item.what] else []
  {
    assert (items + [item])[..|items|] == items;
  }

  lemma ConsistentPart(items: seq<Item>, more: seq<Item>)
    requires Consistent(items + more)
    ensures Consistent(items)
  {
    assert forall i :: 0 <= i < |items| ==> (items + more)[i] == items[i];
  }

  /** The first entry of a set, and so its type, is one of those added under its name. */
  lemma FirstOfSet(items: seq<Item>, name: string) returns (i: nat)
    requires name in Gathered(AdditionsIn(items))
    ensures i < |items| && items[i].Add? && SetName(items[i].what.alias, items[i].what.family) == name
    ensures Gathered(AdditionsIn(items))[name].kind == items[i].what.kind
  {
    var adds := AdditionsIn(items);
    UnderAbsent(Keyed(adds), name);
    var a := Under(Keyed(adds), name)[0];
    UnderIn(Keyed(adds), name, a);
    var k :| 0 <= k < |Keyed(adds)| && Keyed(adds)[k] == (name, a);
    assert adds[k] == a;
    AdditionsAre(items, a);
    i :| 0 <= i < |items| && items[i] == Add(a);
  }

  lemma NameIsThere(items: seq<Item>, i: nat)
    requires i < |items| && items[i].Add?
    ensures SetName(items[i].what.alias, items[i].what.family) in Gathered(AdditionsIn(items))
  {
    var adds := AdditionsIn(items);
    AdditionsAre(items, items[i].what);
    var k :| 0 <= k < |adds| && adds[k] == items[i].what;
    assert Keyed(adds)[k].0 in KeysOf(Keyed(adds));
  }

  lemma ConsistentPush(items: seq<Item>, item: Item)
    requires Consistent(items) && item.Add?
    ensures Consistent(items + [item]) <==> forall i :: 0 <= i < |items| && SameSet(items[i], item) ==> items[i].what.kind == item.what.kind
  {
    var all := items + [item];
    assert all[|items|] == item && forall i :: 0 <= i < |items| ==> all[i] == items[i];
  }

  /** Adding an item succeeds exactly when it keeps the items consistent, and gives the sets of all of them. */
  lemma AddedIs(items: seq<Item>, item: Item)
    requires Consistent(items)
    ensures var r := Added(Gathered(AdditionsIn(items)), item);
      && (r.Ok? <==> Consistent(items + [item]))
      && (r.Ok? ==> r.value == Gathered(AdditionsIn(items + [item])))
  {
    var sets := Gathered(AdditionsIn(items));
    match item
    case NoPort(_, _) => assert (items + [item])[|items|] == item;
    case Add(a) =>
      ConsistentPush(items, item);
      AddedResult(items, a);
      if SetName(a.alias, a.family) in sets {
        var i := FirstOfSet(items, SetName(a.alias, a.family));
        SameTypeAs(items, item, i);
      } else {
        AllNew(items, item, SetName(a.alias, a.family));
      }
  }

  /** What a successful addition gives. */
  lemma AddedResult(items: seq<Item>, a: Addition)
    ensures var r := Added(Gathered(AdditionsIn(items)), Add(a)); r.Ok? ==> r.value == Gathered(AdditionsIn(items + [Add(a)]))
  {
    AdditionsPush(items, Add(a));
    GatheredPush(AdditionsIn(items), a);
    assert [] + [a.entry] == [a.entry];
  }

  lemma SameTypeAs(items: seq<Item>, item: Item, i: nat)
    requires Consistent(items) && i < |items| && SameSet(items[i], item)
    ensures (forall j :: 0 <= j < |items| && SameSet(items[j], item) ==> items[j].what.kind == item.what.kind)
        <==> items[i].what.kind == item.what.kind
  {
    forall j | 0 <= j < |items| && SameSet(items[j], item)
      ensures items[j].what.kind == items[i].what.kind
    {
      assert SameSet(items[i], items[j]);
    }
  }

  lemma AllNew(items: seq<Item>, item: Item, name: string)
    requires Consistent(items) && item.Add? && name == SetName(item.what.alias, item.what.family)
    requires name !in Gathered(AdditionsIn(items))
    ensures forall i :: 0 <= i < |items| ==> !SameSet(items[i], item)
  {
    forall i | 0 <= i < |items|
      ensures !SameSet(items[i], item)
    {
      if items[i].Add? { NameIsThere(items, i); }
    }
  }

  // ---------- build ----------

  /** The first item that cannot be added is the one complained about. */
  ghost predicate Blamed(items: seq<Item>, p: Problem) {
    exists k :: 0 <= k < |items| && Consistent(items[..k]) && Added(Gathered(AdditionsIn(items[..k])), items[k]) == Err(p)
  }

  lemma BlamedLater(items: seq<Item>, more: seq<Item>, p: Problem)
    requires Blamed(items, p)
    ensures Blamed(items + more, p)
  {
    var k :| 0 <= k < |items| && Consistent(items[..k]) && Added(Gathered(AdditionsIn(items[..k])), items[k]) == Err(p);
    assert (items + more)[..k] == items[..k] && (items + more)[k] == items[k];
  }

  lemma BlamedIsInconsistent(items: seq<Item>, p: Problem)
    requires Blamed(items, p)
    ensures !Consistent(items)
  {
    var k :| 0 <= k < |items| && Consistent(items[..k]) && Added(Gathered(AdditionsIn(items[..k])), items[k]) == Err(p);
    AddedIs(items[..k], items[k]);
    ConsistentUpTo(items, k);
  }

  lemma ConsistentUpTo(items: seq<Item>, k: nat)
    requires k < |items|
    ensures Consistent(items) ==> Consistent(items[..k] + [items[k]])
  {
    var rest := items[k + 1..];
    assert items == items[..k] + [items[k]] + rest;
    if Consistent(items) {
      ConsistentPart(items[..k] + [items[k]], rest);
    }
  }

  lemma BlamedHere(before: seq<Item>, items: seq<Item>, i: nat, p: Problem)
    requires i < |items| && Consistent(before + items[..i]) && Added(Gathered(AdditionsIn(before + items[..i])), items[i]) == Err(p)
    ensures Blamed(before + items, p)
  {
    var k := |before| + i;
    assert (before + items)[..k] == before + items[..i] && (before + items)[k] == items[i];
  }

  /** One declaration's entries. */
  method AddItems(sets: ByName, items: seq<Item>, ghost before: seq<Item>) returns (r: Result<ByName, Problem>)
    requires Consistent(before) && sets == Gathered(AdditionsIn(before))
    ensures r.Ok? ==> Consistent(before + items) && r.value == Gathered(AdditionsIn(before + items))
    ensures r.Err? ==> Blamed(before + items, r.error)
  {
    var made := sets;
    assert before + items[..0] == before;
    for i := 0 to |items|
      invariant Consistent(before + items[..i]) && made == Gathered(AdditionsIn(before + items[..i]))
    {
      ghost var sofar := before + items[..i];
      AddedIs(sofar, items[i]);
      OneMore(items, i);
      Associative(before, items[..i], [items[i]]);
      var after := Added(made, items[i]);
      if after.Err? {
        BlamedHere(before, items, i, after.error);
        return Err(after.error);
      }
      made := after.value;
    }
    assert before + items[..|items|] == before + items;
    return Ok(made);
  }

  lemma AllItemsPush(ds: seq<Decl>, d: Decl, addrs: Addresses)
    ensures AllItems(ds + [d], addrs) == AllItems(ds, addrs) + if d.AliasIs? then ItemsIn(d.alias, addrs) else []
  {
    assert (ds + [d])[..|ds|] == ds;
  }

  lemma {:induction false} AllItemsPart(ds: seq<Decl>, i: nat, addrs: Addresses)
    requires i <= |ds|
    ensures exists rest :: AllItems(ds, addrs) == AllItems(ds[..i], addrs) + rest
    decreases |ds| - i
  {
    if i == |ds| {
      assert ds[..i] == ds;
      assert AllItems(ds, addrs) == AllItems(ds[..i], addrs) + [];
    } else {
      AllItemsPart(ds, i + 1, addrs);
      var rest :| AllItems(ds, addrs) == AllItems(ds[..i + 1], addrs) + rest;
      assert ds[..i + 1] == ds[..i] + [ds[i]];
      AllItemsPush(ds[..i], ds[i], addrs);
      var here := if ds[i].AliasIs? then ItemsIn(ds[i].alias, addrs) else [];
      assert AllItems(ds[..i], addrs) + here + rest == AllItems(ds[..i], addrs) + (here + rest);
    }
  }

  lemma BlamedInAll(ds: seq<Decl>, i: nat, addrs: Addresses, p: Problem)
    requires i <= |ds| && Blamed(AllItems(ds[..i], addrs), p)
    ensures Blamed(AllItems(ds, addrs), p)
  {
    AllItemsPart(ds, i, addrs);
    var rest :| AllItems(ds, addrs) == AllItems(ds[..i], addrs) + rest;
    BlamedLater(AllItems(ds[..i], addrs), rest, p);
  }

  method AddDeclarations(ds: seq<Decl>, addrs: Addresses) returns (r: Result<ByName, Problem>)
    ensures var items := AllItems(ds, addrs);
      && (r.Ok? ==> Consistent(items) && r.value == Gathered(AdditionsIn(items)))
      && (r.Err? ==> Blamed(items, r.error))
  {
    var made: ByName := map[];
    for i := 0 to |ds|
      invariant Consistent(AllItems(ds[..i], addrs)) && made == Gathered(AdditionsIn(AllItems(ds[..i], addrs)))
    {
      assert ds[..i + 1] == ds[..i] + [ds[i]];
      AllItemsPush(ds[..i], ds[i], addrs);
      if ds[i].AliasIs? {
        var after := AddItems(made, ItemsIn(ds[i].alias, addrs), AllItems(ds[..i], addrs));
        if after.Err? {
          BlamedInAll(ds, i + 1, addrs, after.error);
          return Err(after.error);
        }
        made := after.value;
      } else {
        assert AllItems(ds[..i], addrs) + [] == AllItems(ds[..i], addrs);
      }
    }
    assert ds[..|ds|] == ds;
    return Ok(made);
  }

  /** Every unusable name at once. */
  method CheckNames(ds: seq<Decl>, prefix: string) returns (rejected: seq<Rejection>)
    ensures rejected == AllRejected(ds, prefix)
  {
    rejected := [];
    for i := 0 to |ds|
      invariant rejected == AllRejected(ds[..i], prefix)
    {
      assert ds[..i + 1][..i] == ds[..i];
      if ds[i].AliasIs? {
        rejected := rejected + Rejected(ds[i].alias, prefix);
      }
    }
    assert ds[..|ds|] == ds;
  }

  predicate UsableName(alias: string, prefix: string) {
    |prefix + alias + V6_SUFFIX| <= IPSET_NAME_MAX && !EndsWith(alias, V6_SUFFIX)
  }

  predicate UsableNames(ds: seq<Decl>, prefix: string) {
    forall d :: d in ds && d.AliasIs? ==> UsableName(d.alias.name, prefix)
  }

  lemma {:induction false} NothingRejected(ds: seq<Decl>, prefix: string)
    ensures AllRejected(ds, prefix) == [] <==> UsableNames(ds, prefix)
  {
    if ds != [] {
      var shorter, last := ds[..|ds| - 1], ds[|ds| - 1];
      NothingRejected(shorter, prefix);
      assert ds == shorter + [last];
    }
  }

  /**
   The sets are built exactly when every alias name is usable, no `any` lacks a port, and no set
   would mix types. Otherwise every unusable name is reported, or else the first entry that
   cannot be added.
   */
  method Build(ds: seq<Decl>, addrs: Addresses, prefix: string) returns (r: Result<ByName, Problem>)
    ensures r.Ok? <==> UsableNames(ds, prefix) && Consistent(AllItems(ds, addrs))
    ensures r.Ok? <==> UsableNames(ds, prefix) && OneTypeEach(ds, addrs)
    ensures r.Ok? ==> r.value == Gathered(AdditionsIn(AllItems(ds, addrs))) && SetsSay(ds, addrs, r.value)
    ensures r.Err? ==> if UsableNames(ds, prefix) then Blamed(AllItems(ds, addrs), r.error) else r.error == Unusable(AllRejected(ds, prefix))
  {
    var rejected := CheckNames(ds, prefix);
    NothingRejected(ds, prefix);
    if rejected != [] {
      return Err(Unusable(rejected));
    }
    r := AddDeclarations(ds, addrs);
    ConsistentIff(ds, addrs, prefix);
    if r.Err? {
      BlamedIsInconsistent(AllItems(ds, addrs), r.error);
    } else {
      AllSetsAreDeclared(ds, addrs, prefix);
    }
  }

  // ---------- what the sets hold ----------

  /** The two halves of an alias, and the halves of two aliases, never share a name. */
  lemma HalvesApart(a: string, f: Family, b: string, g: Family)
    requires !EndsWith(a, V6_SUFFIX) && !EndsWith(b, V6_SUFFIX) && SetName(a, f) == SetName(b, g)
    ensures a == b && f == g
  {
    SuffixEnds(a);
    SuffixEnds(b);
    if f == g && f.V6? {
      assert (a + V6_SUFFIX)[..|a|] == (b + V6_SUFFIX)[..|b|];
    }
  }

  lemma SuffixEnds(s: string)
    ensures EndsWith(s + V6_SUFFIX, V6_SUFFIX)
  {
  }

  /** The entries declared for one family of one alias, in order. */
  function DeclaredIn(adds: seq<Addition>, alias: string, f: Family): seq<Addition> {
    if adds == [] then []
    else (if adds[0].alias == alias && adds[0].family == f then [adds[0]] else []) + DeclaredIn(adds[1..], alias, f)
  }

  lemma {:induction false} UnderIsDeclared(adds: seq<Addition>, alias: string, f: Family)
    requires !EndsWith(alias, V6_SUFFIX) && forall a :: a in adds ==> !EndsWith(a.alias, V6_SUFFIX)
    ensures Under(Keyed(adds), SetName(alias, f)) == DeclaredIn(adds, alias, f)
  {
    if adds != [] {
      assert Keyed(adds)[1..] == Keyed(adds[1..]) && adds[0] in adds;
      assert forall a :: a in adds[1..] ==> a in adds;
      UnderIsDeclared(adds[1..], alias, f);
      if SetName(adds[0].alias, adds[0].family) == SetName(alias, f) {
        HalvesApart(adds[0].alias, adds[0].family, alias, f);
      }
    }
  }

  lemma {:induction false} ItemsAre(ds: seq<Decl>, addrs: Addresses, item: Item)
    ensures item in AllItems(ds, addrs) <==> exists d :: d in ds && d.AliasIs? && item in ItemsIn(d.alias, addrs)
  {
    if ds != [] {
      var shorter, last := ds[..|ds| - 1], ds[|ds| - 1];
      ItemsAre(shorter, addrs, item);
      assert ds == shorter + [last];
    }
  }

  lemma AdditionFrom(ds: seq<Decl>, addrs: Addresses, a: Addition)
    ensures a in AdditionsIn(AllItems(ds, addrs)) <==> exists d :: d in ds && d.AliasIs? && Add(a) in ItemsIn(d.alias, addrs)
  {
    AdditionsAre(AllItems(ds, addrs), a);
    ItemsAre(ds, addrs, Add(a));
  }

  lemma AliasOfAddition(ds: seq<Decl>, addrs: Addresses, prefix: string, a: Addition)
    requires UsableNames(ds, prefix) && a in AdditionsIn(AllItems(ds, addrs))
    ensures UsableName(a.alias, prefix)
  {
    AdditionFrom(ds, addrs, a);
    var d :| d in ds && d.AliasIs? && Add(a) in ItemsIn(d.alias, addrs);
    assert a.alias == d.alias.name;
  }

  lemma {:induction false} DeclaredAre(adds: seq<Addition>, alias: string, f: Family, a: Addition)
    ensures a in DeclaredIn(adds, alias, f) <==> a in adds && a.alias == alias && a.family == f
  {
    if adds != [] {
      DeclaredAre(adds[1..], alias, f, a);
      assert adds == [adds[0]] + adds[1..];
    }
  }

  /** Each half of an alias holds exactly its entries of that family in order, under one type; there is none without entries. */
  lemma SetsHoldTheirAliases(ds: seq<Decl>, addrs: Addresses, prefix: string, alias: string, f: Family)
    requires UsableNames(ds, prefix) && Consistent(AllItems(ds, addrs)) && !EndsWith(alias, V6_SUFFIX)
    ensures var adds := AdditionsIn(AllItems(ds, addrs));
      var got := Get(Gathered(adds), alias, f);
      var declared := DeclaredIn(adds, alias, f);
      && (got.None? <==> declared == [])
      && (got.Some? ==> got.value.family == f && got.value.entries == EntriesOf(declared) && forall a :: a in declared ==> a.kind == got.value.kind)
  {
    var items := AllItems(ds, addrs);
    var adds := AdditionsIn(items);
    var declared := DeclaredIn(adds, alias, f);
    forall a | a in adds
      ensures !EndsWith(a.alias, V6_SUFFIX)
    {
      AliasOfAddition(ds, addrs, prefix, a);
    }
    UnderIsDeclared(adds, alias, f);
    UnderAbsent(Keyed(adds), SetName(alias, f));
    if declared != [] {
      assert declared[0] in declared;
      DeclaredAre(adds, alias, f, declared[0]);
      forall a | a in declared
        ensures a.kind == declared[0].kind
      {
        DeclaredAre(adds, alias, f, a);
        SameKind(items, a, declared[0]);
      }
    }
  }

  lemma SameKind(items: seq<Item>, a: Addition, b: Addition)
    requires Consistent(items) && a in AdditionsIn(items) && b in AdditionsIn(items)
    requires SetName(a.alias, a.family) == SetName(b.alias, b.family)
    ensures a.kind == b.kind
  {
    AdditionsAre(items, a);
    AdditionsAre(items, b);
    var i :| 0 <= i < |items| && items[i] == Add(a);
    var j :| 0 <= j < |items| && items[j] == Add(b);
    assert SameSet(items[i], items[j]);
  }

  // ---------- in terms of the declarations ----------

  /** An alias declaration asks for this entry in its half for a family, and the half to be of this type. */
  ghost predicate Declares(a: Alias, addrs: Addresses, f: Family, kind: SetType, e: Entry) {
    && PortSays(e.port, a)
    && if AnyWord(a.host) then f == V4 && kind == Port && a.port.Some? && e.host == ""
       else
         && kind == (if a.port.Some? then NetPort else Net) && (f == V6 <==> ':' in e.host)
         && if AddressWord(a.host) then e.host == a.host else a.host in addrs && e.host in addrs[a.host]
  }

  lemma ItemDeclares(a: Alias, addrs: Addresses, x: Addition)
    ensures Add(x) in ItemsIn(a, addrs) <==> x.alias == a.name && x.origin == a.origin && Declares(a, addrs, x.family, x.kind, x.entry)
  {
    SpecIsSaid(x.entry.port, a);
    Classified(a.host);
    match Classify(a.host)
    case AnyHost =>
      if a.port.Some? {
        assert ItemsIn(a, addrs)[0] == Add(Addition(a.name, V4, Port, Entry("", SpecOf(a)), a.origin));
      }
    case Literal(host) =>
      assert ItemsIn(a, addrs)[0] == HostItem(a, host);
    case HostName(name) =>
      var hosts := AddressesFor(addrs, name);
      if x.entry.host in hosts {
        var i :| 0 <= i < |hosts| && hosts[i] == x.entry.host;
        assert ItemsIn(a, addrs)[i] == HostItem(a, hosts[i]);
      }
  }

  ghost predicate DeclaredEntry(ds: seq<Decl>, addrs: Addresses, alias: string, f: Family, kind: SetType, e: Entry) {
    exists d :: d in ds && d.AliasIs? && d.alias.name == alias && Declares(d.alias, addrs, f, kind, e)
  }

  lemma DeclaredIsAdded(ds: seq<Decl>, addrs: Addresses, alias: string, f: Family, kind: SetType, e: Entry)
    ensures DeclaredEntry(ds, addrs, alias, f, kind, e)
      <==> exists x :: x in DeclaredIn(AdditionsIn(AllItems(ds, addrs)), alias, f) && x.kind == kind && x.entry == e
  {
    var adds := AdditionsIn(AllItems(ds, addrs));
    if d :| d in ds && d.AliasIs? && d.alias.name == alias && Declares(d.alias, addrs, f, kind, e) {
      var x := Addition(alias, f, kind, e, d.alias.origin);
      ItemDeclares(d.alias, addrs, x);
      AdditionFrom(ds, addrs, x);
      DeclaredAre(adds, alias, f, x);
    }
    if x :| x in DeclaredIn(adds, alias, f) && x.kind == kind && x.entry == e {
      DeclaredAre(adds, alias, f, x);
      AdditionFrom(ds, addrs, x);
      var d :| d in ds && d.AliasIs? && Add(x) in ItemsIn(d.alias, addrs);
      ItemDeclares(d.alias, addrs, x);
    }
  }

  /** The half of an alias: its entries and its type are those the declarations ask for, and there is one only if they ask for any. */
  ghost predicate HalfSays(ds: seq<Decl>, addrs: Addresses, alias: string, f: Family, got: Option<AliasSet>) {
    if got.None? then forall kind, e :: !DeclaredEntry(ds, addrs, alias, f, kind, e)
    else
      && got.value.entries != [] && got.value.family == f
      && forall kind, e :: DeclaredEntry(ds, addrs, alias, f, kind, e) <==> kind == got.value.kind && e in got.value.entries
  }

  lemma EntriesIn(adds: seq<Addition>, e: Entry)
    ensures e in EntriesOf(adds) <==> exists x :: x in adds && x.entry == e
  {
    if x :| x in adds && x.entry == e {
      var i :| 0 <= i < |adds| && adds[i] == x;
      assert EntriesOf(adds)[i] == e;
    }
  }

  /** So the sets can be read off the declarations: hosts, protocols and ports by their characters. */
  lemma SetsAreDeclared(ds: seq<Decl>, addrs: Addresses, prefix: string, alias: string, f: Family)
    requires UsableNames(ds, prefix) && Consistent(AllItems(ds, addrs)) && !EndsWith(alias, V6_SUFFIX)
    ensures HalfSays(ds, addrs, alias, f, Get(Gathered(AdditionsIn(AllItems(ds, addrs))), alias, f))
  {
    var declared := DeclaredIn(AdditionsIn(AllItems(ds, addrs)), alias, f);
    SetsHoldTheirAliases(ds, addrs, prefix, alias, f);
    forall kind, e
      ensures DeclaredEntry(ds, addrs, alias, f, kind, e) <==> exists x :: x in declared && x.kind == kind && x.entry == e
      ensures e in EntriesOf(declared) <==> exists x :: x in declared && x.entry == e
    {
      DeclaredIsAdded(ds, addrs, alias, f, kind, e);
      EntriesIn(declared, e);
    }
  }

  ghost predicate SetsSay(ds: seq<Decl>, addrs: Addresses, sets: ByName) {
    forall alias, f :: !EndsWith(alias, V6_SUFFIX) ==> HalfSays(ds, addrs, alias, f, Get(sets, alias, f))
  }

  lemma AllSetsAreDeclared(ds: seq<Decl>, addrs: Addresses, prefix: string)
    requires UsableNames(ds, prefix) && Consistent(AllItems(ds, addrs))
    ensures SetsSay(ds, addrs, Gathered(AdditionsIn(AllItems(ds, addrs))))
  {
    forall alias, f | !EndsWith(alias, V6_SUFFIX)
      ensures HalfSays(ds, addrs, alias, f, Get(Gathered(AdditionsIn(AllItems(ds, addrs))), alias, f))
    {
      SetsAreDeclared(ds, addrs, prefix, alias, f);
    }
  }

  /** A usable name leaves room for the prefix and three more characters within 31, and does not end in the three. */
  lemma UsableIff(alias: string, prefix: string)
    ensures UsableName(alias, prefix) <==> |prefix| + |alias| + 3 <= 31 && !(|alias| >= 3 && alias[|alias| - 3..] == "_v6")
  {
  }

  /** An alias for `any` has a port, and no half of an alias is asked to be of two types. */
  ghost predicate OneTypeEach(ds: seq<Decl>, addrs: Addresses) {
    && (forall d :: d in ds && d.AliasIs? && AnyWord(d.alias.host) ==> d.alias.port.Some?)
    && (forall alias, f, k, e, l, h :: DeclaredEntry(ds, addrs, alias, f, k, e) && DeclaredEntry(ds, addrs, alias, f, l, h) ==> k == l)
  }

  lemma NoPortIs(a: Alias, addrs: Addresses)
    ensures (exists item :: item in ItemsIn(a, addrs) && !item.Add?) <==> AnyWord(a.host) && a.port.None?
  {
    Classified(a.host);
    var items := ItemsIn(a, addrs);
    if AnyWord(a.host) && a.port.None? {
      assert items == [NoPort(a.name, a.origin)];
      assert NoPort(a.name, a.origin) in items;
    } else {
      forall i | 0 <= i < |items|
        ensures items[i].Add?
      {
      }
    }
  }

  lemma PortsAreGiven(ds: seq<Decl>, addrs: Addresses)
    ensures (forall item :: item in AllItems(ds, addrs) ==> item.Add?)
      <==> forall d :: d in ds && d.AliasIs? && AnyWord(d.alias.host) ==> d.alias.port.Some?
  {
    if item :| item in AllItems(ds, addrs) && !item.Add? {
      ItemsAre(ds, addrs, item);
      var d :| d in ds && d.AliasIs? && item in ItemsIn(d.alias, addrs);
      NoPortIs(d.alias, addrs);
      assert AnyWord(d.alias.host) && d.alias.port.None?;
    }
    if d :| d in ds && d.AliasIs? && AnyWord(d.alias.host) && d.alias.port.None? {
      NoPortIs(d.alias, addrs);
      var item :| item in ItemsIn(d.alias, addrs) && !item.Add?;
      ItemsAre(ds, addrs, item);
      assert item in AllItems(ds, addrs);
    }
  }

  lemma AskedOfSet(ds: seq<Decl>, addrs: Addresses, prefix: string, x: Item, y: Item)
    requires UsableNames(ds, prefix) && x in AllItems(ds, addrs) && y in AllItems(ds, addrs) && x.Add? && y.Add?
    ensures DeclaredEntry(ds, addrs, x.what.alias, x.what.family, x.what.kind, x.what.entry)
    ensures SameSet(x, y) <==> x.what.alias == y.what.alias && x.what.family == y.what.family
  {
    ItemsAre(ds, addrs, x);
    ItemsAre(ds, addrs, y);
    var d :| d in ds && d.AliasIs? && x in ItemsIn(d.alias, addrs);
    var e :| e in ds && e.AliasIs? && y in ItemsIn(e.alias, addrs);
    ItemDeclares(d.alias, addrs, x.what);
    ItemDeclares(e.alias, addrs, y.what);
    if SameSet(x, y) {
      HalvesApart(x.what.alias, x.what.family, y.what.alias, y.what.family);
    }
  }

  lemma AskedItem(ds: seq<Decl>, addrs: Addresses, alias: string, f: Family, kind: SetType, e: Entry) returns (i: nat)
    requires DeclaredEntry(ds, addrs, alias, f, kind, e)
    ensures i < |AllItems(ds, addrs)|
    ensures var x := AllItems(ds, addrs)[i]; x.Add? && x.what.alias == alias && x.what.family == f && x.what.kind == kind
  {
    var d :| d in ds && d.AliasIs? && d.alias.name == alias && Declares(d.alias, addrs, f, kind, e);
    var x := Addition(alias, f, kind, e, d.alias.origin);
    ItemDeclares(d.alias, addrs, x);
    ItemsAre(ds, addrs, Add(x));
    i :| 0 <= i < |AllItems(ds, addrs)| && AllItems(ds, addrs)[i] == Add(x);
  }

  /** Sets can be built of usable names exactly when that is so. */
  lemma ConsistentIff(ds: seq<Decl>, addrs: Addresses, prefix: string)
    requires UsableNames(ds, prefix)
    ensures Consistent(AllItems(ds, addrs)) <==> OneTypeEach(ds, addrs)
  {
    var items := AllItems(ds, addrs);
    PortsAreGiven(ds, addrs);
    if Consistent(items) {
      ConsistentIsOneType(ds, addrs, prefix);
    }
    if OneTypeEach(ds, addrs) {
      forall i | 0 <= i < |items|
        ensures items[i].Add?
      {
        assert items[i] in items;
      }
      forall i, j | 0 <= i < |items| && 0 <= j < |items| && SameSet(items[i], items[j])
        ensures items[i].what.kind == items[j].what.kind
      {
        AskedOfSet(ds, addrs, prefix, items[i], items[j]);
        AskedOfSet(ds, addrs, prefix, items[j], items[i]);
      }
    }
  }

  lemma ConsistentIsOneType(ds: seq<Decl>, addrs: Addresses, prefix: string)
    requires UsableNames(ds, prefix) && Consistent(AllItems(ds, addrs))
    ensures forall alias, f, k, e, l, h :: DeclaredEntry(ds, addrs, alias, f, k, e) && DeclaredEntry(ds, addrs, alias, f, l, h) ==> k == l
  {
    var items := AllItems(ds, addrs);
    forall alias, f, k, e, l, h | DeclaredEntry(ds, addrs, alias, f, k, e) && DeclaredEntry(ds, addrs, alias, f, l, h)
      ensures k == l
    {
      var i := AskedItem(ds, addrs, alias, f, k, e);
      var j := AskedItem(ds, addrs, alias, f, l, h);
      assert SameSet(items[i], items[j]);
    }
  }

  /** Every set name, as it is rendered, is one ipset takes. */
  lemma RenderedNamesFit(ds: seq<Decl>, addrs: Addresses, prefix: string, name: string)
    requires UsableNames(ds, prefix) && name in Gathered(AdditionsIn(AllItems(ds, addrs)))
    ensures |prefix + name| <= 31
  {
    var items := AllItems(ds, addrs);
    var i := FirstOfSet(items, name);
    AdditionsAre(items, items[i].what);
    AliasOfAddition(ds, addrs, prefix, items[i].what);
  }

  /** What is said of an unusable name: by how much it is too long, and whether it takes the suffix. */
  lemma RejectedSays(a: Alias, prefix: string, x: Rejection)
    ensures x in Rejected(a, prefix) <==> match x
      case TooLong(alias, origin, over) => alias == a.name && origin == a.origin && over > 0 && |prefix| + |a.name| + 3 == 31 + over
      case Suffixed(alias, origin) => alias == a.name && origin == a.origin && |a.name| >= 3 && a.name[|a.name| - 3..] == "_v6"
  {
    var longest := |prefix + a.name + V6_SUFFIX|;
    var first := if longest > IPSET_NAME_MAX then [Rejection.TooLong(a.name, a.origin, longest - IPSET_NAME_MAX)] else [];
    var second := if EndsWith(a.name, V6_SUFFIX) then [Suffixed(a.name, a.origin)] else [];
    assert Rejected(a, prefix) == first + second;
  }

  /** What is said of an entry that cannot be added: the type its set had, and the one it would need. */
  lemma MixedSays(sets: ByName, a: Addition)
    requires Added(sets, Add(a)).Err?
    ensures SetName(a.alias, a.family) in sets
    ensures Added(sets, Add(a)) == Err(Mixed(a.alias, a.origin, sets[SetName(a.alias, a.family)].kind, a.kind))
    ensures sets[SetName(a.alias, a.family)].kind != a.kind
  {
  }

  // ---------- render ----------

  /** A line of `ipset restore`. */
  datatype SetLine = CreateLine(name: string, kind: SetType, family: Family) | AddLine(name: string, entry: Entry)

  function LinesOf(s: AliasSet, prefix: string): (lines: seq<SetLine>)
    ensures |lines| == 1 + |s.entries|
  {
    [CreateLine(prefix + s.name, s.kind, s.family)]
    + seq(|s.entries|, i requires 0 <= i < |s.entries| => AddLine(prefix + s.name, s.entries[i]))
  }

  function AllLines(sets: ByName, names: seq<string>, prefix: string): seq<SetLine>
    requires forall n :: n in names ==> n in sets
  {
    if names == [] then [] else AllLines(sets, names[..|names| - 1], prefix) + LinesOf(sets[names[|names| - 1]], prefix)
  }

  /** One set: `create`, then an `add` for each entry. */
  method RenderSet(s: AliasSet, prefix: string) returns (out: seq<SetLine>)
    ensures out == LinesOf(s, prefix)
  {
    out := [CreateLine(prefix + s.name, s.kind, s.family)];
    for j := 0 to |s.entries|
      invariant out == LinesOf(s, prefix)[..j + 1]
    {
      out := out + [AddLine(prefix + s.name, s.entries[j])];
    }
  }

  method Render(sets: ByName, prefix: string) returns (out: seq<SetLine>)
    ensures out == AllLines(sets, Sorted(sets.Keys), prefix)
  {
    var names := Sorted(sets.Keys);
    out := [];
    for i := 0 to |names|
      invariant out == AllLines(sets, names[..i], prefix)
    {
      OneMore(names, i);
      var lines := RenderSet(sets[names[i]], prefix);
      out := out + lines;
    }
    assert names[..|names|] == names;
  }
}
