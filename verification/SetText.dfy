/** The stream for ipset restore as text: src/sets.rs create_args and render, and a reader that knows only ipset's words. */
module SetText {
  import opened Seqs
  import opened Text
  import opened Netfilter
  import opened Declarations
  import opened Resolution
  import opened AliasSets

  // ---------- the printer ----------

  function TypeWords(kind: SetType, f: Family): (words: seq<string>)
    ensures |words| == 4
  {
    var family := if f.V4? then "inet" else "inet6";
    match kind
    case Net => ["hash:net", "family", family, "counters"]
    case NetPort => ["hash:net,port", "family", family, "counters"]
    case Port => ["bitmap:port", "range", "1-65535", "counters"]
  }

  function EntryText(e: Entry): string {
    if e.port.None? then e.host else if e.host == "" then e.port.value else e.host + "," + e.port.value
  }

  function SetLineText(l: SetLine): string {
    match l
    case CreateLine(name, kind, f) => Join(["create", name] + TypeWords(kind, f), ' ')
    case AddLine(name, e) => Join(["add", name, EntryText(e)], ' ')
  }

  // ---------- the reader ----------

  /** What the last words of a create line say; a set of ports has no family, and goes with IPv4. */
  function ReadType(words: seq<string>): Option<(SetType, Family)> {
    if words == ["hash:net", "family", "inet", "counters"] then Some((Net, V4))
    else if words == ["hash:net", "family", "inet6", "counters"] then Some((Net, V6))
    else if words == ["hash:net,port", "family", "inet", "counters"] then Some((NetPort, V4))
    else if words == ["hash:net,port", "family", "inet6", "counters"] then Some((NetPort, V6))
    else if words == ["bitmap:port", "range", "1-65535", "counters"] then Some((Port, V4))
    else None
  }

  /** An entry, of a set of this type: in a set of networks with ports the host ends at the first comma. */
  function ReadEntry(word: string, kind: SetType): Option<Entry> {
    match kind
    case Net => Some(Entry(word, None))
    case Port => Some(Entry("", Some(word)))
    case NetPort =>
      var host := Before(word, ',');
      if |host| < |word| then Some(Entry(host, Some(word[|host| + 1..]))) else None
  }

  /** A line, when `kinds` has the types of the sets created so far. */
  function ReadSetLine(text: string, kinds: map<string, SetType>): Option<SetLine> {
    var words := Split(text, ' ');
    if |words| == 6 && words[0] == "create" then
      var kind := ReadType(words[2..]);
      if kind.Some? then Some(CreateLine(words[1], kind.value.0, kind.value.1)) else None
    else if |words| == 3 && words[0] == "add" && words[1] in kinds then
      var entry := ReadEntry(words[2], kinds[words[1]]);
      if entry.Some? then Some(AddLine(words[1], entry.value)) else None
    else None
  }

  // ---------- what it reads ----------

  lemma TypeIsRead(kind: SetType, f: Family)
    requires kind.Port? ==> f == V4
    ensures ReadType(TypeWords(kind, f)) == Some((kind, f))
  {
    assert "inet" != "inet6" && "hash:net" != "hash:net,port" && "hash:net"[0] != "bitmap:port"[0];
  }

  lemma TypeWordsAreWords(kind: SetType, f: Family)
    ensures forall w :: w in TypeWords(kind, f) ==> Free(w, ' ')
  {
  }

  /** An entry of the shape its set's type wants. */
  predicate FitsType(e: Entry, kind: SetType) {
    match kind
    case Net => e.port.None?
    case Port => e.host == "" && e.port.Some?
    case NetPort => e.host != "" && ',' !in e.host && e.port.Some?
  }

  lemma EntryIsRead(e: Entry, kind: SetType)
    requires FitsType(e, kind)
    ensures ReadEntry(EntryText(e), kind) == Some(e)
  {
    if kind.NetPort? {
      var text := EntryText(e);
      assert text == e.host + [','] + e.port.value;
      BeforeSeparator(e.host, ',', text);
      assert text[|e.host|] == ',' && text[|e.host| + 1..] == e.port.value;
    }
  }

  /** A line of a set whose type is known, with nothing in it that splits words. */
  predicate Readable(l: SetLine, kinds: map<string, SetType>) {
    && Free(l.name, ' ')
    && match l
       case CreateLine(_, kind, f) => kind.Port? ==> f == V4
       case AddLine(name, e) => Free(EntryText(e), ' ') && name in kinds && FitsType(e, kinds[name])
  }

  lemma CreateIsRead(name: string, kind: SetType, f: Family, kinds: map<string, SetType>)
    requires Free(name, ' ') && (kind.Port? ==> f == V4)
    ensures ReadSetLine(SetLineText(CreateLine(name, kind, f)), kinds) == Some(CreateLine(name, kind, f))
  {
    var tail := TypeWords(kind, f);
    var words := ["create", name] + tail;
    TypeWordsAreWords(kind, f);
    assert Free("create", ' ');
    assert forall w :: w in words ==> w == "create" || w == name || w in tail;
    SplitJoined(words, ' ');
    assert words[2..] == tail;
    TypeIsRead(kind, f);
  }

  lemma AddIsRead(name: string, e: Entry, kinds: map<string, SetType>)
    requires Free(name, ' ') && Free(EntryText(e), ' ') && name in kinds && FitsType(e, kinds[name])
    ensures ReadSetLine(SetLineText(AddLine(name, e)), kinds) == Some(AddLine(name, e))
  {
    var words := ["add", name, EntryText(e)];
    assert Free("add", ' ');
    SplitJoined(words, ' ');
    EntryIsRead(e, kinds[name]);
  }

  /** Each line of the stream is read back: the set's name, its type and family, and the host, protocol and port of each entry. */
  lemma SetLineIsRead(l: SetLine, kinds: map<string, SetType>)
    requires Readable(l, kinds)
    ensures ReadSetLine(SetLineText(l), kinds) == Some(l)
  {
    match l
    case CreateLine(name, kind, f) => CreateIsRead(name, kind, f, kinds);
    case AddLine(name, e) => AddIsRead(name, e, kinds);
  }

  // ---------- the stream of a build ----------

  /** The types of the sets built, by the names they are rendered with. */
  function KindsOf(sets: ByName, prefix: string): map<string, SetType> {
    map n | n in (set k | k in sets :: prefix + k) && prefix <= n && n[|prefix|..] in sets :: sets[n[|prefix|..]].kind
  }

  lemma KindOfSet(sets: ByName, prefix: string, k: string)
    requires k in sets
    ensures prefix + k in KindsOf(sets, prefix) && KindsOf(sets, prefix)[prefix + k] == sets[k].kind
  {
    assert (prefix + k)[|prefix|..] == k;
  }

  lemma {:induction false} LineOfSet(sets: ByName, names: seq<string>, prefix: string, l: SetLine) returns (k: string)
    requires (forall n :: n in names ==> n in sets) && l in AllLines(sets, names, prefix)
    ensures k in names && l in LinesOf(sets[k], prefix)
    decreases |names|
  {
    var shorter, last := names[..|names| - 1], names[|names| - 1];
    if l in LinesOf(sets[last], prefix) {
      k := last;
    } else {
      k := LineOfSet(sets, shorter, prefix, l);
    }
  }

  /** Hosts, ports and protocols as words, and hosts without commas. */
  predicate Wordly(a: Alias) {
    && Free(a.name, ' ') && Free(a.host, ' ') && Free(a.host, ',')
    && (a.port.Some? ==> Free(a.port.value, ' ')) && (a.proto.Some? ==> Free(a.proto.value, ' '))
  }

  predicate AllWordly(ds: seq<Decl>) {
    forall d :: d in ds && d.AliasIs? ==> Wordly(d.alias)
  }

  lemma AddressIsWord(a: Address)
    ensures a != "" && Free(a, ' ') && Free(a, ',')
  {
    assert forall c :: c in a ==> Digit(c) || 'a' <= c <= 'f' || c == '.' || c == ':';
  }

  lemma SpecIsWord(spec: string, a: Alias)
    requires Wordly(a) && PortSays(Some(spec), a)
    ensures Free(spec, ' ')
  {
    if a.proto.Some? && |a.proto.value| == 3 {
      assert spec == a.proto.value + [':'] + a.port.value;
    }
  }

  lemma DeclaredFits(a: Alias, addrs: Addresses, f: Family, kind: SetType, e: Entry)
    requires Wordly(a) && Declares(a, addrs, f, kind, e)
    ensures FitsType(e, kind) && Free(EntryText(e), ' ') && (kind.Port? ==> f == V4)
  {
    if e.port.Some? {
      SpecIsWord(e.port.value, a);
    }
    if !AnyWord(a.host) && !AddressWord(a.host) {
      AddressIsWord(e.host);
    }
    assert ' ' !in ",";
  }

  /** A set built is a half of an alias, named and filled as such. */
  lemma BuiltSet(ds: seq<Decl>, addrs: Addresses, prefix: string, k: string) returns (alias: string, f: Family)
    requires UsableNames(ds, prefix) && Consistent(AllItems(ds, addrs)) && k in Gathered(AdditionsIn(AllItems(ds, addrs)))
    ensures var sets := Gathered(AdditionsIn(AllItems(ds, addrs)));
      && k == SetName(alias, f) && UsableName(alias, prefix) && alias in AliasNames(ds)
      && sets[k].name == k && HalfSays(ds, addrs, alias, f, Some(sets[k]))
  {
    var items := AllItems(ds, addrs);
    var i := FirstOfSet(items, k);
    var x := items[i].what;
    AdditionsAre(items, x);
    AliasOfAddition(ds, addrs, prefix, x);
    AdditionFrom(ds, addrs, x);
    var d :| d in ds && d.AliasIs? && Add(x) in ItemsIn(d.alias, addrs);
    ItemDeclares(d.alias, addrs, x);
    alias, f := x.alias, x.family;
    SetsAreDeclared(ds, addrs, prefix, alias, f);
  }

  lemma NameIsWord(ds: seq<Decl>, alias: string, f: Family, prefix: string)
    requires AllWordly(ds) && alias in AliasNames(ds) && Free(prefix, ' ')
    ensures Free(prefix + SetName(alias, f), ' ')
  {
    var i :| 0 <= i < |ds| && ds[i].AliasIs? && ds[i].alias.name == alias;
    assert ds[i] in ds;
    assert Free(V6_SUFFIX, ' ');
  }

  lemma SetNameEnds(alias: string, f: Family)
    requires !EndsWith(alias, V6_SUFFIX)
    ensures EndsWith(SetName(alias, f), "_v6") <==> f == V6
  {
    SuffixEnds(alias);
  }

  lemma BuiltEntryFits(ds: seq<Decl>, addrs: Addresses, alias: string, f: Family, s: AliasSet, e: Entry)
    requires AllWordly(ds) && HalfSays(ds, addrs, alias, f, Some(s)) && e in s.entries
    ensures FitsType(e, s.kind) && Free(EntryText(e), ' ') && (s.kind.Port? ==> f == V4)
  {
    assert DeclaredEntry(ds, addrs, alias, f, s.kind, e);
    var d :| d in ds && d.AliasIs? && d.alias.name == alias && Declares(d.alias, addrs, f, s.kind, e);
    DeclaredFits(d.alias, addrs, f, s.kind, e);
  }

  lemma LineOf(s: AliasSet, prefix: string, l: SetLine)
    requires l in LinesOf(s, prefix)
    ensures l.name == prefix + s.name
    ensures l.CreateLine? ==> l.kind == s.kind && l.family == s.family
    ensures l.AddLine? ==> l.entry in s.entries
  {
  }

  lemma BuiltLineIsReadable(ds: seq<Decl>, addrs: Addresses, prefix: string, k: string, l: SetLine)
    requires UsableNames(ds, prefix) && Consistent(AllItems(ds, addrs)) && AllWordly(ds) && Free(prefix, ' ')
    requires var sets := Gathered(AdditionsIn(AllItems(ds, addrs))); k in sets && l in LinesOf(sets[k], prefix)
    ensures Readable(l, KindsOf(Gathered(AdditionsIn(AllItems(ds, addrs))), prefix))
    ensures l.name == prefix + k && (l.CreateLine? ==> (l.family == V6 <==> EndsWith(k, "_v6")))
  {
    var sets := Gathered(AdditionsIn(AllItems(ds, addrs)));
    var s := sets[k];
    var alias, f := BuiltSet(ds, addrs, prefix, k);
    LineOf(s, prefix, l);
    KindOfSet(sets, prefix, k);
    NameIsWord(ds, alias, f, prefix);
    SetNameEnds(alias, f);
    BuiltEntryFits(ds, addrs, alias, f, s, if l.AddLine? then l.entry else s.entries[0]);
  }

  /**
   Every line printed for the sets of a build is read back as it was meant: the type of each set, the
   family its name tells, and each entry's host, protocol and port.
   */
  lemma SetStreamIsRead(ds: seq<Decl>, addrs: Addresses, prefix: string, l: SetLine)
    requires UsableNames(ds, prefix) && OneTypeEach(ds, addrs) && AllWordly(ds) && Free(prefix, ' ')
    requires var sets := Gathered(AdditionsIn(AllItems(ds, addrs))); l in AllLines(sets, Sorted(sets.Keys), prefix)
    ensures var sets := Gathered(AdditionsIn(AllItems(ds, addrs)));
      && ReadSetLine(SetLineText(l), KindsOf(sets, prefix)) == Some(l) && prefix <= l.name && l.name[|prefix|..] in sets
      && (l.CreateLine? ==> (l.family == V6 <==> EndsWith(l.name[|prefix|..], "_v6")))
  {
    var sets := Gathered(AdditionsIn(AllItems(ds, addrs)));
    ConsistentIff(ds, addrs, prefix);
    var k := LineOfSet(sets, Sorted(sets.Keys), prefix, l);
    BuiltLineIsReadable(ds, addrs, prefix, k, l);
    SetLineIsRead(l, KindsOf(sets, prefix));
    assert (prefix + k)[|prefix|..] == k;
  }
}
