/** src/resolve.rs: which names need DNS, and the report of those that have no address. */
module Resolution {
  import opened Seqs
  import opened Sorting
  import opened Text
  import opened Grouping
  import opened Declarations

  datatype Host = Literal(text: string) | AnyHost | HostName(name: string)

  predicate Alphabetic(c: char) {
    'a' <= c <= 'z' || 'A' <= c <= 'Z'
  }

  predicate HasLetter(s: string) {
    exists i :: 0 <= i < |s| && Alphabetic(s[i])
  }

  // ---------- kinds of words, by their characters ----------

  /** `any`, in whatever case. */
  predicate AnyWord(s: string) {
    |s| == 3 && (s[0] == 'a' || s[0] == 'A') && (s[1] == 'n' || s[1] == 'N') && (s[2] == 'y' || s[2] == 'Y')
  }

  /** Something with a colon, or something without letters that begins with a digit. */
  predicate AddressWord(s: string) {
    ':' in s || (s != "" && s[0] in DIGITS && forall c :: c in s ==> !('a' <= c <= 'z') && !('A' <= c <= 'Z'))
  }

  const DIGITS: string := "0123456789"

  /** Only DNS can say what this stands for. */
  predicate NameWord(s: string) {
    !AnyWord(s) && !AddressWord(s)
  }

  lemma DigitsAre(c: char)
    ensures Digit(c) <==> c in DIGITS
  {
    assert forall i :: 0 <= i < 10 ==> DIGITS[i] as int == '0' as int + i;
    if Digit(c) {
      assert DIGITS[c as int - '0' as int] == c;
    }
  }

  lemma AnyWordIs(s: string)
    ensures Lower(s) == "any" <==> AnyWord(s)
  {
    if |s| == 3 {
      assert Lower(s) == [LowerChar(s[0]), LowerChar(s[1]), LowerChar(s[2])];
      assert "any" == ['a', 'n', 'y'];
    }
  }

  lemma NoLetters(s: string)
    ensures HasLetter(s) <==> exists c :: c in s && Alphabetic(c)
  {
  }

  /** How a host is taken depends on its characters alone. */
  lemma Classified(host: string)
    ensures Classify(host) == if AnyWord(host) then AnyHost else if AddressWord(host) then Literal(host) else HostName(host)
  {
    AnyWordIs(host);
    DigitsAre(if host == "" then '0' else host[0]);
    NoLetters(host);
  }

  /** src/resolve.rs classify */
  function Classify(host: string): Host {
    if Lower(host) == "any" then AnyHost
    else if (host != "" && Digit(host[0]) && !HasLetter(host)) || ':' in host then Literal(host)
    else HostName(host)
  }

  /** An address as it is printed. */
  predicate PrintedAddress(s: string) {
    && (forall i :: 0 <= i < |s| ==> Digit(s[i]) || 'a' <= s[i] <= 'f' || s[i] == '.' || s[i] == ':')
    && (':' in s || (s != "" && Digit(s[0]) && !HasLetter(s)))
  }

  type Address = s: string | PrintedAddress(s) witness "0"

  /** A printed address is read back as a literal. */
  lemma AddressIsLiteral(a: Address)
    ensures Classify(a) == Literal(a)
  {
    assert |a| > 1 ==> Lower(a)[1] == LowerChar(a[1]);
    assert "any"[1] == 'n';
  }

  /** A network written as an address, a slash and a number is a literal too: it is never looked up. */
  lemma NetworkIsLiteral(a: Address, bits: nat)
    ensures Classify(a + "/" + Decimal(bits)) == Literal(a + "/" + Decimal(bits)) && !NameWord(a + "/" + Decimal(bits))
  {
    var n := a + "/" + Decimal(bits);
    AddressIsLiteral(a);
    Classified(a);
    Classified(n);
    assert forall c :: c in n ==> c in a || c == '/' || Digit(c);
    assert |n| > |a| && '/' in n;
    assert !AnyWord(n);
    if ':' in a {
      assert ':' in n;
    } else {
      assert n[0] == a[0];
    }
  }

  /** A word with a letter and no colon is a name, unless it is `any`; so is one that begins with no digit. */
  lemma WordIsName(s: string)
    requires ':' !in s && !AnyWord(s) && ((exists c :: c in s && Alphabetic(c)) || (s != "" && s[0] !in DIGITS))
    ensures Classify(s) == HostName(s)
  {
    Classified(s);
  }

  datatype Usage = Usage(context: string, origin: Origin)

  // ---------- names_to_resolve ----------

  function AliasNames(ds: seq<Decl>): set<string> {
    set i | 0 <= i < |ds| && ds[i].AliasIs? :: ds[i].alias.name
  }

  /** A host used in a place, if it is a name. */
  function Use(host: string, context: string, origin: Origin): seq<(string, Usage)> {
    if host != "" && Classify(host).HostName? then [(host, Usage(context, origin))] else []
  }

  /** A rule's endpoint, unless it names an alias. */
  function Reference(host: string, context: string, origin: Origin, aliases: set<string>): seq<(string, Usage)> {
    if host in aliases then [] else Use(host, context, origin)
  }

  function UsesIn(d: Decl, aliases: set<string>): seq<(string, Usage)> {
    match d
    case AliasIs(a) => Use(a.host, "alias " + a.name, a.origin)
    case RuleIs(r) =>
      Reference(r.src, "rule source", r.origin, aliases) + Reference(r.dst, "rule destination", r.origin, aliases)
  }

  function AllUses(ds: seq<Decl>, aliases: set<string>): seq<(string, Usage)> {
    if ds == [] then [] else UsesIn(ds[0], aliases) + AllUses(ds[1..], aliases)
  }

  lemma {:induction false} AllUsesConcat(xs: seq<Decl>, ys: seq<Decl>, aliases: set<string>)
    ensures AllUses(xs + ys, aliases) == AllUses(xs, aliases) + AllUses(ys, aliases)
  {
    if xs == [] {
      assert xs + ys == ys;
    } else {
      assert (xs + ys)[1..] == xs[1..] + ys;
      AllUsesConcat(xs[1..], ys, aliases);
      assert UsesIn(xs[0], aliases) + (AllUses(xs[1..], aliases) + AllUses(ys, aliases))
        == UsesIn(xs[0], aliases) + AllUses(xs[1..], aliases) + AllUses(ys, aliases);
    }
  }

  type Names = map<string, seq<Usage>>

  /** `names.entry(name).or_default().push(usage)`, where the host is a name at all. */
  method Note(names: Names, host: string, context: string, origin: Origin, ghost before: seq<(string, Usage)>) returns (more: Names)
    requires names == Grouped(before)
    ensures more == Grouped(before + Use(host, context, origin))
  {
    more := names;
    if host != "" {
      match Classify(host)
      case HostName(n) =>
        GroupedPush(before, n, Usage(context, origin));
        more := names[n := (if n in names then names[n] else []) + [Usage(context, origin)]];
      case _ =>
        assert before + [] == before;
    } else {
      assert before + [] == before;
    }
  }

  method NoteReference(names: Names, host: string, context: string, origin: Origin, aliases: set<string>, ghost before: seq<(string, Usage)>)
    returns (more: Names)
    requires names == Grouped(before)
    ensures more == Grouped(before + Reference(host, context, origin, aliases))
  {
    if host in aliases {
      assert before + [] == before;
      more := names;
    } else {
      more := Note(names, host, context, origin, before);
    }
  }

  method NoteUses(names: Names, d: Decl, aliases: set<string>, ghost before: seq<(string, Usage)>) returns (more: Names)
    requires names == Grouped(before)
    ensures more == Grouped(before + UsesIn(d, aliases))
  {
    match d
    case AliasIs(a) =>
      more := Note(names, a.host, "alias " + a.name, a.origin, before);
    case RuleIs(r) =>
      ghost var first := Reference(r.src, "rule source", r.origin, aliases);
      ghost var second := Reference(r.dst, "rule destination", r.origin, aliases);
      more := NoteReference(names, r.src, "rule source", r.origin, aliases, before);
      more := NoteReference(more, r.dst, "rule destination", r.origin, aliases, before + first);
      assert before + first + second == before + (first + second);
  }

  method NamesToResolve(ds: seq<Decl>) returns (names: Names)
    ensures names == Grouped(AllUses(ds, AliasNames(ds)))
    ensures forall n :: n in names <==> Needed(n, ds)
  {
    var aliases := AliasNames(ds);
    names := map[];
    for i := 0 to |ds|
      invariant names == Grouped(AllUses(ds[..i], aliases))
    {
      assert ds[..i + 1] == ds[..i] + [ds[i]];
      AllUsesConcat(ds[..i], [ds[i]], aliases);
      assert [ds[i]][1..] == [] && UsesIn(ds[i], aliases) + [] == UsesIn(ds[i], aliases);
      names := NoteUses(names, ds[i], aliases, AllUses(ds[..i], aliases));
    }
    assert ds[..|ds|] == ds;
    forall n
      ensures n in names <==> Needed(n, ds)
    {
      CollectedAreNeeded(ds, n);
    }
  }

  // ---------- resolve_all ----------

  /** What the resolver says of a name. `Found([])` counts as a failure: see `Trouble`. */
  datatype Answer = Found(addresses: seq<Address>) | Failed(reason: string)

  const UNDECLARED: string := "no alias of this name is declared"
  const NO_ADDRESS: string := "no address"

  predicate UndeclaredAlias(name: string) {
    '_' in name
  }

  /** Why a name cannot be resolved, if it cannot. */
  function Trouble(name: string, lookup: string -> Answer): Option<string> {
    if UndeclaredAlias(name) then Some(UNDECLARED)
    else
      match lookup(name)
      case Found(list) => if list == [] then Some(NO_ADDRESS) else None
      case Failed(reason) => Some(reason)
  }

  datatype Place = Place(file: string, line: nat)
  datatype ReportLine = ReportLine(place: Place, entry: string)

  function Worded(name: string, context: string, reason: string): string {
    name + " (" + context + "): " + reason
  }

  function PlaceOf(u: Usage): Place {
    Place(u.origin.file, u.origin.line)
  }

  predicate PlaceLe(a: Place, b: Place) {
    if a.file == b.file then a.line <= b.line else LexLe(a.file, b.file)
  }

  lemma PlaceOrder()
    ensures TotalOrder(PlaceLe)
  {
    LexOrder();
    forall a, b, c | PlaceLe(a, b) && PlaceLe(b, c)
      ensures PlaceLe(a, c)
    {
      assert LexLe(a.file, b.file) && LexLe(b.file, c.file) ==> LexLe(a.file, c.file);
    }
    forall a, b | PlaceLe(a, b) && PlaceLe(b, a)
      ensures a == b
    {
      assert LexLe(a.file, b.file) && LexLe(b.file, a.file) ==> a.file == b.file;
    }
  }

  /** One failing name's entry at each place it is used. */
  function Records(name: string, usages: seq<Usage>, reason: string): (r: seq<(Place, string)>)
    ensures |r| == |usages|
  {
    seq(|usages|, i requires 0 <= i < |usages| => (PlaceOf(usages[i]), Worded(name, usages[i].context, reason)))
  }

  type Failures = map<Place, seq<string>>

  method Record(failures: Failures, name: string, usages: seq<Usage>, reason: string, ghost before: seq<(Place, string)>)
    returns (more: Failures)
    requires failures == Grouped(before)
    ensures more == Grouped(before + Records(name, usages, reason))
  {
    more := failures;
    ghost var records := Records(name, usages, reason);
    assert before + records[..0] == before;
    for i := 0 to |usages|
      invariant more == Grouped(before + records[..i])
    {
      var place, entry := PlaceOf(usages[i]), Worded(name, usages[i].context, reason);
      GroupedPush(before + records[..i], place, entry);
      assert before + records[..i + 1] == before + records[..i] + [(place, entry)];
      more := more[place := (if place in more then more[place] else []) + [entry]];
    }
    assert records[..|usages|] == records;
  }

  /** The entries of every failing name of a list, where it is used. */
  function RecordsOf(list: seq<string>, names: Names, lookup: string -> Answer): seq<(Place, string)>
    requires forall n :: n in list ==> n in names
  {
    if list == [] then []
    else
      var n := list[|list| - 1];
      var trouble := Trouble(n, lookup);
      RecordsOf(list[..|list| - 1], names, lookup) + (if trouble.Some? then Records(n, names[n], trouble.value) else [])
  }

  /** A line the report has to have: a use of a name that cannot be resolved. */
  ghost predicate Complaint(l: ReportLine, names: Names, lookup: string -> Answer) {
    exists n, u :: n in names && u in names[n] && Complains(l, n, u, lookup)
  }

  ghost predicate Complains(l: ReportLine, n: string, u: Usage, lookup: string -> Answer) {
    var trouble := Trouble(n, lookup);
    trouble.Some? && l.place == Place(u.origin.file, u.origin.line) && l.entry == n + " (" + u.context + "): " + trouble.value
  }

  lemma RecordsAre(name: string, usages: seq<Usage>, reason: string, place: Place, entry: string)
    ensures (place, entry) in Records(name, usages, reason)
        <==> exists u :: u in usages && place == PlaceOf(u) && entry == Worded(name, u.context, reason)
  {
    var r := Records(name, usages, reason);
    if (place, entry) in r {
      var i :| 0 <= i < |r| && r[i] == (place, entry);
      assert usages[i] in usages;
    }
    if u :| u in usages && place == PlaceOf(u) && entry == Worded(name, u.context, reason) {
      var i :| 0 <= i < |usages| && usages[i] == u;
      assert r[i] == (place, entry);
    }
  }

  lemma {:induction false} RecordsOfAre(list: seq<string>, names: Names, lookup: string -> Answer, place: Place, entry: string)
    requires forall n :: n in list ==> n in names
    ensures (place, entry) in RecordsOf(list, names, lookup)
        <==> exists n, u :: n in list && u in names[n] && Complains(ReportLine(place, entry), n, u, lookup)
    decreases |list|
  {
    if list != [] {
      var n, shorter := list[|list| - 1], list[..|list| - 1];
      assert list == shorter + [n];
      RecordsOfAre(shorter, names, lookup, place, entry);
      var trouble := Trouble(n, lookup);
      if trouble.Some? {
        RecordsAre(n, names[n], trouble.value, place, entry);
      }
    }
  }

  /** By place, then by entry. */
  predicate LineLe(a: ReportLine, b: ReportLine) {
    if a.place == b.place then LexLe(a.entry, b.entry) else PlaceLe(a.place, b.place)
  }

  function Tagged(place: Place, entries: seq<string>): (r: seq<ReportLine>)
    ensures |r| == |entries|
  {
    seq(|entries|, i requires 0 <= i < |entries| => ReportLine(place, entries[i]))
  }

  lemma TaggedAre(place: Place, entries: set<string>)
    ensures Increasing(Tagged(place, Sorted(entries)), LineLe)
    ensures forall l :: l in Tagged(place, Sorted(entries)) <==> l.place == place && l.entry in entries
  {
    var sorted := Sorted(entries);
    SortedIsOrdered(entries);
    forall l: ReportLine | l.place == place && l.entry in entries
      ensures l in Tagged(place, sorted)
    {
      var i :| 0 <= i < |sorted| && sorted[i] == l.entry;
      assert Tagged(place, sorted)[i] == l;
    }
  }

  lemma IncreasingConcat(xs: seq<ReportLine>, ys: seq<ReportLine>)
    requires Increasing(xs, LineLe) && Increasing(ys, LineLe)
    requires forall x, y :: x in xs && y in ys ==> x != y && LineLe(x, y)
    ensures Increasing(xs + ys, LineLe)
  {
    forall i, j | 0 <= i < j < |xs + ys|
      ensures (xs + ys)[i] != (xs + ys)[j] && LineLe((xs + ys)[i], (xs + ys)[j])
    {
      if i < |xs| <= j {
        assert xs[i] in xs && ys[j - |xs|] in ys;
      }
    }
  }

  /** The lines of a later place go after those of the earlier ones. */
  lemma LaterPlace(report: seq<ReportLine>, places: seq<Place>, i: nat, lines: seq<ReportLine>)
    requires Increasing(places, PlaceLe) && i < |places| && Increasing(report, LineLe) && Increasing(lines, LineLe)
    requires (forall l :: l in report ==> l.place in places[..i]) && forall l :: l in lines ==> l.place == places[i]
    ensures Increasing(report + lines, LineLe)
  {
    assert forall p :: p in places[..i] ==> p != places[i] && PlaceLe(p, places[i]);
    IncreasingConcat(report, lines);
  }

  /** The collected failures in the order of the files, each place's entries sorted and without repetition. */
  method Report(failures: Failures) returns (report: seq<ReportLine>)
    ensures forall l :: l in report <==> l.place in failures && l.entry in failures[l.place]
    ensures Increasing(report, LineLe)
  {
    PlaceOrder();
    var places := InOrder(failures.Keys, PlaceLe);
    InOrderIncreases(failures.Keys, PlaceLe);
    report := [];
    for i := 0 to |places|
      invariant forall l :: l in report <==> l.place in places[..i] && l.entry in failures[l.place]
      invariant Increasing(report, LineLe)
    {
      var entries := set e | e in failures[places[i]];
      var lines := Tagged(places[i], Sorted(entries));
      TaggedAre(places[i], entries);
      OneMore(places, i);
      LaterPlace(report, places, i, lines);
      report := report + lines;
    }
    assert places[..|places|] == places;
  }

  type Addresses = map<string, seq<Address>>

  function AddressesOf(list: seq<string>, lookup: string -> Answer): Addresses {
    map n | n in list && Trouble(n, lookup).None? :: lookup(n).addresses
  }

  lemma RecordsStep(list: seq<string>, n: string, names: Names, lookup: string -> Answer)
    requires n in names && forall x :: x in list ==> x in names
    ensures var trouble := Trouble(n, lookup);
      RecordsOf(list + [n], names, lookup)
        == RecordsOf(list, names, lookup) + (if trouble.Some? then Records(n, names[n], trouble.value) else [])
  {
    assert (list + [n])[..|list|] == list;
  }

  lemma AddressesStep(list: seq<string>, n: string, lookup: string -> Answer)
    ensures AddressesOf(list + [n], lookup)
      == if Trouble(n, lookup).None? then AddressesOf(list, lookup)[n := lookup(n).addresses] else AddressesOf(list, lookup)
  {
  }

  method LookUp(list: seq<string>, names: Names, lookup: string -> Answer) returns (addrs: Addresses, failures: Failures)
    requires forall n :: n in list ==> n in names
    ensures addrs == AddressesOf(list, lookup)
    ensures failures == Grouped(RecordsOf(list, names, lookup))
  {
    addrs, failures := map[], map[];
    for i := 0 to |list|
      invariant addrs == AddressesOf(list[..i], lookup)
      invariant failures == Grouped(RecordsOf(list[..i], names, lookup))
    {
      var n := list[i];
      ghost var before := RecordsOf(list[..i], names, lookup);
      assert list[..i + 1] == list[..i] + [n];
      RecordsStep(list[..i], n, names, lookup);
      AddressesStep(list[..i], n, lookup);
      match Trouble(n, lookup)
      case None =>
        addrs := addrs[n := lookup(n).addresses];
        assert before + [] == before;
      case Some(reason) =>
        failures := Record(failures, n, names[n], reason, before);
    }
    assert list[..|list|] == list;
  }

  /** The names without an underscore after those with one, each group in order. */
  function Queue(names: Names): seq<string> {
    Sorted(set n | n in names && UndeclaredAlias(n)) + Sorted(set n | n in names && !UndeclaredAlias(n))
  }

  lemma FailuresAre(list: seq<string>, names: Names, lookup: string -> Answer)
    requires forall n :: n in list <==> n in names
    ensures var failures := Grouped(RecordsOf(list, names, lookup));
      && (forall l: ReportLine :: l.place in failures && l.entry in failures[l.place] <==> Complaint(l, names, lookup))
      && (failures == map[] <==> forall l :: !Complaint(l, names, lookup))
  {
    var records := RecordsOf(list, names, lookup);
    var failures := Grouped(records);
    forall l: ReportLine
      ensures l.place in failures && l.entry in failures[l.place] <==> Complaint(l, names, lookup)
    {
      UnderIn(records, l.place, l.entry);
      UnderAbsent(records, l.place);
      RecordsOfAre(list, names, lookup, l.place, l.entry);
    }
    if failures != map[] {
      var place :| place in failures;
      UnderAbsent(records, place);
      assert Complaint(ReportLine(place, failures[place][0]), names, lookup);
    }
  }

  /**
   Either every name used is resolved, or the report has exactly one line for every use of every
   name that is not, place by place.
   */
  method ResolveAll(names: Names, lookup: string -> Answer) returns (r: Result<Addresses, seq<ReportLine>>)
    ensures r.Ok? <==> forall l :: !Complaint(l, names, lookup)
    ensures r.Ok? ==> r.value == map n | n in names && Trouble(n, lookup).None? :: lookup(n).addresses
    ensures r.Err? ==> (forall l :: l in r.error <==> Complaint(l, names, lookup)) && Increasing(r.error, LineLe)
  {
    var list := Queue(names);
    var addrs, failures := LookUp(list, names, lookup);
    FailuresAre(list, names, lookup);
    if failures == map[] {
      return Ok(addrs);
    }
    var report := Report(failures);
    return Err(report);
  }

  // ---------- nothing is missed ----------

  lemma {:induction false} AllUsesAre(ds: seq<Decl>, aliases: set<string>, use: (string, Usage))
    ensures use in AllUses(ds, aliases) <==> exists d :: d in ds && use in UsesIn(d, aliases)
  {
    if ds != [] {
      AllUsesAre(ds[1..], aliases, use);
      assert ds == [ds[0]] + ds[1..];
    }
  }

  /** A word of the configuration only DNS can give a meaning to. */
  ghost predicate Needed(n: string, ds: seq<Decl>) {
    && n != "" && NameWord(n)
    && exists d :: d in ds && NeededBy(n, d, AliasNames(ds))
  }

  predicate NeededBy(n: string, d: Decl, aliases: set<string>) {
    match d
    case AliasIs(a) => a.host == n
    case RuleIs(r) => (r.src == n || r.dst == n) && n !in aliases
  }

  lemma NeededIsUsed(n: string, d: Decl, aliases: set<string>)
    requires n != "" && Classify(n).HostName? && NeededBy(n, d, aliases)
    ensures exists u :: (n, u) in UsesIn(d, aliases)
  {
    match d
    case AliasIs(a) =>
      assert UsesIn(d, aliases)[0] == (n, Usage("alias " + a.name, a.origin));
    case RuleIs(r) =>
      var context := if r.src == n then "rule source" else "rule destination";
      assert (n, Usage(context, r.origin)) in Reference(n, context, r.origin, aliases);
      assert (n, Usage(context, r.origin)) in UsesIn(d, aliases);
  }

  lemma UsedIsNeeded(n: string, u: Usage, d: Decl, aliases: set<string>)
    requires (n, u) in UsesIn(d, aliases)
    ensures n != "" && Classify(n).HostName? && NeededBy(n, d, aliases)
  {
  }

  /** The names looked up are exactly those needed, and each has a place to be reported at. */
  lemma CollectedAreNeeded(ds: seq<Decl>, n: string)
    ensures var names := Grouped(AllUses(ds, AliasNames(ds)));
      (n in names <==> Needed(n, ds)) && (n in names ==> names[n] != [])
  {
    var aliases := AliasNames(ds);
    var uses := AllUses(ds, aliases);
    Classified(n);
    UnderAbsent(uses, n);
    if n in KeysOf(uses) {
      var u := Under(uses, n)[0];
      UnderIn(uses, n, u);
      AllUsesAre(ds, aliases, (n, u));
      var d :| d in ds && (n, u) in UsesIn(d, aliases);
      UsedIsNeeded(n, u, d, aliases);
    }
    if Needed(n, ds) {
      var d :| d in ds && NeededBy(n, d, aliases);
      NeededIsUsed(n, d, aliases);
      var u :| (n, u) in UsesIn(d, aliases);
      AllUsesAre(ds, aliases, (n, u));
      UnderIn(uses, n, u);
    }
  }

  /** What resolving a whole configuration gives when it succeeds. */
  ghost predicate ResolvedFor(ds: seq<Decl>, lookup: string -> Answer, addrs: Addresses) {
    && (forall n :: n in addrs <==> Needed(n, ds))
    && (forall n :: n in addrs ==> lookup(n) == Found(addrs[n]) && addrs[n] != [])
  }

  lemma TroubleIsReported(n: string, names: Names, lookup: string -> Answer)
    requires n in names && names[n] != [] && Trouble(n, lookup).Some?
    ensures exists l :: Complaint(l, names, lookup)
  {
    var u := names[n][0];
    var l := ReportLine(PlaceOf(u), Worded(n, u.context, Trouble(n, lookup).value));
    assert u in names[n] && Complains(l, n, u, lookup);
    assert Complaint(l, names, lookup);
  }

  /** A name without an underscore is in trouble exactly when its lookup gives no address; one with an underscore always. */
  lemma TroubleIs(name: string, lookup: string -> Answer)
    ensures '_' !in name ==> (Trouble(name, lookup).None? <==> lookup(name).Found? && |lookup(name).addresses| > 0)
    ensures '_' in name ==> Trouble(name, lookup) == Some("no alias of this name is declared")
    ensures '_' !in name && lookup(name) == Found([]) ==> Trouble(name, lookup) == Some("no address")
    ensures '_' !in name && lookup(name).Failed? ==> Trouble(name, lookup) == Some(lookup(name).reason)
  {
  }

  /** Lines of the report are in the order of their files' characters, and of the line numbers within a file. */
  lemma ReportOrder(report: seq<ReportLine>, i: nat, j: nat)
    requires Increasing(report, LineLe) && i < j < |report|
    ensures var a, b := report[i].place, report[j].place;
      if a.file == b.file then a.line <= b.line else exists k :: PartsBefore(a.file, b.file, k)
  {
    var a, b := report[i].place, report[j].place;
    assert LineLe(report[i], report[j]);
    if a.file != b.file {
      var k := LessParts(a.file, b.file);
    }
  }

  /** A use is the host of an alias, or an endpoint that names no alias, and says which it is and where. */
  lemma UsageSays(d: Decl, aliases: set<string>, n: string, u: Usage)
    ensures (n, u) in UsesIn(d, aliases) <==> n != "" && NameWord(n) && match d
      case AliasIs(a) => n == a.host && u == Usage("alias " + a.name, a.origin)
      case RuleIs(r) =>
        n !in aliases && u.origin == r.origin
        && ((n == r.src && u.context == "rule source") || (n == r.dst && u.context == "rule destination"))
  {
    Classified(n);
    match d
    case AliasIs(a) =>
    case RuleIs(r) =>
      assert (n, u) in UsesIn(d, aliases) <==>
        (n, u) in Reference(r.src, "rule source", r.origin, aliases) || (n, u) in Reference(r.dst, "rule destination", r.origin, aliases);
  }

  /** When no line is to be reported, the names resolved are exactly those needed, each with an address. */
  lemma ResolutionIsTotal(ds: seq<Decl>, lookup: string -> Answer)
    requires var names := Grouped(AllUses(ds, AliasNames(ds))); forall l :: !Complaint(l, names, lookup)
    ensures var names := Grouped(AllUses(ds, AliasNames(ds)));
      ResolvedFor(ds, lookup, map n | n in names && Trouble(n, lookup).None? :: lookup(n).addresses)
  {
    var names := Grouped(AllUses(ds, AliasNames(ds)));
    forall n
      ensures n in names <==> Needed(n, ds)
      ensures n in names ==> Trouble(n, lookup).None?
    {
      CollectedAreNeeded(ds, n);
      if n in names && Trouble(n, lookup).Some? {
        TroubleIsReported(n, names, lookup);
      }
    }
  }

  /** So every endpoint of a rule is `any`, a literal, an alias, or resolved. */
  lemma EndpointsHaveMeaning(ds: seq<Decl>, lookup: string -> Answer, addrs: Addresses, r: RuleDecl, host: string)
    requires ResolvedFor(ds, lookup, addrs) && RuleIs(r) in ds && (host == r.src || host == r.dst) && host != ""
    ensures NameWord(host) ==> host in AliasNames(ds) || (host in addrs && addrs[host] != [])
  {
    if NameWord(host) && host !in AliasNames(ds) {
      assert NeededBy(host, RuleIs(r), AliasNames(ds));
    }
  }
}
