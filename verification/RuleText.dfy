/** A rule as it is spelled on its line of the stream, and read back. */
module RuleText {
  import opened Text
  import opened Netfilter
  import opened Declarations
  import opened Resolution
  import opened AliasSets
  import opened Quoting
  import opened RuleBuilding

  function DirText(dir: Dir): string {
    if dir.Src? then "src" else "dst"
  }

  function DirsText(dirs: seq<Dir>): string {
    if dirs == [] then "" else if |dirs| == 1 then DirText(dirs[0]) else DirText(dirs[0]) + "," + DirsText(dirs[1..])
  }

  /** The words of an endpoint match. */
  function TestWords(t: Test): seq<string> {
    match t
    case NetTest(dir, network) => [if dir.Src? then "-s" else "-d", network]
    case SetTest(name, dirs) => ["-m", "set", "--match-set", name, DirsText(dirs)]
  }

  /** The same as `endpoint` formats it, unquoted. */
  function TestText(t: Test): string {
    match t
    case NetTest(dir, network) => (if dir.Src? then "-s" else "-d") + " " + network
    case SetTest(name, dirs) => "-m" + " " + "set" + " " + "--match-set" + " " + name + " " + DirsText(dirs)
  }

  function AllWords(tests: seq<Test>): seq<string> {
    if tests == [] then [] else AllWords(tests[..|tests| - 1]) + TestWords(tests[|tests| - 1])
  }

  function AllText(tests: seq<Test>): string {
    if tests == [] then "" else AllText(tests[..|tests| - 1]) + TestText(tests[|tests| - 1]) + " "
  }

  /** What is pushed for a rule: the endpoints, the quoted tail, and no space at the end. */
  function LineText(l: Line): string {
    TrimEnd(AllText(l.tests) + Spelled(l.tail))
  }

  /** The arguments the rule is meant to have. */
  function Words(l: Line): seq<string> {
    AllWords(l.tests) + l.tail
  }

  /** An endpoint that needs no quoting: the network or set name holds no space, tab or quote. */
  predicate Plain(t: Test) {
    match t
    case NetTest(_, network) => Bare(network)
    case SetTest(name, dirs) => Bare(name) && dirs != []
  }

  lemma {:induction false} SpelledConcat(xs: seq<string>, ys: seq<string>)
    ensures Spelled(xs + ys) == Spelled(xs) + Spelled(ys)
    decreases |ys|
  {
    if ys == [] {
      assert xs + ys == xs;
    } else {
      var shorter, last := ys[..|ys| - 1], ys[|ys| - 1];
      assert (xs + ys)[..|xs + ys| - 1] == xs + shorter && (xs + ys)[|xs + ys| - 1] == last;
      SpelledConcat(xs, shorter);
      assert Spelled(xs) + Spelled(shorter) + Quote(last) + " " == Spelled(xs) + (Spelled(shorter) + Quote(last) + " ");
    }
  }

  lemma SpelledOne(word: string)
    requires Bare(word)
    ensures Spelled([word]) == word + " "
  {
    assert [word][..0] == [];
  }

  lemma {:induction false} DirsAreBare(dirs: seq<Dir>)
    requires dirs != []
    ensures Bare(DirsText(dirs)) && '\n' !in DirsText(dirs)
  {
    if |dirs| > 1 {
      DirsAreBare(dirs[1..]);
    }
  }

  lemma TestSpelled(t: Test)
    requires Plain(t)
    ensures Spelled(TestWords(t)) == TestText(t) + " "
  {
    match t
    case NetTest(dir, network) =>
      var flag := if dir.Src? then "-s" else "-d";
      SpelledOne(flag);
      SpelledOne(network);
      SpelledConcat([flag], [network]);
    case SetTest(name, dirs) =>
      DirsAreBare(dirs);
      SetSpelled(name, DirsText(dirs));
  }

  lemma SetSpelled(name: string, dirs: string)
    requires Bare(name) && Bare(dirs)
    ensures Spelled(["-m", "set", "--match-set", name, dirs]) == "-m" + " " + "set" + " " + "--match-set" + " " + name + " " + dirs + " "
  {
    ThreeSpelled("-m", "set", "--match-set");
    var flags := ["-m", "set", "--match-set"];
    SpelledPush(flags, name);
    SpelledPush(flags + [name], dirs);
    assert flags + [name] + [dirs] == ["-m", "set", "--match-set", name, dirs];
  }

  lemma SpelledPush(words: seq<string>, word: string)
    requires Bare(word)
    ensures Spelled(words + [word]) == Spelled(words) + word + " "
  {
    assert (words + [word])[..|words|] == words;
  }

  lemma ThreeSpelled(a: string, b: string, c: string)
    requires Bare(a) && Bare(b) && Bare(c)
    ensures Spelled([a, b, c]) == a + " " + b + " " + c + " "
  {
    SpelledOne(a);
    SpelledPush([a], b);
    SpelledPush([a, b], c);
    assert [a] + [b] == [a, b] && [a, b] + [c] == [a, b, c];
  }

  lemma {:induction false} AllSpelled(tests: seq<Test>)
    requires forall t :: t in tests ==> Plain(t)
    ensures Spelled(AllWords(tests)) == AllText(tests)
  {
    if tests != [] {
      var shorter, last := tests[..|tests| - 1], tests[|tests| - 1];
      AllSpelled(shorter);
      TestSpelled(last);
      SpelledConcat(AllWords(shorter), TestWords(last));
      assert AllText(shorter) + (TestText(last) + " ") == AllText(shorter) + TestText(last) + " ";
    }
  }

  /**
   With plain endpoints, iptables-restore reads from a rule's line exactly the endpoint words
   followed by the rewritten tail, unless the last of them is a bare word that trimming shortens.
   */
  lemma RuleRoundTrip(l: Line)
    requires (forall t :: t in l.tests ==> Plain(t)) && forall w :: w in Words(l) ==> '\n' !in w
    ensures WordsOf(LineText(l)) == Words(l) <==> Words(l) == [] || Survives(Words(l)[|Words(l)| - 1])
  {
    AllSpelled(l.tests);
    SpelledConcat(AllWords(l.tests), l.tail);
    LineRoundTrip(Words(l));
  }

  // ---------- the rules built ----------

  predicate Spaceless(s: string) {
    ' ' !in s && '"' !in s && '\t' !in s
  }

  lemma {:induction false} OfFamilyIn(addresses: seq<Address>, f: Family, a: string)
    ensures a in OfFamily(addresses, f) <==> a in addresses && FamilyOf(a) == f
  {
    if addresses != [] {
      OfFamilyIn(addresses[1..], f, a);
      assert addresses == [addresses[0]] + addresses[1..];
    }
  }

  lemma AddressIsBare(a: Address)
    ensures Bare(a)
  {
    assert forall c :: c in a ==> Digit(c) || 'a' <= c <= 'f' || c == '.' || c == ':';
  }

  lemma ExpandedIsBare(address: string, f: Family, addrs: Addresses, one: string)
    requires Bare(address) && one in Expand(address, f, addrs)
    ensures Bare(one)
  {
    if Classify(address).HostName? && AddressesFor(addrs, address) != [] {
      OfFamilyIn(AddressesFor(addrs, address), f, one);
      AddressIsBare(one);
    }
  }

  lemma EndpointIsPlain(address: string, dir: Dir, f: Family, env: Env, t: Test)
    requires Bare(address) && Spaceless(env.setPrefix) && (forall k :: k in env.sets ==> env.sets[k].name == k)
    requires Endpoint(address, dir, f, env).Some? && t in Endpoint(address, dir, f, env).value
    ensures Plain(t)
  {
    if Classify(address).HostName? {
      var name := env.setPrefix + SetName(address, f);
      assert forall c :: c in name ==> c in env.setPrefix || c in SetName(address, f);
      assert forall c :: c in SetName(address, f) ==> c in address || c in V6_SUFFIX;
    }
  }

  /** Endpoints written without spaces, tabs and quotes stay so, whatever they expand to. */
  lemma BuiltRulesArePlain(r: RuleDecl, f: Family, env: Env, l: Line, t: Test)
    requires Bare(r.src) && Bare(r.dst) && Spaceless(env.setPrefix) && (forall k :: k in env.sets ==> env.sets[k].name == k)
    requires l in LinesFor(r, f, env) && t in l.tests
    ensures Plain(t)
  {
    var srcs, dsts, tail := Expand(r.src, f, env.addrs), Expand(r.dst, f, env.addrs), Replaced(r.tail, Prefixed(env.prefix));
    CrossAre(srcs, dsts, tail, f, env, l);
    var s, d :| s in srcs && d in dsts && l in PairLines(s, d, tail, f, env);
    ExpandedIsBare(r.src, f, env.addrs, s);
    ExpandedIsBare(r.dst, f, env.addrs, d);
    var src, dst := Endpoint(s, Src, f, env), Endpoint(d, Dst, f, env);
    if t in src.value {
      EndpointIsPlain(s, Src, f, env, t);
    } else {
      EndpointIsPlain(d, Dst, f, env, t);
    }
  }
}
