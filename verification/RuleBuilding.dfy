/** src/rules.rs: the rules of every chain, per family, from the rule declarations. */
module RuleBuilding {
  import opened Seqs
  import opened Text
  import opened Grouping
  import opened Netfilter
  import opened Declarations
  import opened Resolution
  import opened AliasSets
  import opened ChainNames
  import opened Quoting
  import opened Probing

  /** What a build works with: the sets and addresses, and the prefixes of chains and of sets. */
  datatype Env = Env(sets: ByName, addrs: Addresses, prefix: string, setPrefix: string)

  // ---------- endpoints ----------

  /** The length of the direction list in a match on a set of this kind. */
  function Dimensions(kind: SetType): nat {
    if kind.NetPort? then 2 else 1
  }

  /** The tests an endpoint comes to in a family: none for `any`, and None where it can match nothing. */
  function Endpoint(address: string, dir: Dir, f: Family, env: Env): Option<seq<Test>> {
    match Classify(address)
    case AnyHost => Some([])
    case Literal(literal) => if FamilyOf(literal) == f then Some([NetTest(dir, literal)]) else None
    case HostName(name) =>
      var s := Get(env.sets, name, f);
      if s.None? then None
      else Some([SetTest(env.setPrefix + s.value.name, seq(Dimensions(s.value.kind), _ => dir))])
  }

  function OfFamily(addresses: seq<Address>, f: Family): seq<string> {
    if addresses == [] then []
    else (if FamilyOf(addresses[0]) == f then [addresses[0]] else []) + OfFamily(addresses[1..], f)
  }

  /** A hostname becomes the addresses it has in this family; anything else stays. */
  function Expand(address: string, f: Family, addrs: Addresses): seq<string> {
    match Classify(address)
    case HostName(name) =>
      var all := AddressesFor(addrs, name);
      if all == [] then [address] else OfFamily(all, f)
    case _ => [address]
  }

  // ---------- tails ----------

  predicate Plus(arg: string) {
    arg != "" && arg[0] == '+'
  }

  /** The arguments of a tail with every `+chain` that follows a `-j` replaced. */
  function Replaced(tail: seq<string>, with: string -> string): (out: seq<string>)
    ensures |out| == |tail|
  {
    seq(|tail|, i requires 0 <= i < |tail| => if i > 0 && tail[i - 1] == "-j" && Plus(tail[i]) then with(tail[i]) else tail[i])
  }

  /** The argument before is a -j. */
  predicate AfterJump(tail: seq<string>, i: nat)
    requires i < |tail|
  {
    i > 0 && tail[i - 1] == "-j"
  }

  function Accept(): string -> string {
    (_: string) => "ACCEPT"
  }

  function Prefixed(prefix: string): string -> string {
    (arg: string) => prefix + arg
  }

  /** The tail with ACCEPT for every `+chain` target: options, and other targets, are kept. */
  method ProbeTail(tail: seq<string>) returns (out: seq<string>)
    ensures out == Replaced(tail, Accept())
    ensures |out| == |tail| && forall i :: 0 <= i < |tail| ==> out[i] == if AfterJump(tail, i) && "+" <= tail[i] then "ACCEPT" else tail[i]
  {
    out := [];
    var expectTarget := false;
    for i := 0 to |tail|
      invariant out == Replaced(tail, Accept())[..i]
      invariant expectTarget == (i > 0 && tail[i - 1] == "-j")
    {
      if expectTarget && Plus(tail[i]) {
        out := out + ["ACCEPT"];
      } else {
        out := out + [tail[i]];
      }
      expectTarget := tail[i] == "-j";
    }
  }

  /** The tail with `-j +chain` naming the candidate chain. */
  method RewriteTargets(tail: seq<string>, prefix: string) returns (out: seq<string>)
    ensures out == Replaced(tail, Prefixed(prefix))
    ensures |out| == |tail| && forall i :: 0 <= i < |tail| ==> out[i] == if AfterJump(tail, i) && "+" <= tail[i] then prefix + tail[i] else tail[i]
  {
    out := [];
    var expectTarget := false;
    for i := 0 to |tail|
      invariant out == Replaced(tail, Prefixed(prefix))[..i]
      invariant expectTarget == (i > 0 && tail[i - 1] == "-j")
    {
      if expectTarget && Plus(tail[i]) {
        out := out + [prefix + tail[i]];
      } else {
        out := out + [tail[i]];
      }
      expectTarget := tail[i] == "-j";
    }
  }

  // ---------- rules ----------

  /** A rule as built: its endpoint matches and its rewritten tail. */
  datatype Line = Line(tests: seq<Test>, tail: seq<string>)
  datatype Key = Key(family: Family, table: string, chain: string)

  /** The rule for one pair of endpoints, if the pair can exist. */
  function PairLines(src: string, dst: string, tail: seq<string>, f: Family, env: Env): seq<Line> {
    var s, d := Endpoint(src, Src, f, env), Endpoint(dst, Dst, f, env);
    if s.None? || d.None? then [] else [Line(s.value + d.value, tail)]
  }

  function RowLines(src: string, dsts: seq<string>, tail: seq<string>, f: Family, env: Env): seq<Line> {
    if dsts == [] then []
    else RowLines(src, dsts[..|dsts| - 1], tail, f, env) + PairLines(src, dsts[|dsts| - 1], tail, f, env)
  }

  function CrossLines(srcs: seq<string>, dsts: seq<string>, tail: seq<string>, f: Family, env: Env): seq<Line> {
    if srcs == [] then []
    else CrossLines(srcs[..|srcs| - 1], dsts, tail, f, env) + RowLines(srcs[|srcs| - 1], dsts, tail, f, env)
  }

  /** All the rules one declaration makes for one family. */
  function LinesFor(r: RuleDecl, f: Family, env: Env): seq<Line> {
    CrossLines(Expand(r.src, f, env.addrs), Expand(r.dst, f, env.addrs), Replaced(r.tail, Prefixed(env.prefix)), f, env)
  }

  function Tag(key: Key, lines: seq<Line>): (r: seq<(Key, Line)>)
    ensures |r| == |lines|
  {
    seq(|lines|, i requires 0 <= i < |lines| => (key, lines[i]))
  }

  function FamilyItems(r: RuleDecl, chain: string, families: seq<Family>, env: Env): seq<(Key, Line)> {
    if families == [] then []
    else
      var f := families[|families| - 1];
      FamilyItems(r, chain, families[..|families| - 1], env) + Tag(Key(f, r.table, chain), LinesFor(r, f, env))
  }

  /** Which families take a tail in a table. */
  type Probe = (string, seq<string>) -> seq<Family>

  /** Why a rule cannot be built, if it cannot. */
  function NameTrouble(r: RuleDecl, env: Env): Option<NameError> {
    var name := ChainName(r.chain, r.origin);
    if name.Err? then Some(name.error) else CheckLength(name.value, env.prefix, r.origin)
  }

  function RuleItems(r: RuleDecl, env: Env, probe: Probe): seq<(Key, Line)> {
    if NameTrouble(r, env).Some? then []
    else FamilyItems(r, ChainName(r.chain, r.origin).value, probe(r.table, Replaced(r.tail, Accept())), env)
  }

  function AllRules(ds: seq<Decl>, env: Env, probe: Probe): seq<(Key, Line)> {
    if ds == [] then []
    else AllRules(ds[..|ds| - 1], env, probe) + if ds[|ds| - 1].RuleIs? then RuleItems(ds[|ds| - 1].rule, env, probe) else []
  }

  type Ruleset = map<Key, seq<Line>>

  lemma TagPush(key: Key, lines: seq<Line>, l: Line)
    ensures Tag(key, lines + [l]) == Tag(key, lines) + [(key, l)]
  {
  }

  /** One rule pushed to its chain. */
  lemma OnePushed(before: seq<(Key, Line)>, key: Key, lines: seq<Line>, l: Line)
    ensures var out := Grouped(before + Tag(key, lines));
      Grouped(before + Tag(key, lines + [l])) == out[key := (if key in out then out[key] else []) + [l]]
  {
    TagPush(key, lines, l);
    assert before + (Tag(key, lines) + [(key, l)]) == before + Tag(key, lines) + [(key, l)];
    GroupedPush(before + Tag(key, lines), key, l);
  }

  /** The rules of one source against every destination. */
  method AddRow(out: Ruleset, key: Key, src: string, dsts: seq<string>, tail: seq<string>, env: Env,
                ghost before: seq<(Key, Line)>, ghost done: seq<Line>) returns (more: Ruleset)
    requires out == Grouped(before + Tag(key, done))
    ensures more == Grouped(before + Tag(key, done + RowLines(src, dsts, tail, key.family, env)))
  {
    more := out;
    assert done + RowLines(src, dsts[..0], tail, key.family, env) == done;
    for j := 0 to |dsts|
      invariant more == Grouped(before + Tag(key, done + RowLines(src, dsts[..j], tail, key.family, env)))
    {
      ghost var sofar := done + RowLines(src, dsts[..j], tail, key.family, env);
      OneMore(dsts, j);
      var s, d := Endpoint(src, Src, key.family, env), Endpoint(dsts[j], Dst, key.family, env);
      if s.Some? && d.Some? {
        var l := Line(s.value + d.value, tail);
        OnePushed(before, key, sofar, l);
        assert done + RowLines(src, dsts[..j + 1], tail, key.family, env) == sofar + [l];
        more := more[key := (if key in more then more[key] else []) + [l]];
      } else {
        assert done + RowLines(src, dsts[..j + 1], tail, key.family, env) == sofar;
      }
    }
    assert dsts[..|dsts|] == dsts;
  }

  /** The rules of one family: every source variant against every destination variant. */
  method AddFamily(out: Ruleset, key: Key, r: RuleDecl, tail: seq<string>, env: Env, ghost before: seq<(Key, Line)>)
    returns (more: Ruleset)
    requires out == Grouped(before) && tail == Replaced(r.tail, Prefixed(env.prefix))
    ensures more == Grouped(before + Tag(key, LinesFor(r, key.family, env)))
  {
    var srcs, dsts := Expand(r.src, key.family, env.addrs), Expand(r.dst, key.family, env.addrs);
    more := out;
    assert before + Tag(key, []) == before;
    for i := 0 to |srcs|
      invariant more == Grouped(before + Tag(key, CrossLines(srcs[..i], dsts, tail, key.family, env)))
    {
      OneMore(srcs, i);
      more := AddRow(more, key, srcs[i], dsts, tail, env, before, CrossLines(srcs[..i], dsts, tail, key.family, env));
    }
    assert srcs[..|srcs|] == srcs;
  }

  /** One declaration, for each family its tail is good for. */
  method AddRule(out: Ruleset, r: RuleDecl, chain: string, families: seq<Family>, env: Env, ghost before: seq<(Key, Line)>)
    returns (more: Ruleset)
    requires out == Grouped(before)
    ensures more == Grouped(before + FamilyItems(r, chain, families, env))
  {
    var tail := RewriteTargets(r.tail, env.prefix);
    more := out;
    assert before + [] == before;
    for i := 0 to |families|
      invariant more == Grouped(before + FamilyItems(r, chain, families[..i], env))
    {
      OneMore(families, i);
      ghost var done := FamilyItems(r, chain, families[..i], env);
      var key := Key(families[i], r.table, chain);
      more := AddFamily(more, key, r, tail, env, before + done);
      Associative(before, done, Tag(key, LinesFor(r, key.family, env)));
    }
    assert families[..|families|] == families;
  }

  // ---------- families ----------

  /** An address stands only under the family its colons tell. */
  ghost predicate RightFamily(f: Family, l: Line) {
    forall t :: t in l.tests && t.NetTest? ==> (f == V6 <==> ':' in t.network)
  }

  lemma PairFamily(src: string, dst: string, tail: seq<string>, f: Family, env: Env, l: Line)
    requires l in PairLines(src, dst, tail, f, env)
    ensures RightFamily(f, l)
  {
  }

  lemma LineFamily(r: RuleDecl, f: Family, env: Env, l: Line)
    requires l in LinesFor(r, f, env)
    ensures RightFamily(f, l)
  {
    var srcs, dsts, tail := Expand(r.src, f, env.addrs), Expand(r.dst, f, env.addrs), Replaced(r.tail, Prefixed(env.prefix));
    CrossAre(srcs, dsts, tail, f, env, l);
    var s, d :| s in srcs && d in dsts && l in PairLines(s, d, tail, f, env);
    PairFamily(s, d, tail, f, env, l);
  }

  lemma {:induction false} FamilyItemsFamily(r: RuleDecl, chain: string, families: seq<Family>, env: Env, key: Key, l: Line)
    requires (key, l) in FamilyItems(r, chain, families, env)
    ensures RightFamily(key.family, l)
    decreases |families|
  {
    var shorter, f := families[..|families| - 1], families[|families| - 1];
    if (key, l) in FamilyItems(r, chain, shorter, env) {
      FamilyItemsFamily(r, chain, shorter, env, key, l);
    } else {
      LineFamily(r, f, env, l);
    }
  }

  lemma {:induction false} AllRulesFamily(ds: seq<Decl>, env: Env, probe: Probe, key: Key, l: Line)
    requires (key, l) in AllRules(ds, env, probe)
    ensures RightFamily(key.family, l)
    decreases |ds|
  {
    var shorter, d := ds[..|ds| - 1], ds[|ds| - 1];
    if (key, l) in AllRules(shorter, env, probe) {
      AllRulesFamily(shorter, env, probe, key, l);
    } else {
      FamilyItemsFamily(d.rule, ChainName(d.rule.chain, d.rule.origin).value, probe(d.rule.table, Replaced(d.rule.tail, Accept())), env, key, l);
    }
  }

  ghost predicate FamiliesApart(rs: Ruleset) {
    forall key, l :: key in rs && l in rs[key] ==> RightFamily(key.family, l)
  }

  lemma BuiltFamiliesApart(ds: seq<Decl>, env: Env, probe: Probe)
    ensures FamiliesApart(Grouped(AllRules(ds, env, probe)))
  {
    var items := AllRules(ds, env, probe);
    forall key, l | key in Grouped(items) && l in Grouped(items)[key]
      ensures RightFamily(key.family, l)
    {
      UnderIn(items, key, l);
      AllRulesFamily(ds, env, probe, key, l);
    }
  }

  // ---------- asking the prober ----------

  /** What the prober is asked about a rule. */
  function QuestionOf(r: RuleDecl): (string, seq<string>) {
    (r.table, Replaced(r.tail, Accept()))
  }

  ghost predicate SameAnswers(ds: seq<Decl>, p: Probe, q: Probe) {
    forall d :: d in ds && d.RuleIs? ==> var x := QuestionOf(d.rule); p(x.0, x.1) == q(x.0, x.1)
  }

  /** Only the answers to the questions asked matter. */
  lemma {:induction false} OnlyAnswersMatter(ds: seq<Decl>, env: Env, p: Probe, q: Probe)
    requires SameAnswers(ds, p, q)
    ensures AllRules(ds, env, p) == AllRules(ds, env, q)
    decreases |ds|
  {
    if ds != [] {
      OnlyAnswersMatter(ds[..|ds| - 1], env, p, q);
      assert ds[|ds| - 1] in ds;
    }
  }

  /** Every question these declarations raise is remembered, or was asked of a prober that cannot probe. */
  ghost predicate Answerable(ds: seq<Decl>, cache: Cache) {
    forall d :: d in ds && d.RuleIs? ==> QuestionOf(d.rule) in cache
  }

  /** Asking more does not change what was answered. */
  lemma MoreAnswers(ds: seq<Decl>, earlier: Cache, later: Cache, x: (string, seq<string>))
    requires Answerable(ds, earlier) && x !in earlier && later.Keys == earlier.Keys + {x} && forall k :: k in earlier ==> later[k] == earlier[k]
    ensures SameAnswers(ds, Answered(earlier), Answered(later)) && Answerable(ds, later)
  {
  }

  /** No rule has a chain that cannot be named. */
  ghost predicate AllNamed(ds: seq<Decl>, env: Env) {
    forall d :: d in ds && d.RuleIs? ==> NameTrouble(d.rule, env).None?
  }

  /** The families a rule is good for, with the prober's answers to the declarations before it unchanged. */
  method Ask(prober: Prober, r: RuleDecl, env: Env, ghost ds: seq<Decl>) returns (families: seq<Family>)
    requires prober.Valid() && (prober.degraded || Answerable(ds, prober.cache))
    modifies prober`cache, prober`prepared, prober`degraded, prober.binaries`scratch, prober.binaries`asked
    ensures prober.Valid()
    ensures families == Answered(prober.cache)(r.table, Replaced(r.tail, Accept()))
    ensures prober.degraded || Answerable(ds + [RuleIs(r)], prober.cache)
    ensures AllRules(ds, env, Answered(prober.cache)) == AllRules(ds, env, Answered(old(prober.cache)))
  {
    var tail := ProbeTail(r.tail);
    ghost var before := prober.cache;
    families := prober.FamiliesFor(r.table, tail);
    if prober.cache != before {
      MoreAnswers(ds, before, prober.cache, QuestionOf(r));
      OnlyAnswersMatter(ds, env, Answered(before), Answered(prober.cache));
    }
  }

  /**
   Each chain gets exactly the rules its declarations make, from all files, in declaration order;
   or else the first rule whose chain cannot be named is reported.
   */
  method Build(ds: seq<Decl>, env: Env, prober: Prober) returns (r: Result<Ruleset, NameError>)
    requires prober.Valid()
    modifies prober`cache, prober`prepared, prober`degraded, prober.binaries`scratch, prober.binaries`asked
    ensures prober.Valid()
    ensures r.Ok? <==> AllNamed(ds, env)
    ensures r.Ok? ==> r.value == Grouped(AllRules(ds, env, Answered(prober.cache))) && (prober.degraded || Answerable(ds, prober.cache))
    ensures r.Ok? ==> FamiliesApart(r.value)
    ensures r.Err? ==> exists i :: 0 <= i < |ds| && AllNamed(ds[..i], env) && ds[i].RuleIs? && NameTrouble(ds[i].rule, env) == Some(r.error)
  {
    var out: Ruleset := map[];
    for i := 0 to |ds|
      invariant prober.Valid() && (prober.degraded || Answerable(ds[..i], prober.cache))
      invariant AllNamed(ds[..i], env) && out == Grouped(AllRules(ds[..i], env, Answered(prober.cache)))
    {
      assert ds[..i + 1] == ds[..i] + [ds[i]] && ds[..i + 1][..i] == ds[..i];
      if ds[i].RuleIs? {
        var rule := ds[i].rule;
        var chain := ChainName(rule.chain, rule.origin);
        if chain.Err? {
          return Err(chain.error);
        }
        var long := CheckLength(chain.value, env.prefix, rule.origin);
        if long.Some? {
          return Err(long.value);
        }
        var families := Ask(prober, rule, env, ds[..i]);
        out := AddRule(out, rule, chain.value, families, env, AllRules(ds[..i], env, Answered(prober.cache)));
      } else {
        assert forall probe: Probe :: AllRules(ds[..i], env, probe) + [] == AllRules(ds[..i], env, probe);
      }
    }
    assert ds[..|ds|] == ds;
    BuiltFamiliesApart(ds, env, Answered(prober.cache));
    return Ok(out);
  }

  lemma {:induction false} RowAre(src: string, dsts: seq<string>, tail: seq<string>, f: Family, env: Env, l: Line)
    ensures l in RowLines(src, dsts, tail, f, env) <==> exists d :: d in dsts && l in PairLines(src, d, tail, f, env)
  {
    if dsts != [] {
      var shorter, last := dsts[..|dsts| - 1], dsts[|dsts| - 1];
      RowAre(src, shorter, tail, f, env, l);
      assert dsts == shorter + [last];
    }
  }

  /** The cross product: a rule for every pair that can exist, and no other. */
  lemma {:induction false} CrossAre(srcs: seq<string>, dsts: seq<string>, tail: seq<string>, f: Family, env: Env, l: Line)
    ensures l in CrossLines(srcs, dsts, tail, f, env)
      <==> exists s, d :: s in srcs && d in dsts && l in PairLines(s, d, tail, f, env)
  {
    if srcs != [] {
      var shorter, last := srcs[..|srcs| - 1], srcs[|srcs| - 1];
      CrossAre(shorter, dsts, tail, f, env, l);
      RowAre(last, dsts, tail, f, env, l);
      assert srcs == shorter + [last];
      if s, d :| s in srcs && d in dsts && l in PairLines(s, d, tail, f, env) {
        assert l in CrossLines(shorter, dsts, tail, f, env) || l in RowLines(last, dsts, tail, f, env);
      }
    }
  }
}
