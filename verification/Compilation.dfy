/** Whole chains: walking what was compiled decides every packet as reading the declarations does. */
module Compilation {
  import opened Text
  import opened Grouping
  import opened Netfilter
  import opened Declarations
  import opened Resolution
  import opened AliasSets
  import opened ChainNames
  import opened RuleBuilding
  import opened RuleText
  import opened Meaning

  // ---------- the rules of one chain ----------

  /** Whether a declaration is for this chain of this table, for this family. */
  predicate DeclaredFor(r: RuleDecl, key: Key, env: Env, probe: Probe) {
    && NameTrouble(r, env).None? && r.table == key.table && ChainName(r.chain, r.origin) == Ok(key.chain)
    && key.family in probe(r.table, Replaced(r.tail, Accept()))
  }

  /** The declarations of one chain, across all files, in order. */
  function DeclarationsOf(ds: seq<Decl>, key: Key, env: Env, probe: Probe): seq<RuleDecl> {
    if ds == [] then []
    else DeclarationsOf(ds[..|ds| - 1], key, env, probe)
         + var d := ds[|ds| - 1]; if d.RuleIs? && DeclaredFor(d.rule, key, env, probe) then [d.rule] else []
  }

  function LinesOfAll(rs: seq<RuleDecl>, f: Family, env: Env): seq<Line> {
    if rs == [] then [] else LinesOfAll(rs[..|rs| - 1], f, env) + LinesFor(rs[|rs| - 1], f, env)
  }

  /** A probe names a family once at most. */
  ghost predicate OnceEach(families: seq<Family>) {
    forall i, j :: 0 <= i < j < |families| ==> families[i] != families[j]
  }

  ghost predicate ProbesOnce(probe: Probe) {
    forall table, tail :: OnceEach(probe(table, tail))
  }

  lemma {:induction false} UnderTag(key: Key, lines: seq<Line>, k: Key)
    ensures Under(Tag(key, lines), k) == if k == key then lines else []
    decreases |lines|
  {
    if lines != [] {
      assert Tag(key, lines)[1..] == Tag(key, lines[1..]);
      UnderTag(key, lines[1..], k);
      assert [lines[0]] + lines[1..] == lines;
    }
  }

  lemma {:induction false} UnderFamilies(r: RuleDecl, chain: string, families: seq<Family>, env: Env, key: Key)
    requires OnceEach(families)
    ensures Under(FamilyItems(r, chain, families, env), key)
      == if r.table == key.table && chain == key.chain && key.family in families then LinesFor(r, key.family, env) else []
    decreases |families|
  {
    if families != [] {
      var shorter, f := families[..|families| - 1], families[|families| - 1];
      assert families == shorter + [f] && f !in shorter;
      UnderFamilies(r, chain, shorter, env, key);
      UnderConcat(FamilyItems(r, chain, shorter, env), Tag(Key(f, r.table, chain), LinesFor(r, f, env)), key);
      UnderTag(Key(f, r.table, chain), LinesFor(r, f, env), key);
    }
  }

  /** Each chain built holds the expansions of its own declarations, one after another. */
  lemma {:induction false} ChainsHoldTheirDeclarations(ds: seq<Decl>, key: Key, env: Env, probe: Probe)
    requires ProbesOnce(probe)
    ensures Under(AllRules(ds, env, probe), key) == LinesOfAll(DeclarationsOf(ds, key, env, probe), key.family, env)
    decreases |ds|
  {
    if ds != [] {
      var shorter, d := ds[..|ds| - 1], ds[|ds| - 1];
      var before := DeclarationsOf(shorter, key, env, probe);
      ChainsHoldTheirDeclarations(shorter, key, env, probe);
      var items := if d.RuleIs? then RuleItems(d.rule, env, probe) else [];
      UnderConcat(AllRules(shorter, env, probe), items, key);
      if d.RuleIs? && NameTrouble(d.rule, env).None? {
        var chain, families := ChainName(d.rule.chain, d.rule.origin).value, probe(d.rule.table, Replaced(d.rule.tail, Accept()));
        UnderFamilies(d.rule, chain, families, env, key);
      }
      if d.RuleIs? && DeclaredFor(d.rule, key, env, probe) {
        assert (before + [d.rule])[..|before|] == before;
      } else {
        assert before + [] == before;
      }
    }
  }

  // ---------- reading the declarations directly ----------

  /**
   A configuration as it is read: the declarations, what names resolve to, and the kernel it is
   for, whose chains a target word may name too.
   */
  datatype Config = Config(ds: seq<Decl>, env: Env, probe: Probe, targets: Targets, kernel: Chains, sets: Sets)

  /** First match decides. A `+chain` target goes on with the declarations of that chain. */
  ghost function Reading(c: Config, key: Key, rs: seq<RuleDecl>, p: Packet, depth: nat): Outcome
    decreases depth, |rs|
  {
    if rs == [] then Through
    else
      var o := if DeclHit(rs[0], c.ds, c.env.addrs, key.family, p) then ReadTarget(c, key, TargetWord(rs[0].tail), p, depth) else Through;
      if o.Through? then Reading(c, key, rs[1..], p, depth) else o
  }

  /** What a matching rule does. */
  ghost function ReadTarget(c: Config, key: Key, word: Option<string>, p: Packet, depth: nat): Outcome
    decreases depth, 0
  {
    if word.None? then Through
    else if Plus(word.value) then
      if depth == 0 then Deep
      else
        var next := Key(key.family, key.table, word.value);
        Ended(Reading(c, next, DeclarationsOf(c.ds, next, c.env, c.probe), p, depth - 1))
    else Act(c.kernel, c.sets, c.targets(word.value), p, depth)
  }

  /** RETURN and running off the end of a chain are the same to the rule that jumped. */
  function Ended(o: Outcome): Outcome {
    if o.Returned? then Through else o
  }

  /** What a matching rule with this target does to a walk: `Through` goes on. */
  ghost function Act(c: Chains, sets: Sets, target: Target, p: Packet, depth: nat): Outcome {
    match target
    case Verdict(v) => Decided(v)
    case Return => Returned
    case Continue => Through
    case Jump(n) => if depth == 0 then Deep else Descend(c, sets, n, p, depth)
  }

  // ---------- walking a block of rules ----------

  ghost predicate SomeHit(rs: seq<Rule>, sets: Sets, p: Packet) {
    exists r :: r in rs && Hit(r, sets, p)
  }

  /** Several rules with one target act as one: whether any of them matches is all that counts. */
  lemma {:induction false} BlockWalk(c: Chains, sets: Sets, block: seq<Rule>, rest: seq<Rule>, target: Target, p: Packet, depth: nat)
    requires forall r :: r in block ==> r.target == target
    ensures Walk(c, sets, block + rest, p, depth)
      == (var o := if SomeHit(block, sets, p) then Act(c, sets, target, p, depth) else Through;
          if o.Through? then Walk(c, sets, rest, p, depth) else o)
    decreases |block|
  {
    if block == [] {
      assert block + rest == rest;
    } else {
      assert (block + rest)[1..] == block[1..] + rest;
      assert block == [block[0]] + block[1..];
      BlockWalk(c, sets, block[1..], rest, target, p, depth);
    }
  }

  // ---------- the theorem ----------

  /** How the kernel takes the target words of compiled rules. */
  function Compiled(targets: Targets, prefix: string): Targets {
    (word: string) => if prefix + "+" <= word then Jump(word) else targets(word)
  }

  function RowOf(c: Chains, n: Name): seq<Rule> {
    if n in c then c[n] else []
  }

  /** The name of a built chain; the delegates come later. */
  predicate Ordinary(name: string) {
    name != "" && !("delegate_" <= name)
  }

  /** The kernel holds, under its candidate name, every chain built for the family's table. */
  ghost predicate ChainsLoaded(c: Config, f: Family, table: string) {
    forall name: string :: Ordinary(name) ==>
      RowOf(c.kernel, c.env.prefix + name)
        == RulesOf(Under(AllRules(c.ds, c.env, c.probe), Key(f, table, name)), Compiled(c.targets, c.env.prefix))
  }

  /** Endpoints are unambiguous, and no target is written as a candidate chain's name. */
  ghost predicate WellWritten(c: Config) {
    forall d :: d in c.ds && d.RuleIs? ==> RuleWellWritten(c, d.rule)
  }

  ghost predicate RuleWellWritten(c: Config, r: RuleDecl) {
    && UnambiguousRule(r, c.ds, c.env.addrs)
    && (TargetWord(r.tail).Some? ==> !(c.env.prefix + "+" <= TargetWord(r.tail).value))
  }

  ghost predicate Faithful(c: Config, f: Family, table: string) {
    ProbesOnce(c.probe) && EnvFor(c.env, c.ds, c.sets) && WellWritten(c) && ChainsLoaded(c, f, table)
  }

  lemma {:induction false} DeclarationsAreIn(ds: seq<Decl>, key: Key, env: Env, probe: Probe, r: RuleDecl)
    requires r in DeclarationsOf(ds, key, env, probe)
    ensures RuleIs(r) in ds
    decreases |ds|
  {
    var shorter, d := ds[..|ds| - 1], ds[|ds| - 1];
    assert ds == shorter + [d];
    if r in DeclarationsOf(shorter, key, env, probe) {
      DeclarationsAreIn(shorter, key, env, probe, r);
    }
  }

  lemma {:induction false} LinesOfFirst(rs: seq<RuleDecl>, f: Family, env: Env)
    requires rs != []
    ensures LinesOfAll(rs, f, env) == LinesFor(rs[0], f, env) + LinesOfAll(rs[1..], f, env)
    decreases |rs|
  {
    if |rs| > 1 {
      var shorter, last := rs[..|rs| - 1], rs[|rs| - 1];
      LinesOfFirst(shorter, f, env);
      assert rs[1..][..|rs| - 2] == shorter[1..] && rs[1..][|rs| - 2] == last;
    } else {
      assert rs[..0] == [] && rs[1..] == [];
    }
  }

  lemma RulesOfConcat(xs: seq<Line>, ys: seq<Line>, targets: Targets)
    ensures RulesOf(xs + ys, targets) == RulesOf(xs, targets) + RulesOf(ys, targets)
  {
  }

  /** The target every rule of one declaration has. */
  function CompiledTarget(c: Config, r: RuleDecl): Target {
    var word := TargetWord(Replaced(r.tail, Prefixed(c.env.prefix)));
    if word.Some? then Compiled(c.targets, c.env.prefix)(word.value) else Continue
  }

  lemma BlockTargets(c: Config, r: RuleDecl, f: Family)
    ensures forall x :: x in RulesOf(LinesFor(r, f, c.env), Compiled(c.targets, c.env.prefix)) ==> x.target == CompiledTarget(c, r)
  {
    var lines := LinesFor(r, f, c.env);
    var srcs, dsts, tail := Expand(r.src, f, c.env.addrs), Expand(r.dst, f, c.env.addrs), Replaced(r.tail, Prefixed(c.env.prefix));
    forall i | 0 <= i < |lines|
      ensures lines[i].tail == tail
    {
      CrossAre(srcs, dsts, tail, f, c.env, lines[i]);
    }
  }

  lemma BlockHits(c: Config, r: RuleDecl, f: Family, p: Packet)
    requires EnvFor(c.env, c.ds, c.sets) && UnambiguousRule(r, c.ds, c.env.addrs)
    ensures SomeHit(RulesOf(LinesFor(r, f, c.env), Compiled(c.targets, c.env.prefix)), c.sets, p) <==> DeclHit(r, c.ds, c.env.addrs, f, p)
  {
    var lines, targets := LinesFor(r, f, c.env), Compiled(c.targets, c.env.prefix);
    ExpansionHits(r, c.ds, f, c.env, targets, c.sets, p);
    RulesHit(lines, targets, c.sets, p);
  }

  lemma RulesHit(lines: seq<Line>, targets: Targets, sets: Sets, p: Packet)
    ensures SomeHit(RulesOf(lines, targets), sets, p) <==> AnyHit(lines, targets, sets, p)
  {
    var rs := RulesOf(lines, targets);
    if r :| r in rs && Hit(r, sets, p) {
      var i :| 0 <= i < |rs| && rs[i] == r;
      assert lines[i] in lines;
    }
    if l :| l in lines && Hit(RuleOf(l, targets), sets, p) {
      var i :| 0 <= i < |lines| && lines[i] == l;
      assert rs[i] == RuleOf(l, targets);
    }
  }

  lemma CompiledTargetIs(c: Config, r: RuleDecl)
    requires RuleWellWritten(c, r)
    ensures var word := TargetWord(r.tail);
      CompiledTarget(c, r) == (
        if word.None? then Continue
        else if Plus(word.value) then Jump(c.env.prefix + word.value)
        else c.targets(word.value))
  {
    var prefix, word := c.env.prefix, TargetWord(r.tail);
    PrefixedIsNotJump(prefix);
    ReplacedTarget(r.tail, Prefixed(prefix));
    if word.Some? && Plus(word.value) {
      assert prefix + word.value == prefix + "+" + word.value[1..];
    }
  }

  lemma JumpIsRead(c: Config, name: string, p: Packet, depth: nat)
    requires depth > 0
    ensures Act(c.kernel, c.sets, Jump(name), p, depth) == Ended(Walk(c.kernel, c.sets, RowOf(c.kernel, name), p, depth - 1))
  {
  }

  /** The chain a `+chain` word jumps to, one level down, is what is read there. */
  ghost predicate NextAgrees(c: Config, f: Family, table: string, word: Option<string>, p: Packet, depth: nat) {
    word.Some? && Plus(word.value) && depth > 0 ==>
      var next := Key(f, table, word.value);
      Walk(c.kernel, c.sets, RowOf(c.kernel, c.env.prefix + word.value), p, depth - 1)
        == Reading(c, next, DeclarationsOf(c.ds, next, c.env, c.probe), p, depth - 1)
  }

  lemma TargetAgreesIf(c: Config, key: Key, r: RuleDecl, p: Packet, depth: nat)
    requires RuleWellWritten(c, r) && NextAgrees(c, key.family, key.table, TargetWord(r.tail), p, depth)
    ensures Act(c.kernel, c.sets, CompiledTarget(c, r), p, depth) == ReadTarget(c, key, TargetWord(r.tail), p, depth)
  {
    CompiledTargetIs(c, r);
    if TargetWord(r.tail).Some? && depth > 0 {
      JumpIsRead(c, c.env.prefix + TargetWord(r.tail).value, p, depth);
    }
  }

  lemma {:induction false} NextIsRead(c: Config, f: Family, table: string, word: Option<string>, p: Packet, depth: nat)
    requires Faithful(c, f, table)
    ensures NextAgrees(c, f, table, word, p, depth)
    decreases depth, 0
  {
    if word.Some? && Plus(word.value) && depth > 0 {
      assert "delegate_"[0] == 'd';
      ChainIsRead(c, f, table, word.value, p, depth - 1);
    }
  }

  /** What a compiled target does is what the declared one says. */
  lemma {:induction false} TargetsAgree(c: Config, key: Key, r: RuleDecl, p: Packet, depth: nat)
    requires Faithful(c, key.family, key.table) && RuleWellWritten(c, r)
    ensures Act(c.kernel, c.sets, CompiledTarget(c, r), p, depth) == ReadTarget(c, key, TargetWord(r.tail), p, depth)
    decreases depth, 1
  {
    NextIsRead(c, key.family, key.table, TargetWord(r.tail), p, depth);
    TargetAgreesIf(c, key, r, p, depth);
  }

  /** Walking a compiled chain decides every packet as reading its declarations does, at every depth. */
  lemma {:induction false} ChainIsRead(c: Config, f: Family, table: string, chain: string, p: Packet, depth: nat)
    requires Faithful(c, f, table) && Ordinary(chain)
    ensures var key := Key(f, table, chain);
      Walk(c.kernel, c.sets, RowOf(c.kernel, c.env.prefix + chain), p, depth)
      == Reading(c, key, DeclarationsOf(c.ds, key, c.env, c.probe), p, depth)
    decreases depth, 3
  {
    var key := Key(f, table, chain);
    var rs := DeclarationsOf(c.ds, key, c.env, c.probe);
    ChainsHoldTheirDeclarations(c.ds, key, c.env, c.probe);
    forall r | r in rs
      ensures RuleWellWritten(c, r)
    {
      DeclarationsAreIn(c.ds, key, c.env, c.probe, r);
    }
    RulesAreRead(c, key, rs, p, depth);
  }

  /** The rules of the first declaration, then those of the others. */
  lemma FirstIsRead(c: Config, f: Family, rs: seq<RuleDecl>, p: Packet, depth: nat)
    requires EnvFor(c.env, c.ds, c.sets) && rs != [] && UnambiguousRule(rs[0], c.ds, c.env.addrs)
    ensures var targets := Compiled(c.targets, c.env.prefix);
      Walk(c.kernel, c.sets, RulesOf(LinesOfAll(rs, f, c.env), targets), p, depth)
      == (var o := if DeclHit(rs[0], c.ds, c.env.addrs, f, p) then Act(c.kernel, c.sets, CompiledTarget(c, rs[0]), p, depth) else Through;
          if o.Through? then Walk(c.kernel, c.sets, RulesOf(LinesOfAll(rs[1..], f, c.env), targets), p, depth) else o)
  {
    var targets := Compiled(c.targets, c.env.prefix);
    var block, rest := RulesOf(LinesFor(rs[0], f, c.env), targets), RulesOf(LinesOfAll(rs[1..], f, c.env), targets);
    LinesOfFirst(rs, f, c.env);
    RulesOfConcat(LinesFor(rs[0], f, c.env), LinesOfAll(rs[1..], f, c.env), targets);
    BlockTargets(c, rs[0], f);
    BlockWalk(c.kernel, c.sets, block, rest, CompiledTarget(c, rs[0]), p, depth);
    BlockHits(c, rs[0], f, p);
  }

  lemma {:induction false} RulesAreRead(c: Config, key: Key, rs: seq<RuleDecl>, p: Packet, depth: nat)
    requires Faithful(c, key.family, key.table) && forall r :: r in rs ==> RuleWellWritten(c, r)
    ensures Walk(c.kernel, c.sets, RulesOf(LinesOfAll(rs, key.family, c.env), Compiled(c.targets, c.env.prefix)), p, depth)
      == Reading(c, key, rs, p, depth)
    decreases depth, 2, |rs|
  {
    if rs != [] {
      assert rs[0] in rs && forall r :: r in rs[1..] ==> r in rs;
      FirstIsRead(c, key.family, rs, p, depth);
      TargetsAgree(c, key, rs[0], p, depth);
      RulesAreRead(c, key, rs[1..], p, depth);
    }
  }
}
