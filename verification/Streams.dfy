/** From the streams the compiler prints to the loads the kernel is given, and no other way about it. */
module Streams {
  import opened Text
  import opened Netfilter
  import opened Building
  import opened Declarations
  import opened RuleBuilding
  import opened Meaning
  import opened Compilation
  import opened Compiling
  import opened Submitting
  import opened Restoring

  // ---------- a reader of rule streams ----------

  /** The tables committed so far, and the one being read with its chains. */
  datatype Reader = Reader(loads: seq<Load>, current: Option<(string, Block)>)

  /** The rules the kernel makes of a block. */
  function KernelRules(block: Block, targets: Targets, prefix: string): Chains {
    map n | n in block :: RulesOf(block[n], Compiled(targets, prefix))
  }

  /** A chain is made or emptied by its line, a rule goes to a chain already named, and COMMIT hands the whole table over. */
  function ReadLine(r: Reader, line: StreamLine, f: Family, targets: Targets, prefix: string): Option<Reader> {
    match line
    case TableLine(t) => if r.current.None? then Some(r.(current := Some((t, map[])))) else None
    case ChainLine(c) =>
      if r.current.None? then None else Some(r.(current := Some((r.current.value.0, r.current.value.1[c := []]))))
    case RuleLine(c, rule) =>
      if r.current.None? || c !in r.current.value.1 then None
      else
        var block := r.current.value.1;
        Some(r.(current := Some((r.current.value.0, block[c := block[c] + [rule]]))))
    case CommitLine =>
      if r.current.None? then None
      else
        var load := LoadTable(TabId(f, r.current.value.0), KernelRules(r.current.value.1, targets, prefix));
        Some(Reader(r.loads + [load], None))
  }

  function ReadLines(r: Reader, lines: seq<StreamLine>, f: Family, targets: Targets, prefix: string): Option<Reader>
    decreases |lines|
  {
    if lines == [] then Some(r)
    else
      var after := ReadLine(r, lines[0], f, targets, prefix);
      if after.None? then None else ReadLines(after.value, lines[1..], f, targets, prefix)
  }

  /** The loads a whole stream comes to; a table left open is an error. */
  function ReadStream(lines: seq<StreamLine>, f: Family, targets: Targets, prefix: string): Option<seq<Load>> {
    var end := ReadLines(Reader([], None), lines, f, targets, prefix);
    if end.Some? && end.value.current.None? then Some(end.value.loads) else None
  }

  /** A whole submission: sets, then IPv4 tables, then IPv6 tables. */
  function ReadSubmission(s: Submission, targets: Targets, prefix: string): Option<seq<Load>> {
    var v4, v6 := ReadStream(s.v4, V4, targets, prefix), ReadStream(s.v6, V6, targets, prefix);
    if v4.Some? && v6.Some? then Some(SetLoads(s.sets) + v4.value + v6.value) else None
  }

  // ---------- what it reads ----------

  lemma {:induction false} StreamConcat(r: Reader, xs: seq<StreamLine>, ys: seq<StreamLine>, f: Family, targets: Targets, prefix: string)
    ensures ReadLines(r, xs + ys, f, targets, prefix)
      == (var mid := ReadLines(r, xs, f, targets, prefix); if mid.None? then None else ReadLines(mid.value, ys, f, targets, prefix))
    decreases |xs|
  {
    if xs == [] {
      assert xs + ys == ys;
    } else {
      assert (xs + ys)[1..] == xs[1..] + ys;
      var after := ReadLine(r, xs[0], f, targets, prefix);
      if after.Some? {
        StreamConcat(after.value, xs[1..], ys, f, targets, prefix);
      }
    }
  }

  predicate InBody(lines: seq<StreamLine>) {
    forall l :: l in lines ==> l.ChainLine? || l.RuleLine?
  }

  /** Inside a table the reader keeps up with what restoring does to it. */
  lemma {:induction false} ReadFollows(loads: seq<Load>, t: string, block: Block, to: Block, lines: seq<StreamLine>, f: Family, targets: Targets, prefix: string)
    requires InBody(lines) && Steps(At(map[], t, block), lines) == Some(At(map[], t, to))
    ensures ReadLines(Reader(loads, Some((t, block))), lines, f, targets, prefix) == Some(Reader(loads, Some((t, to))))
    decreases |lines|
  {
    if lines != [] {
      assert lines[0] in lines && forall l :: l in lines[1..] ==> l in lines;
      var after := Step(At(map[], t, block), lines[0]).value;
      ReadFollows(loads, t, after.current.value.1, to, lines[1..], f, targets, prefix);
    }
  }

  lemma {:induction false} RuleLinesInBody(rs: Ruleset, f: Family, table: string, names: seq<string>, prefix: string)
    requires forall n :: n in names ==> Key(f, table, n) in rs
    ensures InBody(AllRuleLines(rs, f, table, names, prefix))
    decreases |names|
  {
    if names != [] {
      RuleLinesInBody(rs, f, table, names[..|names| - 1], prefix);
    }
  }

  lemma BodyInBody(rs: Ruleset, f: Family, table: string, prefix: string)
    ensures InBody(BodyLines(rs, f, table, prefix))
  {
    ChainsAre(rs, f, table);
    RuleLinesInBody(rs, f, table, Sorted(ChainsIn(rs, f, table)), prefix);
  }

  lemma StreamOne(r: Reader, line: StreamLine, f: Family, targets: Targets, prefix: string)
    ensures ReadLines(r, [line], f, targets, prefix) == ReadLine(r, line, f, targets, prefix)
  {
    assert [line][1..] == [];
  }

  /** One table's lines are read as its load. */
  lemma TableIsRead(loads: seq<Load>, rs: Ruleset, f: Family, table: string, targets: Targets, prefix: string)
    ensures ReadLines(Reader(loads, None), TableLines(rs, f, table, prefix), f, targets, prefix)
      == Some(Reader(loads + [LoadTable(TabId(f, table), News(rs, f, table, prefix, targets))], None))
  {
    var start, body, built := Reader(loads, None), BodyLines(rs, f, table, prefix), NewChains(rs, f, table, prefix);
    TableLinesAre(rs, f, table, prefix);
    StreamOne(start, TableLine(table), f, targets, prefix);
    StreamConcat(start, [TableLine(table)], body, f, targets, prefix);
    BodyRestored(map[], rs, f, table, map[], prefix);
    assert map[] + built == built;
    BodyInBody(rs, f, table, prefix);
    ReadFollows(loads, table, map[], built, body, f, targets, prefix);
    StreamConcat(start, [TableLine(table)] + body, [CommitLine], f, targets, prefix);
    StreamOne(Reader(loads, Some((table, built))), CommitLine, f, targets, prefix);
    assert KernelRules(built, targets, prefix) == News(rs, f, table, prefix, targets);
  }

  lemma {:induction false} TablesAreRead(rs: Ruleset, f: Family, tables: seq<string>, targets: Targets, prefix: string)
    ensures ReadLines(Reader([], None), AllTableLines(rs, f, tables, prefix), f, targets, prefix)
      == Some(Reader(TableLoads(rs, f, tables, prefix, targets), None))
    decreases |tables|
  {
    if tables == [] {
      assert AllTableLines(rs, f, tables, prefix) == [];
    } else {
      var shorter, last := tables[..|tables| - 1], tables[|tables| - 1];
      TablesAreRead(rs, f, shorter, targets, prefix);
      NextTable(rs, f, shorter, last, targets, prefix);
      assert tables == shorter + [last];
    }
  }

  lemma NextTable(rs: Ruleset, f: Family, shorter: seq<string>, last: string, targets: Targets, prefix: string)
    requires ReadLines(Reader([], None), AllTableLines(rs, f, shorter, prefix), f, targets, prefix)
      == Some(Reader(TableLoads(rs, f, shorter, prefix, targets), None))
    ensures ReadLines(Reader([], None), AllTableLines(rs, f, shorter + [last], prefix), f, targets, prefix)
      == Some(Reader(TableLoads(rs, f, shorter + [last], prefix, targets), None))
  {
    var tables := shorter + [last];
    assert tables[..|tables| - 1] == shorter;
    var front, block := AllTableLines(rs, f, shorter, prefix), TableLines(rs, f, last, prefix);
    assert AllTableLines(rs, f, tables, prefix) == front + block;
    StreamConcat(Reader([], None), front, block, f, targets, prefix);
    TableIsRead(TableLoads(rs, f, shorter, prefix, targets), rs, f, last, targets, prefix);
    assert TableLoads(rs, f, tables, prefix, targets)
      == TableLoads(rs, f, shorter, prefix, targets) + [LoadTable(TabId(f, last), News(rs, f, last, prefix, targets))];
  }

  /**
   Read line by line, what the compiler prints is what the kernel is given: every set with its
   entries, and every table in one piece with each of its chains' rules in order.
   */
  lemma SubmissionReadsAsLoads(ds: seq<Decl>, env: Env, probe: Probe, targets: Targets)
    ensures ReadSubmission(SubmissionOf(ds, env, probe), targets, env.prefix) == Some(LoadsOf(ds, env, probe, targets))
  {
    var rs := RulesetOf(ds, env, probe);
    TablesAreRead(rs, V4, Sorted(TablesIn(rs, V4)), targets, env.prefix);
    TablesAreRead(rs, V6, Sorted(TablesIn(rs, V6)), targets, env.prefix);
  }
}
