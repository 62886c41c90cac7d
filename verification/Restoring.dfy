/** src/rules.rs render, and what iptables-restore --noflush makes of the stream. */
module Restoring {
  import opened Seqs
  import opened Text
  import opened Netfilter
  import opened RuleBuilding

  datatype StreamLine =
    | TableLine(table: string)                // *table
    | ChainLine(chain: string)                // :chain - [0:0]
    | RuleLine(chain: string, rule: Line)     // -A chain rule
    | CommitLine                              // COMMIT

  // ---------- the printer ----------

  function TablesIn(rs: Ruleset, f: Family): set<string> {
    set k | k in rs && k.family == f :: k.table
  }

  function ChainsIn(rs: Ruleset, f: Family, table: string): set<string> {
    set k | k in rs && k.family == f && k.table == table :: k.chain
  }

  function ChainLines(names: seq<string>, prefix: string): (lines: seq<StreamLine>)
    ensures |lines| == |names|
  {
    seq(|names|, i requires 0 <= i < |names| => ChainLine(prefix + names[i]))
  }

  function RuleLines(name: string, rules: seq<Line>): (lines: seq<StreamLine>)
    ensures |lines| == |rules|
  {
    seq(|rules|, i requires 0 <= i < |rules| => RuleLine(name, rules[i]))
  }

  function AllRuleLines(rs: Ruleset, f: Family, table: string, names: seq<string>, prefix: string): seq<StreamLine>
    requires forall n :: n in names ==> Key(f, table, n) in rs
  {
    if names == [] then []
    else AllRuleLines(rs, f, table, names[..|names| - 1], prefix)
         + RuleLines(prefix + names[|names| - 1], rs[Key(f, table, names[|names| - 1])])
  }

  function TableLines(rs: Ruleset, f: Family, table: string, prefix: string): seq<StreamLine> {
    ChainsAre(rs, f, table);
    var names := Sorted(ChainsIn(rs, f, table));
    [TableLine(table)] + ChainLines(names, prefix) + AllRuleLines(rs, f, table, names, prefix) + [CommitLine]
  }

  function AllTableLines(rs: Ruleset, f: Family, tables: seq<string>, prefix: string): seq<StreamLine> {
    if tables == [] then [] else AllTableLines(rs, f, tables[..|tables| - 1], prefix) + TableLines(rs, f, tables[|tables| - 1], prefix)
  }

  lemma ChainsAre(rs: Ruleset, f: Family, table: string)
    ensures forall n :: n in ChainsIn(rs, f, table) <==> Key(f, table, n) in rs
  {
    forall n | Key(f, table, n) in rs
      ensures n in ChainsIn(rs, f, table)
    {
      assert Key(f, table, n).chain == n;
    }
  }

  method RenderChains(names: seq<string>, prefix: string) returns (out: seq<StreamLine>)
    ensures out == ChainLines(names, prefix)
  {
    out := [];
    for i := 0 to |names|
      invariant out == ChainLines(names, prefix)[..i]
    {
      out := out + [ChainLine(prefix + names[i])];
    }
  }

  method RenderRules(name: string, rules: seq<Line>) returns (out: seq<StreamLine>)
    ensures out == RuleLines(name, rules)
  {
    out := [];
    for j := 0 to |rules|
      invariant out == RuleLines(name, rules)[..j]
    {
      out := out + [RuleLine(name, rules[j])];
    }
  }

  method RenderAllRules(rs: Ruleset, f: Family, table: string, names: seq<string>, prefix: string) returns (out: seq<StreamLine>)
    requires forall n :: n in names ==> Key(f, table, n) in rs
    ensures out == AllRuleLines(rs, f, table, names, prefix)
  {
    out := [];
    for i := 0 to |names|
      invariant out == AllRuleLines(rs, f, table, names[..i], prefix)
    {
      OneMore(names, i);
      assert names[i] in names;
      var lines := RenderRules(prefix + names[i], rs[Key(f, table, names[i])]);
      out := out + lines;
    }
    assert names[..|names|] == names;
  }

  method RenderTable(rs: Ruleset, f: Family, table: string, prefix: string) returns (out: seq<StreamLine>)
    ensures out == TableLines(rs, f, table, prefix)
  {
    ChainsAre(rs, f, table);
    var names := Sorted(ChainsIn(rs, f, table));
    var chains := RenderChains(names, prefix);
    var rules := RenderAllRules(rs, f, table, names, prefix);
    out := [TableLine(table)] + chains + rules + [CommitLine];
  }

  method Render(rs: Ruleset, f: Family, prefix: string) returns (out: seq<StreamLine>)
    ensures out == AllTableLines(rs, f, Sorted(TablesIn(rs, f)), prefix)
  {
    var tables := Sorted(TablesIn(rs, f));
    out := [];
    for i := 0 to |tables|
      invariant out == AllTableLines(rs, f, tables[..i], prefix)
    {
      OneMore(tables, i);
      var block := RenderTable(rs, f, tables[i], prefix);
      out := out + block;
    }
    assert tables[..|tables|] == tables;
  }

  // ---------- the reader ----------

  type Block = map<string, seq<Line>>

  /** The tables, and the one being restored with what it will hold. */
  datatype Restore = Restore(tables: map<string, Block>, current: Option<(string, Block)>)

  /** A `:chain` line makes the chain, or empties it if it is there. A rule needs its chain. Nothing shows before COMMIT. */
  function Step(r: Restore, line: StreamLine): Option<Restore> {
    match line
    case TableLine(t) => if r.current.None? && t in r.tables then Some(r.(current := Some((t, r.tables[t])))) else None
    case ChainLine(c) =>
      if r.current.None? then None
      else Some(r.(current := Some((r.current.value.0, r.current.value.1[c := []]))))
    case RuleLine(c, rule) =>
      if r.current.None? || c !in r.current.value.1 then None
      else
        var block := r.current.value.1;
        Some(r.(current := Some((r.current.value.0, block[c := block[c] + [rule]]))))
    case CommitLine =>
      if r.current.None? then None
      else Some(Restore(r.tables[r.current.value.0 := r.current.value.1], None))
  }

  function Steps(r: Restore, lines: seq<StreamLine>): Option<Restore>
    decreases |lines|
  {
    if lines == [] then Some(r)
    else
      var after := Step(r, lines[0]);
      if after.None? then None else Steps(after.value, lines[1..])
  }

  lemma {:induction false} StepsConcat(r: Restore, xs: seq<StreamLine>, ys: seq<StreamLine>)
    ensures Steps(r, xs + ys) == (var mid := Steps(r, xs); if mid.None? then None else Steps(mid.value, ys))
    decreases |xs|
  {
    if xs == [] {
      assert xs + ys == ys;
    } else {
      assert (xs + ys)[1..] == xs[1..] + ys;
      var after := Step(r, xs[0]);
      if after.Some? {
        StepsConcat(after.value, xs[1..], ys);
      }
    }
  }

  // ---------- what the stream does ----------

  function At(tables: map<string, Block>, t: string, block: Block): Restore {
    Restore(tables, Some((t, block)))
  }

  function Elements(names: seq<string>): set<string> {
    set n | n in names
  }

  function Full(names: set<string>, prefix: string): set<string> {
    set n | n in names :: prefix + n
  }

  /** The chains listed, each with no rules yet. */
  function Blank(names: seq<string>, prefix: string): Block {
    map c | c in Full(Elements(names), prefix) :: []
  }

  lemma {:induction false} ChainLinesMake(tables: map<string, Block>, t: string, block: Block, names: seq<string>, prefix: string)
    ensures Steps(At(tables, t, block), ChainLines(names, prefix)) == Some(At(tables, t, block + Blank(names, prefix)))
    decreases |names|
  {
    if names == [] {
      assert block + Blank([], prefix) == block;
    } else {
      ChainLinesFirst(names, prefix);
      ChainLinesMake(tables, t, block[prefix + names[0] := []], names[1..], prefix);
      BlankOn(block, names, prefix);
    }
  }

  lemma ChainLinesFirst(names: seq<string>, prefix: string)
    requires names != []
    ensures var lines := ChainLines(names, prefix); lines[0] == ChainLine(prefix + names[0]) && lines[1..] == ChainLines(names[1..], prefix)
  {
  }

  lemma BlankOn(block: Block, names: seq<string>, prefix: string)
    requires names != []
    ensures block[prefix + names[0] := []] + Blank(names[1..], prefix) == block + Blank(names, prefix)
  {
    BlankFirst(names, prefix);
  }

  lemma BlankFirst(names: seq<string>, prefix: string)
    requires names != []
    ensures Blank(names, prefix) == Blank(names[1..], prefix)[prefix + names[0] := []]
  {
    assert names == [names[0]] + names[1..];
    assert Elements(names) == {names[0]} + Elements(names[1..]);
    assert Full(Elements(names), prefix) == {prefix + names[0]} + Full(Elements(names[1..]), prefix);
  }

  lemma {:induction false} RuleLinesAdd(tables: map<string, Block>, t: string, block: Block, c: string, rules: seq<Line>)
    requires c in block
    ensures Steps(At(tables, t, block), RuleLines(c, rules)) == Some(At(tables, t, block[c := block[c] + rules]))
    decreases |rules|
  {
    if rules == [] {
      assert block[c] + [] == block[c];
      assert block[c := block[c]] == block;
    } else {
      var first := block[c := block[c] + [rules[0]]];
      assert RuleLines(c, rules)[1..] == RuleLines(c, rules[1..]);
      RuleLinesAdd(tables, t, first, c, rules[1..]);
      assert first[c] + rules[1..] == block[c] + rules;
      assert first[c := block[c] + rules] == block[c := block[c] + rules];
    }
  }

  /** The chains built for one table, under the names they get. */
  function NewChains(rs: Ruleset, f: Family, table: string, prefix: string): Block {
    Filled(rs, f, table, ChainsIn(rs, f, table), prefix)
  }

  /** Some of the chains with their rules. */
  function Filled(rs: Ruleset, f: Family, table: string, names: set<string>, prefix: string): Block {
    map c | c in Full(names, prefix) && prefix <= c && Key(f, table, c[|prefix|..]) in rs :: rs[Key(f, table, c[|prefix|..])]
  }

  lemma FilledOne(rs: Ruleset, f: Family, table: string, names: set<string>, n: string, prefix: string)
    requires n !in names && Key(f, table, n) in rs
    ensures Filled(rs, f, table, names + {n}, prefix) == Filled(rs, f, table, names, prefix)[prefix + n := rs[Key(f, table, n)]]
    ensures prefix + n !in Filled(rs, f, table, names, prefix)
  {
    assert (prefix + n)[|prefix|..] == n;
    forall m | m in names
      ensures (prefix + m)[|prefix|..] == m && prefix + m != prefix + n
    {
      assert (prefix + m)[|prefix|..] == m;
    }
  }

  lemma {:induction false} AllRuleLinesFill(tables: map<string, Block>, t: string, block: Block, rs: Ruleset, f: Family, names: seq<string>, prefix: string)
    requires Distinct(names) && forall n :: n in names ==> Key(f, t, n) in rs && prefix + n in block && block[prefix + n] == []
    ensures Steps(At(tables, t, block), AllRuleLines(rs, f, t, names, prefix))
      == Some(At(tables, t, block + Filled(rs, f, t, Elements(names), prefix)))
    decreases |names|
  {
    if names == [] {
      assert block + Filled(rs, f, t, Elements([]), prefix) == block;
    } else {
      var shorter, n := names[..|names| - 1], names[|names| - 1];
      assert names == shorter + [n];
      AllRuleLinesFill(tables, t, block, rs, f, shorter, prefix);
      RuleLinesFillMore(tables, t, block, rs, f, shorter, n, prefix);
    }
  }

  lemma RuleLinesFillMore(tables: map<string, Block>, t: string, block: Block, rs: Ruleset, f: Family, shorter: seq<string>, n: string, prefix: string)
    requires (forall k :: k in shorter ==> Key(f, t, k) in rs) && n !in shorter && Key(f, t, n) in rs && prefix + n in block && block[prefix + n] == []
    requires Steps(At(tables, t, block), AllRuleLines(rs, f, t, shorter, prefix)) == Some(At(tables, t, block + Filled(rs, f, t, Elements(shorter), prefix)))
    ensures Steps(At(tables, t, block), AllRuleLines(rs, f, t, shorter, prefix) + RuleLines(prefix + n, rs[Key(f, t, n)]))
      == Some(At(tables, t, block + Filled(rs, f, t, Elements(shorter + [n]), prefix)))
  {
    var rules := rs[Key(f, t, n)];
    var mid := block + Filled(rs, f, t, Elements(shorter), prefix);
    StepsConcat(At(tables, t, block), AllRuleLines(rs, f, t, shorter, prefix), RuleLines(prefix + n, rules));
    FilledMore(block, rs, f, t, shorter, n, prefix);
    RuleLinesAdd(tables, t, mid, prefix + n, rules);
    assert [] + rules == rules;
  }

  lemma FilledMore(block: Block, rs: Ruleset, f: Family, t: string, shorter: seq<string>, n: string, prefix: string)
    requires n !in shorter && Key(f, t, n) in rs && prefix + n in block && block[prefix + n] == []
    ensures var mid := block + Filled(rs, f, t, Elements(shorter), prefix);
      && prefix + n in mid && mid[prefix + n] == []
      && mid[prefix + n := rs[Key(f, t, n)]] == block + Filled(rs, f, t, Elements(shorter + [n]), prefix)
  {
    FilledOne(rs, f, t, Elements(shorter), n, prefix);
    assert Elements(shorter + [n]) == Elements(shorter) + {n};
  }

  lemma BlankThenFilled(block: Block, rs: Ruleset, f: Family, table: string, names: seq<string>, prefix: string)
    requires forall n :: n in names ==> Key(f, table, n) in rs
    ensures block + Blank(names, prefix) + Filled(rs, f, table, Elements(names), prefix) == block + Filled(rs, f, table, Elements(names), prefix)
  {
    forall c | c in Blank(names, prefix)
      ensures c in Filled(rs, f, table, Elements(names), prefix)
    {
      var n :| n in names && c == prefix + n;
      assert c[|prefix|..] == n;
    }
  }

  lemma NamesAreBlank(block: Block, names: seq<string>, prefix: string, n: string)
    requires n in names
    ensures var b := block + Blank(names, prefix); prefix + n in b && b[prefix + n] == []
  {
    assert prefix + n in Blank(names, prefix);
  }

  /** What stands between a table's line and its COMMIT. */
  function BodyLines(rs: Ruleset, f: Family, table: string, prefix: string): seq<StreamLine> {
    ChainsAre(rs, f, table);
    var names := Sorted(ChainsIn(rs, f, table));
    ChainLines(names, prefix) + AllRuleLines(rs, f, table, names, prefix)
  }

  /** From there on each chain built holds exactly its rules, and every other chain is as it was. */
  lemma BodyRestored(tables: map<string, Block>, rs: Ruleset, f: Family, t: string, block: Block, prefix: string)
    ensures Steps(At(tables, t, block), BodyLines(rs, f, t, prefix)) == Some(At(tables, t, block + NewChains(rs, f, t, prefix)))
  {
    var names := Sorted(ChainsIn(rs, f, t));
    var blanked := block + Blank(names, prefix);
    SortedIsOrdered(ChainsIn(rs, f, t));
    ChainsAre(rs, f, t);
    assert Elements(names) == ChainsIn(rs, f, t);
    StepsConcat(At(tables, t, block), ChainLines(names, prefix), AllRuleLines(rs, f, t, names, prefix));
    ChainLinesMake(tables, t, block, names, prefix);
    forall n | n in names
      ensures prefix + n in blanked && blanked[prefix + n] == []
    {
      NamesAreBlank(block, names, prefix, n);
    }
    AllRuleLinesFill(tables, t, blanked, rs, f, names, prefix);
    BlankThenFilled(block, rs, f, t, names, prefix);
  }

  lemma TableLinesAre(rs: Ruleset, f: Family, t: string, prefix: string)
    ensures TableLines(rs, f, t, prefix) == [TableLine(t)] + BodyLines(rs, f, t, prefix) + [CommitLine]
  {
  }

  /** One table's block leaves the table with each chain built holding exactly its rules, and every other chain as it was. */
  lemma TableRestored(tables: map<string, Block>, rs: Ruleset, f: Family, t: string, prefix: string)
    requires t in tables
    ensures Steps(Restore(tables, None), TableLines(rs, f, t, prefix))
      == Some(Restore(tables[t := tables[t] + NewChains(rs, f, t, prefix)], None))
  {
    var start, body := Restore(tables, None), BodyLines(rs, f, t, prefix);
    TableLinesAre(rs, f, t, prefix);
    StepsOne(start, TableLine(t));
    StepsConcat(start, [TableLine(t)], body);
    BodyRestored(tables, rs, f, t, tables[t], prefix);
    StepsConcat(start, [TableLine(t)] + body, [CommitLine]);
    StepsOne(At(tables, t, tables[t] + NewChains(rs, f, t, prefix)), CommitLine);
  }

  lemma StepsOne(r: Restore, line: StreamLine)
    ensures Steps(r, [line]) == Step(r, line)
  {
    assert [line][1..] == [];
  }

  function Restored(tables: map<string, Block>, rs: Ruleset, f: Family, names: set<string>, prefix: string): map<string, Block> {
    map t | t in tables :: if t in names then tables[t] + NewChains(rs, f, t, prefix) else tables[t]
  }

  lemma {:induction false} TablesRestored(tables: map<string, Block>, rs: Ruleset, f: Family, names: seq<string>, prefix: string)
    requires Distinct(names) && forall t :: t in names ==> t in tables
    ensures Steps(Restore(tables, None), AllTableLines(rs, f, names, prefix)) == Some(Restore(Restored(tables, rs, f, Elements(names), prefix), None))
    decreases |names|
  {
    if names == [] {
      assert Restored(tables, rs, f, Elements([]), prefix) == tables;
    } else {
      var shorter, t := names[..|names| - 1], names[|names| - 1];
      assert names == shorter + [t];
      var mid := Restored(tables, rs, f, Elements(shorter), prefix);
      TablesRestored(tables, rs, f, shorter, prefix);
      StepsConcat(Restore(tables, None), AllTableLines(rs, f, shorter, prefix), TableLines(rs, f, t, prefix));
      TableRestored(mid, rs, f, t, prefix);
      RestoredMore(tables, rs, f, shorter, t, prefix);
    }
  }

  lemma RestoredMore(tables: map<string, Block>, rs: Ruleset, f: Family, shorter: seq<string>, t: string, prefix: string)
    requires t !in shorter && t in tables
    ensures var mid := Restored(tables, rs, f, Elements(shorter), prefix);
      t in mid && mid[t := mid[t] + NewChains(rs, f, t, prefix)] == Restored(tables, rs, f, Elements(shorter + [t]), prefix)
  {
    assert Elements(shorter + [t]) == Elements(shorter) + {t};
  }

  /**
   Restoring the whole stream gives each chain built exactly the rules built for it, in order, and
   leaves every other chain of every table as it was: each chain is named once, before any of its
   rules.
   */
  lemma StreamRestores(tables: map<string, Block>, rs: Ruleset, f: Family, prefix: string)
    requires forall t :: t in TablesIn(rs, f) ==> t in tables
    ensures Steps(Restore(tables, None), AllTableLines(rs, f, Sorted(TablesIn(rs, f)), prefix))
      == Some(Restore(Restored(tables, rs, f, TablesIn(rs, f), prefix), None))
  {
    var names := Sorted(TablesIn(rs, f));
    SortedIsOrdered(TablesIn(rs, f));
    assert Elements(names) == TablesIn(rs, f);
    TablesRestored(tables, rs, f, names, prefix);
  }
}
