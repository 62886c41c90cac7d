/** The declaration stream: what subcommands/fw_declare.sh prints and src/decl.rs reads back. */
module Declarations {
  import opened Seqs
  import opened Text

  datatype Result<+T, +E> = Ok(value: T) | Err(error: E)

  datatype Origin = Origin(file: string, line: nat)
  datatype Alias = Alias(name: string, host: string, port: Option<string>, proto: Option<string>, origin: Origin)
  datatype RuleDecl = RuleDecl(table: string, chain: string, src: string, dst: string, tail: seq<string>, origin: Origin)
  datatype Decl = AliasIs(alias: Alias) | RuleIs(rule: RuleDecl)

  const NUL: char := '\0'
  const NL: char := '\n'
  const LINE_MAX: nat := 0xFFFF_FFFF

  // ---------- splitting ----------

  function Split(s: string, c: char): (parts: seq<string>)
    ensures |parts| > 0
  {
    if s == [] then [""]
    else
      var rest := Split(s[1..], c);
      if s[0] == c then [""] + rest else [[s[0]] + rest[0]] + rest[1..]
  }

  function Join(parts: seq<string>, c: char): string {
    if parts == [] then "" else if |parts| == 1 then parts[0] else parts[0] + [c] + Join(parts[1..], c)
  }

  predicate Free(s: string, c: char) {
    c !in s
  }

  lemma {:induction false} SplitWord(s: string, c: char)
    requires Free(s, c)
    ensures Split(s, c) == [s]
  {
    if s != [] {
      SplitWord(s[1..], c);
      assert [s[0]] + s[1..] == s;
    }
  }

  lemma {:induction false} SplitFirst(s: string, c: char, rest: string)
    requires Free(s, c)
    ensures Split(s + [c] + rest, c) == [s] + Split(rest, c)
  {
    var all := s + [c] + rest;
    if s == [] {
      assert all[1..] == rest;
    } else {
      assert all[1..] == s[1..] + [c] + rest;
      SplitFirst(s[1..], c, rest);
      assert [s[0]] + s[1..] == s;
    }
  }

  lemma {:induction false} SplitJoined(parts: seq<string>, c: char)
    requires parts != [] && forall p :: p in parts ==> Free(p, c)
    ensures Split(Join(parts, c), c) == parts
  {
    if |parts| == 1 {
      SplitWord(parts[0], c);
    } else {
      SplitFirst(parts[0], c, Join(parts[1..], c));
      SplitJoined(parts[1..], c);
    }
  }

  lemma {:induction false} SplitIsFree(s: string, c: char)
    ensures forall p :: p in Split(s, c) ==> Free(p, c)
  {
    if s != [] {
      SplitIsFree(s[1..], c);
      assert Split(s[1..], c)[0] in Split(s[1..], c);
    }
  }

  lemma {:induction false} SplitKeepsFree(s: string, c: char, d: char)
    requires Free(s, d)
    ensures forall p :: p in Split(s, c) ==> Free(p, d)
  {
    if s != [] {
      SplitKeepsFree(s[1..], c, d);
      assert Split(s[1..], c)[0] in Split(s[1..], c);
    }
  }

  // ---------- src/decl.rs ----------

  datatype Problem =
    | TooFewFields | BadLine | AliasFields | NameEmpty | NameLooksLiteral | HostEmpty | RuleFields | FieldEmpty(field: string)
    | UnknownKind

  datatype ParseError = ParseError(record: nat, problem: Problem)

  function Unsigned(s: string): string {
    if s != [] && s[0] == '+' then s[1..] else s
  }

  /** u32::from_str: digits, after at most one plus sign, for a number that fits. */
  function ParseLine(s: string): Option<nat> {
    var digits := Unsigned(s);
    if digits == [] || exists i :: 0 <= i < |digits| && !Digit(digits[i]) then None
    else if Number(digits) > LINE_MAX then None
    else Some(Number(digits))
  }

  function DropEmpty(fields: seq<string>): seq<string> {
    if fields == [] then [] else (if fields[0] == "" then [] else [fields[0]]) + DropEmpty(fields[1..])
  }

  function ParseAlias(fields: seq<string>, origin: Origin): Result<Decl, Problem> {
    if |fields| < 2 then Err(AliasFields)
    else if fields[0] == "" then Err(NameEmpty)
    else if '.' in fields[0] || ':' in fields[0] then Err(NameLooksLiteral)
    else if fields[1] == "" then Err(HostEmpty)
    else
      var opt := DropEmpty(fields[2..]);
      var port := if |opt| > 0 then Some(opt[0]) else None;
      var proto := if |opt| > 1 then Some(Lower(opt[1])) else None;
      Ok(AliasIs(Alias(fields[0], fields[1], port, proto, origin)))
  }

  function ParseRule(fields: seq<string>, origin: Origin): Result<Decl, Problem> {
    if |fields| < 4 then Err(RuleFields)
    else if fields[0] == "" then Err(FieldEmpty("table"))
    else if fields[1] == "" then Err(FieldEmpty("chain"))
    else if fields[2] == "" then Err(FieldEmpty("source"))
    else if fields[3] == "" then Err(FieldEmpty("destination"))
    else Ok(RuleIs(RuleDecl(fields[0], Lower(fields[1]), fields[2], fields[3], fields[4..], origin)))
  }

  function ParseFields(fields: seq<string>): Result<Decl, Problem> {
    if |fields| < 3 then Err(TooFewFields)
    else
      var line := ParseLine(fields[2]);
      if line.None? then Err(BadLine)
      else
        var origin := Origin(fields[1], line.value);
        if fields[0] == "alias" then ParseAlias(fields[3..], origin)
        else if fields[0] == "rule" then ParseRule(fields[3..], origin)
        else Err(UnknownKind)
  }

  /** The records from the `first`-th on; the first one that does not parse is reported. */
  function ParseRecords(records: seq<string>, first: nat): Result<seq<Decl>, ParseError> {
    if records == [] then Ok([])
    else
      var d := ParseFields(Split(records[0], NUL));
      if d.Err? then Err(ParseError(first, d.error))
      else
        var rest := ParseRecords(records[1..], first + 1);
        if rest.Err? then rest else Ok([d.value] + rest.value)
  }

  function Parse(input: string): Result<seq<Decl>, ParseError> {
    ParseRecords(DropEmpty(Split(input, NL)), 1)
  }

  // ---------- subcommands/fw_declare.sh ----------

  /** `printf '\0%s' "$@"`: the format is used once even when there is no argument. */
  function PrintArgs(args: seq<string>): string {
    if args == [] then [NUL] else PrintEach(args)
  }

  function PrintEach(args: seq<string>): string {
    if args == [] then "" else [NUL] + args[0] + PrintEach(args[1..])
  }

  function Record(kind: string, origin: Origin, args: seq<string>): string {
    Head(kind, origin) + PrintArgs(args) + [NL]
  }

  function Head(kind: string, origin: Origin): string {
    kind + [NUL] + origin.file + [NUL] + Decimal(origin.line)
  }

  lemma Regroup(a: string, b: string, c: string, d: string)
    ensures a + (b + c + d) == a + b + c + d
  {
  }

  /** File descriptor 3. */
  class Stream {
    var text: string

    constructor ()
      ensures text == ""
    {
      text := "";
    }

    /** _fw_declare */
    method Declare(kind: string, origin: Origin, args: seq<string>)
      modifies this
      ensures text == old(text) + Record(kind, origin, args)
    {
      Regroup(text, Head(kind, origin), PrintArgs(args), [NL]);
      text := text + Head(kind, origin);
      PrintFields(args);
      text := text + [NL];
    }

    method PrintFields(args: seq<string>)
      modifies this
      ensures text == old(text) + PrintArgs(args)
    {
      if args == [] {
        text := text + [NUL];
      }
      var todo := args;
      while todo != []
        invariant text + PrintEach(todo) == old(text) + PrintArgs(args)
      {
        Regroup(text, [NUL], todo[0], PrintEach(todo[1..]));
        text := text + [NUL] + todo[0];
        todo := todo[1..];
      }
    }
  }

  /** The words the shell is given for a declaration. */
  function Arguments(d: Decl): seq<string> {
    match d
    case AliasIs(a) =>
      [a.name, a.host] + (if a.port.Some? then [a.port.value] else []) + (if a.proto.Some? then [a.proto.value] else [])
    case RuleIs(r) => [r.table, r.chain, r.src, r.dst] + r.tail
  }

  function KindOf(d: Decl): string {
    if d.AliasIs? then "alias" else "rule"
  }

  function OriginOf(d: Decl): Origin {
    if d.AliasIs? then d.alias.origin else d.rule.origin
  }

  function Emit(d: Decl): string {
    Record(KindOf(d), OriginOf(d), Arguments(d))
  }

  function EmitAll(ds: seq<Decl>): string {
    if ds == [] then "" else Emit(ds[0]) + EmitAll(ds[1..])
  }

  // ---------- round trip ----------

  predicate Unbroken(s: string) {
    Free(s, NUL) && Free(s, NL)
  }

  /** What a declaration can be if it has come through the stream. */
  predicate Expressible(d: Decl) {
    && Unbroken(OriginOf(d).file) && OriginOf(d).line <= LINE_MAX && (forall x :: x in Arguments(d) ==> Unbroken(x))
    && match d
       case AliasIs(a) =>
         && a.name != "" && a.host != "" && '.' !in a.name && ':' !in a.name
         && (a.port.Some? ==> a.port.value != "")
         && (a.proto.Some? ==> a.port.Some? && a.proto.value != "" && Lower(a.proto.value) == a.proto.value)
       case RuleIs(r) =>
         r.table != "" && r.chain != "" && r.src != "" && r.dst != "" && Lower(r.chain) == r.chain
  }

  function FieldsOf(d: Decl): (fields: seq<string>)
    ensures |fields| > 3
  {
    [KindOf(d), OriginOf(d).file, Decimal(OriginOf(d).line)] + Arguments(d)
  }

  lemma {:induction false} PrintIsJoin(before: string, args: seq<string>)
    ensures before + PrintEach(args) == Join([before] + args, NUL)
    decreases |args|
  {
    assert ([before] + args)[1..] == args;
    if args == [] {
      assert before + "" == before;
    } else {
      PrintIsJoin(args[0], args[1..]);
      assert [args[0]] + args[1..] == args;
      assert before + PrintEach(args) == before + [NUL] + (args[0] + PrintEach(args[1..]));
    }
  }

  /** A record is its fields with a NUL between each two. */
  lemma RecordIsJoin(d: Decl)
    ensures Emit(d) == Join(FieldsOf(d), NUL) + [NL]
  {
    var kind, file, line, args := KindOf(d), OriginOf(d).file, Decimal(OriginOf(d).line), Arguments(d);
    PrintIsJoin(line, args);
    assert FieldsOf(d) == [kind, file] + ([line] + args);
    assert FieldsOf(d)[1..] == [file] + ([line] + args) && ([file] + ([line] + args))[1..] == [line] + args;
    assert Join(FieldsOf(d), NUL) == kind + [NUL] + (file + [NUL] + Join([line] + args, NUL));
  }

  lemma NumberReadBack(n: nat)
    requires n <= LINE_MAX
    ensures ParseLine(Decimal(n)) == Some(n)
  {
    NumberOfDecimal(n);
    assert Digit(Decimal(n)[0]);
  }

  lemma OneKept(word: string)
    requires word != ""
    ensures DropEmpty([word]) == [word]
  {
    assert [word][1..] == [];
  }

  lemma OptionsReadBack(a: Alias)
    requires Expressible(AliasIs(a))
    ensures DropEmpty(Arguments(AliasIs(a))[2..]) == Arguments(AliasIs(a))[2..]
  {
    var opt := Arguments(AliasIs(a))[2..];
    assert opt == (if a.port.Some? then [a.port.value] else []) + (if a.proto.Some? then [a.proto.value] else []);
    if a.proto.Some? {
      assert opt == [a.port.value, a.proto.value] && opt[1..] == [a.proto.value];
      OneKept(a.proto.value);
    } else if a.port.Some? {
      OneKept(a.port.value);
    }
  }

  lemma FieldsReadBack(d: Decl)
    requires Expressible(d)
    ensures ParseFields(FieldsOf(d)) == Ok(d)
  {
    NumberReadBack(OriginOf(d).line);
    assert FieldsOf(d)[3..] == Arguments(d);
    match d
    case AliasIs(a) => OptionsReadBack(a);
    case RuleIs(r) => assert Arguments(d)[4..] == r.tail;
  }

  lemma DigitsAreClean(n: nat)
    ensures Unbroken(Decimal(n))
  {
    var s := Decimal(n);
    assert forall i :: 0 <= i < |s| ==> Digit(s[i]);
  }

  lemma {:induction false} JoinKeepsFree(parts: seq<string>, c: char, d: char)
    requires c != d && forall p :: p in parts ==> Free(p, d)
    ensures Free(Join(parts, c), d)
  {
    if parts != [] {
      JoinKeepsFree(parts[1..], c, d);
      assert parts[0] in parts;
    }
  }

  lemma FieldsAreClean(d: Decl)
    requires Expressible(d)
    ensures forall f :: f in FieldsOf(d) ==> Unbroken(f)
  {
    DigitsAreClean(OriginOf(d).line);
    assert forall c :: c in KindOf(d) ==> c != NUL && c != NL;
  }

  /** One record, read back as one line. */
  lemma RecordReadBack(d: Decl, rest: string)
    requires Expressible(d)
    ensures DropEmpty(Split(Emit(d) + rest, NL)) == [Join(FieldsOf(d), NUL)] + DropEmpty(Split(rest, NL))
    ensures ParseFields(Split(Join(FieldsOf(d), NUL), NUL)) == Ok(d)
  {
    var line := Join(FieldsOf(d), NUL);
    FieldsAreClean(d);
    RecordIsJoin(d);
    JoinKeepsFree(FieldsOf(d), NUL, NL);
    SplitFirst(line, NL, rest);
    assert ([line] + Split(rest, NL))[1..] == Split(rest, NL);
    SplitJoined(FieldsOf(d), NUL);
    FieldsReadBack(d);
  }

  lemma FirstRecord(ds: seq<Decl>)
    requires ds != [] && Expressible(ds[0])
    ensures DropEmpty(Split(EmitAll(ds), NL)) == [Join(FieldsOf(ds[0]), NUL)] + DropEmpty(Split(EmitAll(ds[1..]), NL))
  {
    RecordReadBack(ds[0], EmitAll(ds[1..]));
  }

  lemma {:induction false} StreamReadBack(ds: seq<Decl>, first: nat)
    requires forall d :: d in ds ==> Expressible(d)
    ensures ParseRecords(DropEmpty(Split(EmitAll(ds), NL)), first) == Ok(ds)
    decreases |ds|
  {
    if ds == [] {
      assert DropEmpty([""]) == DropEmpty([""][1..]);
    } else {
      var line, later := Join(FieldsOf(ds[0]), NUL), DropEmpty(Split(EmitAll(ds[1..]), NL));
      RecordReadBack(ds[0], EmitAll(ds[1..]));
      FirstRecord(ds);
      StreamReadBack(ds[1..], first + 1);
      FirstAndRest(line, later);
      assert [ds[0]] + ds[1..] == ds;
    }
  }

  // ---------- what is taken ----------

  /** Digits, perhaps after a plus sign, for a number below two to the thirty-second. */
  predicate LineNumber(s: string) {
    PlainNumber(s) || (s != "" && s[0] == '+' && PlainNumber(s[1..]))
  }

  /** A record is taken exactly when it has a line number and, for its kind, all fields it needs, and no alias could pass for an address. */
  lemma RecordTakenIff(fields: seq<string>)
    ensures ParseFields(fields).Ok? <==>
      && |fields| >= 3 && LineNumber(fields[2])
      && ((fields[0] == "alias" && |fields| >= 5 && fields[3] != "" && '.' !in fields[3] && ':' !in fields[3] && fields[4] != "")
          || (fields[0] == "rule" && |fields| >= 7 && fields[3] != "" && fields[4] != "" && fields[5] != "" && fields[6] != ""))
  {
    assert "alias"[0] != "rule"[0];
    if |fields| >= 3 {
      LineNumberIs(fields[2]);
    }
  }

  lemma LineNumberIs(s: string)
    ensures ParseLine(s).Some? <==> LineNumber(s)
  {
    PlainLineNumber(s);
    if s != "" {
      PlainLineNumber(s[1..]);
      assert PlainNumber(s) ==> Digit(s[0]);
    }
  }

  predicate PlainNumber(digits: string) {
    digits != "" && (forall i :: 0 <= i < |digits| ==> Digit(digits[i])) && Number(digits) < 0x1_0000_0000
  }

  lemma PlainLineNumber(digits: string)
    ensures (digits == [] || exists i :: 0 <= i < |digits| && !Digit(digits[i])) || Number(digits) > LINE_MAX <==> !PlainNumber(digits)
  {
  }

  /** A problem names something that is so of the record. */
  lemma ProblemIsSo(fields: seq<string>)
    requires ParseFields(fields).Err?
    ensures match ParseFields(fields).error
      case TooFewFields => |fields| < 3
      case BadLine => |fields| >= 3 && !LineNumber(fields[2])
      case UnknownKind => |fields| >= 3 && fields[0] != "alias" && fields[0] != "rule"
      case AliasFields => |fields| < 5 && fields[0] == "alias"
      case NameEmpty => |fields| >= 5 && fields[0] == "alias" && fields[3] == ""
      case NameLooksLiteral => |fields| >= 5 && fields[0] == "alias" && ('.' in fields[3] || ':' in fields[3])
      case HostEmpty => |fields| >= 5 && fields[0] == "alias" && fields[4] == ""
      case RuleFields => |fields| < 7 && fields[0] == "rule"
      case FieldEmpty(field) =>
        && |fields| >= 7 && fields[0] == "rule"
        && exists i :: 0 <= i < 4 && fields[3 + i] == "" && field == ["table", "chain", "source", "destination"][i]
  {
    if |fields| >= 3 {
      LineNumberIs(fields[2]);
    }
    assert "alias"[0] != "rule"[0];
    var labels := ["table", "chain", "source", "destination"];
    match ParseFields(fields).error
    case FieldEmpty(field) =>
      var i := if fields[3] == "" then 0 else if fields[4] == "" then 1 else if fields[5] == "" then 2 else 3;
      assert fields[3 + i] == "" && field == labels[i];
    case _ =>
  }

  /** A line number as it is printed is the number, whatever fits in 32 bits. */
  lemma PrintedLine(n: nat)
    ensures ParseLine(Decimal(n)) == if n < 0x1_0000_0000 then Some(n) else None
  {
    NumberOfDecimal(n);
    assert Digit(Decimal(n)[0]);
  }

  predicate Blanks(fields: seq<string>) {
    forall f :: f in fields ==> f == ""
  }

  lemma {:induction false} BlanksDropped(blanks: seq<string>, rest: seq<string>)
    requires Blanks(blanks)
    ensures DropEmpty(blanks + rest) == DropEmpty(rest)
    decreases |blanks|
  {
    if blanks == [] {
      assert blanks + rest == rest;
    } else {
      assert blanks[0] in blanks && (blanks + rest)[1..] == blanks[1..] + rest;
      assert forall f :: f in blanks[1..] ==> f in blanks;
      BlanksDropped(blanks[1..], rest);
    }
  }

  /** Of the words after an alias's host the first that is not empty is its port and the second its protocol, in lower case. */
  lemma PortAndProtocol(name: string, host: string, a: seq<string>, port: string, b: seq<string>, proto: string, more: seq<string>, origin: Origin)
    requires Blanks(a) && Blanks(b) && port != "" && proto != "" && ParseAlias([name, host], origin).Ok?
    ensures ParseAlias([name, host] + (a + ([port] + (b + ([proto] + more)))), origin)
      == Ok(AliasIs(Alias(name, host, Some(port), Some(Lower(proto)), origin)))
    ensures ParseAlias([name, host] + (a + ([port] + b)), origin) == Ok(AliasIs(Alias(name, host, Some(port), None, origin)))
    ensures ParseAlias([name, host] + a, origin) == Ok(AliasIs(Alias(name, host, None, None, origin)))
  {
    var two, one := a + ([port] + (b + ([proto] + more))), a + ([port] + b);
    assert ([name, host] + two)[2..] == two && ([name, host] + one)[2..] == one && ([name, host] + a)[2..] == a;
    BlanksDropped(a, [port] + (b + ([proto] + more)));
    FirstKept(port, b + ([proto] + more));
    BlanksDropped(b, [proto] + more);
    FirstKept(proto, more);
    BlanksDropped(a, [port] + b);
    FirstKept(port, b);
    BlanksDropped(b, []);
    BlanksDropped(a, []);
    assert b + [] == b && a + [] == a;
  }

  lemma FirstKept(field: string, rest: seq<string>)
    requires field != ""
    ensures DropEmpty([field] + rest) == [field] + DropEmpty(rest)
  {
    assert ([field] + rest)[1..] == rest;
  }

  // ---------- nothing else comes out ----------

  lemma {:induction false} DropEmptyKeeps(fields: seq<string>)
    ensures forall f :: f in DropEmpty(fields) ==> f in fields && f != ""
  {
    if fields != [] {
      DropEmptyKeeps(fields[1..]);
    }
  }

  lemma LowerIsClean(s: string)
    ensures Lower(Lower(s)) == Lower(s)
    ensures Unbroken(s) ==> Unbroken(Lower(s))
  {
    forall i | 0 <= i < |s|
      ensures Lower(s)[i] == LowerChar(s[i])
    {
    }
    if Unbroken(s) {
      forall i | 0 <= i < |s|
        ensures Lower(s)[i] != NUL && Lower(s)[i] != NL
      {
        assert s[i] in s;
      }
    }
  }

  lemma ParsedAliasIsExpressible(fields: seq<string>, origin: Origin)
    requires (forall f :: f in fields ==> Unbroken(f)) && Unbroken(origin.file) && origin.line <= LINE_MAX
    requires ParseAlias(fields, origin).Ok?
    ensures Expressible(ParseAlias(fields, origin).value)
  {
    var opt := DropEmpty(fields[2..]);
    DropEmptyKeeps(fields[2..]);
    if |opt| > 1 { LowerIsClean(opt[1]); }
    forall i | 0 <= i < |opt|
      ensures Unbroken(opt[i]) && opt[i] != ""
    {
      assert opt[i] in opt;
    }
  }

  lemma ParsedRuleIsExpressible(fields: seq<string>, origin: Origin)
    requires (forall f :: f in fields ==> Unbroken(f)) && Unbroken(origin.file) && origin.line <= LINE_MAX
    requires ParseRule(fields, origin).Ok?
    ensures Expressible(ParseRule(fields, origin).value)
  {
    LowerIsClean(fields[1]);
  }

  lemma ParsedIsExpressible(fields: seq<string>)
    requires (forall f :: f in fields ==> Unbroken(f)) && ParseFields(fields).Ok?
    ensures Expressible(ParseFields(fields).value)
  {
    var origin := Origin(fields[1], ParseLine(fields[2]).value);
    if fields[0] == "alias" {
      ParsedAliasIsExpressible(fields[3..], origin);
    } else {
      ParsedRuleIsExpressible(fields[3..], origin);
    }
  }

  lemma {:induction false} AllParsedAreExpressible(records: seq<string>, first: nat)
    requires (forall r :: r in records ==> Free(r, NL)) && ParseRecords(records, first).Ok?
    ensures forall d :: d in ParseRecords(records, first).value ==> Expressible(d)
    decreases |records|
  {
    if records != [] {
      SplitIsFree(records[0], NUL);
      SplitKeepsFree(records[0], NUL, NL);
      ParsedIsExpressible(Split(records[0], NUL));
      AllParsedAreExpressible(records[1..], first + 1);
    }
  }

  /** Whatever is parsed could have been declared. */
  lemma ParseGivesExpressible(input: string)
    requires Parse(input).Ok?
    ensures forall d :: d in Parse(input).value ==> Expressible(d)
  {
    SplitIsFree(input, NL);
    DropEmptyKeeps(Split(input, NL));
    AllParsedAreExpressible(DropEmpty(Split(input, NL)), 1);
  }

  /**
   The reader gives back the declarations that were printed exactly when each of them is
   expressible: no NUL or newline in a word, no required word empty, chain and protocol in lower
   case, no protocol without a port, no alias named like an address, a line number that fits.
   */
  lemma StreamRoundTrip(ds: seq<Decl>)
    ensures Parse(EmitAll(ds)) == Ok(ds) <==> forall d :: d in ds ==> Expressible(d)
  {
    if forall d :: d in ds ==> Expressible(d) {
      StreamReadBack(ds, 1);
    }
    if Parse(EmitAll(ds)) == Ok(ds) {
      ParseGivesExpressible(EmitAll(ds));
    }
  }

  /** `r` is an error exactly when some record does not parse, and then names the first such record and its problem. */
  predicate Reports(r: Result<seq<Decl>, ParseError>, records: seq<string>, first: nat) {
    && (r.Ok? <==> forall i :: 0 <= i < |records| ==> ParseFields(Split(records[i], NUL)).Ok?)
    && (r.Err? ==> FirstBad(records, r.error.record - first, r.error.problem))
  }

  predicate FirstBad(records: seq<string>, i: int, problem: Problem) {
    && 0 <= i < |records| && ParseFields(Split(records[i], NUL)) == Err(problem)
    && forall j :: 0 <= j < i ==> ParseFields(Split(records[j], NUL)).Ok?
  }

  lemma BadLater(records: seq<string>, i: int, problem: Problem)
    requires records != [] && ParseFields(Split(records[0], NUL)).Ok? && FirstBad(records[1..], i, problem)
    ensures FirstBad(records, i + 1, problem)
  {
    forall j | 0 < j < |records|
      ensures records[j] == records[1..][j - 1]
    {
    }
  }

  lemma AllGoodFrom(records: seq<string>)
    requires records != [] && ParseFields(Split(records[0], NUL)).Ok?
    ensures (forall i :: 0 <= i < |records| ==> ParseFields(Split(records[i], NUL)).Ok?)
      <==> forall i :: 0 <= i < |records[1..]| ==> ParseFields(Split(records[1..][i], NUL)).Ok?
  {
    forall j | 0 < j < |records|
      ensures records[j] == records[1..][j - 1]
    {
    }
  }

  lemma RestDecides(records: seq<string>, first: nat)
    requires records != [] && ParseFields(Split(records[0], NUL)).Ok?
    ensures var r, rest := ParseRecords(records, first), ParseRecords(records[1..], first + 1);
      (r.Ok? <==> rest.Ok?) && (r.Err? ==> rest.error == r.error)
  {
  }

  lemma ReportsFromRest(r: Result<seq<Decl>, ParseError>, records: seq<string>, first: nat, rest: Result<seq<Decl>, ParseError>)
    requires records != [] && ParseFields(Split(records[0], NUL)).Ok? && Reports(rest, records[1..], first + 1)
    requires (r.Ok? <==> rest.Ok?) && (r.Err? ==> rest.error == r.error)
    ensures Reports(r, records, first)
  {
    AllGoodFrom(records);
    if rest.Err? {
      BadLater(records, rest.error.record - (first + 1), rest.error.problem);
    }
  }

  /** A stream is refused exactly at its first record that does not parse. */
  lemma {:induction false} FirstBadRecordReported(records: seq<string>, first: nat)
    ensures Reports(ParseRecords(records, first), records, first)
    decreases |records|
  {
    if records != [] && ParseFields(Split(records[0], NUL)).Ok? {
      FirstBadRecordReported(records[1..], first + 1);
      RestDecides(records, first);
      ReportsFromRest(ParseRecords(records, first), records, first, ParseRecords(records[1..], first + 1));
    }
  }
}
