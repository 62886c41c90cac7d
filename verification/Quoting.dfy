/** How src/rules.rs spells a rule's arguments, and how iptables-restore reads a line back into words. */
module Quoting {
  import opened Text

  predicate Separates(c: char) {
    c == ' ' || c == '\t' || c == '\n'
  }

  /** char::is_whitespace: what trim_end takes off the end of a line. */
  predicate Whitespace(c: char) {
    || c == ' ' || '\t' <= c <= '\r' || c == '\U{85}' || c == '\U{A0}' || c == '\U{1680}' || '\U{2000}' <= c <= '\U{200A}'
    || c == '\U{2028}' || c == '\U{2029}' || c == '\U{202F}' || c == '\U{205F}' || c == '\U{3000}'
  }

  /** By code points: the characters Unicode counts as white space. */
  lemma WhitespaceCodes(c: char)
    ensures var n := c as int;
      Whitespace(c) <==> 9 <= n <= 13 || n in {32, 133, 160, 5760, 8232, 8233, 8239, 8287, 12288} || 8192 <= n <= 8202
  {
  }

  // ---------- the printer ----------

  function Escaped(arg: string): string {
    if arg == "" then ""
    else (if arg[0] == '\\' || arg[0] == '"' then ['\\', arg[0]] else [arg[0]]) + Escaped(arg[1..])
  }

  /** An argument is left as it is unless it is empty or holds a space, a tab or a quote. */
  predicate Bare(arg: string) {
    arg != "" && ' ' !in arg && '"' !in arg && '\t' !in arg
  }

  function Quote(arg: string): (r: string)
    ensures r != ""
  {
    if Bare(arg) then arg else "\"" + Escaped(arg) + "\""
  }

  /** Each argument and a space after it. */
  function Spelled(args: seq<string>): string {
    if args == [] then "" else Spelled(args[..|args| - 1]) + Quote(args[|args| - 1]) + " "
  }

  function TrimEnd(s: string): (r: string)
    ensures r <= s
  {
    if s != "" && Whitespace(s[|s| - 1]) then TrimEnd(s[..|s| - 1]) else s
  }

  // ---------- the reader ----------

  /** What has been read, the word being read, and whether it has been opened by a quote, is inside one, or follows a backslash. */
  datatype Reading = Reading(words: seq<string>, word: string, quoted: bool, inside: bool, escaped: bool)

  const START: Reading := Reading([], "", false, false, false)

  function Read(r: Reading, c: char): Reading {
    if r.inside then
      if r.escaped then r.(word := r.word + [c], escaped := false)
      else if c == '\\' then r.(escaped := true)
      else if c == '"' then r.(inside := false)
      else r.(word := r.word + [c])
    else if c == '"' then r.(inside := true, quoted := true)
    else if Separates(c) then
      if r.word == "" && !r.quoted then r else Reading(r.words + [r.word], "", false, false, false)
    else r.(word := r.word + [c])
  }

  function ReadAll(r: Reading, s: string): Reading
    decreases |s|
  {
    if s == "" then r else ReadAll(Read(r, s[0]), s[1..])
  }

  /** The words of a line; the newline ends the last of them. */
  function WordsOf(line: string): seq<string> {
    ReadAll(START, line + "\n").words
  }

  lemma {:induction false} ReadConcat(r: Reading, s: string, t: string)
    ensures ReadAll(r, s + t) == ReadAll(ReadAll(r, s), t)
    decreases |s|
  {
    if s == "" {
      assert s + t == t;
    } else {
      assert (s + t)[1..] == s[1..] + t;
      ReadConcat(Read(r, s[0]), s[1..], t);
    }
  }

  // ---------- reading back what was printed ----------

  function Between(words: seq<string>): Reading {
    Reading(words, "", false, false, false)
  }

  lemma {:induction false} ReadBare(words: seq<string>, word: string, arg: string)
    requires forall i :: 0 <= i < |arg| ==> !Separates(arg[i]) && arg[i] != '"'
    ensures ReadAll(Reading(words, word, false, false, false), arg) == Reading(words, word + arg, false, false, false)
    decreases |arg|
  {
    if arg == "" {
      assert word + "" == word;
    } else {
      ReadBare(words, word + [arg[0]], arg[1..]);
      assert word + [arg[0]] + arg[1..] == word + arg;
    }
  }

  lemma {:induction false} ReadEscaped(words: seq<string>, word: string, arg: string)
    ensures ReadAll(Reading(words, word, true, true, false), Escaped(arg)) == Reading(words, word + arg, true, true, false)
    decreases |arg|
  {
    if arg == "" {
      assert word + "" == word;
    } else {
      var r := Reading(words, word, true, true, false);
      var first := if arg[0] == '\\' || arg[0] == '"' then ['\\', arg[0]] else [arg[0]];
      ReadConcat(r, first, Escaped(arg[1..]));
      ReadEscaped(words, word + [arg[0]], arg[1..]);
      assert word + [arg[0]] + arg[1..] == word + arg;
      ReadOneEscaped(r, arg[0]);
    }
  }

  lemma ReadOneEscaped(r: Reading, c: char)
    requires r.inside && !r.escaped
    ensures ReadAll(r, if c == '\\' || c == '"' then ['\\', c] else [c]) == r.(word := r.word + [c])
  {
    if c == '\\' || c == '"' {
      assert ['\\', c][1..] == [c];
      ReadOne(Read(r, '\\'), c);
    } else {
      ReadOne(r, c);
    }
  }

  lemma ReadOne(r: Reading, c: char)
    ensures ReadAll(r, [c]) == Read(r, c)
  {
    assert [c][1..] == "";
  }

  /** One argument, up to the end of its spelling: a word is pending. */
  lemma ReadQuoted(words: seq<string>, arg: string)
    requires '\n' !in arg
    ensures ReadAll(Between(words), Quote(arg)) == Reading(words, arg, !Bare(arg), false, false)
  {
    var r := Between(words);
    if Bare(arg) {
      forall i | 0 <= i < |arg|
        ensures !Separates(arg[i]) && arg[i] != '"'
      {
        assert arg[i] in arg;
      }
      ReadBare(words, "", arg);
      assert "" + arg == arg;
    } else {
      var open := Reading(words, "", true, true, false);
      ReadOne(r, '"');
      assert Quote(arg) == "\"" + (Escaped(arg) + "\"");
      ReadConcat(r, "\"", Escaped(arg) + "\"");
      ReadConcat(open, Escaped(arg), "\"");
      ReadEscaped(words, "", arg);
      assert "" + arg == arg;
      ReadOne(Reading(words, arg, true, true, false), '"');
    }
  }

  lemma ReadSpelledOne(words: seq<string>, arg: string)
    requires '\n' !in arg
    ensures ReadAll(Between(words), Quote(arg) + " ") == Between(words + [arg])
  {
    ReadConcat(Between(words), Quote(arg), " ");
    ReadQuoted(words, arg);
    ReadOne(Reading(words, arg, !Bare(arg), false, false), ' ');
  }

  lemma {:induction false} ReadSpelled(words: seq<string>, args: seq<string>)
    requires forall a :: a in args ==> '\n' !in a
    ensures ReadAll(Between(words), Spelled(args)) == Between(words + args)
    decreases |args|
  {
    if args == [] {
      assert words + [] == words;
    } else {
      var shorter, last := args[..|args| - 1], args[|args| - 1];
      assert args == shorter + [last];
      assert Spelled(args) == Spelled(shorter) + (Quote(last) + " ");
      ReadConcat(Between(words), Spelled(shorter), Quote(last) + " ");
      ReadSpelled(words, shorter);
      ReadSpelledOne(words + shorter, last);
      assert words + shorter + [last] == words + args;
    }
  }

  // ---------- trimming ----------

  lemma {:induction false} TrimEndIs(s: string)
    ensures var t := TrimEnd(s); (t == "" || !Whitespace(t[|t| - 1])) && forall i :: |t| <= i < |s| ==> Whitespace(s[i])
  {
    if s != "" && Whitespace(s[|s| - 1]) {
      TrimEndIs(s[..|s| - 1]);
    }
  }

  /** Words finished, and the one under way. */
  function Count(r: Reading): nat {
    |r.words| + if r.word != "" || r.quoted then 1 else 0
  }

  /** Reading on never loses a word. */
  lemma {:induction false} ReadKeeps(r: Reading, s: string)
    ensures Count(r) <= Count(ReadAll(r, s)) && r.words <= ReadAll(r, s).words
    decreases |s|
  {
    if s != "" {
      ReadKeeps(Read(r, s[0]), s[1..]);
    }
  }

  /** A tail is safe at the end of a line unless it would be trimmed. */
  predicate Survives(arg: string) {
    Bare(arg) ==> !Whitespace(arg[|arg| - 1])
  }

  function Line(args: seq<string>): string {
    TrimEnd(Spelled(args))
  }

  lemma TrimSpelled(s: string)
    requires s != "" && !Whitespace(s[|s| - 1])
    ensures TrimEnd(s + " ") == s
  {
    assert (s + " ")[..|s|] == s;
  }

  lemma LastOfQuote(arg: string)
    ensures Survives(arg) ==> !Whitespace(Quote(arg)[|Quote(arg)| - 1])
  {
  }

  lemma FinishWord(words: seq<string>, arg: string)
    requires '\n' !in arg
    ensures ReadAll(Between(words), Quote(arg) + "\n").words == words + [arg]
  {
    ReadConcat(Between(words), Quote(arg), "\n");
    ReadQuoted(words, arg);
    ReadOne(Reading(words, arg, !Bare(arg), false, false), '\n');
  }

  lemma LineReadBack(args: seq<string>)
    requires (forall a :: a in args ==> '\n' !in a) && (args == [] || Survives(args[|args| - 1]))
    ensures WordsOf(Line(args)) == args
  {
    if args == [] {
      ReadOne(START, '\n');
      assert "" + "\n" == "\n";
    } else {
      var shorter, last := args[..|args| - 1], args[|args| - 1];
      assert args == shorter + [last];
      var front := Spelled(shorter);
      var text := front + Quote(last);
      assert Spelled(args) == text + " ";
      LastOfQuote(last);
      TrimSpelled(text);
      ReadSpelled([], shorter);
      assert [] + shorter == shorter;
      assert text + "\n" == front + (Quote(last) + "\n");
      ReadConcat(START, front, Quote(last) + "\n");
      FinishWord(shorter, last);
    }
  }

  /** A line cut inside its last word, or before it, does not read back as it was written. */
  lemma CutLineDiffers(args: seq<string>, cut: string)
    requires (forall a :: a in args ==> '\n' !in a) && args != []
    requires var last := args[|args| - 1]; Bare(last) && cut <= Spelled(args) && |cut| < |Spelled(args)| - 1
    ensures WordsOf(cut) != args
  {
    var shorter, last := args[..|args| - 1], args[|args| - 1];
    assert args == shorter + [last];
    var front := Spelled(shorter);
    assert Spelled(args) == front + last + " ";
    ReadSpelled([], shorter);
    assert [] + shorter == shorter;
    if |cut| <= |front| {
      CutInFront(front, cut, shorter);
    } else {
      InFront(front, last, cut);
      CutInLast(front, cut, last, shorter);
    }
  }

  lemma InFront(front: string, last: string, cut: string)
    requires cut <= front + last + " " && |front| < |cut|
    ensures front < cut
  {
    assert front == (front + last + " ")[..|front|] == cut[..|front|];
  }

  lemma CutInFront(front: string, cut: string, shorter: seq<string>)
    requires cut <= front && ReadAll(START, front) == Between(shorter)
    ensures |WordsOf(cut)| <= |shorter|
  {
    var r := ReadAll(START, cut);
    ReadConcat(START, cut, front[|cut|..]);
    assert front == cut + front[|cut|..];
    ReadKeeps(r, front[|cut|..]);
    ReadConcat(START, cut, "\n");
    ReadOne(r, '\n');
  }

  lemma CutInLast(front: string, cut: string, last: string, shorter: seq<string>)
    requires ReadAll(START, front) == Between(shorter) && '\n' !in last && Bare(last)
    requires front < cut && cut <= front + last + " " && |cut| < |front + last|
    ensures WordsOf(cut) != shorter + [last]
  {
    var part := cut[|front|..];
    assert cut == front + part && part == last[..|part|];
    forall i | 0 <= i < |part|
      ensures !Separates(part[i]) && part[i] != '"'
    {
      assert part[i] == last[i] && last[i] in last;
    }
    ReadBare(shorter, "", part);
    assert "" + part == part;
    assert cut + "\n" == front + (part + "\n");
    ReadConcat(START, front, part + "\n");
    ReadConcat(Between(shorter), part, "\n");
    ReadOne(Reading(shorter, part, false, false, false), '\n');
    assert (shorter + [part])[|shorter|] == part && (shorter + [last])[|shorter|] == last;
  }

  lemma TrimsTwo(s: string)
    requires |s| >= 2 && Whitespace(s[|s| - 1]) && Whitespace(s[|s| - 2])
    ensures TrimEnd(s) <= s && |TrimEnd(s)| < |s| - 1
  {
    TrimEndIs(s);
    var t := TrimEnd(s);
    assert t != "" ==> s[|t| - 1] == t[|t| - 1];
  }

  lemma LineCut(args: seq<string>)
    requires (forall a :: a in args ==> '\n' !in a) && args != [] && !Survives(args[|args| - 1])
    ensures WordsOf(Line(args)) != args
  {
    LineEnds(args, Spelled(args));
    TrimsTwo(Spelled(args));
    CutLineDiffers(args, Line(args));
  }

  lemma LineEnds(args: seq<string>, s: string)
    requires args != [] && Bare(args[|args| - 1]) && s == Spelled(args)
    ensures var last := args[|args| - 1]; |s| >= 2 && s[|s| - 1] == ' ' && s[|s| - 2] == last[|last| - 1]
  {
    var front, last := Spelled(args[..|args| - 1]), args[|args| - 1];
    assert s == front + last + " ";
  }

  /**
   A rule line reads back as the arguments it was made of, whatever quotes, backslashes and spaces
   they hold and even when they are empty, exactly when its last argument is not an unquoted one
   ending in white space that trimming takes off.
   */
  lemma LineRoundTrip(args: seq<string>)
    requires forall a :: a in args ==> '\n' !in a
    ensures WordsOf(Line(args)) == args <==> args == [] || Survives(args[|args| - 1])
  {
    if args == [] || Survives(args[|args| - 1]) {
      LineReadBack(args);
    } else {
      LineCut(args);
    }
  }
}
