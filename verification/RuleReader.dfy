/** Rule lines read back as the tests they were written for, by a reader that knows only iptables' words. */
module RuleReader {
  import opened Text
  import opened Netfilter
  import opened Declarations
  import opened Quoting
  import opened RuleBuilding
  import opened RuleText

  // ---------- the reader ----------

  function DirOf(word: string): Option<Dir> {
    if word == "src" then Some(Src) else if word == "dst" then Some(Dst) else None
  }

  function DirsOf(words: seq<string>): Option<seq<Dir>> {
    if words == [] then Some([])
    else
      var first, rest := DirOf(words[0]), DirsOf(words[1..]);
      if first.Some? && rest.Some? then Some([first.value] + rest.value) else None
  }

  /** The test a list of words begins with, if it does, and how many words it takes. */
  function FirstTest(words: seq<string>): Option<(Test, nat)> {
    if |words| >= 2 && words[0] == "-s" then Some((NetTest(Src, words[1]), 2))
    else if |words| >= 2 && words[0] == "-d" then Some((NetTest(Dst, words[1]), 2))
    else if |words| >= 5 && words[0] == "-m" && words[1] == "set" && words[2] == "--match-set" then
      var dirs := DirsOf(Split(words[4], ','));
      if dirs.Some? then Some((SetTest(words[3], dirs.value), 5)) else None
    else None
  }

  /** As many tests as the words begin with, and what is left. */
  function ReadTests(words: seq<string>): (seq<Test>, seq<string>)
    decreases |words|
  {
    var first := FirstTest(words);
    if first.None? || first.value.1 == 0 || first.value.1 > |words| then ([], words)
    else
      var rest := ReadTests(words[first.value.1..]);
      ([first.value.0] + rest.0, rest.1)
  }

  // ---------- what it reads ----------

  function DirWords(dirs: seq<Dir>): (words: seq<string>)
    ensures |words| == |dirs|
  {
    seq(|dirs|, i requires 0 <= i < |dirs| => DirText(dirs[i]))
  }

  lemma DirIsRead(dir: Dir)
    ensures DirOf(DirText(dir)) == Some(dir) && ',' !in DirText(dir)
  {
  }

  lemma {:induction false} DirsAreRead(dirs: seq<Dir>)
    ensures DirsOf(DirWords(dirs)) == Some(dirs)
    decreases |dirs|
  {
    if dirs != [] {
      DirIsRead(dirs[0]);
      assert DirWords(dirs)[1..] == DirWords(dirs[1..]);
      DirsAreRead(dirs[1..]);
      assert [dirs[0]] + dirs[1..] == dirs;
    }
  }

  lemma {:induction false} DirsAreSplit(dirs: seq<Dir>)
    requires dirs != []
    ensures Split(DirsText(dirs), ',') == DirWords(dirs)
    decreases |dirs|
  {
    DirIsRead(dirs[0]);
    if |dirs| == 1 {
      SplitWord(DirText(dirs[0]), ',');
    } else {
      SplitFirst(DirText(dirs[0]), ',', DirsText(dirs[1..]));
      assert DirText(dirs[0]) + "," + DirsText(dirs[1..]) == DirText(dirs[0]) + [','] + DirsText(dirs[1..]);
      DirsAreSplit(dirs[1..]);
      assert DirWords(dirs) == [DirText(dirs[0])] + DirWords(dirs[1..]);
    }
  }

  lemma TestIsFirst(t: Test, rest: seq<string>)
    requires Plain(t)
    ensures FirstTest(TestWords(t) + rest) == Some((t, |TestWords(t)|)) && (TestWords(t) + rest)[|TestWords(t)|..] == rest
  {
    var words := TestWords(t) + rest;
    match t
    case NetTest(dir, network) =>
      assert words[0] == TestWords(t)[0] && words[1] == network;
    case SetTest(name, dirs) =>
      assert words[0] == "-m" && words[1] == "set" && words[2] == "--match-set" && words[3] == name && words[4] == DirsText(dirs);
      DirsAreSplit(dirs);
      DirsAreRead(dirs);
  }

  lemma TestIsRead(t: Test, rest: seq<string>)
    requires Plain(t)
    ensures ReadTests(TestWords(t) + rest) == ([t] + ReadTests(rest).0, ReadTests(rest).1)
  {
    TestIsFirst(t, rest);
  }

  lemma MoreWords(shorter: seq<Test>, last: Test, rest: seq<string>)
    ensures AllWords(shorter + [last]) + rest == AllWords(shorter) + (TestWords(last) + rest)
  {
    assert (shorter + [last])[..|shorter|] == shorter;
  }

  /** The words are read as these tests and then as the rest is. */
  ghost predicate ReadAs(words: seq<string>, tests: seq<Test>, rest: seq<string>) {
    var all, left := ReadTests(words), ReadTests(rest);
    all.0 == tests + left.0 && all.1 == left.1
  }

  lemma ReadAsMore(words: seq<string>, shorter: seq<Test>, mid: seq<string>, last: Test, rest: seq<string>)
    requires ReadAs(words, shorter, mid) && ReadAs(mid, [last], rest)
    ensures ReadAs(words, shorter + [last], rest)
  {
    var left := ReadTests(rest);
    assert shorter + ([last] + left.0) == shorter + [last] + left.0;
  }

  lemma ReadAsNothing(words: seq<string>)
    ensures ReadAs(words, [], words)
  {
    var left := ReadTests(words);
    assert [] + left.0 == left.0;
  }

  lemma {:induction false} TestsAreRead(tests: seq<Test>, rest: seq<string>)
    requires forall t :: t in tests ==> Plain(t)
    ensures ReadAs(AllWords(tests) + rest, tests, rest)
    decreases |tests|
  {
    if tests == [] {
      assert AllWords([]) + rest == rest;
      ReadAsNothing(rest);
    } else {
      var shorter, last := tests[..|tests| - 1], tests[|tests| - 1];
      assert tests == shorter + [last];
      MoreWords(shorter, last, rest);
      TestsAreRead(shorter, TestWords(last) + rest);
      TestIsRead(last, rest);
      ReadAsMore(AllWords(tests) + rest, shorter, TestWords(last) + rest, last, rest);
    }
  }

  /**
   What iptables-restore reads from the line of a rule: its tests, in order and with their
   directions, followed by whatever its tail reads as. A tail that begins with no test is left as it is.
   */
  lemma RuleIsRead(l: Line)
    requires (forall t :: t in l.tests ==> Plain(t)) && forall w :: w in Words(l) ==> '\n' !in w
    requires Words(l) != [] ==> Survives(Words(l)[|Words(l)| - 1])
    ensures ReadTests(WordsOf(LineText(l))) == (l.tests + ReadTests(l.tail).0, ReadTests(l.tail).1)
    ensures FirstTest(l.tail).None? ==> ReadTests(WordsOf(LineText(l))) == (l.tests, l.tail)
  {
    RuleRoundTrip(l);
    TestsAreRead(l.tests, l.tail);
    assert l.tests + [] == l.tests;
  }
}
