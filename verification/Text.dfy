/**
 Strings the way the scripts use them: prefixes and suffixes cut by parameter expansion,
 decimal numbers inside set names, and the order in which `sort` lists names.
 */
module Text {
  import opened Sorting

  datatype Option<+T> = None | Some(value: T)

  // ---------- prefixes ----------

  /** Neither word is a prefix of the other. */
  predicate Apart(p: string, q: string) {
    !(p <= q) && !(q <= p)
  }

  lemma CommonPrefix(p: string, q: string, s: string)
    requires p <= s && q <= s
    ensures p <= q || q <= p
  {
    assert |p| <= |q| ==> q[..|p|] == s[..|p|];
    assert |q| <= |p| ==> p[..|q|] == s[..|q|];
  }

  /** `${to}${s#from}`: the word with its leading `from` replaced, or `to` put in front. */
  function Swap(s: string, from: string, to: string): (r: string)
    ensures to <= r
    ensures from < s ==> to < r
    ensures from <= s ==> |r| == |s| - |from| + |to|
  {
    if from <= s then to + s[|from|..] else to + s
  }

  lemma SwapBack(s: string, from: string, to: string)
    requires from <= s
    ensures Swap(Swap(s, from, to), to, from) == s
  {
  }

  // ---------- the text after a separator ----------

  /** `${s##*c}`: what follows the last `c`, or everything when there is none. */
  function AfterLast(s: string, c: char): string {
    if c !in s then s else AfterLast(s[1..], c)
  }

  lemma {:induction false} AfterLastSuffix(p: string, s: string, c: char)
    requires c in s
    ensures AfterLast(p + s, c) == AfterLast(s, c)
  {
    if p == [] {
      assert p + s == s;
    } else {
      AfterLastSuffix(p[1..], s, c);
      assert (p + s)[1..] == p[1..] + s;
      assert (p + s)[|p|..] == s;
    }
  }

  /** A separator followed by text without it: that text is what is left. */
  lemma AfterLastWord(p: string, c: char, w: string)
    requires c !in w
    ensures AfterLast(p + [c] + w, c) == w
  {
    AfterLastSuffix(p, [c] + w, c);
    assert p + [c] + w == p + ([c] + w);
    assert ([c] + w)[1..] == w;
  }

  // ---------- case ----------

  function UpperChar(c: char): char {
    if 'a' <= c <= 'z' then c - 'a' + 'A' else c
  }

  function LowerChar(c: char): char {
    if 'A' <= c <= 'Z' then c - 'A' + 'a' else c
  }

  function Upper(s: string): (r: string)
    ensures |r| == |s|
  {
    seq(|s|, i requires 0 <= i < |s| => UpperChar(s[i]))
  }

  function Lower(s: string): (r: string)
    ensures |r| == |s|
  {
    seq(|s|, i requires 0 <= i < |s| => LowerChar(s[i]))
  }

  /** Letters change case and nothing else changes; each way undoes the other. */
  lemma CaseOfLetters(c: char)
    ensures 'A' <= c <= 'Z' ==> LowerChar(c) as int == c as int + 32 && UpperChar(LowerChar(c)) == c && UpperChar(c) == c
    ensures 'a' <= c <= 'z' ==> UpperChar(c) as int == c as int - 32 && LowerChar(UpperChar(c)) == c && LowerChar(c) == c
    ensures !('A' <= c <= 'Z') && !('a' <= c <= 'z') ==> LowerChar(c) == c && UpperChar(c) == c
  {
  }

  /** A word in lower case is what lowering its upper-case spelling gives, and the other way round. */
  lemma CaseUndone(s: string)
    ensures Lower(s) == s ==> Lower(Upper(s)) == s
    ensures Upper(s) == s ==> Upper(Lower(s)) == s
  {
    if Lower(s) == s {
      forall i | 0 <= i < |s|
        ensures Lower(Upper(s))[i] == s[i]
      {
        assert Lower(s)[i] == s[i];
        CaseOfLetters(s[i]);
      }
    }
    if Upper(s) == s {
      forall i | 0 <= i < |s|
        ensures Upper(Lower(s))[i] == s[i]
      {
        assert Upper(s)[i] == s[i];
        CaseOfLetters(s[i]);
      }
    }
  }

  lemma UpperKeepsLowerWords(s: string, t: string)
    requires Lower(s) == s && Lower(t) == t && Upper(s) == Upper(t)
    ensures s == t
  {
    forall i | 0 <= i < |s|
      ensures s[i] == t[i]
    {
      assert Lower(s)[i] == s[i] && Lower(t)[i] == t[i] && Upper(s)[i] == Upper(t)[i];
    }
  }

  // ---------- decimal numbers ----------

  predicate Digit(c: char) {
    '0' <= c <= '9'
  }

  function Decimal(n: nat): (s: string)
    ensures |s| > 0 && forall i :: 0 <= i < |s| ==> Digit(s[i])
  {
    var d := '0' + (n % 10) as char;
    if n < 10 then [d] else Decimal(n / 10) + [d]
  }

  function Number(s: string): nat
    requires forall i :: 0 <= i < |s| ==> Digit(s[i])
  {
    if s == [] then 0
    else
      var d := s[|s| - 1];
      assert Digit(d);
      10 * Number(s[..|s| - 1]) + (d as int - '0' as int)
  }

  lemma {:induction false} NumberOfDecimal(n: nat)
    ensures Number(Decimal(n)) == n
  {
    var d := '0' + (n % 10) as char;
    if n < 10 {
      assert Decimal(n)[..0] == [];
    } else {
      NumberOfDecimal(n / 10);
      assert (Decimal(n / 10) + [d])[..|Decimal(n / 10)|] == Decimal(n / 10);
    }
  }

  /** No number is written with a zero in front. */
  lemma {:induction false} DecimalStarts(n: nat)
    ensures n > 0 ==> Decimal(n)[0] != '0'
    ensures n == 0 ==> Decimal(n) == "0"
  {
    if n >= 10 {
      DecimalStarts(n / 10);
    }
  }

  lemma DecimalInjective(m: nat, n: nat)
    requires Decimal(m) == Decimal(n)
    ensures m == n
  {
    NumberOfDecimal(m);
    NumberOfDecimal(n);
  }

  /** The text before the first separator. */
  function Before(s: string, c: char): string {
    if s == [] || s[0] == c then [] else [s[0]] + Before(s[1..], c)
  }

  lemma {:induction false} BeforeSeparator(x: string, c: char, s: string)
    requires c !in x && x + [c] <= s
    ensures Before(s, c) == x
  {
    if x == [] {
      assert (x + [c])[0] == s[0];
    } else {
      assert (x + [c])[0] == x[0];
      assert (x + [c])[1..] == x[1..] + [c];
      BeforeSeparator(x[1..], c, s[1..]);
    }
  }

  // ---------- the listing order ----------

  predicate LexLe(s: string, t: string) {
    s == [] || (t != [] && (s[0] < t[0] || (s[0] == t[0] && LexLe(s[1..], t[1..]))))
  }

  lemma {:induction false} LexTotal(s: string, t: string)
    ensures LexLe(s, t) || LexLe(t, s)
  {
    if s != [] && t != [] {
      LexTotal(s[1..], t[1..]);
    }
  }

  lemma {:induction false} LexTransitive(s: string, t: string, u: string)
    requires LexLe(s, t) && LexLe(t, u)
    ensures LexLe(s, u)
  {
    if s != [] && s[0] == t[0] == u[0] {
      LexTransitive(s[1..], t[1..], u[1..]);
    }
  }

  lemma {:induction false} LexAntisymmetric(s: string, t: string)
    requires LexLe(s, t) && LexLe(t, s)
    ensures s == t
  {
    if s != [] {
      LexAntisymmetric(s[1..], t[1..]);
      assert s == [s[0]] + s[1..] && t == [t[0]] + t[1..];
    }
  }

  lemma LexOrder()
    ensures TotalOrder(LexLe)
  {
    forall s, t
      ensures LexLe(s, t) || LexLe(t, s)
    {
      LexTotal(s, t);
    }
    forall s, t, u | LexLe(s, t) && LexLe(t, u)
      ensures LexLe(s, u)
    {
      LexTransitive(s, t, u);
    }
    forall s, t | LexLe(s, t) && LexLe(t, s)
      ensures s == t
    {
      LexAntisymmetric(s, t);
    }
  }

  /** Alike up to position `k`, where the first string ends or goes on with the smaller character. */
  predicate PartsBefore(s: string, t: string, k: nat) {
    k <= |s| && k < |t| && s[..k] == t[..k] && (k == |s| || s[k] < t[k])
  }

  lemma {:induction false} PartsIsLess(s: string, t: string, k: nat)
    requires PartsBefore(s, t, k)
    ensures LexLe(s, t) && !LexLe(t, s)
    decreases k
  {
    if k > 0 {
      assert s[0] == s[..k][0] == t[..k][0] == t[0];
      assert s[1..][..k - 1] == s[..k][1..] && t[1..][..k - 1] == t[..k][1..];
      PartsIsLess(s[1..], t[1..], k - 1);
    }
  }

  lemma {:induction false} LessParts(s: string, t: string) returns (k: nat)
    requires LexLe(s, t) && s != t
    ensures PartsBefore(s, t, k)
  {
    if s == [] || s[0] != t[0] {
      k := 0;
    } else {
      assert s == [s[0]] + s[1..] && t == [t[0]] + t[1..];
      k := LessParts(s[1..], t[1..]);
      assert s[..k + 1] == [s[0]] + s[1..][..k] && t[..k + 1] == [t[0]] + t[1..][..k];
      k := k + 1;
    }
  }

  /** The names of a set as `sort` prints them. */
  function Sorted(s: set<string>): (r: seq<string>)
    ensures forall x :: x in r <==> x in s
    ensures |r| == |s|
  {
    LexOrder();
    InOrder(s, LexLe)
  }

  /** The first name, then the others sorted. */
  lemma SortedFirst(s: set<string>)
    requires s != {}
    ensures Sorted(s) != [] && Sorted(s)[0] in s && Sorted(s)[1..] == Sorted(s - {Sorted(s)[0]})
  {
    LexOrder();
    var x := FirstOf(s, LexLe);
    assert Sorted(s) == [x] + Sorted(s - {x});
  }

  ghost predicate Distinct(s: seq<string>) {
    forall i, j :: 0 <= i < j < |s| ==> s[i] != s[j]
  }

  lemma DistinctTail(s: seq<string>)
    requires Distinct(s) && s != []
    ensures Distinct(s[1..]) && s[0] !in s[1..]
    ensures forall x :: x in s <==> x == s[0] || x in s[1..]
  {
    assert s == [s[0]] + s[1..];
  }

  ghost predicate Ordered(s: seq<string>) {
    forall i, j :: 0 <= i < j < |s| ==> LexLe(s[i], s[j])
  }

  lemma SortedIsOrdered(s: set<string>)
    ensures Distinct(Sorted(s)) && Ordered(Sorted(s))
  {
    LexOrder();
    InOrderIncreases(s, LexLe);
  }

  /** Of any two names listed, the earlier one has the smaller character, or the end, where they part. */
  lemma SortedByCharacters(s: set<string>, i: nat, j: nat)
    requires i < j < |Sorted(s)|
    ensures exists k :: PartsBefore(Sorted(s)[i], Sorted(s)[j], k)
  {
    SortedIsOrdered(s);
    var k := LessParts(Sorted(s)[i], Sorted(s)[j]);
  }

  /** So a name that is smaller where they part is listed first. */
  lemma ListedBefore(s: set<string>, x: string, y: string, k: nat) returns (i: nat, j: nat)
    requires x in s && y in s && PartsBefore(x, y, k)
    ensures i < j < |Sorted(s)| && Sorted(s)[i] == x && Sorted(s)[j] == y
  {
    assert x in Sorted(s) && y in Sorted(s);
    i :| 0 <= i < |Sorted(s)| && Sorted(s)[i] == x;
    j :| 0 <= j < |Sorted(s)| && Sorted(s)[j] == y;
    SortedIsOrdered(s);
    PartsIsLess(x, y, k);
  }

  lemma TwoListed(x: string, y: string, k: nat)
    requires PartsBefore(x, y, k)
    ensures Sorted({y, x}) == [x, y]
  {
    var i, j := ListedBefore({y, x}, x, y, k);
    assert |Sorted({y, x})| == 2;
  }
}
