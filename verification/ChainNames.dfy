/** src/rules.rs: what a chain is called in the kernel. */
module ChainNames {
  import opened Text
  import opened Declarations
  import opened Kernel

  datatype NameError = BadFileName(chain: string, origin: Origin) | TooLong(full: string, origin: Origin, over: nat)

  predicate AllDigits(s: string) {
    forall i :: 0 <= i < |s| ==> Digit(s[i])
  }

  /** The text after the first separator, if there is one. */
  function After(s: string, c: char): string {
    if s == "" then "" else if s[0] == c then s[1..] else After(s[1..], c)
  }

  const SH: string := ".sh"

  /** NN_name of a config file named NN_name.sh. */
  function StemOf(file: string): Option<string> {
    if |file| < |SH| || file[|file| - |SH|..] != SH then None
    else
      var s := file[..|file| - |SH|];
      var n := Before(s, '_');
      if '_' in s && n != "" && AllDigits(n) && After(s, '_') != "" then Some(s) else None
  }

  predicate Global(chain: string) {
    chain != "" && chain[0] == '+'
  }

  /** The name of a chain without prefix: `+chain` as written, or the file's stem, `+`, and the chain. */
  function ChainName(chain: string, origin: Origin): Result<string, NameError> {
    if Global(chain) then Ok("+" + chain[1..])
    else
      var stem := StemOf(origin.file);
      if stem.Some? then Ok(stem.value + "+" + chain) else Err(BadFileName(chain, origin))
  }

  function CheckLength(chain: string, prefix: string, origin: Origin): Option<NameError> {
    var full := prefix + chain;
    if |full| >= CHAIN_NAME_MAX then Some(TooLong(full, origin, |full| - CHAIN_NAME_MAX + 1)) else None
  }

  // ---------- names do not collide ----------

  lemma StemStartsWithDigit(file: string)
    requires StemOf(file).Some?
    ensures StemOf(file).value != "" && Digit(StemOf(file).value[0])
  {
    var s := StemOf(file).value;
    assert Before(s, '_') != "" && Before(s, '_')[0] == s[0];
  }

  /** A chain of its file only, as the parser gives it: in lower case. */
  predicate Local(chain: string) {
    !Global(chain) && Lower(chain) == chain
  }

  /** Another stem goes on from this one with a `+` and what could begin the name of a local chain. */
  predicate Shadows(stem: string, other: string) {
    |stem| + 1 < |other| && stem + "+" <= other && Local(other[|stem| + 1..])
  }

  lemma LowerConcat(s: string, t: string)
    ensures Lower(s + t) == Lower(s) + Lower(t)
  {
  }

  lemma LowerPart(s: string, t: string)
    requires Lower(s + t) == s + t
    ensures Lower(s) == s && Lower(t) == t
  {
    LowerConcat(s, t);
    assert (Lower(s) + Lower(t))[..|s|] == Lower(s) && (s + t)[..|s|] == s;
    assert (Lower(s) + Lower(t))[|s|..] == Lower(t) && (s + t)[|s|..] == t;
  }

  /** One name made from two stems: the longer stem goes on from the shorter. */
  lemma OneNameTwoStems(stem: string, a: string, other: string, b: string)
    requires Local(a) && Local(b) && |stem| < |other| && stem + "+" + a == other + "+" + b
    ensures Shadows(stem, other)
  {
    var name := stem + "+" + a;
    assert name[..|stem| + 1] == stem + "+" && name[..|other|] == other;
    assert stem + "+" <= other;
    var rest := other[|stem| + 1..];
    assert a == name[|stem| + 1..] && a == rest + ("+" + b);
    LowerPart(rest, "+" + b);
  }

  lemma SameStemSameChain(stem: string, a: string, other: string, b: string)
    requires |stem| == |other| && stem + "+" + a == other + "+" + b
    ensures stem == other && a == b
  {
    var name := stem + "+" + a;
    assert name[..|stem|] == stem && name[..|other|] == other;
    assert name[|stem| + 1..] == a && name[|other| + 1..] == b;
  }

  /** Two stems neither of which shadows the other make one name only of one chain. */
  lemma LocalNamesApart(stem: string, a: string, other: string, b: string)
    requires Local(a) && Local(b) && stem + "+" + a == other + "+" + b && !Shadows(stem, other) && !Shadows(other, stem)
    ensures stem == other && a == b
  {
    if |stem| < |other| {
      OneNameTwoStems(stem, a, other, b);
    } else if |other| < |stem| {
      OneNameTwoStems(other, b, stem, a);
    } else {
      SameStemSameChain(stem, a, other, b);
    }
  }

  /** Both chains are local, and one file's stem shadows the other's. */
  predicate Clashing(a: string, from: Origin, b: string, at: Origin) {
    !Global(a) && !Global(b) && StemOf(from.file).Some? && StemOf(at.file).Some?
    && (Shadows(StemOf(from.file).value, StemOf(at.file).value) || Shadows(StemOf(at.file).value, StemOf(from.file).value))
  }

  /**
   Two rules go to chains of one name exactly when both name the same global chain, or both are in
   files of one stem and name the same local chain; unless one file's stem shadows the other's.
   */
  lemma NamesAreInjective(a: string, from: Origin, b: string, at: Origin)
    requires ChainName(a, from).Ok? && ChainName(b, at).Ok? && Lower(a) == a && Lower(b) == b && !Clashing(a, from, b, at)
    ensures ChainName(a, from) == ChainName(b, at)
      <==> a == b && Global(a) == Global(b) && (!Global(a) ==> StemOf(from.file) == StemOf(at.file))
  {
    if Global(a) { assert a == "+" + a[1..]; } else { StemStartsWithDigit(from.file); }
    if Global(b) { assert b == "+" + b[1..]; } else { StemStartsWithDigit(at.file); }
    if ChainName(a, from) == ChainName(b, at) && !Global(a) && !Global(b) {
      LocalNamesApart(StemOf(from.file).value, a, StemOf(at.file).value, b);
    }
  }

  lemma SameName(stem: string, other: string, b: string)
    requires |stem| < |other| && stem + "+" <= other
    ensures stem + "+" + (other[|stem| + 1..] + "+" + b) == other + "+" + b
  {
    assert other == stem + "+" + other[|stem| + 1..];
  }

  lemma StillLocal(rest: string, b: string)
    requires rest != "" && Local(rest) && Local(b)
    ensures Local(rest + "+" + b)
  {
    LowerConcat(rest, "+");
    LowerConcat(rest + "+", b);
    assert Lower("+") == "+";
    assert (rest + "+" + b)[0] == rest[0];
  }

  /** Every local chain of a shadowing file has the name of some local chain of the file it shadows. */
  lemma ShadowedStemCollides(from: Origin, b: string, at: Origin) returns (a: string)
    requires StemOf(from.file).Some? && StemOf(at.file).Some? && Shadows(StemOf(from.file).value, StemOf(at.file).value) && Local(b)
    ensures Local(a) && ChainName(a, from) == ChainName(b, at)
  {
    var stem, other := StemOf(from.file).value, StemOf(at.file).value;
    var rest := other[|stem| + 1..];
    a := rest + "+" + b;
    StillLocal(rest, b);
    SameName(stem, other, b);
  }

  /** No local chain of one file has a name in common with one of the other. */
  ghost predicate NamesApart(from: Origin, at: Origin) {
    forall a, b :: Local(a) && Local(b) ==> ChainName(a, from) != ChainName(b, at)
  }

  /** The local chains of two files keep apart if and only if neither stem shadows the other. */
  lemma FilesKeepApartIff(from: Origin, at: Origin)
    requires StemOf(from.file).Some? && StemOf(at.file).Some? && StemOf(from.file) != StemOf(at.file)
    ensures var stem, other := StemOf(from.file).value, StemOf(at.file).value;
      NamesApart(from, at) <==> !Shadows(stem, other) && !Shadows(other, stem)
  {
    var stem, other := StemOf(from.file).value, StemOf(at.file).value;
    var x := "x";
    assert Local(x);
    if Shadows(stem, other) {
      var a := ShadowedStemCollides(from, x, at);
    }
    if Shadows(other, stem) {
      var b := ShadowedStemCollides(at, x, from);
    }
    if !Shadows(stem, other) && !Shadows(other, stem) {
      forall a, b | Local(a) && Local(b)
        ensures ChainName(a, from) != ChainName(b, at)
      {
        NamesAreInjective(a, from, b, at);
      }
    }
  }

  /** Such stems: two files and two chains that make one name. */
  lemma PlusInStemCollides()
    ensures var a, b := Origin("1_a.sh", 1), Origin("1_a+b.sh", 1);
      ChainName("b+c", a) == ChainName("c", b) == Ok("1_a+b+c")
  {
    StemOfNamed("1", "a");
    StemOfNamed("1", "a+b");
    assert "1_a" + "+" + "b+c" == "1_a+b+c" && "1_a+b" + "+" + "c" == "1_a+b+c";
    assert "1" + "_" + "a" + ".sh" == "1_a.sh" && "1" + "_" + "a+b" + ".sh" == "1_a+b.sh";
    assert "1" + "_" + "a" == "1_a" && "1" + "_" + "a+b" == "1_a+b";
  }

  lemma {:induction false} AfterSeparator(n: string, c: char, rest: string)
    requires c !in n
    ensures Before(n + [c] + rest, c) == n && After(n + [c] + rest, c) == rest
  {
    var s := n + [c] + rest;
    if n != "" {
      AfterSeparator(n[1..], c, rest);
      assert s[1..] == n[1..] + [c] + rest;
    }
  }

  lemma StemOfNamed(n: string, rest: string)
    requires n != "" && AllDigits(n) && rest != ""
    ensures StemOf(n + "_" + rest + SH) == Some(n + "_" + rest)
  {
    var file := n + "_" + rest + SH;
    AfterSeparator(n, '_', rest);
    assert file[|file| - |SH|..] == SH && file[..|file| - |SH|] == n + "_" + rest;
    assert (n + "_" + rest)[|n|] == '_';
  }

  /** The local chains of a file are named for it exactly when it is digits, an underscore, something, and .sh. */
  lemma StemIff(file: string)
    ensures StemOf(file).Some? <==> exists n, rest :: n != "" && (forall c :: c in n ==> '0' <= c <= '9') && rest != "" && file == n + "_" + rest + ".sh"
  {
    if StemOf(file).Some? {
      var s := StemOf(file).value;
      var n, rest := Before(s, '_'), After(s, '_');
      SplitAtFirst(s, '_');
      assert file == s + ".sh" && s == n + "_" + rest;
      assert file == n + "_" + rest + ".sh";
    }
    if n, rest :| n != "" && (forall c :: c in n ==> '0' <= c <= '9') && rest != "" && file == n + "_" + rest + ".sh" {
      assert forall i :: 0 <= i < |n| ==> n[i] in n;
      StemOfNamed(n, rest);
    }
  }

  lemma {:induction false} SplitAtFirst(s: string, c: char)
    requires c in s
    ensures s == Before(s, c) + [c] + After(s, c)
  {
    if s[0] != c {
      SplitAtFirst(s[1..], c);
      assert s == [s[0]] + s[1..];
    }
  }

  /** And then a chain's name is the file's without .sh, a plus and the chain; a chain written with a plus keeps it and nothing else. */
  lemma ChainNameIs(n: string, rest: string, chain: string, line: nat)
    requires n != "" && (forall c :: c in n ==> '0' <= c <= '9') && rest != ""
    ensures ChainName(chain, Origin(n + "_" + rest + ".sh", line)) == Ok(if "+" <= chain then chain else n + "_" + rest + "+" + chain)
  {
    assert forall i :: 0 <= i < |n| ==> n[i] in n;
    StemOfNamed(n, rest);
    if Global(chain) {
      assert chain == "+" + chain[1..];
    }
  }

  /** Below 29 characters with the prefix a name is let through. */
  lemma LengthIff(chain: string, prefix: string, origin: Origin)
    ensures CheckLength(chain, prefix, origin).None? <==> |prefix| + |chain| < 29
    ensures |prefix| + |chain| >= 29 ==> CheckLength(chain, prefix, origin) == Some(TooLong(prefix + chain, origin, |prefix| + |chain| - 28))
  {
  }

  /** A name starts with a digit or a `+`, so no generated chain is taken for a delegate. */
  lemma NotADelegate(chain: string, origin: Origin)
    requires ChainName(chain, origin).Ok?
    ensures !("delegate_" <= ChainName(chain, origin).value)
  {
    var name := ChainName(chain, origin).value;
    assert "delegate_"[0] == 'd';
    if !Global(chain) {
      StemStartsWithDigit(origin.file);
      assert name[0] == StemOf(origin.file).value[0];
    }
  }
}
