/** Single inputs: some on which a property the code does not have in general fails, and some with what the code makes of them. */
module Samples {
  import opened Text
  import opened Netfilter
  import opened Kernel
  import opened Hosts
  import opened Generations
  import opened Delegates
  import opened Apply
  import opened ApplyProof
  import opened Tidy
  import opened Switching
  import opened Zones
  import opened Quoting
  import opened RuleText
  import RuleBuilding
  import EndToEnd
  import Resolution
  import Declarations
  import AliasSets
  import Machines
  import Commit

  // ---------- lines that are not read back ----------

  /** A comment that ends in a no-break space. */
  const COMMENT: string := "web\U{A0}"

  lemma CommentIsTrimmed()
    ensures WordsOf(Quoting.Line(["--comment", COMMENT])) != ["--comment", COMMENT]
  {
    var args := ["--comment", COMMENT];
    assert Whitespace(COMMENT[|COMMENT| - 1]) && Bare(COMMENT);
    assert args[|args| - 1] == COMMENT;
    LineRoundTrip(args);
  }

  /** The same as the rule of a chain. */
  lemma RuleIsTrimmed()
    ensures var l := RuleBuilding.Line([], ["-m", "comment", "--comment", COMMENT]); WordsOf(LineText(l)) != Words(l)
  {
    var l := RuleBuilding.Line([], ["-m", "comment", "--comment", COMMENT]);
    assert Words(l) == ["-m", "comment", "--comment", COMMENT];
    assert Whitespace(COMMENT[|COMMENT| - 1]) && Bare(COMMENT);
    RuleRoundTrip(l);
  }

  // ---------- a rollback that changes a verdict ----------

  const LIVE: Name := "CFW_delegate_input"
  const CANDIDATE: Name := "CFWTMP_delegate_input"

  /** A filter table ready to be switched, with another program's rule behind the live jump. */
  function Filter(): Chains {
    map["INPUT" := [JumpTo(LIVE), Always("DROP")], LIVE := [Always("ACCEPT")], CANDIDATE := [Always("ACCEPT")]]
  }

  lemma FilterDelegates(d: Name)
    requires d in Filter()
    ensures (OLD < d <==> d == LIVE) && (NEW < d <==> d == CANDIDATE)
  {
    assert LIVE == OLD + "input" && CANDIDATE == NEW + "input";
    assert OLD[0] == 'C' && NEW[0] == 'C' && "INPUT"[0] == 'I';
    assert OLD[3] == '_' && NEW[3] == 'T' && LIVE[3] == '_' && CANDIDATE[3] == 'T';
  }

  lemma HookOfWord(d: Name, prefix: string, word: string)
    requires prefix != "" && prefix[|prefix| - 1] == '_' && d == prefix + word && '_' !in word
    ensures HookOf(d) == Upper(word)
  {
    var start := prefix[..|prefix| - 1];
    assert prefix == start + ['_'];
    AfterLastWord(start, '_', word);
  }

  lemma UpperInput(word: string)
    requires word == "input"
    ensures Upper(word) == "INPUT" && '_' !in word
  {
  }

  lemma FilterHooks()
    ensures HookOf(LIVE) == "INPUT" && HookOf(CANDIDATE) == "INPUT"
  {
    var word := "input";
    UpperInput(word);
    assert LIVE == OLD + word && CANDIDATE == NEW + word;
    assert OLD[|OLD| - 1] == '_' && NEW[|NEW| - 1] == '_';
    HookOfWord(LIVE, OLD, word);
    HookOfWord(CANDIDATE, NEW, word);
  }

  lemma OnlyDelegateIsHooked(c: Chains, prefix: string, d: Name)
    requires d !in BUILTINS && HookOf(d) in BUILTINS && forall n :: n in c && prefix < n ==> n == d
    ensures Hooked(c, prefix)
  {
    ListingIs(c, prefix);
  }

  lemma DelegateNotBuiltin(d: Name)
    requires d == LIVE || d == CANDIDATE
    ensures d !in BUILTINS
  {
    assert d[0] == 'C';
  }

  lemma FilterIsHooked()
    ensures Hooked(Filter(), OLD) && Hooked(Filter(), NEW)
  {
    FilterHooks();
    DelegateNotBuiltin(LIVE);
    DelegateNotBuiltin(CANDIDATE);
    forall n | n in Filter()
      ensures (OLD < n <==> n == LIVE) && (NEW < n <==> n == CANDIDATE)
    {
      FilterDelegates(n);
    }
    OnlyDelegateIsHooked(Filter(), OLD, LIVE);
    OnlyDelegateIsHooked(Filter(), NEW, CANDIDATE);
  }

  lemma FilterIsSwitchable()
    ensures Switchable(Filter(), NEW, OLD) && HooksThere(Filter(), NEW) && HookOf(LIVE) == "INPUT"
  {
    var c := Filter();
    FilterHooks();
    FilterIsHooked();
    ListingIs(c, NEW);
    forall d | d in c
      ensures (OLD < d <==> d == LIVE) && (NEW < d <==> d == CANDIDATE)
    {
      FilterDelegates(d);
    }
    FilterRow();
  }

  lemma FilterRow()
    ensures Once(Filter()["INPUT"], JumpTo(LIVE)) && JumpTo(CANDIDATE) !in Filter()["INPUT"]
  {
    assert LIVE[3] == '_' && CANDIDATE[3] == 'T';
    assert RemoveFirst([JumpTo(LIVE), Always("DROP")], JumpTo(LIVE)) == [Always("DROP")];
  }

  lemma AcceptedBefore(sets: Sets, p: Packet)
    ensures Fate(Filter(), sets, "INPUT", p, 1) == Decided("ACCEPT")
  {
    var c := Filter();
    DelegateDecides(c, sets, LIVE, "ACCEPT", [Always("DROP")], p, 1);
    assert c["INPUT"] == [JumpTo(LIVE)] + [Always("DROP")];
    FateIsRowFate(c, sets, "INPUT", p, 1);
  }

  /** Every packet was let in before the reload, and after a reload that was declined every packet is dropped. */
  lemma DecliningShutsOut(sets: Sets, p: Packet)
    ensures Switchable(Filter(), NEW, OLD) && HooksThere(Filter(), NEW)
    ensures Fate(Filter(), sets, "INPUT", p, 1) == Decided("ACCEPT")
    ensures Fate(RolledBack(Filter(), NEW, OLD), sets, "INPUT", p, 1) == Decided("DROP")
  {
    FilterIsSwitchable();
    AcceptedBefore(sets, p);
    DroppedAfter(sets, p);
  }

  lemma DroppedAfter(sets: Sets, p: Packet)
    requires Switchable(Filter(), NEW, OLD) && HooksThere(Filter(), NEW) && HookOf(LIVE) == "INPUT"
    ensures Fate(RolledBack(Filter(), NEW, OLD), sets, "INPUT", p, 1) == Decided("DROP")
  {
    var r := RolledBack(Filter(), NEW, OLD);
    FilterDelegates(LIVE);
    ForAtHook(Filter(), OLD, LIVE);
    RollbackRow(Filter(), NEW, OLD, "INPUT");
    assert RemoveFirst([JumpTo(LIVE), Always("DROP")], JumpTo(LIVE)) == [Always("DROP")];
    assert r["INPUT"] == [Always("DROP")] + [JumpTo(LIVE)];
    AlwaysDecides(r, sets, "DROP", [JumpTo(LIVE)], p, 1);
    FateIsRowFate(r, sets, "INPUT", p, 1);
  }

  // ---------- a cleanup that changes a verdict ----------

  /** What a switch refused half-way can leave: a candidate hooked, and nothing else to decide. */
  function Refused(): Chains {
    map["INPUT" := [JumpTo(CANDIDATE)], CANDIDATE := [Always("ACCEPT")]]
  }

  /** Every packet was let in, and as soon as the cleanup flushes the candidate every packet runs through to the policy. */
  lemma FlushLetsThrough(sets: Sets, p: Packet)
    ensures Fate(Refused(), sets, "INPUT", p, 1) == Decided("ACCEPT")
    ensures Exec(Refused(), sets.Keys, Flush(CANDIDATE)).Some?
    ensures Fate(Exec(Refused(), sets.Keys, Flush(CANDIDATE)).value, sets, "INPUT", p, 1) == Through
  {
    var c := Refused();
    var x := Exec(c, sets.Keys, Flush(CANDIDATE)).value;
    DelegateDecides(c, sets, CANDIDATE, "ACCEPT", [], p, 1);
    assert c["INPUT"] == [JumpTo(CANDIDATE)] + [];
    FateIsRowFate(c, sets, "INPUT", p, 1);
    assert x["INPUT"] == [JumpTo(CANDIDATE)] && x[CANDIDATE] == [];
    EndToEnd.LastJump(x, sets, CANDIDATE, p, 1);
    FateIsRowFate(x, sets, "INPUT", p, 1);
  }

  // ---------- one input each for what leaves a mark on a packet ----------

  const ALLOW: Name := "CFWTMP_10_allow+input"
  const DENY: Name := "CFWTMP_20_deny+input"

  lemma AllowFirst()
    ensures PartsBefore(ALLOW, DENY, 7)
  {
    assert ALLOW[..7] == "CFWTMP_" == DENY[..7] && ALLOW[7] == '1' && DENY[7] == '2';
  }

  /** Zones are hooked in the order of their numbers: allow before deny. */
  lemma AllowBeforeDeny(c: Chains, hook: string) returns (i: nat, j: nat)
    requires hook in HOOKS && ALLOW in ZonesAmong(Built(c), hook) && DENY in ZonesAmong(Built(c), hook)
    ensures Delegate(hook) in Zoned(c)
    ensures var row := Zoned(c)[Delegate(hook)]; i < j < |row| && row[i] == JumpTo(ALLOW) && row[j] == JumpTo(DENY)
  {
    AllowFirst();
    i, j := ZonesInOrder(c, hook, ALLOW, DENY, 7);
  }

  lemma TwoSorted()
    ensures Sorted({DENY, ALLOW}) == [ALLOW, DENY]
  {
    AllowFirst();
    TwoListed(ALLOW, DENY, 7);
  }

  /** A rule from an IPv6 address is compiled for IPv6 and not for IPv4. */
  lemma Ipv6Address(env: RuleBuilding.Env)
    ensures RuleBuilding.Endpoint("2001:db8::1", Src, V4, env).None?
    ensures RuleBuilding.Endpoint("2001:db8::1", Src, V6, env) == Some([NetTest(Src, "2001:db8::1")])
  {
    Resolution.Classified("2001:db8::1");
    assert "2001:db8::1"[4] == ':';
  }

  /** The rule of an alias matches the end of the packet it was written for. */
  lemma SourceAlias()
    ensures TestWords(SetTest("CFW_2_lan", [Src])) == ["-m", "set", "--match-set", "CFW_2_lan", "src"]
    ensures TestWords(SetTest("CFW_2_web", [Dst, Dst])) == ["-m", "set", "--match-set", "CFW_2_web", "dst,dst"]
  {
    var both := [Dst, Dst];
    assert both[1..] == [Dst];
    assert DirsText(both) == DirText(both[0]) + "," + DirsText(both[1..]);
    assert "dst" + "," + "dst" == "dst,dst";
  }

  /** A host with a UDP port makes an entry for UDP. */
  lemma UdpEntry(origin: Declarations.Origin)
    ensures var a := Declarations.Alias("dns", "10.0.0.53", Some("53"), Some("udp"), origin);
      AliasSets.SpecOf(a) == Some("udp:53")
  {
    assert "udp" + ":" + "53" == "udp:53";
  }

  /** A network is not a name. */
  lemma NetworkStays()
    ensures Resolution.Classify("198.51.100.0/24") == Resolution.Literal("198.51.100.0/24")
  {
    var n := "198.51.100.0/24";
    Resolution.Classified(n);
    assert n[0] == '1' && Resolution.DIGITS[1] == '1';
    assert forall c :: c in n ==> c in "0123456789./";
  }

  /** A commit retires the live chains and puts the candidates in their place, beginning with a step of that name. */
  lemma CommitNames(m: Machines.Machine, tabs: seq<TabId>)
    requires (forall t :: t in tabs ==> t in m.tables) && m.step == None
    ensures Swap("CFW_10_a+input", FWR, FWD) == "CFWDEL_10_a+input" && Swap("CFWTMP_10_a+input", FWTMP, FWR) == "CFW_10_a+input"
    ensures var states := Commit.CommitRun(m, tabs).states; states != [] && states[0].step == Some("rename_chain_real_to_delete")
  {
    assert "CFW_10_a+input" == FWR + "10_a+input" && "CFWTMP_10_a+input" == FWTMP + "10_a+input";
    assert "CFW_10_a+input"[|FWR|..] == "10_a+input" && "CFWTMP_10_a+input"[|FWTMP|..] == "10_a+input";
    assert FWD + "10_a+input" == "CFWDEL_10_a+input" && FWR + "10_a+input" == "CFW_10_a+input";
  }

  /** The step written after each pass is the next one. */
  lemma StepsInTurn(m: Machines.Machine, tabs: seq<TabId>)
    requires forall t :: t in tabs ==> t in m.tables
    ensures var turn := Commit.Turn(m, tabs, "rename_chain_real_to_delete");
      turn.ok ==> Machines.Last(m, turn.states).step == Some("rename_chain_tmp_to_real")
    ensures var turn := Commit.Turn(m, tabs, "rename_chain_tmp_to_real"); turn.ok ==> Machines.Last(m, turn.states).step == Some("done")
  {
    assert "rename_chain_real_to_delete"[13] == 'r' && "rename_chain_tmp_to_real"[13] == 't';
  }

  /** The sets of version 12 are those whose names begin like this. */
  lemma SetVersion()
    ensures SetPrefix(12) == "CFW_12_"
  {
    assert Decimal(12) == Decimal(1) + ['2'] && Decimal(1) == ['1'];
    assert FWR + "12" + "_" == "CFW_12_";
  }
}
