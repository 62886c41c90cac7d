/**
 The kernel as the scripts see it: per family and table a map from chain name to rules,
 IP sets beside them, and the primitive commands that change both.

 Match options are opaque. A packet is modelled by what it passes: whether an address of it
 lies in a network as written, whether a port of it meets a port spec, and whether it meets a
 list of match options.
 */
module Netfilter {
  import opened Text

  type Name = string
  datatype Family = V4 | V6
  datatype TabId = TabId(family: Family, table: string)
  datatype Dir = Src | Dst

  datatype SetType = Net | NetPort | Port
  datatype Entry = Entry(host: string, port: Option<string>)
  datatype SetBody = SetBody(kind: SetType, entries: set<Entry>)
  type Sets = map<Name, SetBody>

  datatype Test = NetTest(dir: Dir, network: string) | SetTest(name: Name, dirs: seq<Dir>)
  datatype Target = Jump(chain: Name) | Verdict(verdict: string) | Return | Continue
  datatype Rule = Rule(tests: seq<Test>, options: seq<string>, target: Target)
  type Chains = map<Name, seq<Rule>>

  /** `-j chain` with no match: the only rules the scripts themselves write. */
  function JumpTo(chain: Name): Rule {
    Rule([], [], Jump(chain))
  }

  // ---------- verdicts ----------

  datatype Packet = Packet(
    within: (Dir, string) -> bool,
    port: (Dir, string) -> bool,
    meets: seq<string> -> bool)

  /** How a walk over a rule list ends. `Deep` is a jump beyond the depth the walk is allowed. */
  datatype Outcome = Decided(verdict: string) | Returned | Through | Deep

  /** A set match succeeds only when it names one direction per dimension of the set. */
  ghost predicate SetHit(body: SetBody, dirs: seq<Dir>, p: Packet) {
    match body.kind
    case Net => |dirs| == 1 && exists e :: e in body.entries && p.within(dirs[0], e.host)
    case Port => |dirs| == 1 && exists e :: e in body.entries && e.port.Some? && p.port(dirs[0], e.port.value)
    case NetPort =>
      && |dirs| == 2
      && exists e :: e in body.entries && p.within(dirs[0], e.host) && e.port.Some? && p.port(dirs[1], e.port.value)
  }

  /** With one entry: each direction looks at its own end of the packet, and too few or too many never match. */
  lemma OneEntryHit(kind: SetType, host: string, spec: string, dirs: seq<Dir>, p: Packet)
    ensures var body := SetBody(kind, {Entry(host, Some(spec))});
      && (forall a, b :: kind.NetPort? && dirs == [a, b] ==> (SetHit(body, dirs, p) <==> p.within(a, host) && p.port(b, spec)))
      && (forall a :: kind.Net? && dirs == [a] ==> (SetHit(body, dirs, p) <==> p.within(a, host)))
      && (forall a :: kind.Port? && dirs == [a] ==> (SetHit(body, dirs, p) <==> p.port(a, spec)))
      && (|dirs| != (if kind.NetPort? then 2 else 1) ==> !SetHit(body, dirs, p))
  {
    assert Entry(host, Some(spec)) in {Entry(host, Some(spec))};
  }

  ghost predicate Passes(t: Test, sets: Sets, p: Packet) {
    match t
    case NetTest(dir, network) => p.within(dir, network)
    case SetTest(name, dirs) => name in sets && SetHit(sets[name], dirs, p)
  }

  ghost predicate Hit(r: Rule, sets: Sets, p: Packet) {
    (forall t :: t in r.tests ==> Passes(t, sets, p)) && (r.options == [] || p.meets(r.options))
  }

  /** First terminal match. A jump that comes back undecided goes on with the next rule. */
  ghost function Walk(c: Chains, sets: Sets, rs: seq<Rule>, p: Packet, depth: nat): Outcome
    decreases depth, |rs|
  {
    if rs == [] then Through
    else if !Hit(rs[0], sets, p) then Walk(c, sets, rs[1..], p, depth)
    else
      match rs[0].target
      case Verdict(v) => Decided(v)
      case Return => Returned
      case Continue => Walk(c, sets, rs[1..], p, depth)
      case Jump(n) =>
        if depth == 0 then Deep
        else
          var o := Descend(c, sets, n, p, depth);
          if o.Through? then Walk(c, sets, rs[1..], p, depth) else o
  }

  /** The outcome of a jump into a chain: running off its end and RETURN are the same. */
  ghost function Descend(c: Chains, sets: Sets, n: Name, p: Packet, depth: nat): (o: Outcome)
    requires depth > 0
    ensures !o.Returned?
    decreases depth, 0
  {
    var o := if n in c then Walk(c, sets, c[n], p, depth - 1) else Through;
    if o.Returned? then Through else o
  }

  /** What happens to a packet entering at a chain: `Through` leaves it to the chain's policy. */
  ghost function Fate(c: Chains, sets: Sets, n: Name, p: Packet, depth: nat): Outcome {
    Descend(c, sets, n, p, depth + 1)
  }

  ghost predicate SameFates(c: Chains, sets: Sets, d: Chains, sets': Sets, n: Name) {
    forall p, depth: nat :: Fate(c, sets, n, p, depth) == Fate(d, sets', n, p, depth)
  }

  /** Walking a concatenation: the second part is reached only by running off the first. */
  lemma {:induction false} WalkConcat(c: Chains, sets: Sets, xs: seq<Rule>, ys: seq<Rule>, p: Packet, depth: nat)
    ensures Walk(c, sets, xs + ys, p, depth)
         == var o := Walk(c, sets, xs, p, depth); if o.Through? then Walk(c, sets, ys, p, depth) else o
    decreases |xs|
  {
    if xs == [] {
      assert xs + ys == ys;
    } else {
      assert (xs + ys)[1..] == xs[1..] + ys;
      WalkConcat(c, sets, xs[1..], ys, p, depth);
    }
  }

  /** With a rank that every jump lowers, a walk as deep as the rank is never cut short. */
  lemma {:induction false} RankedWalksEnd(c: Chains, sets: Sets, rs: seq<Rule>, p: Packet, depth: nat, rank: Name -> nat)
    requires forall n, i :: n in c && 0 <= i < |c[n]| && c[n][i].target.Jump? ==> rank(c[n][i].target.chain) < rank(n)
    requires forall i :: 0 <= i < |rs| && rs[i].target.Jump? ==> rank(rs[i].target.chain) < depth
    ensures !Walk(c, sets, rs, p, depth).Deep?
    decreases depth, |rs|
  {
    if rs != [] {
      RankedWalksEnd(c, sets, rs[1..], p, depth, rank);
      if rs[0].target.Jump? && rs[0].target.chain in c {
        RankedWalksEnd(c, sets, c[rs[0].target.chain], p, depth - 1, rank);
      }
    }
  }

  // ---------- jumps and relabelling ----------

  ghost predicate TargetsIn(rs: seq<Rule>, names: set<Name>) {
    forall i :: 0 <= i < |rs| && rs[i].target.Jump? ==> rs[i].target.chain in names
  }

  /** The kernel never holds a jump to a chain that does not exist. */
  ghost predicate Closed(c: Chains) {
    forall n :: n in c ==> TargetsIn(c[n], c.Keys)
  }

  function Retarget(r: Rule, f: Name -> Name): Rule {
    if r.target.Jump? then r.(target := Jump(f(r.target.chain))) else r
  }

  function Relabel(rs: seq<Rule>, f: Name -> Name): (r: seq<Rule>)
    ensures |r| == |rs|
  {
    seq(|rs|, i requires 0 <= i < |rs| => Retarget(rs[i], f))
  }

  ghost predicate Carries(c: Chains, d: Chains, f: Name -> Name) {
    forall n :: n in c ==> f(n) in d && d[f(n)] == Relabel(c[n], f)
  }

  ghost predicate Covers(c: Chains, d: Chains, f: Name -> Name) {
    forall m :: m in d ==> exists n :: n in c && f(n) == m
  }

  ghost predicate OneToOne(names: set<Name>, f: Name -> Name) {
    forall n, m :: n in names && m in names && f(n) == f(m) ==> n == m
  }

  /** `d` is `c` with every chain and every jump renamed by `f`, one name for one name. */
  ghost predicate Iso(c: Chains, d: Chains, f: Name -> Name) {
    Carries(c, d, f) && Covers(c, d, f) && OneToOne(c.Keys, f)
  }

  lemma {:induction false} IsoWalk(c: Chains, d: Chains, f: Name -> Name, sets: Sets, rs: seq<Rule>, p: Packet, depth: nat)
    requires Carries(c, d, f) && Closed(c) && TargetsIn(rs, c.Keys)
    ensures Walk(d, sets, Relabel(rs, f), p, depth) == Walk(c, sets, rs, p, depth)
    decreases depth, |rs|
  {
    if rs != [] {
      var r := rs[0];
      var rs' := Relabel(rs, f);
      assert rs'[1..] == Relabel(rs[1..], f);
      assert rs'[0] == Retarget(r, f);
      IsoWalk(c, d, f, sets, rs[1..], p, depth);
      assert Hit(rs'[0], sets, p) == Hit(r, sets, p);
      if r.target.Jump? && depth > 0 {
        IsoDescend(c, d, f, sets, r.target.chain, p, depth);
      }
    }
  }

  /** Renaming chains is an isomorphism of the jump graph: entering at the renamed chain decides the same. */
  lemma {:induction false} IsoDescend(c: Chains, d: Chains, f: Name -> Name, sets: Sets, n: Name, p: Packet, depth: nat)
    requires Carries(c, d, f) && Closed(c) && n in c && depth > 0
    ensures Descend(d, sets, f(n), p, depth) == Descend(c, sets, n, p, depth)
    decreases depth, 0
  {
    IsoWalk(c, d, f, sets, c[n], p, depth - 1);
  }

  // ---------- what a walk can see ----------

  ghost predicate TestsIn(rs: seq<Rule>, seen: Name -> bool) {
    forall i, t :: 0 <= i < |rs| && t in rs[i].tests && t.SetTest? ==> seen(t.name)
  }

  ghost predicate JumpsIn(rs: seq<Rule>, live: Name -> bool) {
    forall i :: 0 <= i < |rs| && rs[i].target.Jump? ==> live(rs[i].target.chain)
  }

  /** The live chains are the same in both, jump only among themselves and test only seen sets, which are the same too. */
  ghost predicate SameView(c: Chains, sets: Sets, d: Chains, sets': Sets, live: Name -> bool, seen: Name -> bool) {
    && (forall n :: live(n) ==> (n in c <==> n in d))
    && (forall n :: live(n) && n in c ==> c[n] == d[n] && JumpsIn(c[n], live) && TestsIn(c[n], seen))
    && (forall s :: seen(s) ==> (s in sets <==> s in sets'))
    && (forall s :: seen(s) && s in sets ==> sets[s] == sets'[s])
  }

  lemma {:induction false} ViewWalk(c: Chains, sets: Sets, d: Chains, sets': Sets, live: Name -> bool, seen: Name -> bool,
                                    rs: seq<Rule>, p: Packet, depth: nat)
    requires SameView(c, sets, d, sets', live, seen) && JumpsIn(rs, live) && TestsIn(rs, seen)
    ensures Walk(c, sets, rs, p, depth) == Walk(d, sets', rs, p, depth)
    decreases depth, |rs|
  {
    if rs != [] {
      ViewWalk(c, sets, d, sets', live, seen, rs[1..], p, depth);
      assert Hit(rs[0], sets, p) == Hit(rs[0], sets', p) by {
        assert forall t :: t in rs[0].tests ==> Passes(t, sets, p) == Passes(t, sets', p);
      }
      if rs[0].target.Jump? && depth > 0 {
        ViewDescend(c, sets, d, sets', live, seen, rs[0].target.chain, p, depth);
      }
    }
  }

  lemma {:induction false} ViewDescend(c: Chains, sets: Sets, d: Chains, sets': Sets, live: Name -> bool, seen: Name -> bool,
                                       n: Name, p: Packet, depth: nat)
    requires SameView(c, sets, d, sets', live, seen) && live(n) && depth > 0
    ensures Descend(c, sets, n, p, depth) == Descend(d, sets', n, p, depth)
    decreases depth, 0
  {
    if n in c {
      ViewWalk(c, sets, d, sets', live, seen, c[n], p, depth - 1);
    }
  }

  /** What live chains cannot see cannot change a verdict. */
  lemma ViewFates(c: Chains, sets: Sets, d: Chains, sets': Sets, live: Name -> bool, seen: Name -> bool, n: Name)
    requires SameView(c, sets, d, sets', live, seen) && live(n)
    ensures SameFates(c, sets, d, sets', n)
  {
    forall p, depth: nat
      ensures Fate(c, sets, n, p, depth) == Fate(d, sets', n, p, depth)
    {
      ViewDescend(c, sets, d, sets', live, seen, n, p, depth + 1);
    }
  }
}
