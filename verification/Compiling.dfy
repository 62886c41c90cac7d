/** src/main.rs: everything is decided before anything reaches the kernel. */
module Compiling {
  import opened Text
  import opened Grouping
  import opened Netfilter
  import opened Declarations
  import opened Resolution
  import opened ChainNames
  import opened RuleBuilding
  import opened Probing
  import opened Compilation
  import AliasSets
  import Restoring

  /** What is submitted, in this order: the set stream, then each family's rules. */
  datatype Submission = Submission(sets: seq<AliasSets.SetLine>, v4: seq<Restoring.StreamLine>, v6: seq<Restoring.StreamLine>)

  datatype Failure =
    | Unparsable(parsing: ParseError)
    | Unresolved(report: seq<ReportLine>)
    | BadAliases(problem: AliasSets.Problem)
    | BadChain(naming: NameError)

  // ---------- what it comes to ----------

  function NamesIn(ds: seq<Decl>): Names {
    Grouped(AllUses(ds, AliasNames(ds)))
  }

  predicate Resolves(ds: seq<Decl>, lookup: string -> Answer) {
    forall n :: n in NamesIn(ds) ==> Trouble(n, lookup).None?
  }

  function AddressesIn(ds: seq<Decl>, lookup: string -> Answer): Addresses {
    map n | n in NamesIn(ds) && Trouble(n, lookup).None? :: lookup(n).addresses
  }

  function EnvOf(ds: seq<Decl>, lookup: string -> Answer, prefix: string, setPrefix: string): Env {
    var addrs := AddressesIn(ds, lookup);
    Env(AliasSets.Gathered(AliasSets.AdditionsIn(AliasSets.AllItems(ds, addrs))), addrs, prefix, setPrefix)
  }

  /** Declarations that compile: every name resolves, every alias can be a set, every chain can be named. */
  ghost predicate Compiles(ds: seq<Decl>, lookup: string -> Answer, prefix: string, setPrefix: string) {
    var env := EnvOf(ds, lookup, prefix, setPrefix);
    && Resolves(ds, lookup) && AliasSets.UsableNames(ds, setPrefix)
    && AliasSets.Consistent(AliasSets.AllItems(ds, env.addrs)) && AllNamed(ds, env)
  }

  function RulesetOf(ds: seq<Decl>, env: Env, probe: Probe): Ruleset {
    Grouped(AllRules(ds, env, probe))
  }

  function SubmissionOf(ds: seq<Decl>, env: Env, probe: Probe): Submission {
    var rs := RulesetOf(ds, env, probe);
    Submission(
      AliasSets.AllLines(env.sets, Sorted(env.sets.Keys), env.setPrefix),
      Restoring.AllTableLines(rs, V4, Sorted(Restoring.TablesIn(rs, V4)), env.prefix),
      Restoring.AllTableLines(rs, V6, Sorted(Restoring.TablesIn(rs, V6)), env.prefix))
  }

  lemma ComplaintsAreTroubles(ds: seq<Decl>, lookup: string -> Answer)
    ensures Resolves(ds, lookup) <==> forall l :: !Complaint(l, NamesIn(ds), lookup)
  {
    var names := NamesIn(ds);
    if n :| n in names && Trouble(n, lookup).Some? {
      CollectedAreNeeded(ds, n);
      TroubleIsReported(n, names, lookup);
    }
  }

  /** What these binaries answer when asked directly. */
  function Direct(takes: Question -> bool): Probe {
    (table, tail) => Takers(takes, table, tail)
  }

  /**
   The answers used: each is the direct one, or both families, and names a family once at most; and
   all that matter are direct when a scratch chain can be had everywhere.
   */
  ghost predicate Trustworthy(probe: Probe, ds: seq<Decl>, takes: Question -> bool, canProbe: bool) {
    && ProbesOnce(probe)
    && (forall table, tail :: probe(table, tail) == Takers(takes, table, tail) || probe(table, tail) == FAMILIES)
    && (canProbe ==> SameAnswers(ds, probe, Direct(takes)))
  }

  /**
   The build gets as far as submitting exactly when the declarations parse and compile, and then
   what it submits depends on nothing but them, the addresses, and what the families take. It offers
   no tail to a family twice, and leaves no scratch chain that was not there before.
   */
  method CfwBuild(input: string, lookup: string -> Answer, binaries: Binaries, prefix: string, setPrefix: string)
    returns (r: Result<Submission, Failure>, ghost probe: Probe)
    requires binaries.asked == []
    modifies binaries`scratch, binaries`asked
    ensures r.Ok? <==> Parse(input).Ok? && Compiles(Parse(input).value, lookup, prefix, setPrefix)
    ensures r.Ok? ==> r.value == SubmissionOf(Parse(input).value, EnvOf(Parse(input).value, lookup, prefix, setPrefix), probe)
    ensures r.Ok? ==>
      Trustworthy(probe, Parse(input).value, binaries.takes, forall at: Where :: at in old(binaries.scratch) || binaries.available(at))
    ensures binaries.scratch.Keys <= old(binaries.scratch).Keys && NoneTwice(binaries.asked)
  {
    probe := Answered(map[]);
    var parsed := Parse(input);
    if parsed.Err? {
      return Err(Unparsable(parsed.error)), probe;
    }
    var ds := parsed.value;
    var names := NamesToResolve(ds);
    var resolved := ResolveAll(names, lookup);
    ComplaintsAreTroubles(ds, lookup);
    if resolved.Err? {
      return Err(Unresolved(resolved.error)), probe;
    }
    r, probe := BuildAndRender(ds, lookup, binaries, resolved.value, prefix, setPrefix);
  }

  method BuildAndRender(ds: seq<Decl>, lookup: string -> Answer, binaries: Binaries, addrs: Addresses, prefix: string, setPrefix: string)
    returns (r: Result<Submission, Failure>, ghost probe: Probe)
    requires Resolves(ds, lookup) && addrs == AddressesIn(ds, lookup) && binaries.asked == []
    modifies binaries`scratch, binaries`asked
    ensures r.Ok? <==> Compiles(ds, lookup, prefix, setPrefix)
    ensures r.Ok? ==> r.value == SubmissionOf(ds, EnvOf(ds, lookup, prefix, setPrefix), probe)
    ensures r.Ok? ==> Trustworthy(probe, ds, binaries.takes, forall at: Where :: at in old(binaries.scratch) || binaries.available(at))
    ensures binaries.scratch.Keys <= old(binaries.scratch).Keys && NoneTwice(binaries.asked)
  {
    probe := Answered(map[]);
    var sets := AliasSets.Build(ds, addrs, setPrefix);
    if sets.Err? {
      return Err(BadAliases(sets.error)), probe;
    }
    var env := Env(sets.value, addrs, prefix, setPrefix);
    assert env == EnvOf(ds, lookup, prefix, setPrefix);
    var built;
    built, probe := ProbeAndBuild(ds, env, binaries);
    if built.Err? {
      return Err(BadChain(built.error)), probe;
    }
    var setStream := AliasSets.Render(env.sets, setPrefix);
    var v4 := Restoring.Render(built.value, V4, prefix);
    var v6 := Restoring.Render(built.value, V6, prefix);
    return Ok(Submission(setStream, v4, v6)), probe;
  }

  lemma AnswersAreTrustworthy(cache: Cache, ds: seq<Decl>, takes: Question -> bool, canProbe: bool)
    requires forall key :: key in cache ==> cache[key] == Takers(takes, key.0, key.1)
    requires canProbe ==> Answerable(ds, cache)
    ensures Trustworthy(Answered(cache), ds, takes, canProbe)
  {
  }

  /** The rules of all declarations, and no scratch chain left of the asking. */
  method ProbeAndBuild(ds: seq<Decl>, env: Env, binaries: Binaries) returns (built: Result<Ruleset, NameError>, ghost probe: Probe)
    requires binaries.asked == []
    modifies binaries`scratch, binaries`asked
    ensures built.Ok? <==> AllNamed(ds, env)
    ensures built.Ok? ==> built.value == RulesetOf(ds, env, probe)
    ensures built.Ok? ==> Trustworthy(probe, ds, binaries.takes, forall at: Where :: at in old(binaries.scratch) || binaries.available(at))
    ensures binaries.scratch.Keys <= old(binaries.scratch).Keys && NoneTwice(binaries.asked)
  {
    var prober := new Prober(binaries);
    built := RuleBuilding.Build(ds, env, prober);
    probe := Answered(prober.cache);
    if built.Ok? {
      AnswersAreTrustworthy(prober.cache, ds, binaries.takes, prober.CanProbe());
    }
    prober.Cleanup();
  }
}
