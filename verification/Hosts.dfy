/** The machine as an object the scripts work on, and the loops they share (subcommands/fw_common.sh). */
module Hosts {
  import opened Text
  import opened Netfilter
  import opened Kernel
  import opened Machines

  /** `iptables-save | get_chains prefix | sort`: at least one character must follow the prefix. */
  function Listing(c: Chains, prefix: string): seq<Name> {
    Sorted(set n | n in c && prefix < n)
  }

  lemma ListingIs(c: Chains, prefix: string)
    ensures Distinct(Listing(c, prefix)) && Ordered(Listing(c, prefix))
    ensures forall n :: n in Listing(c, prefix) <==> n in c && prefix < n
  {
    SortedIsOrdered(set n | n in c && prefix < n);
  }

  function Flatten(names: seq<Name>, act: Name -> seq<Op>): seq<Op> {
    if names == [] then [] else act(names[0]) + Flatten(names[1..], act)
  }

  lemma FlattenFirst(names: seq<Name>, act: Name -> seq<Op>)
    requires names != []
    ensures Flatten(names, act) == act(names[0]) + Flatten(names[1..], act)
  {
  }

  /** Do `act` to every chain whose name starts with the prefix, from a listing taken beforehand. */
  function ForEach(prefix: string, act: Name -> seq<Op>): Plan {
    (c: Chains) => Flatten(Listing(c, prefix), act)
  }

  class Host {
    /** The tables the scripts visit, in order: $IPTABLES_TABLES for family 4, then for family 6. */
    const tabs: seq<TabId>
    var tables: Tables
    var sets: Sets
    /** The commit step file. */
    var step: Option<string>
    /** The set version file. */
    var version: nat
    /** Every state the machine has been in, in order: what a crash could leave behind. */
    ghost var past: seq<Machine>

    ghost function Now(): Machine
      reads this
    {
      Machine(tables, sets, step, version)
    }

    /** The tables the scripts visit are the tables there are. */
    ghost predicate Ready()
      reads this
    {
      NoRepeat(tabs) && forall t :: t in tabs <==> t in tables
    }

    /** From `m`, with history `p`, the machine has since gone through exactly these states. */
    ghost predicate Went(m: Machine, p: seq<Machine>, states: seq<Machine>)
      reads this
    {
      Now() == Last(m, states) && past == p + states
    }

    /** One command on one table. */
    method Do(t: TabId, op: Op) returns (ok: bool)
      requires t in tables
      modifies this
      ensures ok == Exec(old(tables[t]), old(sets).Keys, op).Some?
      ensures ok ==> Went(old(Now()), old(past), [Put(old(Now()), t, Exec(old(tables[t]), old(sets).Keys, op).value)])
      ensures !ok ==> Went(old(Now()), old(past), [])
    {
      var after := Exec(tables[t], sets.Keys, op);
      ok := after.Some?;
      if ok {
        tables := tables[t := after.value];
        past := past + [Now()];
      }
    }

    /** `create` under `ipset restore -!`: an existing set is left as it is. */
    method CreateSet(s: Name, kind: SetType)
      modifies this
      ensures Went(old(Now()), old(past), [old(Now()).(sets := if s in old(sets) then old(sets) else old(sets)[s := SetBody(kind, {})])])
    {
      if s !in sets {
        sets := sets[s := SetBody(kind, {})];
      }
      past := past + [Now()];
    }

    /** `add` under `ipset restore -!`: an existing entry is left as it is. */
    method AddEntry(s: Name, e: Entry) returns (ok: bool)
      modifies this
      ensures ok <==> s in old(sets)
      ensures ok ==> Went(old(Now()), old(past), [old(Now()).(sets := old(sets)[s := SetBody(old(sets)[s].kind, old(sets)[s].entries + {e})])])
      ensures !ok ==> Went(old(Now()), old(past), [])
    {
      ok := s in sets;
      if ok {
        sets := sets[s := SetBody(sets[s].kind, sets[s].entries + {e})];
        past := past + [Now()];
      }
    }

    /** `destroy`: refuses a set some rule still names. */
    method DestroySet(s: Name) returns (ok: bool)
      modifies this
      ensures ok <==> s in old(sets) && !SetUsed(old(tables), s)
      ensures ok ==> Went(old(Now()), old(past), [old(Now()).(sets := old(sets) - {s})])
      ensures !ok ==> Went(old(Now()), old(past), [])
    {
      ok := s in sets && !SetUsed(tables, s);
      if ok {
        sets := sets - {s};
        past := past + [Now()];
      }
    }

    /** `echo -n text > $COMMIT_FILE`, taken as atomic. */
    method WriteStep(text: string)
      modifies this
      ensures Went(old(Now()), old(past), [old(Now()).(step := Some(text))])
    {
      step := Some(text);
      past := past + [Now()];
    }

    /** `rm -f $COMMIT_FILE` and the version write that follows it, taken as one. */
    method FinishCommit(next: nat)
      modifies this
      ensures Went(old(Now()), old(past), [old(Now()).(step := None, version := next)])
    {
      step := None;
      version := next;
      past := past + [Now()];
    }

    /** With `rest` still to come, the history will be `goal` and the machine will be in `end`. */
    ghost predicate Owes(rest: seq<Machine>, goal: seq<Machine>, end: Machine)
      reads this
    {
      past + rest == goal && Last(Now(), rest) == end
    }

    /** A callback's commands, in order, up to the first one refused. */
    method DoAll(t: TabId, ops: seq<Op>) returns (ok: bool)
      requires t in tables
      modifies this
      ensures var run := OnTable(old(Now()), t, ops); ok == run.ok && Went(old(Now()), old(past), run.states)
    {
      ghost var run := OnTable(Now(), t, ops);
      ghost var goal, end := past + run.states, Last(Now(), run.states);
      var todo := ops;
      while todo != []
        invariant t in tables
        invariant OnTable(Now(), t, todo).ok == run.ok && Owes(OnTable(Now(), t, todo).states, goal, end)
      {
        OnTableStep(Now(), t, todo);
        ghost var p := past;
        ok := Do(t, todo[0]);
        if !ok {
          return false;
        }
        assert p + ([Now()] + OnTable(Now(), t, todo[1..]).states) == past + OnTable(Now(), t, todo[1..]).states;
        todo := todo[1..];
      }
      return true;
    }

    /** The callback for each chain listed in one table. */
    method OverChains(t: TabId, names: seq<Name>, act: Name -> seq<Op>) returns (ok: bool)
      requires t in tables
      modifies this
      ensures var run := OnTable(old(Now()), t, Flatten(names, act)); ok == run.ok && Went(old(Now()), old(past), run.states)
    {
      ghost var run := OnTable(Now(), t, Flatten(names, act));
      ghost var goal, end := past + run.states, Last(Now(), run.states);
      var todo := names;
      while todo != []
        invariant t in tables
        invariant var rest := OnTable(Now(), t, Flatten(todo, act)); rest.ok == run.ok && Owes(rest.states, goal, end)
      {
        OnTableConcat(Now(), t, act(todo[0]), Flatten(todo[1..], act));
        ghost var m, p := Now(), past;
        ghost var first := OnTable(m, t, act(todo[0])).states;
        ok := DoAll(t, act(todo[0]));
        if !ok {
          return false;
        }
        Onward(m, p, first, OnTable(Now(), t, Flatten(todo[1..], act)).states);
        todo := todo[1..];
      }
      return true;
    }

    /** `ipt_foreach_chain_starting_with prefix act` */
    method ForEachChain(prefix: string, act: Name -> seq<Op>) returns (ok: bool)
      requires Ready()
      modifies this
      ensures Ready()
      ensures var run := Sweep(old(Now()), tabs, ForEach(prefix, act)); ok == run.ok && Went(old(Now()), old(past), run.states)
    {
      ghost var plan := ForEach(prefix, act);
      ghost var run := Sweep(Now(), tabs, plan);
      ghost var goal, end := past + run.states, Last(Now(), run.states);
      var todo := tabs;
      while todo != []
        invariant tables.Keys == old(tables.Keys) && forall t :: t in todo ==> t in tables
        invariant var rest := Sweep(Now(), todo, plan); rest.ok == run.ok && Owes(rest.states, goal, end)
      {
        var t := todo[0];
        ghost var m, p := Now(), past;
        ghost var here := OnTable(m, t, plan(m.tables[t])).states;
        LiftLast(m, t, plan);
        assert plan(m.tables[t]) == Flatten(Listing(m.tables[t], prefix), act);
        ok := OverChains(t, Listing(tables[t], prefix), act);
        if !ok {
          return false;
        }
        Onward(m, p, here, Sweep(Now(), todo[1..], plan).states);
        todo := todo[1..];
      }
      return true;
    }
  }
}
