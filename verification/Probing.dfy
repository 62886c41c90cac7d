/** src/probe.rs: which families take a tail, asked in scratch chains at most once and remembered. */
module Probing {
  import opened Text
  import opened Netfilter

  type Tail = seq<string>
  datatype Where = Where(family: Family, table: string)
  datatype Question = Question(at: Where, tail: Tail)

  const FAMILIES: seq<Family> := [V4, V6]

  ghost predicate NoneTwice(asked: seq<Question>) {
    forall i, j :: 0 <= i < j < |asked| ==> asked[i] != asked[j]
  }

  /** The two binaries, as far as the scratch chain CFWPROBE goes. */
  class Binaries {
    /** Whether the family takes the tail in the table. */
    const takes: Question -> bool
    /** Whether there can be a scratch chain at all. */
    const available: Where -> bool
    /** The scratch chains there are, with what is in each. */
    var scratch: map<Where, seq<Tail>>
    /** Every tail offered, in order. */
    ghost var asked: seq<Question>

    constructor (takes: Question -> bool, available: Where -> bool, scratch: map<Where, seq<Tail>>)
      ensures this.takes == takes && this.available == available && this.scratch == scratch && asked == []
    {
      this.takes, this.available, this.scratch := takes, available, scratch;
      asked := [];
    }

    /** -N */
    method NewChain(at: Where) returns (ok: bool)
      modifies `scratch
      ensures ok == (at !in old(scratch) && available(at))
      ensures scratch == if ok then old(scratch)[at := []] else old(scratch)
    {
      ok := at !in scratch && available(at);
      if ok {
        scratch := scratch[at := []];
      }
    }

    /** -F */
    method Flush(at: Where) returns (ok: bool)
      modifies `scratch
      ensures ok == (at in old(scratch))
      ensures scratch == if ok then old(scratch)[at := []] else old(scratch)
    {
      ok := at in scratch;
      if ok {
        scratch := scratch[at := []];
      }
    }

    /** -A */
    method Append(q: Question) returns (ok: bool)
      modifies `scratch, `asked
      ensures ok == (q.at in old(scratch) && takes(q))
      ensures scratch == if ok then old(scratch)[q.at := old(scratch)[q.at] + [q.tail]] else old(scratch)
      ensures asked == old(asked) + [q]
    {
      ok := q.at in scratch && takes(q);
      if ok {
        scratch := scratch[q.at := scratch[q.at] + [q.tail]];
      }
      asked := asked + [q];
    }

    /** -D, of a tail that is the only one there. */
    method Delete(q: Question)
      modifies `scratch
      ensures scratch == if q.at in old(scratch) && old(scratch)[q.at] == [q.tail] then old(scratch)[q.at := []] else old(scratch)
    {
      if q.at in scratch && scratch[q.at] == [q.tail] {
        scratch := scratch[q.at := []];
      }
    }

    /** -X, of a chain nothing refers to. */
    method Drop(at: Where)
      modifies `scratch
      ensures scratch == if at in old(scratch) && old(scratch)[at] == [] then old(scratch) - {at} else old(scratch)
    {
      if at in scratch && scratch[at] == [] {
        scratch := scratch - {at};
      }
    }
  }

  /** The families that take a tail, asked directly. */
  function Takers(takes: Question -> bool, table: string, tail: Tail): seq<Family> {
    (if takes(Question(Where(V4, table), tail)) then [V4] else [])
    + (if takes(Question(Where(V6, table), tail)) then [V6] else [])
  }

  /** Those and no others, IPv4 first. */
  lemma TakersAre(takes: Question -> bool, table: string, tail: Tail)
    ensures var families := Takers(takes, table, tail);
      && (V4 in families <==> takes(Question(Where(V4, table), tail))) && (V6 in families <==> takes(Question(Where(V6, table), tail)))
      && (families == [] || families == [V4] || families == [V6] || families == [V4, V6])
  {
  }

  type Cache = map<(string, Tail), seq<Family>>

  /** What a run with this cache answers: a question not remembered was asked when probing could not be done. */
  function Answered(cache: Cache): (string, Tail) -> seq<Family> {
    (table, tail) => if (table, tail) in cache then cache[(table, tail)] else FAMILIES
  }

  /** Both families have an empty scratch chain in the table. */
  predicate Empty(scratch: map<Where, seq<Tail>>, table: string) {
    var a, b := Where(V4, table), Where(V6, table);
    a in scratch && scratch[a] == [] && b in scratch && scratch[b] == []
  }

  class Prober {
    const binaries: Binaries
    /** The answers given while probing worked, which `Valid` says are the direct ones. */
    var cache: Cache
    var prepared: set<string>
    var degraded: bool
    /** The scratch chains there were when the run began. */
    ghost const start: map<Where, seq<Tail>>

    ghost predicate Valid()
      reads this, binaries
    {
      && (forall at :: at in start ==> at in binaries.scratch)
      && (forall at :: at in binaries.scratch ==> at in start || at.table in prepared)
      && (CanProbe() ==> !degraded)
      && (forall key :: key in cache ==> key.0 in prepared && cache[key] == Takers(binaries.takes, key.0, key.1))
      && (!degraded ==> forall t :: t in prepared ==> Empty(binaries.scratch, t))
      && AskedOnce()
    }

    /** Every table has a scratch chain for each family, or can get one. */
    ghost predicate CanProbe() {
      forall at: Where :: at in start || binaries.available(at)
    }

    /** Each family has been offered a tail in a table only if the answer is remembered, and then once. */
    ghost predicate AskedOnce()
      reads this, binaries
    {
      && (forall i :: 0 <= i < |binaries.asked| ==> (binaries.asked[i].at.table, binaries.asked[i].tail) in cache)
      && NoneTwice(binaries.asked)
    }

    constructor (binaries: Binaries)
      requires binaries.asked == []
      ensures Valid() && this.binaries == binaries && cache == map[] && prepared == {} && !degraded && start == binaries.scratch
    {
      this.binaries, start := binaries, binaries.scratch;
      cache, prepared, degraded := map[], {}, false;
    }

    /** There is a scratch chain, or can be. */
    ghost predicate Possible(at: Where)
      reads binaries
    {
      at in binaries.scratch || binaries.available(at)
    }

    /** Create the scratch chain for one family, or empty the one there is. */
    method PrepareFamily(at: Where)
      modifies `degraded, binaries`scratch
      ensures degraded == (old(degraded) || !old(Possible(at)))
      ensures binaries.scratch == if old(Possible(at)) then old(binaries.scratch)[at := []] else old(binaries.scratch)
    {
      var made := binaries.NewChain(at);
      if !made {
        var flushed := binaries.Flush(at);
        if !flushed {
          degraded := true;
        }
      }
    }

    /** Have an empty scratch chain for both families here, or give up probing; a no-op for a table seen before. */
    method Prepare(table: string)
      requires Valid()
      modifies `prepared, `degraded, binaries`scratch
      ensures Valid() && prepared == old(prepared) + {table}
      ensures table in old(prepared) ==> degraded == old(degraded) && binaries.scratch == old(binaries.scratch)
      ensures table !in old(prepared) ==>
        (degraded <==> old(degraded) || !old(Possible(Where(V4, table))) || !old(Possible(Where(V6, table))))
    {
      if table in prepared {
        assert prepared == prepared + {table};
        return;
      }
      prepared := prepared + {table};
      PrepareFamily(Where(V4, table));
      PrepareFamily(Where(V6, table));
      assert !degraded ==> Empty(binaries.scratch, table);
    }

    /** Leave the chain as empty as it was. */
    method Accepts(f: Family, table: string, tail: Tail) returns (ok: bool)
      requires Where(f, table) in binaries.scratch && binaries.scratch[Where(f, table)] == []
      modifies binaries`scratch, binaries`asked
      ensures ok == binaries.takes(Question(Where(f, table), tail))
      ensures binaries.scratch == old(binaries.scratch)
      ensures binaries.asked == old(binaries.asked) + [Question(Where(f, table), tail)]
    {
      var q := Question(Where(f, table), tail);
      ok := binaries.Append(q);
      if ok {
        binaries.Delete(q);
      }
    }

    /** Ask both families, and remember the answer. */
    method Ask(table: string, tail: Tail) returns (families: seq<Family>)
      requires Valid() && !degraded && table in prepared && (table, tail) !in cache
      modifies `cache, binaries`scratch, binaries`asked
      ensures Valid() && cache == old(cache)[(table, tail) := families]
      ensures families == Takers(binaries.takes, table, tail) && binaries.scratch == old(binaries.scratch)
    {
      var v4 := Accepts(V4, table, tail);
      var v6 := Accepts(V6, table, tail);
      families := (if v4 then [V4] else []) + (if v6 then [V6] else []);
      cache := cache[(table, tail) := families];
    }

    /**
     While there is a scratch chain to be had, every answer is what asking directly would give, and
     no tail is offered to a family twice. No answer given before is contradicted.
     */
    method FamiliesFor(table: string, tail: Tail) returns (families: seq<Family>)
      requires Valid()
      modifies `cache, `prepared, `degraded, binaries`scratch, binaries`asked
      ensures Valid()
      ensures old(degraded) ==> degraded
      ensures prepared == old(prepared) + if (table, tail) in old(cache) then {} else {table}
      ensures degraded ==> cache == old(cache) && binaries.asked == old(binaries.asked)
      ensures !degraded || (table, tail) in old(cache) ==> families == Takers(binaries.takes, table, tail)
      ensures degraded && (table, tail) !in old(cache) ==> families == [V4, V6] && cache == old(cache)
      ensures !degraded ==> cache == old(cache)[(table, tail) := families]
      ensures (table, tail) in old(cache) ==> binaries.asked == old(binaries.asked) && degraded == old(degraded)
    {
      if (table, tail) in cache {
        return cache[(table, tail)];
      }
      Prepare(table);
      if degraded {
        return FAMILIES;
      }
      families := Ask(table, tail);
    }

    /** No prepared table keeps a scratch chain, and no other table loses one. */
    method Cleanup()
      requires Valid()
      modifies binaries`scratch
      ensures binaries.scratch == map at | at in old(binaries.scratch) && at.table !in prepared :: old(binaries.scratch)[at]
    {
      var todo := prepared;
      while todo != {}
        invariant todo <= prepared
        invariant binaries.scratch == map at | at in old(binaries.scratch) && at.table !in prepared - todo :: old(binaries.scratch)[at]
      {
        var table :| table in todo;
        Clear(Where(V4, table));
        Clear(Where(V6, table));
        forall at: Where | at.table == table
          ensures at == Where(V4, table) || at == Where(V6, table)
        {
          assert at.family.V4? || at.family.V6?;
        }
        todo := todo - {table};
      }
    }

    /** -F, then -X. */
    method Clear(at: Where)
      modifies binaries`scratch
      ensures binaries.scratch == old(binaries.scratch) - {at}
    {
      var flushed := binaries.Flush(at);
      binaries.Drop(at);
    }
  }
}
