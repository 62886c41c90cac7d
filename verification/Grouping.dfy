/** Values gathered under keys in the order they come: `entry(key).or_default().push(value)`. */
module Grouping {

  import opened Seqs

  /** The values pushed under one key, in order. */
  function Under<K(==), V>(items: seq<(K, V)>, k: K): seq<V> {
    if items == [] then []
    else (if items[0].0 == k then [items[0].1] else []) + Under(items[1..], k)
  }

  function KeysOf<K, V>(items: seq<(K, V)>): set<K> {
    set i | 0 <= i < |items| :: items[i].0
  }

  function Grouped<K, V>(items: seq<(K, V)>): (groups: map<K, seq<V>>)
    ensures groups.Keys == KeysOf(items)
  {
    map k | k in KeysOf(items) :: Under(items, k)
  }

  lemma {:induction false} UnderConcat<K, V>(xs: seq<(K, V)>, ys: seq<(K, V)>, k: K)
    ensures Under(xs + ys, k) == Under(xs, k) + Under(ys, k)
  {
    if xs == [] {
      assert xs + ys == ys;
    } else {
      FrontOfConcat(xs, ys);
      UnderConcat(xs[1..], ys, k);
      Associative(if xs[0].0 == k then [xs[0].1] else [], Under(xs[1..], k), Under(ys, k));
    }
  }

  lemma UnderOne<K, V>(item: (K, V), k: K)
    ensures Under([item], k) == if item.0 == k then [item.1] else []
  {
    assert [item][1..] == [];
  }

  lemma {:induction false} UnderAbsent<K, V>(items: seq<(K, V)>, k: K)
    ensures Under(items, k) == [] <==> k !in KeysOf(items)
  {
    if items != [] {
      UnderAbsent(items[1..], k);
      assert KeysOf(items) == {items[0].0} + KeysOf(items[1..]) by {
        assert forall i :: 0 < i < |items| ==> items[i] == items[1..][i - 1];
        assert forall i :: 0 <= i < |items[1..]| ==> items[1..][i] == items[i + 1];
      }
    }
  }

  lemma KeysOfPush<K, V>(items: seq<(K, V)>, item: (K, V))
    ensures KeysOf(items + [item]) == KeysOf(items) + {item.0}
  {
    assert forall i :: 0 <= i < |items| ==> (items + [item])[i] == items[i];
    assert (items + [item])[|items|] == item;
  }

  /** One more push. */
  lemma GroupedPush<K, V>(items: seq<(K, V)>, k: K, v: V)
    ensures var groups := Grouped(items);
      Grouped(items + [(k, v)]) == groups[k := (if k in groups then groups[k] else []) + [v]]
  {
    KeysOfPush(items, (k, v));
    UnderAbsent(items, k);
    var groups := Grouped(items);
    var after := groups[k := (if k in groups then groups[k] else []) + [v]];
    forall j | j in after
      ensures Under(items + [(k, v)], j) == after[j]
    {
      UnderConcat(items, [(k, v)], j);
      UnderOne((k, v), j);
      assert Under(items, j) + [] == Under(items, j);
    }
    assert Grouped(items + [(k, v)]) == after;
  }

  lemma {:induction false} UnderIn<K, V>(items: seq<(K, V)>, k: K, v: V)
    ensures v in Under(items, k) <==> (k, v) in items
  {
    if items != [] {
      UnderIn(items[1..], k, v);
      assert items == [items[0]] + items[1..];
    }
  }
}
