/** `GROUP BY key ORDER BY key`: items are folded into one group per
    distinct key, and the groups are kept in the order `less`. Each report
    instantiates this with its own key, order and aggregate. */
module Grouping {
  import opened Values
  import opened Ordering

  /** One output row of a grouped query: the key and its aggregate. */
  datatype Group<K, A> = Group(key: K, acc: A)

  /** Adds item `v` with key `k` to a list of groups ordered by `less`: into
      the group with that key, or as a new group where the order puts it. */
  function Place<K(==), V, A>(less: (K, K) -> bool, step: (A, V) -> A, init: A,
                              gs: seq<Group<K, A>>, k: K, v: V): seq<Group<K, A>>
  {
    if gs == [] then [Group(k, step(init, v))]
    else if gs[0].key == k then [Group(k, step(gs[0].acc, v))] + gs[1..]
    else if less(k, gs[0].key) then [Group(k, step(init, v))] + gs
    else [gs[0]] + Place(less, step, init, gs[1..], k, v)
  }

  function GroupBy<K(==), V, A>(less: (K, K) -> bool, key: V -> K, step: (A, V) -> A, init: A,
                                items: seq<V>): seq<Group<K, A>>
  {
    if items == [] then []
    else Place(less, step, init, GroupBy(less, key, step, init, items[1..]), key(items[0]), items[0])
  }

  // ------------------------------------------------ reference definitions

  /** The items with key `k`, in their order: the members of one group. */
  function Select<K(==), V>(key: V -> K, items: seq<V>, k: K): seq<V>
  {
    if items == [] then []
    else (if key(items[0]) == k then [items[0]] else []) + Select(key, items[1..], k)
  }

  /** The aggregate of a list of items. */
  function Fold<V, A>(step: (A, V) -> A, init: A, s: seq<V>): A
  {
    if s == [] then init else step(Fold(step, init, s[1..]), s[0])
  }

  /** The aggregate of the first group with key `k`, if any. */
  function Lookup<K(==), A>(gs: seq<Group<K, A>>, k: K): Option<A>
  {
    if gs == [] then None
    else if gs[0].key == k then Some(gs[0].acc)
    else Lookup(gs[1..], k)
  }

  function AccOr<K(==), A>(gs: seq<Group<K, A>>, k: K, init: A): A
  {
    match Lookup(gs, k)
    case None => init
    case Some(a) => a
  }

  function KeysOf<K, A>(gs: seq<Group<K, A>>): set<K>
  {
    set i | 0 <= i < |gs| :: gs[i].key
  }

  function ItemKeys<K, V>(key: V -> K, items: seq<V>): set<K>
  {
    set i | 0 <= i < |items| :: key(items[i])
  }

  /** Keys strictly increase along the list; so no key occurs twice. */
  predicate Sorted<K, A>(less: (K, K) -> bool, gs: seq<Group<K, A>>)
  {
    forall i, j :: 0 <= i < j < |gs| ==> less(gs[i].key, gs[j].key)
  }

  // ---------------------------------------------------------------- lemmas

  lemma KeysCons<K, A>(gs: seq<Group<K, A>>)
    requires gs != []
    ensures KeysOf(gs) == {gs[0].key} + KeysOf(gs[1..])
  {
    forall x | x in KeysOf(gs) ensures x in {gs[0].key} + KeysOf(gs[1..]) {
      var i :| 0 <= i < |gs| && gs[i].key == x;
      if i > 0 { assert gs[1..][i - 1] == gs[i]; }
    }
    forall x | x in KeysOf(gs[1..]) ensures x in KeysOf(gs) {
      var i :| 0 <= i < |gs[1..]| && gs[1..][i].key == x;
      assert gs[i + 1] == gs[1..][i];
    }
  }

  lemma ItemKeysCons<K, V>(key: V -> K, items: seq<V>)
    requires items != []
    ensures ItemKeys(key, items) == {key(items[0])} + ItemKeys(key, items[1..])
  {
    forall x | x in ItemKeys(key, items) ensures x in {key(items[0])} + ItemKeys(key, items[1..]) {
      var i :| 0 <= i < |items| && key(items[i]) == x;
      if i > 0 { assert items[1..][i - 1] == items[i]; }
    }
    forall x | x in ItemKeys(key, items[1..]) ensures x in ItemKeys(key, items) {
      var i :| 0 <= i < |items[1..]| && key(items[1..][i]) == x;
      assert items[i + 1] == items[1..][i];
    }
  }

  /** Folding a list with one more item in front takes one more step. */
  lemma FoldCons<V, A>(step: (A, V) -> A, init: A, x: V, s: seq<V>)
    ensures Fold(step, init, [x] + s) == step(Fold(step, init, s), x)
  {
    assert ([x] + s)[1..] == s;
  }

  lemma {:induction false} LookupNone<K, A>(gs: seq<Group<K, A>>, k: K)
    ensures Lookup(gs, k) == None <==> k !in KeysOf(gs)
  {
    if gs != [] {
      KeysCons(gs);
      LookupNone(gs[1..], k);
    }
  }

  /** In a sorted list a key below the first key is absent. */
  lemma AbsentBelowHead<K(!new), A>(less: (K, K) -> bool, gs: seq<Group<K, A>>, k: K)
    requires StrictTotalOrder(less) && Sorted(less, gs)
    requires gs != [] && less(k, gs[0].key)
    ensures k !in KeysOf(gs)
  {
    forall i | 0 <= i < |gs| ensures gs[i].key != k {
      if i > 0 {
        assert less(gs[0].key, gs[i].key);
      }
    }
  }

  /** An item whose key is new and after every key goes in a new last group. */
  lemma {:induction false} PlaceLast<K, V, A>(less: (K, K) -> bool, step: (A, V) -> A, init: A,
                                              gs: seq<Group<K, A>>, k: K, v: V)
    requires forall i :: 0 <= i < |gs| ==> gs[i].key != k && !less(k, gs[i].key)
    ensures Place(less, step, init, gs, k, v) == gs + [Group(k, step(init, v))]
  {
    if gs != [] {
      PlaceLast(less, step, init, gs[1..], k, v);
      assert gs == [gs[0]] + gs[1..];
    }
  }

  /** Adding one item keeps the list sorted, adds its key, and changes only
      the aggregate of its own group. */
  lemma {:induction false} PlaceEffect<K(!new), V, A>(less: (K, K) -> bool, step: (A, V) -> A, init: A,
                                                gs: seq<Group<K, A>>, k: K, v: V)
    requires StrictTotalOrder(less) && Sorted(less, gs)
    ensures Sorted(less, Place(less, step, init, gs, k, v))
    ensures KeysOf(Place(less, step, init, gs, k, v)) == KeysOf(gs) + {k}
    ensures forall k' :: Lookup(Place(less, step, init, gs, k, v), k')
                         == if k' == k then Some(step(AccOr(gs, k, init), v)) else Lookup(gs, k')
  {
    var p := Place(less, step, init, gs, k, v);
    if gs == [] {
      assert KeysOf(p) == {k} by { KeysCons(p); }
    } else if gs[0].key == k {
      assert forall i :: 0 <= i < |p| ==> p[i].key == gs[i].key;
      KeysCons(p);
      KeysCons(gs);
      assert p[1..] == gs[1..];
    } else if less(k, gs[0].key) {
      forall i, j | 0 <= i < j < |p| ensures less(p[i].key, p[j].key) {
        if i == 0 {
          if j > 1 {
            assert less(gs[0].key, gs[j - 1].key);
          }
        } else {
          assert p[i] == gs[i - 1] && p[j] == gs[j - 1];
        }
      }
      KeysCons(p);
      assert p[1..] == gs;
      AbsentBelowHead(less, gs, k);
      LookupNone(gs, k);
    } else {
      assert less(gs[0].key, k);
      var rest := gs[1..];
      var r := Place(less, step, init, rest, k, v);
      assert Sorted(less, rest) by {
        forall i, j | 0 <= i < j < |rest| ensures less(rest[i].key, rest[j].key) {
          assert rest[i] == gs[i + 1] && rest[j] == gs[j + 1];
        }
      }
      PlaceEffect(less, step, init, rest, k, v);
      assert p == [gs[0]] + r;
      KeysCons(gs);
      KeysCons(p);
      assert p[1..] == r;
      forall i, j | 0 <= i < j < |p| ensures less(p[i].key, p[j].key) {
        if i == 0 {
          assert p[j].key in KeysOf(r) by { assert r[j - 1] == p[j]; }
          if p[j].key != k {
            var m :| 0 <= m < |rest| && rest[m].key == p[j].key;
            assert less(gs[0].key, gs[m + 1].key);
          }
        } else {
          assert p[i] == r[i - 1] && p[j] == r[j - 1];
        }
      }
    }
  }

  /** The grouped list is sorted, has exactly the keys of the items, and
      holds for each key the aggregate of exactly the items with that key. */
  lemma {:induction false} GroupByEffect<K(!new), V, A>(less: (K, K) -> bool, key: V -> K, step: (A, V) -> A, init: A,
                                                  items: seq<V>)
    requires StrictTotalOrder(less)
    ensures Sorted(less, GroupBy(less, key, step, init, items))
    ensures KeysOf(GroupBy(less, key, step, init, items)) == ItemKeys(key, items)
    ensures forall k :: Lookup(GroupBy(less, key, step, init, items), k)
                        == if Select(key, items, k) == [] then None
                           else Some(Fold(step, init, Select(key, items, k)))
  {
    if items != [] {
      var x := items[0];
      var rest := items[1..];
      var g := GroupBy(less, key, step, init, rest);
      GroupByEffect(less, key, step, init, rest);
      PlaceEffect(less, step, init, g, key(x), x);
      ItemKeysCons(key, items);
      forall k ensures Lookup(GroupBy(less, key, step, init, items), k)
                       == if Select(key, items, k) == [] then None
                          else Some(Fold(step, init, Select(key, items, k)))
      {
        var s := Select(key, rest, k);
        if key(x) == k {
          assert Select(key, items, k) == [x] + s;
          assert ([x] + s)[1..] == s;
          assert AccOr(g, k, init) == Fold(step, init, s);
        } else {
          assert Select(key, items, k) == s;
        }
      }
    }
  }

  /** Each group of a sorted list is the one `Lookup` finds for its key. */
  lemma {:induction false} LookupMember<K(!new), A>(less: (K, K) -> bool, gs: seq<Group<K, A>>, i: int)
    requires StrictTotalOrder(less) && Sorted(less, gs)
    requires 0 <= i < |gs|
    ensures Lookup(gs, gs[i].key) == Some(gs[i].acc)
  {
    if i > 0 {
      assert less(gs[0].key, gs[i].key);
      assert gs[0].key != gs[i].key;
      var rest := gs[1..];
      assert Sorted(less, rest) by {
        forall a, b | 0 <= a < b < |rest| ensures less(rest[a].key, rest[b].key) {
          assert rest[a] == gs[a + 1] && rest[b] == gs[b + 1];
        }
      }
      assert rest[i - 1] == gs[i];
      LookupMember(less, rest, i - 1);
    }
  }

  /** Every output row is the aggregate of the non-empty set of items that
      share its key. */
  lemma GroupRows<K(!new), V, A>(less: (K, K) -> bool, key: V -> K, step: (A, V) -> A, init: A, items: seq<V>)
    requires StrictTotalOrder(less)
    ensures var gs := GroupBy(less, key, step, init, items);
      forall i :: 0 <= i < |gs| ==>
        Select(key, items, gs[i].key) != [] && gs[i].acc == Fold(step, init, Select(key, items, gs[i].key))
  {
    var gs := GroupBy(less, key, step, init, items);
    GroupByEffect(less, key, step, init, items);
    forall i | 0 <= i < |gs|
      ensures Select(key, items, gs[i].key) != [] && gs[i].acc == Fold(step, init, Select(key, items, gs[i].key))
    {
      LookupMember(less, gs, i);
    }
  }
}
