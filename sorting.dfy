/** `ORDER BY` on a column that need not be unique: insertion sort under a
    total preorder `le`. Rows that tie may come out in either order, so the
    results state only that the output is ordered and holds the same rows. */
module Sorting {

  /** `x` goes in front of the first row it is not after. */
  function Insert<T>(le: (T, T) -> bool, x: T, s: seq<T>): (r: seq<T>)
    ensures multiset(r) == multiset(s) + multiset{x}
  {
    if s == [] then [x]
    else if le(x, s[0]) then [x] + s
    else
      assert s == [s[0]] + s[1..];
      [s[0]] + Insert(le, x, s[1..])
  }

  function Sort<T>(le: (T, T) -> bool, s: seq<T>): (r: seq<T>)
    ensures multiset(r) == multiset(s)
  {
    if s == [] then []
    else
      assert s == [s[0]] + s[1..];
      Insert(le, s[0], Sort(le, s[1..]))
  }

  /** One step of the sort, for a list written as head and tail. */
  lemma SortCons<T>(le: (T, T) -> bool, x: T, s: seq<T>)
    ensures Sort(le, [x] + s) == Insert(le, x, Sort(le, s))
  {
    assert ([x] + s)[1..] == s;
  }

  /** A row that does not go before the first row is inserted behind it. */
  lemma InsertBehind<T>(le: (T, T) -> bool, x: T, y: T, s: seq<T>)
    requires !le(x, y)
    ensures Insert(le, x, [y] + s) == [y] + Insert(le, x, s)
  {
    assert ([y] + s)[1..] == s;
  }

  /** A row that goes before the first row is inserted in front. */
  lemma InsertFront<T>(le: (T, T) -> bool, x: T, s: seq<T>)
    requires s != [] && le(x, s[0])
    ensures Insert(le, x, s) == [x] + s
  {
  }

  /** Every row is `le` every later row. */
  predicate Ordered<T>(le: (T, T) -> bool, s: seq<T>)
  {
    forall i, j :: 0 <= i < j < |s| ==> le(s[i], s[j])
  }

  /** On the values that `ok` admits, `le` is total and transitive. */
  ghost predicate TotalPreorderOn<T(!new)>(le: (T, T) -> bool, ok: T -> bool)
  {
    && (forall a, b :: ok(a) && ok(b) ==> le(a, b) || le(b, a))
    && (forall a, b, c :: ok(a) && ok(b) && ok(c) && le(a, b) && le(b, c) ==> le(a, c))
  }

  predicate AllOk<T>(ok: T -> bool, s: seq<T>)
  {
    forall i :: 0 <= i < |s| ==> ok(s[i])
  }

  /** A row of `s` is one of its entries: turns multiset membership into an index. */
  lemma IndexOf<T>(s: seq<T>, e: T) returns (k: int)
    requires e in multiset(s)
    ensures 0 <= k < |s| && s[k] == e
  {
    assert e in s;
    k :| 0 <= k < |s| && s[k] == e;
  }

  lemma {:induction false} InsertOrdered<T(!new)>(le: (T, T) -> bool, ok: T -> bool, x: T, s: seq<T>)
    requires TotalPreorderOn(le, ok)
    requires ok(x) && AllOk(ok, s) && Ordered(le, s)
    ensures Ordered(le, Insert(le, x, s))
    ensures AllOk(ok, Insert(le, x, s))
  {
    var r := Insert(le, x, s);
    if s == [] {
    } else if le(x, s[0]) {
      forall i, j | 0 <= i < j < |r| ensures le(r[i], r[j]) {
        if i == 0 {
          if j > 1 {
            assert le(s[0], s[j - 1]);
          }
        } else {
          assert r[i] == s[i - 1] && r[j] == s[j - 1];
        }
      }
      forall i | 0 <= i < |r| ensures ok(r[i]) {
        if i > 0 { assert r[i] == s[i - 1]; }
      }
    } else {
      var rest := s[1..];
      var t := Insert(le, x, rest);
      assert Ordered(le, rest) by {
        forall i, j | 0 <= i < j < |rest| ensures le(rest[i], rest[j]) {
          assert rest[i] == s[i + 1] && rest[j] == s[j + 1];
        }
      }
      assert AllOk(ok, rest) by {
        forall i | 0 <= i < |rest| ensures ok(rest[i]) {
          assert rest[i] == s[i + 1];
        }
      }
      InsertOrdered(le, ok, x, rest);
      assert le(s[0], x);
      assert r == [s[0]] + t;
      forall i, j | 0 <= i < j < |r| ensures le(r[i], r[j]) {
        if i == 0 {
          assert r[j] == t[j - 1];
          assert t[j - 1] in multiset(t);
          if t[j - 1] != x {
            var m := IndexOf(rest, t[j - 1]);
            assert le(s[0], s[m + 1]);
          }
        } else {
          assert r[i] == t[i - 1] && r[j] == t[j - 1];
        }
      }
      forall i | 0 <= i < |r| ensures ok(r[i]) {
        if i > 0 { assert r[i] == t[i - 1]; }
      }
    }
  }

  /** On rows that `le` orders totally, the result is ordered by `le`. */
  lemma {:induction false} SortOrdered<T(!new)>(le: (T, T) -> bool, ok: T -> bool, s: seq<T>)
    requires TotalPreorderOn(le, ok) && AllOk(ok, s)
    ensures Ordered(le, Sort(le, s))
    ensures AllOk(ok, Sort(le, s))
  {
    if s != [] {
      var rest := s[1..];
      assert AllOk(ok, rest) by {
        forall i | 0 <= i < |rest| ensures ok(rest[i]) {
          assert rest[i] == s[i + 1];
        }
      }
      SortOrdered(le, ok, rest);
      InsertOrdered(le, ok, s[0], Sort(le, rest));
    }
  }

  /** Sorting keeps rows apart that some `key` told apart. */
  lemma {:induction false} InsertDistinct<T, K>(le: (T, T) -> bool, key: T -> K, x: T, s: seq<T>)
    requires forall i, j :: 0 <= i < j < |s| ==> key(s[i]) != key(s[j])
    requires forall i :: 0 <= i < |s| ==> key(s[i]) != key(x)
    ensures forall i, j :: 0 <= i < j < |Insert(le, x, s)| ==>
              key(Insert(le, x, s)[i]) != key(Insert(le, x, s)[j])
  {
    var r := Insert(le, x, s);
    if s != [] && !le(x, s[0]) {
      var rest := s[1..];
      var t := Insert(le, x, rest);
      forall i, j | 0 <= i < j < |rest| ensures key(rest[i]) != key(rest[j]) {
        assert rest[i] == s[i + 1] && rest[j] == s[j + 1];
      }
      forall i | 0 <= i < |rest| ensures key(rest[i]) != key(x) {
        assert rest[i] == s[i + 1];
      }
      InsertDistinct(le, key, x, rest);
      assert r == [s[0]] + t;
      forall j | 0 < j < |r| ensures key(r[0]) != key(r[j]) {
        assert r[j] == t[j - 1];
        assert t[j - 1] in multiset(t);
        if t[j - 1] != x {
          var m := IndexOf(rest, t[j - 1]);
          assert rest[m] == s[m + 1];
        }
      }
      forall i, j | 0 < i < j < |r| ensures key(r[i]) != key(r[j]) {
        assert r[i] == t[i - 1] && r[j] == t[j - 1];
      }
    } else if s != [] {
      forall i, j | 0 <= i < j < |r| ensures key(r[i]) != key(r[j]) {
        if i == 0 {
          assert r[j] == s[j - 1];
        } else {
          assert r[i] == s[i - 1] && r[j] == s[j - 1];
        }
      }
    }
  }

  lemma {:induction false} SortDistinct<T, K>(le: (T, T) -> bool, key: T -> K, s: seq<T>)
    requires forall i, j :: 0 <= i < j < |s| ==> key(s[i]) != key(s[j])
    ensures forall i, j :: 0 <= i < j < |Sort(le, s)| ==>
              key(Sort(le, s)[i]) != key(Sort(le, s)[j])
  {
    if s != [] {
      var rest := s[1..];
      forall i, j | 0 <= i < j < |rest| ensures key(rest[i]) != key(rest[j]) {
        assert rest[i] == s[i + 1] && rest[j] == s[j + 1];
      }
      SortDistinct(le, key, rest);
      var t := Sort(le, rest);
      forall i | 0 <= i < |t| ensures key(t[i]) != key(s[0]) {
        assert t[i] in multiset(t);
        var m := IndexOf(rest, t[i]);
        assert rest[m] == s[m + 1];
      }
      InsertDistinct(le, key, s[0], t);
    }
  }
}
