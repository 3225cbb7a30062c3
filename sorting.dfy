/**
 * `sorted()` over strings: a set of names becomes the strictly ascending
 * list of its elements under Python's code-point order on `str`; and
 * `list.sort(key=...)` with a string key, which is stable.
 */
module Sorting {
  import opened Text

  predicate StrictlyAscending(s: seq<string>) {
    forall i, j :: 0 <= i < j < |s| ==> StrLt(s[i], s[j])
  }

  lemma {:induction false} StrLtTransitive(a: string, b: string, c: string)
    requires StrLt(a, b) && StrLt(b, c)
    ensures StrLt(a, c)
  {
    StrLeTransitive(a, b, c);
    if a == c {
      StrLeAntisymmetric(b, c);
    }
  }

  /** Two different strings are ordered one way or the other. */
  lemma {:induction false} StrLtTotal(a: string, b: string)
    requires a != b
    ensures StrLt(a, b) || StrLt(b, a)
  {
    StrLeTotal(a, b);
  }

  /** The sorted list with `x` added, unless it is already there. */
  function InsertSorted(s: seq<string>, x: string): (r: seq<string>)
    ensures forall y :: y in r <==> y in s || y == x
  {
    if s == [] then [x]
    else if x == s[0] then s
    else if StrLt(x, s[0]) then [x] + s
    else [s[0]] + InsertSorted(s[1..], x)
  }

  lemma {:induction false} InsertSortedAscending(s: seq<string>, x: string)
    requires StrictlyAscending(s)
    ensures StrictlyAscending(InsertSorted(s, x))
  {
    if s == [] {
    } else if x == s[0] {
    } else if StrLt(x, s[0]) {
      var r := [x] + s;
      forall i, j | 0 <= i < j < |r| ensures StrLt(r[i], r[j]) {
        if i == 0 && j > 1 {
          StrLtTransitive(x, s[0], s[j - 1]);
        }
      }
    } else {
      StrLtTotal(x, s[0]);
      InsertSortedAscending(s[1..], x);
      var rest := InsertSorted(s[1..], x);
      var r := [s[0]] + rest;
      forall j | 0 <= j < |rest| ensures StrLt(s[0], rest[j]) {
        assert rest[j] in rest;
        if rest[j] != x {
          var k :| 0 <= k < |s[1..]| && s[1..][k] == rest[j];
          assert s[k + 1] == rest[j];
        }
      }
      forall i, j | 0 <= i < j < |r| ensures StrLt(r[i], r[j]) {
        if i > 0 {
          assert r[i] == rest[i - 1] && r[j] == rest[j - 1];
        }
      }
    }
  }

  /** `sorted(names)` for a set of strings. */
  method SortedSet(names: set<string>) returns (r: seq<string>)
    ensures StrictlyAscending(r)
    ensures forall y :: y in r <==> y in names
  {
    r := [];
    var rest := names;
    while rest != {}
      invariant StrictlyAscending(r)
      invariant rest <= names
      invariant forall y :: y in names <==> y in r || y in rest
      decreases |rest|
    {
      var x :| x in rest;
      InsertSortedAscending(r, x);
      r := InsertSorted(r, x);
      rest := rest - {x};
    }
  }

  // ---------------------------------------------------------------- stable sort by a string key

  predicate SortedBy<T>(items: seq<T>, key: T -> string) {
    forall i, j :: 0 <= i < j < |items| ==> StrLe(key(items[i]), key(items[j]))
  }

  /** `[x for x in items if key(x) == k]` */
  function WithKey<T>(items: seq<T>, key: T -> string, k: string): seq<T> {
    if items == [] then []
    else (if key(items[0]) == k then [items[0]] else []) + WithKey(items[1..], key, k)
  }

  /** Insert `x` before the first item whose key is greater, after all whose key is not. */
  function InsertBy<T(==)>(sorted: seq<T>, x: T, key: T -> string): (r: seq<T>)
    ensures multiset(r) == multiset(sorted) + multiset{x}
  {
    if sorted == [] then [x]
    else if StrLt(key(x), key(sorted[0])) then [x] + sorted
    else
      assert sorted == [sorted[0]] + sorted[1..];
      [sorted[0]] + InsertBy(sorted[1..], x, key)
  }

  /** `items.sort(key=key)`: insertion of each item in turn into the sorted prefix. */
  function SortBy<T(==)>(items: seq<T>, key: T -> string): (r: seq<T>)
    ensures multiset(r) == multiset(items)
  {
    if items == [] then []
    else
      var init := items[..|items| - 1];
      assert init + [items[|items| - 1]] == items;
      InsertBy(SortBy(init, key), items[|items| - 1], key)
  }

  /** Every item of a sorted list after its first has a key no smaller than the first's. */
  lemma {:induction false} FirstIsLeast<T>(sorted: seq<T>, key: T -> string, y: T)
    requires SortedBy(sorted, key) && sorted != [] && y in sorted[1..]
    ensures StrLe(key(sorted[0]), key(y))
  {
    var k :| 0 <= k < |sorted[1..]| && sorted[1..][k] == y;
    assert sorted[k + 1] == y;
  }

  lemma {:induction false} InsertBySorted<T>(sorted: seq<T>, x: T, key: T -> string)
    requires SortedBy(sorted, key)
    ensures SortedBy(InsertBy(sorted, x, key), key)
  {
    if sorted == [] {
    } else if StrLt(key(x), key(sorted[0])) {
      var r := [x] + sorted;
      forall i, j | 0 <= i < j < |r| ensures StrLe(key(r[i]), key(r[j])) {
        if i == 0 && j > 1 {
          StrLeTransitive(key(x), key(sorted[0]), key(sorted[j - 1]));
        }
      }
    } else {
      StrLeTotal(key(x), key(sorted[0]));
      InsertBySorted(sorted[1..], x, key);
      var rest := InsertBy(sorted[1..], x, key);
      forall j | 0 <= j < |rest| ensures StrLe(key(sorted[0]), key(rest[j])) {
        assert rest[j] in multiset(rest);
        if rest[j] != x {
          FirstIsLeast(sorted, key, rest[j]);
        }
      }
      var r := [sorted[0]] + rest;
      forall i, j | 0 <= i < j < |r| ensures StrLe(key(r[i]), key(r[j])) {
        if i > 0 {
          assert r[i] == rest[i - 1] && r[j] == rest[j - 1];
        }
      }
    }
  }

  lemma {:induction false} SortBySorted<T>(items: seq<T>, key: T -> string)
    ensures SortedBy(SortBy(items, key), key)
  {
    if items != [] {
      SortBySorted(items[..|items| - 1], key);
      InsertBySorted(SortBy(items[..|items| - 1], key), items[|items| - 1], key);
    }
  }

  /** No item of a sorted list whose first key is greater than `k` has key `k`. */
  lemma {:induction false} NoneWithKey<T>(sorted: seq<T>, key: T -> string, k: string)
    requires SortedBy(sorted, key) && sorted != [] && StrLt(k, key(sorted[0]))
    ensures WithKey(sorted, key, k) == []
  {
    if |sorted| > 1 {
      StrLeTransitive(k, key(sorted[0]), key(sorted[1]));
      if k == key(sorted[1]) {
        StrLeAntisymmetric(k, key(sorted[0]));
      }
      NoneWithKey(sorted[1..], key, k);
    }
  }

  lemma {:induction false} WithKeyCons<T>(y: T, rest: seq<T>, key: T -> string, k: string)
    ensures WithKey([y] + rest, key, k) == (if key(y) == k then [y] else []) + WithKey(rest, key, k)
  {
    assert ([y] + rest)[1..] == rest;
  }

  /** Among the items with one key, the inserted one comes last. */
  lemma {:induction false} InsertByStable<T>(sorted: seq<T>, x: T, key: T -> string, k: string)
    requires SortedBy(sorted, key)
    ensures WithKey(InsertBy(sorted, x, key), key, k) == WithKey(sorted, key, k) + (if key(x) == k then [x] else [])
  {
    if sorted == [] {
    } else if StrLt(key(x), key(sorted[0])) {
      InsertByStableFront(sorted, x, key, k);
    } else {
      InsertByStable(sorted[1..], x, key, k);
      InsertByStableStep(sorted, x, key, k);
    }
  }

  /** The case of `InsertByStable` where `x` goes first. */
  lemma {:induction false} InsertByStableFront<T>(sorted: seq<T>, x: T, key: T -> string, k: string)
    requires SortedBy(sorted, key) && sorted != [] && StrLt(key(x), key(sorted[0]))
    ensures WithKey([x] + sorted, key, k) == WithKey(sorted, key, k) + (if key(x) == k then [x] else [])
  {
    WithKeyCons(x, sorted, key, k);
    if key(x) == k {
      NoneWithKey(sorted, key, k);
    }
  }

  /** The step of `InsertByStable` where `x` goes after the first item. */
  lemma {:induction false} InsertByStableStep<T>(sorted: seq<T>, x: T, key: T -> string, k: string)
    requires sorted != [] && !StrLt(key(x), key(sorted[0]))
    requires WithKey(InsertBy(sorted[1..], x, key), key, k) ==
               WithKey(sorted[1..], key, k) + (if key(x) == k then [x] else [])
    ensures WithKey(InsertBy(sorted, x, key), key, k) == WithKey(sorted, key, k) + (if key(x) == k then [x] else [])
  {
    var rest := sorted[1..];
    WithKeyCons(sorted[0], InsertBy(rest, x, key), key, k);
    var head := if key(sorted[0]) == k then [sorted[0]] else [];
    var tail := if key(x) == k then [x] else [];
    Associative(head, WithKey(rest, key, k), tail);
  }

  lemma {:induction false} Associative<T>(a: seq<T>, b: seq<T>, c: seq<T>)
    ensures a + (b + c) == (a + b) + c
  {
  }

  lemma {:induction false} WithKeyAppend<T>(items: seq<T>, x: T, key: T -> string, k: string)
    ensures WithKey(items + [x], key, k) == WithKey(items, key, k) + (if key(x) == k then [x] else [])
  {
    if items == [] {
      assert [x][1..] == [];
    } else {
      WithKeyAppend(items[1..], x, key, k);
      assert (items + [x])[1..] == items[1..] + [x];
    }
  }

  /** Inserting into the sorted prefix keeps each key's items in order, the new one last. */
  lemma {:induction false} SortByInsertStable<T>(init: seq<T>, last: T, key: T -> string, k: string)
    ensures WithKey(InsertBy(SortBy(init, key), last, key), key, k) ==
              WithKey(SortBy(init, key), key, k) + (if key(last) == k then [last] else [])
  {
    SortBySorted(init, key);
    InsertByStable(SortBy(init, key), last, key, k);
  }

  /** The sort keeps the items of each key in their order before the sort. */
  lemma {:induction false} SortByStable<T>(items: seq<T>, key: T -> string, k: string)
    ensures WithKey(SortBy(items, key), key, k) == WithKey(items, key, k)
  {
    if items != [] {
      var init := items[..|items| - 1];
      var last := items[|items| - 1];
      SortByStable(init, key, k);
      SortByInsertStable(init, last, key, k);
      WithKeyAppend(init, last, key, k);
      Snoc(items);
    }
  }

  lemma {:induction false} Snoc<T>(items: seq<T>)
    requires items != []
    ensures items[..|items| - 1] + [items[|items| - 1]] == items
  {
  }
}
