/**
 * The two orderings the backend relies on: Python's stable `sorted(..., key=period)` over
 * `(period, value)` pairs, and SQL `ORDER BY <text column>` (taken in code-point order).
 * Both are insertion sorts proved to return an ordered permutation of their input.
 */
module Sorting {

  // ---------------------------------------------------------------------------------
  // Sorting pairs by their integer key (a day number)

  predicate SortedByKey<V>(s: seq<(int, V)>) {
    forall i, j :: 0 <= i < j < |s| ==> s[i].0 <= s[j].0
  }

  function InsertByKey<V>(x: (int, V), s: seq<(int, V)>): (r: seq<(int, V)>)
    requires SortedByKey(s)
    ensures SortedByKey(r)
    ensures multiset(r) == multiset(s) + multiset{x}
    ensures |r| == |s| + 1
  {
    if s == [] then [x]
    else if x.0 <= s[0].0 then [x] + s
    else
      var rest := InsertByKey(x, s[1..]);
      assert s == [s[0]] + s[1..];
      assert forall k :: 0 <= k < |rest| ==> s[0].0 <= rest[k].0 by {
        forall k | 0 <= k < |rest| ensures s[0].0 <= rest[k].0 {
          assert rest[k] in multiset(rest);
          assert rest[k] in s[1..] || rest[k] == x;
        }
      }
      ConsSortedByKey(s[0], rest);
      [s[0]] + rest
  }

  lemma ConsSortedByKey<V>(h: (int, V), t: seq<(int, V)>)
    requires SortedByKey(t)
    requires forall k :: 0 <= k < |t| ==> h.0 <= t[k].0
    ensures SortedByKey([h] + t)
  {
    var r := [h] + t;
    forall i, j | 0 <= i < j < |r| ensures r[i].0 <= r[j].0 {
      assert r[j] == t[j - 1];
      if i > 0 {
        assert r[i] == t[i - 1];
      }
    }
  }

  /** `sorted(s, key=lambda item: item[0])`: stable, ascending by key. */
  function SortByKey<V>(s: seq<(int, V)>): (r: seq<(int, V)>)
    ensures SortedByKey(r)
    ensures multiset(r) == multiset(s)
    ensures |r| == |s|
  {
    if s == [] then []
    else
      assert s == [s[0]] + s[1..];
      InsertByKey(s[0], SortByKey(s[1..]))
  }

  /** The elements with key `k`, in their order in `s`. */
  function WithKey<V>(s: seq<(int, V)>, k: int): seq<(int, V)> {
    if s == [] then [] else (if s[0].0 == k then [s[0]] else []) + WithKey(s[1..], k)
  }

  lemma {:induction false} WithKeyAppend<V>(a: seq<(int, V)>, b: seq<(int, V)>, k: int)
    ensures WithKey(a + b, k) == WithKey(a, k) + WithKey(b, k)
  {
    if a != [] {
      WithKeyAppend(a[1..], b, k);
      var head := if a[0].0 == k then [a[0]] else [];
      assert (a + b)[0] == a[0] && (a + b)[1..] == a[1..] + b;
      assert WithKey(a + b, k) == head + WithKey(a[1..] + b, k);
      assert WithKey(a, k) == head + WithKey(a[1..], k);
    }
    else {
      assert a + b == b;
    }
  }

  /**
   * In a sequence ascending by key, the last element is the last of those that share its
   * key.
   */
  lemma LastOfItsKey<V>(s: seq<(int, V)>)
    requires s != []
    ensures var w := WithKey(s, s[|s| - 1].0);
      w != [] && w[|w| - 1] == s[|s| - 1]
  {
    var n := |s|;
    var l := s[n - 1];
    WithKeyAppend(s[..n - 1], [l], l.0);
    assert s == s[..n - 1] + [l];
    assert WithKey([l], l.0) == [l] by {
      assert [l][1..] == [];
    }
  }

  lemma WithKeyCons<V>(h: (int, V), t: seq<(int, V)>, k: int)
    ensures WithKey([h] + t, k) == (if h.0 == k then [h] else []) + WithKey(t, k)
  {
    assert ([h] + t)[0] == h && ([h] + t)[1..] == t;
  }

  lemma InsertByKeyPast<V>(x: (int, V), s: seq<(int, V)>)
    requires SortedByKey(s) && s != [] && x.0 > s[0].0
    ensures SortedByKey(s[1..])
    ensures InsertByKey(x, s) == [s[0]] + InsertByKey(x, s[1..])
  {
  }

  lemma InsertByKeyFront<V>(x: (int, V), s: seq<(int, V)>)
    requires SortedByKey(s) && (s == [] || x.0 <= s[0].0)
    ensures InsertByKey(x, s) == [x] + s
  {
  }

  /** Inserting `x` puts it in front of every element that shares its key. */
  lemma {:induction false} InsertByKeyStable<V>(x: (int, V), s: seq<(int, V)>, k: int)
    requires SortedByKey(s)
    ensures WithKey(InsertByKey(x, s), k) == (if x.0 == k then [x] else []) + WithKey(s, k)
  {
    if s == [] || x.0 <= s[0].0 {
      InsertByKeyFront(x, s);
      WithKeyCons(x, s, k);
    } else {
      InsertByKeyPast(x, s);
      InsertByKeyStable(x, s[1..], k);
      StableStep(s[0], x, s[1..], InsertByKey(x, s[1..]), k);
      assert s == [s[0]] + s[1..];
    }
  }

  /** An element with a smaller key than `x` stays in front of `x`, whatever the key `k`. */
  lemma StableStep<V>(h: (int, V), x: (int, V), t: seq<(int, V)>, rest: seq<(int, V)>, k: int)
    requires h.0 < x.0
    requires WithKey(rest, k) == (if x.0 == k then [x] else []) + WithKey(t, k)
    ensures WithKey([h] + rest, k) == (if x.0 == k then [x] else []) + WithKey([h] + t, k)
  {
    WithKeyCons(h, rest, k);
    WithKeyCons(h, t, k);
  }

  /**
   * Stability: for every key, the elements with that key come out in the order they went
   * in, so sorting only moves elements past elements with a different key.
   */
  lemma {:induction false} SortByKeyStable<V>(s: seq<(int, V)>, k: int)
    ensures WithKey(SortByKey(s), k) == WithKey(s, k)
  {
    if s != [] {
      SortByKeyStable(s[1..], k);
      InsertByKeyStable(s[0], SortByKey(s[1..]), k);
    }
  }

  /** In a sequence ascending by key, no element has a larger key than the last one. */
  lemma LastIsMax<V>(s: seq<(int, V)>)
    requires SortedByKey(s) && s != []
    ensures forall x :: x in s ==> x.0 <= s[|s| - 1].0
  {
  }

  // ---------------------------------------------------------------------------------
  // Lexicographic (code-point) order on strings

  predicate StrLe(a: string, b: string) {
    if a == [] then true
    else if b == [] then false
    else if a[0] != b[0] then a[0] < b[0]
    else StrLe(a[1..], b[1..])
  }

  lemma {:induction false} StrLeTotal(a: string, b: string)
    ensures StrLe(a, b) || StrLe(b, a)
  {
    if a != [] && b != [] && a[0] == b[0] {
      StrLeTotal(a[1..], b[1..]);
    }
  }

  lemma {:induction false} StrLeTrans(a: string, b: string, c: string)
    requires StrLe(a, b) && StrLe(b, c)
    ensures StrLe(a, c)
  {
    if a != [] && b != [] && c != [] && a[0] == b[0] && b[0] == c[0] {
      StrLeTrans(a[1..], b[1..], c[1..]);
    }
  }

  lemma {:induction false} StrLeRefl(a: string)
    ensures StrLe(a, a)
  {
    if a != [] { StrLeRefl(a[1..]); }
  }

  // ---------------------------------------------------------------------------------
  // Sorting records by a text key

  predicate SortedBy<T>(s: seq<T>, key: T -> string) {
    forall i, j :: 0 <= i < j < |s| ==> StrLe(key(s[i]), key(s[j]))
  }

  function InsertBy<T>(x: T, s: seq<T>, key: T -> string): (r: seq<T>)
    requires SortedBy(s, key)
    ensures SortedBy(r, key)
    ensures multiset(r) == multiset(s) + multiset{x}
    ensures |r| == |s| + 1
  {
    if s == [] then [x]
    else if StrLe(key(x), key(s[0])) then
      assert forall k :: 0 <= k < |s| ==> StrLe(key(x), key(s[k])) by {
        forall k | 0 <= k < |s| ensures StrLe(key(x), key(s[k])) {
          if k > 0 { StrLeTrans(key(x), key(s[0]), key(s[k])); }
        }
      }
      ConsSortedBy(x, s, key);
      [x] + s
    else
      StrLeTotal(key(x), key(s[0]));
      var rest := InsertBy(x, s[1..], key);
      assert s == [s[0]] + s[1..];
      assert forall k :: 0 <= k < |rest| ==> StrLe(key(s[0]), key(rest[k])) by {
        forall k | 0 <= k < |rest| ensures StrLe(key(s[0]), key(rest[k])) {
          assert rest[k] in multiset(rest);
          assert rest[k] in s[1..] || rest[k] == x;
        }
      }
      ConsSortedBy(s[0], rest, key);
      [s[0]] + rest
  }

  /** A head no greater than any element of an ordered tail keeps the order. */
  lemma ConsSortedBy<T>(h: T, t: seq<T>, key: T -> string)
    requires SortedBy(t, key)
    requires forall k :: 0 <= k < |t| ==> StrLe(key(h), key(t[k]))
    ensures SortedBy([h] + t, key)
  {
    var r := [h] + t;
    forall i, j | 0 <= i < j < |r| ensures StrLe(key(r[i]), key(r[j])) {
      assert r[j] == t[j - 1];
      if i > 0 {
        assert r[i] == t[i - 1];
      }
    }
  }

  /** `ORDER BY key`, ties kept in input order. */
  function SortBy<T>(s: seq<T>, key: T -> string): (r: seq<T>)
    ensures SortedBy(r, key)
    ensures multiset(r) == multiset(s)
    ensures |r| == |s|
  {
    if s == [] then []
    else
      assert s == [s[0]] + s[1..];
      InsertBy(s[0], SortBy(s[1..], key), key)
  }

  /** Sorting keeps exactly the same elements. */
  lemma SortByMembers<T>(s: seq<T>, key: T -> string)
    ensures forall x :: x in SortBy(s, key) <==> x in s
  {
    var r := SortBy(s, key);
    forall x ensures x in r <==> x in s {
      assert x in r <==> x in multiset(r);
      assert x in s <==> x in multiset(s);
    }
  }

  /** A prefix of an ordered sequence is ordered. */
  lemma SortedPrefix<T>(s: seq<T>, n: nat, key: T -> string)
    requires SortedBy(s, key) && n <= |s|
    ensures SortedBy(s[..n], key)
  {
  }

  /** Cutting an ordered sequence after `n` leaves out only elements no smaller than the last one kept. */
  lemma SortedCut<T>(s: seq<T>, n: nat, key: T -> string)
    requires SortedBy(s, key) && n <= |s|
    ensures n > 0 ==> forall c :: c in multiset(s) - multiset(s[..n]) ==> StrLe(key(s[n - 1]), key(c))
  {
    assert s == s[..n] + s[n..];
    assert multiset(s) - multiset(s[..n]) == multiset(s[n..]);
    forall c | n > 0 && c in multiset(s[n..]) ensures StrLe(key(s[n - 1]), key(c)) {
      assert c in s[n..];
      var k :| n <= k < |s| && s[k] == c;
    }
  }
}
