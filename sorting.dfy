/** Python's sorted(xs, key=f) for string keys: a stable sort, proved to return a
    sorted permutation of its input that keeps the input order of equal keys. */
module Sorting {
  import opened Text

  predicate SortedBy<T>(s: seq<T>, key: T -> string) {
    forall i, j :: 0 <= i < j < |s| ==> LexLe(key(s[i]), key(s[j]))
  }

  /** The elements of s whose key is k, in the order s has them. */
  function WithKey<T>(s: seq<T>, key: T -> string, k: string): seq<T> {
    if s == [] then [] else (if key(s[0]) == k then [s[0]] else []) + WithKey(s[1..], key, k)
  }

  lemma {:induction false} WithKeyAppend<T>(a: seq<T>, b: seq<T>, key: T -> string, k: string)
    ensures WithKey(a + b, key, k) == WithKey(a, key, k) + WithKey(b, key, k)
  {
    if a != [] {
      assert (a + b)[1..] == a[1..] + b;
      WithKeyAppend(a[1..], b, key, k);
    } else {
      assert a + b == b;
    }
  }

  /** Puts x after every element of s whose key is at most key(x). */
  function Insert<T>(x: T, s: seq<T>, key: T -> string): (r: seq<T>)
    ensures multiset(r) == multiset(s) + multiset{x}
  {
    if s == [] then [x]
    else if LexLe(key(s[0]), key(x)) then
      assert s == [s[0]] + s[1..];
      [s[0]] + Insert(x, s[1..], key)
    else [x] + s
  }

  lemma {:induction false} InsertSorted<T>(x: T, s: seq<T>, key: T -> string)
    requires SortedBy(s, key)
    ensures SortedBy(Insert(x, s, key), key)
  {
    if s == [] {
    } else if LexLe(key(s[0]), key(x)) {
      var t := Insert(x, s[1..], key);
      InsertSorted(x, s[1..], key);
      forall j | 0 <= j < |t| ensures LexLe(key(s[0]), key(t[j])) {
        assert t[j] in multiset(t);
        if t[j] != x {
          assert t[j] in multiset(s[1..]);
          var m :| 0 <= m < |s[1..]| && s[1..][m] == t[j];
          assert s[m + 1] == t[j];
        }
      }
      assert Insert(x, s, key) == [s[0]] + t;
    } else {
      LexLeTotal(key(s[0]), key(x));
      forall j | 0 <= j < |s| ensures LexLe(key(x), key(s[j])) {
        if j > 0 { LexLeTransitive(key(x), key(s[0]), key(s[j])); }
      }
    }
  }

  lemma {:induction false} InsertWithKey<T>(x: T, s: seq<T>, key: T -> string, k: string)
    requires SortedBy(s, key)
    ensures WithKey(Insert(x, s, key), key, k) == WithKey(s, key, k) + (if key(x) == k then [x] else [])
    decreases |s|, 1
  {
    if s == [] {
      WithKeySingle(x, key, k);
    } else if LexLe(key(s[0]), key(x)) {
      InsertWithKeyAfterHead(x, s, key, k);
    } else {
      WithKeyCons(x, s, key, k);
      if key(x) == k {
        // every key in s is above key(x), so no element of s shares key(x)
        NoneWithKey(s, key, k);
      }
    }
  }

  /** x goes after the head of s: the head keeps its place before x. */
  lemma {:induction false} InsertWithKeyAfterHead<T>(x: T, s: seq<T>, key: T -> string, k: string)
    requires SortedBy(s, key) && s != [] && LexLe(key(s[0]), key(x))
    ensures WithKey(Insert(x, s, key), key, k) == WithKey(s, key, k) + (if key(x) == k then [x] else [])
    decreases |s|, 0
  {
    var t := Insert(x, s[1..], key);
    SortedTail(s, key);
    InsertWithKey(x, s[1..], key, k);
    assert Insert(x, s, key) == [s[0]] + t;
    WithKeyBehindHead(s, t, key, k, if key(x) == k then [x] else []);
  }

  /** Putting the head of s in front of a sequence that adds `last` to the rest of s
      adds `last` to s. */
  lemma WithKeyBehindHead<T>(s: seq<T>, t: seq<T>, key: T -> string, k: string, last: seq<T>)
    requires s != [] && WithKey(t, key, k) == WithKey(s[1..], key, k) + last
    ensures WithKey([s[0]] + t, key, k) == WithKey(s, key, k) + last
  {
    var head := if key(s[0]) == k then [s[0]] else [];
    WithKeyCons(s[0], t, key, k);
    assert [s[0]] + s[1..] == s;
    WithKeyCons(s[0], s[1..], key, k);
    assert head + (WithKey(s[1..], key, k) + last) == (head + WithKey(s[1..], key, k)) + last;
  }

  lemma WithKeyCons<T>(a: T, t: seq<T>, key: T -> string, k: string)
    ensures WithKey([a] + t, key, k) == (if key(a) == k then [a] else []) + WithKey(t, key, k)
  {
    assert ([a] + t)[1..] == t;
  }

  lemma SortedTail<T>(s: seq<T>, key: T -> string)
    requires SortedBy(s, key) && s != []
    ensures SortedBy(s[1..], key)
  {
    forall i, j | 0 <= i < j < |s[1..]| ensures LexLe(key(s[1..][i]), key(s[1..][j])) {
      assert s[1..][i] == s[i + 1] && s[1..][j] == s[j + 1];
    }
  }

  /** In a sorted sequence whose first key is not at most k, no element has key k. */
  lemma {:induction false} NoneWithKey<T>(s: seq<T>, key: T -> string, k: string)
    requires SortedBy(s, key) && s != [] && !LexLe(key(s[0]), k)
    ensures WithKey(s, key, k) == []
  {
    LexLeReflexive(k);
    assert key(s[0]) != k;
    if |s| > 1 {
      if LexLe(key(s[1]), k) {
        LexLeTransitive(key(s[0]), key(s[1]), k);
      }
      SortedTail(s, key);
      NoneWithKey(s[1..], key, k);
    }
  }

  /** sorted(s, key=key) */
  function SortBy<T>(s: seq<T>, key: T -> string): (r: seq<T>)
    ensures SortedBy(r, key)
    ensures multiset(r) == multiset(s)
  {
    if s == [] then []
    else
      var rest := SortBy(s[..|s| - 1], key);
      InsertSorted(s[|s| - 1], rest, key);
      assert s == s[..|s| - 1] + [s[|s| - 1]];
      Insert(s[|s| - 1], rest, key)
  }

  lemma SortByLast<T>(s: seq<T>, key: T -> string)
    requires s != []
    ensures SortBy(s, key) == Insert(s[|s| - 1], SortBy(s[..|s| - 1], key), key)
  {
  }

  /** The sort is stable: the elements sharing any one key come out in the order
      they went in. Together with SortBy's contract this fixes the result uniquely. */
  lemma {:induction false} SortByStable<T>(s: seq<T>, key: T -> string, k: string)
    ensures WithKey(SortBy(s, key), key, k) == WithKey(s, key, k)
  {
    if s != [] {
      var init, x := s[..|s| - 1], s[|s| - 1];
      SplitLast(s);
      WithKeyAppend(init, [x], key, k);
      WithKeySingle(x, key, k);
      SortByLast(s, key);
      SortByStable(init, key, k);
      InsertWithKey(x, SortBy(init, key), key, k);
    }
  }

  lemma SplitLast<T>(s: seq<T>)
    requires s != []
    ensures s == s[..|s| - 1] + [s[|s| - 1]]
  {
  }

  lemma WithKeySingle<T>(x: T, key: T -> string, k: string)
    ensures WithKey([x], key, k) == if key(x) == k then [x] else []
  {
    assert WithKey([x], key, k) == (if key(x) == k then [x] else []) + WithKey([x][1..], key, k);
  }

  /** Every element of the sorted sequence comes from the input, and conversely. */
  lemma SortByMembers<T>(s: seq<T>, key: T -> string, x: T)
    ensures x in SortBy(s, key) <==> x in s
  {
    var r := SortBy(s, key);
    assert x in r <==> x in multiset(r);
    assert x in s <==> x in multiset(s);
  }
}
