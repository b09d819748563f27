/**
 * Kotlin's `sortedBy { key(it) }` for a nullable `Comparable` key: a stable sort in
 * which a null key orders before every non-null key (`compareValues`). The keys here
 * are parsed dates, represented by their day number.
 */
module StableSort {
  import opened Wrappers

  /** `compareValues(a, b) <= 0` for nullable keys: null is smallest. */
  predicate KeyLe(a: Option<int>, b: Option<int>)
  {
    a.None? || (b.Some? && a.value <= b.value)
  }

  /** Ascending by key, nulls first. */
  predicate SortedBy<T>(s: seq<T>, key: T -> Option<int>)
  {
    forall i, j :: 0 <= i < j < |s| ==> KeyLe(key(s[i]), key(s[j]))
  }

  /** The elements of `s` whose key is `k`, in their order in `s`. */
  function WithKey<T>(s: seq<T>, key: T -> Option<int>, k: Option<int>): seq<T>
  {
    if |s| == 0 then [] else (if key(s[0]) == k then [s[0]] else []) + WithKey(s[1..], key, k)
  }

  /** Puts `x` in front of the first element whose key is not smaller than its own. */
  function Insert<T>(x: T, s: seq<T>, key: T -> Option<int>): (r: seq<T>)
    ensures |r| == |s| + 1
  {
    if |s| == 0 then [x]
    else if KeyLe(key(x), key(s[0])) then [x] + s
    else [s[0]] + Insert(x, s[1..], key)
  }

  /** `sortedBy { key(it) }`, as an insertion sort from the back. */
  function SortBy<T>(s: seq<T>, key: T -> Option<int>): (r: seq<T>)
    ensures |r| == |s|
  {
    if |s| == 0 then [] else Insert(s[0], SortBy(s[1..], key), key)
  }

  /** Inserting adds exactly `x` to the elements. */
  lemma {:induction false} InsertMultiset<T>(x: T, s: seq<T>, key: T -> Option<int>)
    ensures multiset(Insert(x, s, key)) == multiset(s) + multiset{x}
  {
    if |s| == 0 {
    } else if KeyLe(key(x), key(s[0])) {
      assert multiset([x] + s) == multiset{x} + multiset(s);
    } else {
      InsertMultiset(x, s[1..], key);
      assert s == [s[0]] + s[1..];
      assert multiset(s) == multiset{s[0]} + multiset(s[1..]);
      assert multiset([s[0]] + Insert(x, s[1..], key)) == multiset{s[0]} + multiset(Insert(x, s[1..], key));
    }
  }

  lemma TailSorted<T>(s: seq<T>, key: T -> Option<int>)
    requires |s| > 0 && SortedBy(s, key)
    ensures SortedBy(s[1..], key)
  {
    forall i, j | 0 <= i < j < |s[1..]| ensures KeyLe(key(s[1..][i]), key(s[1..][j])) {
      assert s[1..][i] == s[i + 1] && s[1..][j] == s[j + 1];
    }
  }

  /** A sorted sequence stays sorted with a smallest element in front. */
  lemma ConsSorted<T>(h: T, rest: seq<T>, key: T -> Option<int>)
    requires SortedBy(rest, key)
    requires forall y :: y in rest ==> KeyLe(key(h), key(y))
    ensures SortedBy([h] + rest, key)
  {
    var r := [h] + rest;
    forall i, j | 0 <= i < j < |r| ensures KeyLe(key(r[i]), key(r[j])) {
      assert r[j] == rest[j - 1] && rest[j - 1] in rest;
      if i > 0 {
        assert r[i] == rest[i - 1];
      }
    }
  }

  lemma {:induction false} InsertSorted<T>(x: T, s: seq<T>, key: T -> Option<int>)
    requires SortedBy(s, key)
    ensures SortedBy(Insert(x, s, key), key)
  {
    if |s| == 0 {
    } else if KeyLe(key(x), key(s[0])) {
      forall y | y in s ensures KeyLe(key(x), key(y)) {
        var j :| 0 <= j < |s| && s[j] == y;
        if j > 0 {
          assert KeyLe(key(s[0]), key(s[j]));
        }
      }
      ConsSorted(x, s, key);
    } else {
      var rest := Insert(x, s[1..], key);
      TailSorted(s, key);
      InsertSorted(x, s[1..], key);
      InsertMultiset(x, s[1..], key);
      // Every element of rest is x or an element of s[1..]; all of them come after s[0].
      forall y | y in rest ensures KeyLe(key(s[0]), key(y)) {
        assert y in multiset(rest);
        if y != x {
          assert y in multiset(s[1..]);
          var j :| 0 <= j < |s[1..]| && s[1..][j] == y;
          assert s[j + 1] == y;
        }
      }
      ConsSorted(s[0], rest, key);
    }
  }

  /** Inserting keeps every other key's run intact and puts `x` in front of its own. */
  lemma {:induction false} InsertWithKey<T>(x: T, s: seq<T>, key: T -> Option<int>, k: Option<int>)
    ensures WithKey(Insert(x, s, key), key, k) == (if key(x) == k then [x] else []) + WithKey(s, key, k)
  {
    if |s| == 0 {
      assert WithKey([x], key, k) == (if key(x) == k then [x] else []) + WithKey([x][1..], key, k);
    } else if KeyLe(key(x), key(s[0])) {
      assert ([x] + s)[1..] == s;
    } else {
      var rest := Insert(x, s[1..], key);
      var r := [s[0]] + rest;
      assert r[0] == s[0] && r[1..] == rest;
      InsertWithKey(x, s[1..], key, k);
      // s[0]'s key is strictly smaller than x's, so at most one of the two has key k.
      assert key(s[0]) != key(x);
      var head := if key(s[0]) == k then [s[0]] else [];
      var mine := if key(x) == k then [x] else [];
      assert WithKey(r, key, k) == head + WithKey(rest, key, k);
      assert WithKey(s, key, k) == head + WithKey(s[1..], key, k);
      assert head == [] || mine == [];
      assert head + (mine + WithKey(s[1..], key, k)) == mine + (head + WithKey(s[1..], key, k));
    }
  }

  /** The result of `SortBy` is sorted, a permutation of its input, and stable. */
  lemma {:induction false} SortByCorrect<T>(s: seq<T>, key: T -> Option<int>)
    ensures SortedBy(SortBy(s, key), key)
    ensures multiset(SortBy(s, key)) == multiset(s)
    ensures forall k :: WithKey(SortBy(s, key), key, k) == WithKey(s, key, k)
  {
    if |s| == 0 {
    } else {
      SortByCorrect(s[1..], key);
      InsertSorted(s[0], SortBy(s[1..], key), key);
      InsertMultiset(s[0], SortBy(s[1..], key), key);
      assert s == [s[0]] + s[1..];
      assert multiset(s) == multiset{s[0]} + multiset(s[1..]);
      forall k ensures WithKey(SortBy(s, key), key, k) == WithKey(s, key, k) {
        InsertWithKey(s[0], SortBy(s[1..], key), key, k);
      }
    }
  }
}
