/**
 * The ordering the engine puts allocations in before it pays anything
 * (src/automate.py, `sorted(..., key=...)` followed by `itertools.groupby`):
 * a stable sort by an integer key, then a split into maximal runs of equal
 * key. Both are generic in the element type and the key.
 */
module PriorityOrder {

  /** Keys never decrease along `s`. */
  predicate SortedBy<T>(s: seq<T>, key: T -> int) {
    forall i, j :: 0 <= i < j < |s| ==> key(s[i]) <= key(s[j])
  }

  /** The elements of `s` whose key is `k`, in their order in `s`. */
  function WithKey<T>(s: seq<T>, key: T -> int, k: int): seq<T> {
    if |s| == 0 then []
    else if key(s[0]) == k then [s[0]] + WithKey(s[1..], key, k)
    else WithKey(s[1..], key, k)
  }

  /**
   * Puts `x` in front of the first element of `s` whose key is at least
   * `key(x)`: into a sorted `s`, `x` goes after every element with a smaller
   * key and before every element with an equal or larger one.
   */
  function Insert<T>(x: T, s: seq<T>, key: T -> int): (r: seq<T>)
    ensures multiset(r) == multiset(s) + multiset{x}
    ensures |r| == |s| + 1
  {
    if |s| == 0 then [x]
    else if key(x) <= key(s[0]) then [x] + s
    else
      assert s == [s[0]] + s[1..];
      [s[0]] + Insert(x, s[1..], key)
  }

  /** Inserting into a sorted sequence keeps it sorted. */
  lemma {:induction false} InsertSorted<T>(x: T, s: seq<T>, key: T -> int)
    requires SortedBy(s, key)
    ensures SortedBy(Insert(x, s, key), key)
  {
    if |s| != 0 && key(x) > key(s[0]) {
      var rest := Insert(x, s[1..], key);
      InsertSorted(x, s[1..], key);
      forall i | 0 <= i < |rest|
        ensures key(s[0]) <= key(rest[i])
      {
        assert rest[i] in multiset(rest);
        if rest[i] != x {
          assert rest[i] in multiset(s[1..]);
          assert rest[i] in s[1..];
        }
      }
      assert Insert(x, s, key) == [s[0]] + rest;
    }
  }

  /**
   * Python's `sorted(s, key=key)`: the elements of `s` ordered by key, with
   * equal keys kept in input order (see `SortByStable`).
   */
  function SortBy<T>(s: seq<T>, key: T -> int): (r: seq<T>)
    ensures multiset(r) == multiset(s)
    ensures |r| == |s|
    ensures SortedBy(r, key)
  {
    if |s| == 0 then []
    else
      assert s == [s[0]] + s[1..];
      InsertSorted(s[0], SortBy(s[1..], key), key);
      Insert(s[0], SortBy(s[1..], key), key)
  }

  lemma {:induction false} WithKeyAppend<T>(a: seq<T>, b: seq<T>, key: T -> int, k: int)
    ensures WithKey(a + b, key, k) == WithKey(a, key, k) + WithKey(b, key, k)
  {
    if |a| == 0 {
      assert a + b == b;
    } else {
      assert (a + b)[1..] == a[1..] + b;
      WithKeyAppend(a[1..], b, key, k);
      if key(a[0]) == k {
        assert [a[0]] + (WithKey(a[1..], key, k) + WithKey(b, key, k))
          == ([a[0]] + WithKey(a[1..], key, k)) + WithKey(b, key, k);
      }
    }
  }

  lemma WithKeySingle<T>(y: T, key: T -> int, k: int)
    ensures WithKey([y], key, k) == if key(y) == k then [y] else []
  {
    assert [y][1..] == [];
  }

  /** Inserting `x` does not move it past any element with its own key. */
  lemma {:induction false} InsertWithKey<T>(x: T, s: seq<T>, key: T -> int, k: int)
    ensures WithKey(Insert(x, s, key), key, k) == WithKey([x] + s, key, k)
  {
    if |s| == 0 || key(x) <= key(s[0]) {
    } else {
      var rest := Insert(x, s[1..], key);
      InsertWithKey(x, s[1..], key, k);
      var sx, xs := WithKey([s[0]], key, k), WithKey([x], key, k);
      // s[0] and x have different keys, so at most one of them has key k
      WithKeySingle(s[0], key, k);
      WithKeySingle(x, key, k);
      assert sx + xs == xs + sx;
      WithKeyAppend([s[0]], rest, key, k);
      WithKeyAppend([x], s[1..], key, k);
      WithKeyAppend([s[0]], s[1..], key, k);
      WithKeyAppend([x], s, key, k);
      assert [s[0]] + s[1..] == s;
      assert Insert(x, s, key) == [s[0]] + rest;
      assert WithKey(Insert(x, s, key), key, k) == sx + (xs + WithKey(s[1..], key, k));
    }
  }

  /** `SortBy` is stable: for every key, the elements with that key keep their input order. */
  lemma {:induction false} SortByStable<T>(s: seq<T>, key: T -> int, k: int)
    ensures WithKey(SortBy(s, key), key, k) == WithKey(s, key, k)
  {
    if |s| != 0 {
      var t := SortBy(s[1..], key);
      InsertWithKey(s[0], t, key, k);
      SortByStable(s[1..], key, k);
      WithKeyAppend([s[0]], t, key, k);
      WithKeyAppend([s[0]], s[1..], key, k);
      assert [s[0]] + s[1..] == s;
    }
  }

  /** Input that is already in key order comes out of `SortBy` unchanged. */
  lemma {:induction false} SortByKeepsSorted<T>(s: seq<T>, key: T -> int)
    requires SortedBy(s, key)
    ensures SortBy(s, key) == s
  {
    if |s| != 0 {
      SortedSuffix(s, 1, key);
      SortByKeepsSorted(s[1..], key);
      assert [s[0]] + s[1..] == s;
    }
  }

  /** The elements of the groups, one group after another. */
  function Flatten<T>(gs: seq<seq<T>>): seq<T> {
    if |gs| == 0 then [] else gs[0] + Flatten(gs[1..])
  }

  /** The length of the longest prefix of `s` whose elements all have the key of `s[0]`. */
  function RunLength<T>(s: seq<T>, key: T -> int): (n: nat)
    requires |s| > 0
    ensures 1 <= n <= |s|
    ensures forall j :: 0 <= j < n ==> key(s[j]) == key(s[0])
    ensures n < |s| ==> key(s[n]) != key(s[0])
  {
    if |s| == 1 || key(s[1]) != key(s[0]) then 1
    else 1 + RunLength(s[1..], key)
  }

  /**
   * `itertools.groupby(s, key)`: `s` cut into maximal runs of consecutive
   * elements with the same key. Every group is nonempty and uniform, two
   * neighbouring groups have different keys, and nothing is lost, added or
   * reordered.
   */
  function GroupBy<T>(s: seq<T>, key: T -> int): (gs: seq<seq<T>>)
    ensures Flatten(gs) == s
    ensures forall i :: 0 <= i < |gs| ==> |gs[i]| > 0
    ensures forall i, j :: 0 <= i < |gs| && 0 <= j < |gs[i]| ==> key(gs[i][j]) == key(gs[i][0])
    ensures forall i :: 0 < i < |gs| ==> key(gs[i - 1][0]) != key(gs[i][0])
    ensures |gs| > 0 ==> gs[0][0] == s[0]
    decreases |s|
  {
    if |s| == 0 then []
    else
      var n := RunLength(s, key);
      var rest := GroupBy(s[n..], key);
      assert s[..n] + s[n..] == s;
      assert ([s[..n]] + rest)[1..] == rest;
      [s[..n]] + rest
  }

  /** A nonempty uniform prefix that ends where the key changes is the first group. */
  lemma GroupByFirst<T>(s: seq<T>, key: T -> int, n: nat)
    requires 0 < n <= |s|
    requires forall j :: 0 <= j < n ==> key(s[j]) == key(s[0])
    requires n < |s| ==> key(s[n]) != key(s[0])
    ensures GroupBy(s, key) == [s[..n]] + GroupBy(s[n..], key)
  {
    assert RunLength(s, key) == n;
  }

  /** The groups' keys strictly increase from each group to the next. */
  predicate KeysAscending<T>(gs: seq<seq<T>>, key: T -> int)
    requires forall i :: 0 <= i < |gs| ==> |gs[i]| > 0
  {
    forall i, j :: 0 <= i < j < |gs| ==> key(gs[i][0]) < key(gs[j][0])
  }

  lemma ConsAscending<T>(g: seq<T>, rest: seq<seq<T>>, key: T -> int)
    requires |g| > 0 && forall i :: 0 <= i < |rest| ==> |rest[i]| > 0
    requires KeysAscending(rest, key)
    requires |rest| > 0 ==> key(g[0]) < key(rest[0][0])
    ensures KeysAscending([g] + rest, key)
  {
    var gs := [g] + rest;
    forall i, j | 0 <= i < j < |gs|
      ensures key(gs[i][0]) < key(gs[j][0])
    {
      assert gs[j] == rest[j - 1];
      if i > 0 {
        assert gs[i] == rest[i - 1];
      } else if j > 1 {
        assert key(rest[0][0]) < key(rest[j - 1][0]);
      }
    }
  }

  lemma SortedSuffix<T>(s: seq<T>, n: nat, key: T -> int)
    requires SortedBy(s, key) && n <= |s|
    ensures SortedBy(s[n..], key)
  {
  }

  /** On sorted input, the groups come out in strictly increasing key order. */
  lemma {:induction false} GroupByAscending<T>(s: seq<T>, key: T -> int)
    requires SortedBy(s, key)
    ensures KeysAscending(GroupBy(s, key), key)
    decreases |s|
  {
    if |s| != 0 {
      var n := RunLength(s, key);
      var rest := GroupBy(s[n..], key);
      assert GroupBy(s, key) == [s[..n]] + rest;
      if n < |s| {
        SortedSuffix(s, n, key);
        GroupByAscending(s[n..], key);
        // the next group starts at s[n], whose key is larger than s[0]'s
        assert rest[0][0] == s[n];
        assert key(s[0]) < key(s[n]) by {
          assert key(s[0]) <= key(s[n]);
        }
      }
      ConsAscending(s[..n], rest, key);
    }
  }
}
