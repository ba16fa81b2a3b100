/** Two list idioms the source relies on: Python's stable `list.sort(key=..., reverse=True)`
    and a dict built by enumerating a list, where a later key overwrites an earlier one. */
module Collections {

  /** Every key is at least as large as every key after it. */
  predicate SortedDesc<T>(s: seq<T>, key: T -> real) {
    forall i, j :: 0 <= i < j < |s| ==> key(s[i]) >= key(s[j])
  }

  /** The elements of `s` whose key equals `v`, in order. */
  function WithKey<T>(s: seq<T>, key: T -> real, v: real): seq<T> {
    if |s| == 0 then []
    else (if key(s[0]) == v then [s[0]] else []) + WithKey(s[1..], key, v)
  }

  lemma SortedTail<T>(s: seq<T>, key: T -> real)
    requires |s| > 0 && SortedDesc(s, key)
    ensures SortedDesc(s[1..], key)
    ensures |s| > 1 ==> key(s[0]) >= key(s[1])
  {
    forall i, j | 0 <= i < j < |s| - 1
      ensures key(s[1..][i]) >= key(s[1..][j])
    {
      assert s[1..][i] == s[i + 1] && s[1..][j] == s[j + 1];
    }
  }

  /** Putting in front an element whose key is at least the first key keeps the order. */
  lemma SortedCons<T>(a: T, t: seq<T>, key: T -> real)
    requires SortedDesc(t, key) && (|t| > 0 ==> key(a) >= key(t[0]))
    ensures SortedDesc([a] + t, key)
  {
    var r := [a] + t;
    forall i, j | 0 <= i < j < |r|
      ensures key(r[i]) >= key(r[j])
    {
      if i == 0 {
        assert r[j] == t[j - 1];
      } else {
        assert r[i] == t[i - 1] && r[j] == t[j - 1];
      }
    }
  }

  /** Inserts `x` after every element whose key is strictly larger, so that `x` precedes
      the elements with an equal key: this keeps equal keys in their original order. */
  function InsertDesc<T>(x: T, s: seq<T>, key: T -> real): (r: seq<T>)
    requires SortedDesc(s, key)
    ensures SortedDesc(r, key)
    ensures |r| == |s| + 1 && (r[0] == x || (|s| > 0 && r[0] == s[0]))
  {
    if |s| == 0 then [x]
    else if key(s[0]) > key(x) then
      SortedTail(s, key);
      var t := InsertDesc(x, s[1..], key);
      assert s == [s[0]] + s[1..];
      SortedCons(s[0], t, key);
      [s[0]] + t
    else
      SortedCons(x, s, key);
      [x] + s
  }

  /** Python's `sorted(s, key=key, reverse=True)`: descending by key, stable. */
  function SortDesc<T>(s: seq<T>, key: T -> real): (r: seq<T>)
    ensures SortedDesc(r, key)
    ensures |r| == |s|
  {
    if |s| == 0 then [] else InsertDesc(s[0], SortDesc(s[1..], key), key)
  }

  /** Inserting adds `x` and loses nothing. */
  lemma {:induction false} InsertDescPerm<T>(x: T, s: seq<T>, key: T -> real)
    requires SortedDesc(s, key)
    ensures multiset(InsertDesc(x, s, key)) == multiset(s) + multiset{x}
  {
    if |s| > 0 && key(s[0]) > key(x) {
      SortedTail(s, key);
      InsertDescPerm(x, s[1..], key);
      assert s == [s[0]] + s[1..];
    }
  }

  /** Sorting is a permutation. */
  lemma {:induction false} SortDescPerm<T>(s: seq<T>, key: T -> real)
    ensures multiset(SortDesc(s, key)) == multiset(s)
  {
    if |s| > 0 {
      SortDescPerm(s[1..], key);
      InsertDescPerm(s[0], SortDesc(s[1..], key), key);
      assert s == [s[0]] + s[1..];
    }
  }

  lemma {:induction false} WithKeyAppend<T>(a: seq<T>, b: seq<T>, key: T -> real, v: real)
    ensures WithKey(a + b, key, v) == WithKey(a, key, v) + WithKey(b, key, v)
  {
    if |a| == 0 {
      assert a + b == b;
    } else {
      var head := if key(a[0]) == v then [a[0]] else [];
      assert (a + b)[0] == a[0];
      assert (a + b)[1..] == a[1..] + b;
      WithKeyAppend(a[1..], b, key, v);
      calc {
        WithKey(a + b, key, v);
        head + WithKey(a[1..] + b, key, v);
        head + (WithKey(a[1..], key, v) + WithKey(b, key, v));
        (head + WithKey(a[1..], key, v)) + WithKey(b, key, v);
      }
    }
  }

  lemma WithKeyCons<T>(a: T, t: seq<T>, key: T -> real, v: real)
    ensures WithKey([a] + t, key, v) == (if key(a) == v then [a] else []) + WithKey(t, key, v)
  {
    assert ([a] + t)[0] == a;
    assert ([a] + t)[1..] == t;
  }

  lemma {:induction false} InsertDescStable<T>(x: T, s: seq<T>, key: T -> real, v: real)
    requires SortedDesc(s, key)
    ensures WithKey(InsertDesc(x, s, key), key, v)
         == (if key(x) == v then [x] else []) + WithKey(s, key, v)
  {
    if |s| == 0 {
      WithKeyCons(x, s, key, v);
    } else if key(s[0]) > key(x) {
      SortedTail(s, key);
      var t := InsertDesc(x, s[1..], key);
      assert InsertDesc(x, s, key) == [s[0]] + t;
      WithKeyCons(s[0], t, key, v);
      InsertDescStable(x, s[1..], key, v);
      assert s == [s[0]] + s[1..];
      WithKeyCons(s[0], s[1..], key, v);
      // s[0] has a larger key than x, so at most one of the two is kept.
      if key(x) == v {
        assert key(s[0]) != v;
      }
    } else {
      assert InsertDesc(x, s, key) == [x] + s;
      WithKeyCons(x, s, key, v);
    }
  }

  /** Stability: for every key value, the elements with that key keep their order. */
  lemma {:induction false} SortDescStable<T>(s: seq<T>, key: T -> real, v: real)
    ensures WithKey(SortDesc(s, key), key, v) == WithKey(s, key, v)
  {
    if |s| > 0 {
      SortDescStable(s[1..], key, v);
      InsertDescStable(s[0], SortDesc(s[1..], key), key, v);
    }
  }

  /** No element occurs twice. */
  ghost predicate Distinct<T>(s: seq<T>) {
    forall i, j :: 0 <= i < j < |s| ==> s[i] != s[j]
  }

  /** Membership in a prefix one element longer. */
  lemma PrefixGrow<T>(s: seq<T>, i: nat, x: T)
    requires i < |s|
    ensures x in s[..i + 1] <==> x in s[..i] || x == s[i]
  {
    assert s[..i + 1] == s[..i] + [s[i]];
  }

  /** In a sequence without repeats no element occurs before its own position. */
  lemma DistinctPrefix<T>(s: seq<T>, i: nat)
    requires Distinct(s) && i < |s|
    ensures s[i] !in s[..i]
  {
  }

  lemma {:induction false} InsertDescDistinct<T>(x: T, s: seq<T>, key: T -> real)
    requires SortedDesc(s, key) && Distinct(s) && x !in s
    ensures Distinct(InsertDesc(x, s, key))
  {
    if |s| > 0 && key(s[0]) > key(x) {
      SortedTail(s, key);
      var t := InsertDesc(x, s[1..], key);
      InsertDescDistinct(x, s[1..], key);
      InsertDescPerm(x, s[1..], key);
      assert s[0] !in s[1..];
      assert s[0] !in multiset(t);
    }
  }

  /** Sorting a list without repetitions gives a list without repetitions. */
  lemma {:induction false} SortDescDistinct<T>(s: seq<T>, key: T -> real)
    requires Distinct(s)
    ensures Distinct(SortDesc(s, key))
  {
    if |s| > 0 {
      var t := SortDesc(s[1..], key);
      SortDescDistinct(s[1..], key);
      SortDescPerm(s[1..], key);
      assert s[0] !in s[1..];
      assert s[0] !in multiset(t);
      InsertDescDistinct(s[0], t, key);
    }
  }

  /** The dict after the first `n` steps of `{key(x): i for i, x in enumerate(s)}`. */
  function LastIndexMapUpTo<T>(s: seq<T>, key: T -> string, n: nat): map<string, nat>
    requires n <= |s|
  {
    if n == 0 then map[] else LastIndexMapUpTo(s, key, n - 1)[key(s[n - 1]) := n - 1]
  }

  /** Every key among the first `n` elements is present after `n` steps. */
  lemma {:induction false} UpToHasKey<T>(s: seq<T>, key: T -> string, n: nat, i: nat)
    requires i < n <= |s|
    ensures key(s[i]) in LastIndexMapUpTo(s, key, n)
  {
    if i < n - 1 {
      UpToHasKey(s, key, n - 1, i);
    }
  }

  /** Every present key maps to a position below `n` holding that key. */
  lemma {:induction false} UpToValue<T>(s: seq<T>, key: T -> string, n: nat, k: string)
    requires n <= |s| && k in LastIndexMapUpTo(s, key, n)
    ensures LastIndexMapUpTo(s, key, n)[k] < n && key(s[LastIndexMapUpTo(s, key, n)[k]]) == k
  {
    if n > 0 && k != key(s[n - 1]) {
      UpToValue(s, key, n - 1, k);
    }
  }

  /** No position after the stored one, and below `n`, has the key. */
  lemma {:induction false} UpToIsLast<T>(s: seq<T>, key: T -> string, n: nat, k: string, j: nat)
    requires n <= |s| && k in LastIndexMapUpTo(s, key, n)
    requires LastIndexMapUpTo(s, key, n)[k] < j < n
    ensures key(s[j]) != k
  {
    if k != key(s[n - 1]) {
      if j < n - 1 {
        UpToIsLast(s, key, n - 1, k, j);
      }
    }
  }

  /** `{key(x): i for i, x in enumerate(s)}`: each key of `s` maps to the last position
      that has it, and no other key is present. */
  function LastIndexMap<T>(s: seq<T>, key: T -> string): (m: map<string, nat>)
    ensures forall i :: 0 <= i < |s| ==> key(s[i]) in m
    ensures forall k :: k in m ==> m[k] < |s| && key(s[m[k]]) == k
    ensures forall k, j :: k in m && m[k] < j < |s| ==> key(s[j]) != k
  {
    var m := LastIndexMapUpTo(s, key, |s|);
    assert forall i :: 0 <= i < |s| ==> key(s[i]) in m by {
      forall i | 0 <= i < |s| { UpToHasKey(s, key, |s|, i); }
    }
    assert forall k :: k in m ==> m[k] < |s| && key(s[m[k]]) == k by {
      forall k | k in m { UpToValue(s, key, |s|, k); }
    }
    assert forall k, j :: k in m && m[k] < j < |s| ==> key(s[j]) != k by {
      forall k, j | k in m && m[k] < j < |s| { UpToIsLast(s, key, |s|, k, j); }
    }
    m
  }

  lemma {:induction false} LastIndexMapUpToSameKeys<T>(s: seq<T>, t: seq<T>, key: T -> string, n: nat)
    requires n <= |s| == |t| && forall i :: 0 <= i < |s| ==> key(s[i]) == key(t[i])
    ensures LastIndexMapUpTo(s, key, n) == LastIndexMapUpTo(t, key, n)
  {
    if n > 0 {
      LastIndexMapUpToSameKeys(s, t, key, n - 1);
    }
  }

  /** The map depends on the keys only. */
  lemma LastIndexMapSameKeys<T>(s: seq<T>, t: seq<T>, key: T -> string)
    requires |s| == |t| && forall i :: 0 <= i < |s| ==> key(s[i]) == key(t[i])
    ensures LastIndexMap(s, key) == LastIndexMap(t, key)
  {
    LastIndexMapUpToSameKeys(s, t, key, |s|);
  }

  /** With distinct keys, every element is found again at its own position. */
  lemma LastIndexMapDistinct<T>(s: seq<T>, key: T -> string, i: nat)
    requires forall a, b :: 0 <= a < b < |s| ==> key(s[a]) != key(s[b])
    requires i < |s|
    ensures key(s[i]) in LastIndexMap(s, key) && LastIndexMap(s, key)[key(s[i])] == i
  {
  }
}
