/**
 * Python's `list.sort(key=f, reverse=True)`: a stable sort into non-increasing key order.
 * The planner sorts strategies by effectiveness with it and the link scorer sorts candidates by score.
 */
module StableSort {

  predicate SortedDesc<T>(s: seq<T>, key: T -> real) {
    forall i, j :: 0 <= i < j < |s| ==> key(s[i]) >= key(s[j])
  }

  /** The elements of `s` whose key is `k`, in their order in `s`. */
  function WithKey<T>(s: seq<T>, key: T -> real, k: real): (r: seq<T>)
    ensures |r| <= |s|
    ensures forall i :: 0 <= i < |r| ==> key(r[i]) == k
  {
    if s == [] then [] else (if key(s[0]) == k then [s[0]] else []) + WithKey(s[1..], key, k)
  }

  lemma {:induction false} WithKeyAppend<T>(a: seq<T>, b: seq<T>, key: T -> real, k: real)
    ensures WithKey(a + b, key, k) == WithKey(a, key, k) + WithKey(b, key, k)
    decreases |a|
  {
    if a == [] {
      assert a + b == b;
    } else {
      assert (a + b)[0] == a[0];
      assert (a + b)[1..] == a[1..] + b;
      WithKeyAppend(a[1..], b, key, k);
    }
  }

  lemma {:induction false} WithKeyNone<T>(a: seq<T>, key: T -> real, k: real)
    requires forall i :: 0 <= i < |a| ==> key(a[i]) != k
    ensures WithKey(a, key, k) == []
    decreases |a|
  {
    if a != [] {
      WithKeyNone(a[1..], key, k);
    }
  }

  /** Where `x` goes in a non-increasing sequence so that it follows every strictly larger key and precedes the rest. */
  function InsertPos<T>(x: T, s: seq<T>, key: T -> real): (p: nat)
    ensures p <= |s|
    ensures forall i :: 0 <= i < p ==> key(s[i]) > key(x)
    ensures p < |s| ==> key(s[p]) <= key(x)
  {
    if s == [] || key(s[0]) <= key(x) then 0 else 1 + InsertPos(x, s[1..], key)
  }

  function InsertDesc<T>(x: T, s: seq<T>, key: T -> real): (r: seq<T>)
    ensures |r| == |s| + 1
    ensures multiset(r) == multiset(s) + multiset{x}
  {
    var p := InsertPos(x, s, key);
    assert s == s[..p] + s[p..];
    s[..p] + [x] + s[p..]
  }

  lemma InsertDescSorted<T>(x: T, s: seq<T>, key: T -> real)
    requires SortedDesc(s, key)
    ensures SortedDesc(InsertDesc(x, s, key), key)
  {
    var p := InsertPos(x, s, key);
    var r := InsertDesc(x, s, key);
    forall i, j | 0 <= i < j < |r|
      ensures key(r[i]) >= key(r[j])
    {
      if j < p {
      } else if j == p {
      } else if i < p {
        assert r[j] == s[j - 1];
      } else if i == p {
        assert r[j] == s[j - 1];
        assert key(s[p]) >= key(s[j - 1]);
      } else {
        assert r[i] == s[i - 1] && r[j] == s[j - 1];
      }
    }
  }

  /** Moving `x` past elements whose keys all exceed its own keeps the order among each key's elements. */
  lemma StableSplice<T>(a: seq<T>, x: T, b: seq<T>, key: T -> real, k: real)
    requires forall i :: 0 <= i < |a| ==> key(a[i]) > key(x)
    ensures WithKey(a + ([x] + b), key, k) == WithKey([x] + (a + b), key, k)
  {
    var wa, wx, wb := WithKey(a, key, k), WithKey([x], key, k), WithKey(b, key, k);
    WithKeyAppend(a, [x] + b, key, k);
    WithKeyAppend([x], b, key, k);
    WithKeyAppend([x], a + b, key, k);
    WithKeyAppend(a, b, key, k);
    if k == key(x) {
      WithKeyNone(a, key, k);
    } else {
      assert wx == [];
    }
  }

  /** Inserting `x` keeps, for every key, the order `[x] + s` gives the elements carrying it. */
  lemma InsertDescStable<T>(x: T, s: seq<T>, key: T -> real, k: real)
    ensures WithKey(InsertDesc(x, s, key), key, k) == WithKey([x] + s, key, k)
  {
    var p := InsertPos(x, s, key);
    assert InsertDesc(x, s, key) == s[..p] + ([x] + s[p..]);
    assert s == s[..p] + s[p..];
    StableSplice(s[..p], x, s[p..], key, k);
  }

  /** `sorted(s, key=key, reverse=True)`: insertion sort from the back, so equal keys keep their order. */
  function SortDesc<T>(s: seq<T>, key: T -> real): (r: seq<T>)
    ensures |r| == |s|
    ensures multiset(r) == multiset(s)
    ensures SortedDesc(r, key)
    ensures forall k :: WithKey(r, key, k) == WithKey(s, key, k)
  {
    if s == [] then []
    else
      var rest := SortDesc(s[1..], key);
      InsertDescSorted(s[0], rest, key);
      assert s == [s[0]] + s[1..];
      forall k ensures WithKey(InsertDesc(s[0], rest, key), key, k) == WithKey(s, key, k) {
        InsertDescStable(s[0], rest, key, k);
        WithKeyAppend([s[0]], rest, key, k);
        WithKeyAppend([s[0]], s[1..], key, k);
      }
      InsertDesc(s[0], rest, key)
  }

  /** The index of the first element of `s` with the largest key. */
  function FirstMax<T>(s: seq<T>, key: T -> real): (i: nat)
    requires s != []
    ensures i < |s|
    ensures forall j :: 0 <= j < |s| ==> key(s[j]) <= key(s[i])
    ensures forall j :: 0 <= j < i ==> key(s[j]) < key(s[i])
  {
    if |s| == 1 then 0
    else
      var j := 1 + FirstMax(s[1..], key);
      if key(s[j]) > key(s[0]) then j else 0
  }

  /** The head of the sorted sequence is the earliest element carrying the largest key. */
  lemma {:induction false} SortDescHead<T>(s: seq<T>, key: T -> real)
    requires s != []
    ensures SortDesc(s, key)[0] == s[FirstMax(s, key)]
  {
    var r := SortDesc(s, key);
    var i := FirstMax(s, key);
    var k := key(s[i]);
    assert s[i] in multiset(r);
    var m :| 0 <= m < |r| && r[m] == s[i];
    assert key(r[0]) >= k;
    assert r[0] in multiset(s);
    var n :| 0 <= n < |s| && s[n] == r[0];
    assert key(r[0]) == k;
    WithKeyHead(r, key, k);
    WithKeyFirst(s, key, k, i);
    assert WithKey(r, key, k) == WithKey(s, key, k);
  }

  lemma {:induction false} WithKeyHead<T>(s: seq<T>, key: T -> real, k: real)
    requires s != [] && key(s[0]) == k
    ensures WithKey(s, key, k) != [] && WithKey(s, key, k)[0] == s[0]
  {
  }

  lemma {:induction false} WithKeyFirst<T>(s: seq<T>, key: T -> real, k: real, i: nat)
    requires i < |s| && key(s[i]) == k
    requires forall j :: 0 <= j < i ==> key(s[j]) != k
    ensures WithKey(s, key, k) != [] && WithKey(s, key, k)[0] == s[i]
    decreases i
  {
    if i > 0 {
      WithKeyFirst(s[1..], key, k, i - 1);
    }
  }
}
