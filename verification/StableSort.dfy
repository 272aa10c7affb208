/** The stable ordering that Python's `sorted` and `list.sort` compute, for a comparison and for a real-valued key. */
module StableSort {
  /** Any two elements compare, and comparisons chain. */
  ghost predicate IsOrdering<T(!new)>(leq: (T, T) -> bool) {
    && (forall x, y :: leq(x, y) || leq(y, x))
    && (forall x, y, z :: leq(x, y) && leq(y, z) ==> leq(x, z))
  }

  ghost predicate InOrder<T>(s: seq<T>, leq: (T, T) -> bool) {
    forall i, j :: 0 <= i < j < |s| ==> leq(s[i], s[j])
  }

  function Insert<T>(x: T, s: seq<T>, leq: (T, T) -> bool): (r: seq<T>)
    ensures multiset(r) == multiset{x} + multiset(s)
  {
    if s == [] || leq(x, s[0]) then [x] + s
    else
      assert s == [s[0]] + s[1..];
      [s[0]] + Insert(x, s[1..], leq)
  }

  lemma RemoveFromMultiset<T>(a: seq<T>, b: seq<T>, p: nat)
    requires multiset(a) == multiset(b) && a != [] && p < |b| && b[p] == a[0]
    ensures multiset(a[1..]) == multiset(b[..p] + b[p + 1..])
  {
    assert a == [a[0]] + a[1..];
    assert b == b[..p] + [b[p]] + b[p + 1..];
    assert multiset(a[1..]) == multiset(a) - multiset{a[0]};
    assert multiset(b[..p] + b[p + 1..]) == multiset(b) - multiset{b[p]};
  }

  function Sorted<T>(s: seq<T>, leq: (T, T) -> bool): (r: seq<T>)
    ensures multiset(r) == multiset(s)
  {
    if s == [] then []
    else
      assert s == [s[0]] + s[1..];
      Insert(s[0], Sorted(s[1..], leq), leq)
  }

  lemma {:induction false} InsertKeepsOrder<T(!new)>(x: T, s: seq<T>, leq: (T, T) -> bool)
    requires IsOrdering(leq) && InOrder(s, leq)
    ensures InOrder(Insert(x, s, leq), leq)
  {
    if s != [] && !leq(x, s[0]) {
      var t := Insert(x, s[1..], leq);
      InsertKeepsOrder(x, s[1..], leq);
      forall i | 0 <= i < |t| ensures leq(s[0], t[i]) {
        assert t[i] in multiset(t);
        assert t[i] == x || t[i] in s[1..];
      }
    }
  }

  lemma {:induction false} SortedIsInOrder<T(!new)>(s: seq<T>, leq: (T, T) -> bool)
    requires IsOrdering(leq)
    ensures InOrder(Sorted(s, leq), leq)
  {
    if s != [] {
      SortedIsInOrder(s[1..], leq);
      InsertKeepsOrder(s[0], Sorted(s[1..], leq), leq);
    }
  }

  /* ---- sorting by a key ---- */

  ghost predicate SortedBy<T>(s: seq<T>, key: T -> real) {
    forall i, j :: 0 <= i < j < |s| ==> key(s[i]) <= key(s[j])
  }

  function ByKey<T>(key: T -> real): (T, T) -> bool { (a: T, b: T) => key(a) <= key(b) }

  function SortBy<T(!new)>(s: seq<T>, key: T -> real): (r: seq<T>)
    ensures SortedBy(r, key)
    ensures multiset(r) == multiset(s)
    ensures |r| == |s|
    ensures forall x :: x in r <==> x in s
  {
    var r := Sorted(s, ByKey(key));
    SortedIsInOrder(s, ByKey(key));
    assert |multiset(r)| == |multiset(s)|;
    assert forall i, j :: 0 <= i < j < |r| ==> ByKey(key)(r[i], r[j]);
    assert forall x :: x in r <==> x in multiset(r);
    assert forall x :: x in s <==> x in multiset(s);
    r
  }

  /** The elements of `s` whose key is exactly `k`, in the order in which `s` lists them. */
  ghost function WithKey<T>(s: seq<T>, key: T -> real, k: real): seq<T> {
    if s == [] then []
    else (if key(s[0]) == k then [s[0]] else []) + WithKey(s[1..], key, k)
  }

  lemma WithKeyCons<T>(x: T, s: seq<T>, key: T -> real, k: real)
    ensures WithKey([x] + s, key, k) == (if key(x) == k then [x] else []) + WithKey(s, key, k)
  {
    assert ([x] + s)[1..] == s;
  }

  /** Elements with different keys may change places without disturbing any class. */
  lemma ClassesCommute<T>(x: T, y: T, rest: seq<T>, t: seq<T>, key: T -> real, k: real)
    requires key(x) != key(y) && WithKey(t, key, k) == WithKey([x] + rest, key, k)
    ensures WithKey([y] + t, key, k) == WithKey([x] + ([y] + rest), key, k)
  {
    WithKeyCons(y, t, key, k);
    WithKeyCons(x, rest, key, k);
    WithKeyCons(y, rest, key, k);
    WithKeyCons(x, [y] + rest, key, k);
  }

  lemma {:induction false} InsertKeepsClasses<T>(x: T, s: seq<T>, key: T -> real, k: real)
    ensures WithKey(Insert(x, s, ByKey(key)), key, k) == WithKey([x] + s, key, k)
  {
    if s != [] && key(s[0]) < key(x) {
      InsertKeepsClasses(x, s[1..], key, k);
      ClassesCommute(x, s[0], s[1..], Insert(x, s[1..], ByKey(key)), key, k);
      assert s == [s[0]] + s[1..];
    }
  }

  /** Stability: elements with equal keys keep their original relative order. */
  lemma {:induction false} SortByIsStable<T(!new)>(s: seq<T>, key: T -> real, k: real)
    ensures WithKey(SortBy(s, key), key, k) == WithKey(s, key, k)
  {
    if s != [] {
      SortByIsStable(s[1..], key, k);
      var t := SortBy(s[1..], key);
      InsertKeepsClasses(s[0], t, key, k);
      WithKeyCons(s[0], t, key, k);
    }
  }
}
