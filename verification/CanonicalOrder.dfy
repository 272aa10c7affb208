/** Total orders on texts and on tuples of texts, and why comparing two sorted tuples compares two multisets. */
module CanonicalOrder {
  import opened StableSort

  ghost predicate IsTotalOrder<T(!new)>(leq: (T, T) -> bool) {
    IsOrdering(leq) && forall x, y :: leq(x, y) && leq(y, x) ==> x == y
  }

  /** Elementwise comparison, as Python compares strings and tuples. */
  predicate LexLeq<T(==)>(a: seq<T>, b: seq<T>, leq: (T, T) -> bool) {
    if a == [] then true
    else if b == [] then false
    else if a[0] == b[0] then LexLeq(a[1..], b[1..], leq)
    else leq(a[0], b[0])
  }

  lemma {:induction false} LexTotal<T(!new)>(a: seq<T>, b: seq<T>, leq: (T, T) -> bool)
    requires IsTotalOrder(leq)
    ensures LexLeq(a, b, leq) || LexLeq(b, a, leq)
    ensures LexLeq(a, b, leq) && LexLeq(b, a, leq) ==> a == b
  {
    if a != [] && b != [] && a[0] == b[0] {
      LexTotal(a[1..], b[1..], leq);
      assert a == [a[0]] + a[1..] && b == [b[0]] + b[1..];
    }
  }

  lemma {:induction false} LexTransitive<T(!new)>(a: seq<T>, b: seq<T>, c: seq<T>, leq: (T, T) -> bool)
    requires IsTotalOrder(leq) && LexLeq(a, b, leq) && LexLeq(b, c, leq)
    ensures LexLeq(a, c, leq)
  {
    if a != [] && b != [] && c != [] && a[0] == b[0] == c[0] {
      LexTransitive(a[1..], b[1..], c[1..], leq);
    }
  }

  lemma LexIsTotalOrder<T(!new)>(leq: (T, T) -> bool, lex: (seq<T>, seq<T>) -> bool)
    requires IsTotalOrder(leq) && forall a, b :: lex(a, b) == LexLeq(a, b, leq)
    ensures IsTotalOrder(lex)
  {
    forall a, b ensures lex(a, b) || lex(b, a) ensures lex(a, b) && lex(b, a) ==> a == b { LexTotal(a, b, leq); }
    forall a, b, c | lex(a, b) && lex(b, c) ensures lex(a, c) { LexTransitive(a, b, c, leq); }
  }

  predicate CharLeq(a: char, b: char) { a <= b }

  predicate TextLeq(a: string, b: string) { LexLeq(a, b, CharLeq) }

  predicate TextsLeq(a: seq<string>, b: seq<string>) { LexLeq(a, b, TextLeq) }

  lemma TextsAreTotallyOrdered()
    ensures IsTotalOrder(TextLeq) && IsTotalOrder(TextsLeq)
  {
    LexIsTotalOrder(CharLeq, TextLeq);
    LexIsTotalOrder(TextLeq, TextsLeq);
  }

  lemma SmallestIsFirst<T(!new)>(a: seq<T>, b: seq<T>, leq: (T, T) -> bool)
    requires IsTotalOrder(leq) && InOrder(a, leq) && a != [] && b != [] && multiset(a) == multiset(b)
    ensures leq(a[0], b[0])
  {
    assert b[0] in multiset(a);
    var i :| 0 <= i < |a| && a[i] == b[0];
    assert leq(a[0], a[0]);
  }

  lemma TailIsInOrder<T>(s: seq<T>, leq: (T, T) -> bool)
    requires InOrder(s, leq) && s != []
    ensures InOrder(s[1..], leq)
  {
  }

  lemma TailsMatch<T(!new)>(a: seq<T>, b: seq<T>, leq: (T, T) -> bool)
    requires IsTotalOrder(leq) && InOrder(a, leq) && InOrder(b, leq) && multiset(a) == multiset(b) && a != [] && b != []
    ensures a[0] == b[0] && multiset(a[1..]) == multiset(b[1..])
  {
    assert a[0] == b[0] by {
      SmallestIsFirst(a, b, leq);
      SmallestIsFirst(b, a, leq);
    }
    assert multiset(a[1..]) == multiset(b[1..]) by {
      RemoveFromMultiset(a, b, 0);
      assert b[..0] + b[1..] == b[1..];
    }
  }

  lemma {:induction false} OneOrderPerMultiset<T(!new)>(a: seq<T>, b: seq<T>, leq: (T, T) -> bool)
    requires IsTotalOrder(leq) && InOrder(a, leq) && InOrder(b, leq) && multiset(a) == multiset(b)
    ensures a == b
  {
    assert |a| == |multiset(a)| == |multiset(b)| == |b|;
    if a != [] {
      TailsMatch(a, b, leq);
      TailIsInOrder(a, leq);
      TailIsInOrder(b, leq);
      OneOrderPerMultiset(a[1..], b[1..], leq);
      assert a == [a[0]] + a[1..] && b == [b[0]] + b[1..];
    }
  }

  /** Two sorted tuples are equal exactly when the unsorted ones are equal as multisets. */
  lemma SortedTuplesCompareMultisets<T(!new)>(a: seq<T>, b: seq<T>, leq: (T, T) -> bool)
    requires IsTotalOrder(leq)
    ensures Sorted(a, leq) == Sorted(b, leq) <==> multiset(a) == multiset(b)
  {
    SortedIsInOrder(a, leq);
    SortedIsInOrder(b, leq);
    if multiset(a) == multiset(b) { OneOrderPerMultiset(Sorted(a, leq), Sorted(b, leq), leq); }
  }
}
