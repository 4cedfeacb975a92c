/**
 * The order in which the document store returns the documents of a
 * collection when a query is ordered by `__name__`: document ids compared
 * character by character (lexicographically), a shorter id before any id
 * it is a prefix of.
 */
module DocOrder {

  type DocId = string

  /** Strict lexicographic order on document ids. */
  predicate Below(a: DocId, b: DocId)
  {
    if |a| == 0 then |b| > 0
    else if |b| == 0 then false
    else a[0] < b[0] || (a[0] == b[0] && Below(a[1..], b[1..]))
  }

  lemma {:induction false} BelowAsymmetric(a: DocId, b: DocId)
    ensures Below(a, b) ==> !Below(b, a)
  {
    if |a| > 0 && |b| > 0 && a[0] == b[0] {
      BelowAsymmetric(a[1..], b[1..]);
    }
  }

  lemma {:induction false} BelowTransitive(a: DocId, b: DocId, c: DocId)
    requires Below(a, b) && Below(b, c)
    ensures Below(a, c)
  {
    if |a| > 0 && a[0] == b[0] && b[0] == c[0] {
      BelowTransitive(a[1..], b[1..], c[1..]);
    }
  }

  /** Any two distinct ids are ordered one way or the other. */
  lemma {:induction false} BelowTotal(a: DocId, b: DocId)
    requires a != b
    ensures Below(a, b) || Below(b, a)
  {
    if |a| > 0 && |b| > 0 && a[0] == b[0] {
      assert a == [a[0]] + a[1..] && b == [b[0]] + b[1..];
      BelowTotal(a[1..], b[1..]);
    }
  }

  /** `m` comes first among the ids of `s`. */
  predicate IsLeast(m: DocId, s: set<DocId>)
  {
    m in s && forall x :: x in s && x != m ==> Below(m, x)
  }

  lemma {:induction false} LeastExists(s: set<DocId>)
    requires s != {}
    ensures exists m :: IsLeast(m, s)
    decreases |s|
  {
    var x :| x in s;
    if s == {x} {
      assert IsLeast(x, s);
    } else {
      LeastExists(s - {x});
      var m :| IsLeast(m, s - {x});
      if Below(m, x) {
        assert IsLeast(m, s);
      } else {
        BelowTotal(m, x);
        forall y | y in s && y != x
          ensures Below(x, y)
        {
          if y != m {
            BelowTransitive(x, m, y);
          }
        }
        assert IsLeast(x, s);
      }
    }
  }

  /** Every id of `xs` comes before every id of `ys`. */
  predicate AllBelow(xs: set<DocId>, ys: set<DocId>)
  {
    forall x, y :: x in xs && y in ys ==> Below(x, y)
  }

  /**
   * `b` is what a query `orderBy('__name__').limit(k)` returns on a
   * collection holding `s`: the `k` first ids, or all of them when there
   * are fewer.
   */
  predicate IsFirstBatch(b: set<DocId>, s: set<DocId>, k: nat)
  {
    && b <= s
    && |b| == (if |s| < k then |s| else k)
    && AllBelow(b, s - b)
  }

  /** A first batch exists: take the least id, then the first `k - 1` of the rest. */
  ghost function TakeLeast(s: set<DocId>, k: nat): (b: set<DocId>)
    ensures IsFirstBatch(b, s, k)
    decreases k
  {
    if k == 0 || s == {} then {}
    else
      LeastExists(s);
      var m :| IsLeast(m, s);
      {m} + TakeLeast(s - {m}, k - 1)
  }

  /** A subset of a finite set with the same size is the whole set. */
  lemma SubsetSameSize(a: set<DocId>, b: set<DocId>)
    requires a <= b && |a| == |b|
    ensures a == b
  {
    assert a * b == a;
    assert |b - a| == |b| - |a * b|;
    assert b - a == {};
  }

  /** There is only one first batch. */
  lemma FirstBatchUnique(s: set<DocId>, k: nat, b1: set<DocId>, b2: set<DocId>)
    requires IsFirstBatch(b1, s, k) && IsFirstBatch(b2, s, k)
    ensures b1 == b2
  {
    if b1 - b2 == {} {
      SubsetSameSize(b1, b2);
    } else {
      var x :| x in b1 && x !in b2;
      assert |b1 - b2| > 0;
      assert |b1 - b2| == |b1| - |b1 * b2|;
      assert |b2 - b1| == |b2| - |b1 * b2|;
      var y :| y in b2 && y !in b1;
      assert y in s - b1 && x in s - b2;
      BelowAsymmetric(x, y);
    }
  }

  /** The batch a query ordered by id and limited to `k` returns. */
  function FirstBatch(s: set<DocId>, k: nat): (b: set<DocId>)
    ensures b <= s
    ensures |b| == if |s| < k then |s| else k
    ensures AllBelow(b, s - b)
  {
    assert IsFirstBatch(TakeLeast(s, k), s, k);
    forall b1, b2 | IsFirstBatch(b1, s, k) && IsFirstBatch(b2, s, k)
      ensures b1 == b2
    {
      FirstBatchUnique(s, k, b1, b2);
    }
    var b :| IsFirstBatch(b, s, k);
    b
  }
}
