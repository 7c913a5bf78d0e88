/** In-order subsequences: what is left of a sequence after a lossy channel. */
module Subsequences {

  /** `a` is `b` with some elements dropped and the others kept in order. */
  ghost predicate Subseq<T>(a: seq<T>, b: seq<T>)
    decreases |b|
  {
    a == [] ||
    (b != [] &&
     ((a[|a|-1] == b[|b|-1] && Subseq(a[..|a|-1], b[..|b|-1])) || Subseq(a, b[..|b|-1])))
  }

  lemma {:induction false} SubseqRefl<T>(a: seq<T>)
    ensures Subseq(a, a)
    decreases |a|
  {
    if a != [] { SubseqRefl(a[..|a|-1]); }
  }

  lemma SubseqGrow<T>(a: seq<T>, b: seq<T>, x: T)
    requires Subseq(a, b)
    ensures Subseq(a, b + [x])
    ensures Subseq(a + [x], b + [x])
  {
    assert (b + [x])[..|b|] == b;
    assert (a + [x])[..|a|] == a;
  }

  lemma {:induction false} SubseqTrans<T>(a: seq<T>, b: seq<T>, c: seq<T>)
    requires Subseq(a, b) && Subseq(b, c)
    ensures Subseq(a, c)
    decreases |c|, |b|
  {
    if a == [] {
    } else if Subseq(b, c[..|c|-1]) {
      SubseqTrans(a, b, c[..|c|-1]);
    } else if Subseq(a, b[..|b|-1]) {
      SubseqTrans(a, b[..|b|-1], c[..|c|-1]);
    } else {
      SubseqTrans(a[..|a|-1], b[..|b|-1], c[..|c|-1]);
    }
  }

  lemma {:induction false} SubseqConcat<T>(a: seq<T>, b: seq<T>, y: seq<T>)
    requires Subseq(a, b)
    ensures Subseq(a + y, b + y)
    decreases |y|
  {
    if y == [] {
      assert a + y == a && b + y == b;
    } else {
      var y' := y[..|y|-1];
      SubseqConcat(a, b, y');
      SubseqGrow(a + y', b + y', y[|y|-1]);
      assert a + y == (a + y') + [y[|y|-1]];
      assert b + y == (b + y') + [y[|y|-1]];
    }
  }

  /** Losing one element in the middle leaves a subsequence. */
  lemma SubseqDrop<T>(x: seq<T>, e: T, y: seq<T>, b: seq<T>)
    requires Subseq(x + [e] + y, b)
    ensures Subseq(x + y, b)
  {
    SubseqRefl(x);
    SubseqGrow(x, x, e);
    SubseqConcat(x, x + [e], y);
    SubseqTrans(x + y, x + [e] + y, b);
  }

  lemma {:induction false} SubseqPrefix<T>(x: seq<T>, y: seq<T>, b: seq<T>)
    requires Subseq(x + y, b)
    ensures Subseq(x, b)
    decreases |y|
  {
    if y == [] {
      assert x + y == x;
    } else {
      assert x + y == x + [y[0]] + y[1..];
      SubseqDrop(x, y[0], y[1..], b);
      SubseqPrefix(x, y[1..], b);
    }
  }

  /** A subsequence is no longer than the whole, and as long only if nothing was lost. */
  lemma {:induction false} SubseqLength<T>(a: seq<T>, b: seq<T>)
    requires Subseq(a, b)
    ensures |a| <= |b|
    ensures |a| == |b| ==> a == b
    decreases |b|
  {
    if a != [] {
      if Subseq(a, b[..|b|-1]) {
        SubseqLength(a, b[..|b|-1]);
      } else {
        SubseqLength(a[..|a|-1], b[..|b|-1]);
        assert a == a[..|a|-1] + [a[|a|-1]] && b == b[..|b|-1] + [b[|b|-1]];
      }
    }
  }

  ghost predicate Pairwise<T(!new)>(r: (T, T) -> bool, s: seq<T>) {
    forall i, j :: 0 <= i < j < |s| ==> r(s[i], s[j])
  }

  lemma {:induction false} SubseqMembers<T>(a: seq<T>, b: seq<T>)
    requires Subseq(a, b)
    ensures forall x :: x in a ==> x in b
    decreases |b|
  {
    if a != [] {
      if Subseq(a, b[..|b|-1]) {
        SubseqMembers(a, b[..|b|-1]);
      } else {
        SubseqMembers(a[..|a|-1], b[..|b|-1]);
        assert a == a[..|a|-1] + [a[|a|-1]];
      }
    }
  }

  /** Whatever relates every earlier element to every later one survives loss. */
  lemma {:induction false} SubseqPairwise<T(!new)>(r: (T, T) -> bool, a: seq<T>, b: seq<T>)
    requires Subseq(a, b) && Pairwise(r, b)
    ensures Pairwise(r, a)
    decreases |b|
  {
    if a != [] {
      var b' := b[..|b|-1];
      if Subseq(a, b') {
        SubseqPairwise(r, a, b');
      } else {
        var a' := a[..|a|-1];
        SubseqPairwise(r, a', b');
        SubseqMembers(a', b');
        forall i | 0 <= i < |a'| ensures r(a[i], a[|a|-1]) {
          assert a'[i] in b';
          var k :| 0 <= k < |b'| && b'[k] == a'[i];
          assert r(b[k], b[|b|-1]);
        }
        forall i, j | 0 <= i < j < |a| ensures r(a[i], a[j]) {
          if j < |a| - 1 { assert r(a'[i], a'[j]); }
        }
      }
    }
  }

  /** The elements that satisfy `p`, in order. */
  ghost function Filter<T>(p: T -> bool, s: seq<T>): seq<T>
    decreases |s|
  {
    if s == [] then []
    else Filter(p, s[..|s|-1]) + (if p(s[|s|-1]) then [s[|s|-1]] else [])
  }

  lemma FilterAppend<T>(p: T -> bool, s: seq<T>, x: T)
    ensures Filter(p, s + [x]) == Filter(p, s) + (if p(x) then [x] else [])
  {
    assert (s + [x])[..|s|] == s;
  }

  lemma {:induction false} FilterMembers<T>(p: T -> bool, s: seq<T>)
    ensures forall x :: x in Filter(p, s) ==> x in s && p(x)
    decreases |s|
  {
    if s != [] {
      FilterMembers(p, s[..|s|-1]);
      assert s == s[..|s|-1] + [s[|s|-1]];
    }
  }

  lemma {:induction false} FilterConcat<T>(p: T -> bool, a: seq<T>, b: seq<T>)
    ensures Filter(p, a + b) == Filter(p, a) + Filter(p, b)
    decreases |b|
  {
    if b == [] {
      assert a + b == a;
    } else {
      var b' := b[..|b|-1];
      FilterConcat(p, a, b');
      assert (a + b)[..|a + b|-1] == a + b';
    }
  }

  lemma {:induction false} FilterSubseq<T>(p: T -> bool, a: seq<T>, b: seq<T>)
    requires Subseq(a, b)
    ensures Subseq(Filter(p, a), Filter(p, b))
    decreases |b|
  {
    if a == [] {
    } else {
      var b' := b[..|b|-1];
      if Subseq(a, b') {
        FilterSubseq(p, a, b');
        SubseqGrow(Filter(p, a), Filter(p, b'), b[|b|-1]);
        assert Filter(p, b') + [] == Filter(p, b');
      } else {
        FilterSubseq(p, a[..|a|-1], b');
        SubseqGrow(Filter(p, a[..|a|-1]), Filter(p, b'), b[|b|-1]);
        assert Filter(p, b') + [] == Filter(p, b');
        assert Filter(p, a[..|a|-1]) + [] == Filter(p, a[..|a|-1]);
      }
    }
  }
}
