/** Order-preserving sub-selection of a sequence. */
module Sequences {
  /** `a` is `b` with some elements left out, order kept. */
  predicate IsSubsequence<T(==)>(a: seq<T>, b: seq<T>)
    decreases |b|
  {
    |a| == 0 ||
    (|b| > 0 &&
     if a[|a| - 1] == b[|b| - 1] then IsSubsequence(a[..|a| - 1], b[..|b| - 1])
     else IsSubsequence(a, b[..|b| - 1]))
  }

  /** Adding an element at the end of the larger sequence keeps a subsequence. */
  lemma {:induction false} SubsequenceOfPrefix<T>(a: seq<T>, b: seq<T>)
    requires |b| > 0 && IsSubsequence(a, b[..|b| - 1])
    ensures IsSubsequence(a, b)
    decreases |a| + |b|
  {
    if |a| > 0 && a[|a| - 1] == b[|b| - 1] {
      SubsequenceDropLast(a, b[..|b| - 1]);
    }
  }

  /** Dropping the last element of a subsequence keeps a subsequence. */
  lemma {:induction false} SubsequenceDropLast<T>(a: seq<T>, b: seq<T>)
    requires |a| > 0 && IsSubsequence(a, b)
    ensures IsSubsequence(a[..|a| - 1], b)
    decreases |a| + |b|
  {
    var a' := a[..|a| - 1];
    var b' := b[..|b| - 1];
    if a[|a| - 1] == b[|b| - 1] {
      if |b| == 1 {
        assert |a'| == 0;
      } else {
        SubsequenceOfPrefix(a', b);
      }
    } else {
      SubsequenceDropLast(a, b');
      SubsequenceOfPrefix(a', b);
    }
  }

  // Regrouping facts, stated as lemmas so that proofs with large contexts can cite them
  // without the solver searching for them there.

  /** Concatenation is associative. */
  lemma AppendAssociative<T>(x: seq<T>, y: seq<T>, z: seq<T>)
    ensures (x + y) + z == x + (y + z)
  {
  }

  /** A non-empty sequence is its head followed by its tail. */
  lemma HeadTail<T>(s: seq<T>)
    requires |s| > 0
    ensures [s[0]] + s[1..] == s
  {
  }

  /** Regrouping a five-part concatenation. */
  lemma AppendRegroup<T>(p: seq<T>, a: seq<T>, b: seq<T>, c: seq<T>, d: seq<T>)
    ensures p + (a + b + c + d) == p + a + b + c + d
  {
  }

  /** The last element and the rest of a concatenation whose second part is not empty. */
  lemma AppendInit<T>(a: seq<T>, b: seq<T>)
    requires |b| > 0
    ensures (a + b)[..|a + b| - 1] == a + b[..|b| - 1]
    ensures (a + b)[|a + b| - 1] == b[|b| - 1]
  {
  }

  /** A prefix of the middle part, after the same head, is a prefix of the whole. */
  lemma PrefixInside<T>(head: seq<T>, p: seq<T>, body: seq<T>, x: seq<T>, y: seq<T>)
    requires p <= body
    ensures head + p <= head + body + x + y
  {
    var rest := body[|p|..];
    assert body == p + rest;
    assert (head + body + x + y)[..|head + p|] == head + p;
  }
}
