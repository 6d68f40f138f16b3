/** Order-preserving subsequences. */
module Subsequences {
  function Init<T>(s: seq<T>): seq<T>
    requires s != []
  {
    s[..|s| - 1]
  }

  function Last<T>(s: seq<T>): T
    requires s != []
  {
    s[|s| - 1]
  }

  /** `a` is `b` with some elements left out. */
  predicate Subseq<T(==)>(a: seq<T>, b: seq<T>)
    decreases |b|
  {
    || a == []
    || (b != [] && Last(a) == Last(b) && Subseq(Init(a), Init(b)))
    || (b != [] && Subseq(a, Init(b)))
  }

  lemma Split<T>(s: seq<T>)
    requires s != []
    ensures s == Init(s) + [Last(s)]
  {}

  lemma Snoc<T>(s: seq<T>, e: T)
    ensures Init(s + [e]) == s && Last(s + [e]) == e
  {}

  lemma {:induction false} SubseqRefl<T>(a: seq<T>)
    ensures Subseq(a, a)
    decreases |a|
  {
    if a != [] { SubseqRefl(Init(a)); }
  }

  lemma {:induction false} SubseqSnoc<T>(a: seq<T>, b: seq<T>, e: T)
    requires Subseq(a, b)
    ensures Subseq(a + [e], b + [e])
  {
    Snoc(a, e);
    Snoc(b, e);
  }

  lemma {:induction false} SubseqLonger<T>(a: seq<T>, b: seq<T>, e: T)
    requires Subseq(a, b)
    ensures Subseq(a, b + [e])
  {
    Snoc(b, e);
  }

  lemma {:induction false} SubseqTrans<T>(a: seq<T>, b: seq<T>, c: seq<T>)
    requires Subseq(a, b) && Subseq(b, c)
    ensures Subseq(a, c)
    decreases |c|
  {
    if a != [] {
      if Subseq(b, Init(c)) {
        SubseqTrans(a, b, Init(c));
      } else if Subseq(a, Init(b)) {
        SubseqTrans(a, Init(b), Init(c));
      } else {
        SubseqTrans(Init(a), Init(b), Init(c));
      }
    }
  }

  lemma {:induction false} SubseqWithout<T>(a: seq<T>, i: nat)
    requires i < |a|
    ensures Subseq(a[..i] + a[i + 1..], a)
    decreases |a|
  {
    var n := |a| - 1;
    Split(a);
    if i == n {
      SubseqRefl(Init(a));
      SubseqLonger(Init(a), Init(a), a[n]);
      assert a[..i] + a[i + 1..] == Init(a);
    } else {
      var c := Init(a);
      SubseqWithout(c, i);
      SubseqSnoc(c[..i] + c[i + 1..], c, a[n]);
      assert c[..i] + c[i + 1..] + [a[n]] == a[..i] + a[i + 1..];
    }
  }

  lemma {:induction false} SubseqShorter<T>(a: seq<T>, b: seq<T>)
    requires Subseq(a, b)
    ensures |a| <= |b|
    ensures |a| == |b| ==> a == b
    decreases |b|
  {
    if a != [] {
      if Subseq(a, Init(b)) {
        SubseqShorter(a, Init(b));
      } else {
        SubseqShorter(Init(a), Init(b));
        Split(a);
        Split(b);
      }
    }
  }
}
