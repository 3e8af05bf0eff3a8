/** Order-preserving subsequences. */
module Subsequences {
  /** a arises from b by leaving rows out: nothing is added, repeated or reordered. */
  ghost predicate Subseq<T>(a: seq<T>, b: seq<T>) {
    if a == [] then true
    else if b == [] then false
    else
      || (a[|a| - 1] == b[|b| - 1] && Subseq(a[..|a| - 1], b[..|b| - 1]))
      || Subseq(a, b[..|b| - 1])
  }

  lemma SubseqPush<T>(a: seq<T>, b: seq<T>, x: T)
    requires Subseq(a, b)
    ensures Subseq(a + [x], b + [x])
  {
    assert (a + [x])[..|a|] == a && (b + [x])[..|b|] == b;
  }

  /** Leaving out more rows, from the middle, still leaves a subsequence. */
  lemma {:induction false} SubseqDrop<T>(a: seq<T>, m: seq<T>, c: seq<T>, b: seq<T>)
    requires Subseq(a + m + c, b)
    ensures Subseq(a + c, b)
    decreases |b|
  {
    var s := a + m + c;
    if b != [] && s != [] {
      var b' := b[..|b| - 1];
      if Subseq(s, b') {
        SubseqDrop(a, m, c, b');
        if a + c != [] {
          assert Subseq(a + c, b);
        }
      } else if c != [] {
        assert s[..|s| - 1] == a + m + c[..|c| - 1];
        SubseqDrop(a, m, c[..|c| - 1], b');
        assert (a + c)[..|a + c| - 1] == a + c[..|c| - 1];
      } else if m != [] {
        assert s[..|s| - 1] == a + m[..|m| - 1] + c;
        SubseqDrop(a, m[..|m| - 1], c, b');
        if a + c != [] {
          assert Subseq(a + c, b);
        }
      } else {
        assert s == a + c;
      }
    } else {
      assert a + c == [];
    }
  }

  /** The rows of a subsequence sit in the original at strictly increasing positions. */
  lemma {:induction false} SubseqPositions<T>(a: seq<T>, b: seq<T>) returns (at: seq<nat>)
    requires Subseq(a, b)
    ensures |at| == |a|
    ensures forall i :: 0 <= i < |a| ==> at[i] < |b| && b[at[i]] == a[i]
    ensures forall i, j :: 0 <= i < j < |a| ==> at[i] < at[j]
    decreases |b|
  {
    if a == [] {
      at := [];
    } else if a[|a| - 1] == b[|b| - 1] && Subseq(a[..|a| - 1], b[..|b| - 1]) {
      var front := SubseqPositions(a[..|a| - 1], b[..|b| - 1]);
      at := front + [|b| - 1];
    } else {
      at := SubseqPositions(a, b[..|b| - 1]);
    }
  }

  /** A subsequence of distinct rows holds no row twice. */
  lemma SubseqDistinct<T>(a: seq<T>, b: seq<T>)
    requires Subseq(a, b) && forall i, j :: 0 <= i < j < |b| ==> b[i] != b[j]
    ensures forall i, j :: 0 <= i < j < |a| ==> a[i] != a[j]
  {
    var at := SubseqPositions(a, b);
  }
}
