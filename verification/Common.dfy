/** What the other modules share: the optional value, and facts about sequences. */
module Common {
  datatype Option<+T> = None | Some(value: T)

  lemma ConcatAssociative<T>(a: seq<T>, b: seq<T>, c: seq<T>)
    ensures (a + b) + c == a + (b + c)
  {
  }

  /** a is what is left of b when some of its elements are taken out. */
  predicate Subsequence<X(==)>(a: seq<X>, b: seq<X>)
    decreases |b|
  {
    a == []
    || (b != [] && (Subsequence(a, b[..|b| - 1])
                    || (a[|a| - 1] == b[|b| - 1] && Subsequence(a[..|a| - 1], b[..|b| - 1]))))
  }

  lemma SubsequenceSnoc<X>(a: seq<X>, b: seq<X>, x: X)
    requires Subsequence(a, b)
    ensures Subsequence(a, b + [x]) && Subsequence(a + [x], b + [x])
  {
    assert (b + [x])[..|b|] == b && (a + [x])[..|a|] == a;
  }

  lemma {:induction false} PrefixIsSubsequence<X>(a: seq<X>, x: seq<X>, b: seq<X>)
    requires Subsequence(a + x, b) && |x| == 1
    ensures Subsequence(a, b)
    decreases |b|
  {
    assert (a + x)[..|a + x| - 1] == a;
    if Subsequence(a + x, b[..|b| - 1]) {
      PrefixIsSubsequence(a, x, b[..|b| - 1]);
    }
  }

  lemma {:induction false} SubsequenceOfItself<X>(a: seq<X>)
    ensures Subsequence(a, a)
  {
    if a != [] { SubsequenceOfItself(a[..|a| - 1]); }
  }

  lemma {:induction false} SubsequenceTransitive<X>(a: seq<X>, b: seq<X>, c: seq<X>)
    requires Subsequence(a, b) && Subsequence(b, c)
    ensures Subsequence(a, c)
    decreases |b| + |c|
  {
    if a != [] && b != [] {
      var b1, c1 := b[..|b| - 1], c[..|c| - 1];
      if Subsequence(b, c1) {
        SubsequenceTransitive(a, b, c1);
      } else if Subsequence(a, b1) {
        SubsequenceTransitive(a, b1, c1);
      } else {
        SubsequenceTransitive(a[..|a| - 1], b1, c1);
      }
    }
  }

  lemma {:induction false} SubsequenceAppend<X>(a: seq<X>, b: seq<X>, back: seq<X>)
    requires Subsequence(a, b)
    ensures Subsequence(a + back, b + back)
    decreases |back|
  {
    hide Subsequence;
    if back == [] {
      assert a + back == a && b + back == b;
    } else {
      var n := |back| - 1;
      SubsequenceAppend(a, b, back[..n]);
      SubsequenceSnoc(a + back[..n], b + back[..n], back[n]);
      assert a + back == a + back[..n] + [back[n]] && b + back == b + back[..n] + [back[n]];
    }
  }

  lemma {:induction false} SubsequencePrepend<X>(front: seq<X>, a: seq<X>, b: seq<X>)
    requires Subsequence(a, b)
    ensures Subsequence(front + a, front + b)
    decreases |b|
  {
    if b == [] {
      SubsequenceOfItself(front);
      assert front + a == front && front + b == front;
    } else {
      var b1, y := b[..|b| - 1], b[|b| - 1];
      assert front + b == front + b1 + [y];
      if Subsequence(a, b1) {
        SubsequencePrepend(front, a, b1);
        SubsequenceSnoc(front + a, front + b1, y);
      } else {
        var a1 := a[..|a| - 1];
        SubsequencePrepend(front, a1, b1);
        SubsequenceSnoc(front + a1, front + b1, y);
        assert front + a == front + a1 + [y];
      }
    }
  }
}
