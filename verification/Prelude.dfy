/** Small shared vocabulary: results, and the order-preserving subsequence relation. */
module Prelude {

  datatype Option<+T> = None | Some(value: T)

  datatype Result<+T, +E> = Ok(value: T) | Err(error: E)

  /** `a` can be obtained from `b` by deleting elements, keeping the order. */
  predicate Subsequence<T(==)>(a: seq<T>, b: seq<T>)
    decreases |b|
  {
    if a == [] then true
    else if b == [] then false
    else if a[|a| - 1] == b[|b| - 1] then Subsequence(a[..|a| - 1], b[..|b| - 1])
    else Subsequence(a, b[..|b| - 1])
  }

  lemma {:induction false} SubsequenceTail<T>(a: seq<T>, b: seq<T>)
    requires a != [] && Subsequence(a, b)
    ensures Subsequence(a[..|a| - 1], b)
    decreases |b|, 0
  {
    var tail := b[..|b| - 1];
    if a[|a| - 1] == b[|b| - 1] {
      SubsequenceGrow(a[..|a| - 1], tail, b[|b| - 1]);
      assert b == tail + [b[|b| - 1]];
    } else {
      SubsequenceTail(a, tail);
      SubsequenceGrow(a[..|a| - 1], tail, b[|b| - 1]);
      assert b == tail + [b[|b| - 1]];
    }
  }

  lemma {:induction false} SubsequenceGrow<T>(a: seq<T>, b: seq<T>, x: T)
    requires Subsequence(a, b)
    ensures Subsequence(a, b + [x])
    decreases |b|, 1
  {
    assert (b + [x])[..|b|] == b;
    if a != [] && a[|a| - 1] == x {
      SubsequenceTail(a, b);
    }
  }

  lemma SubsequenceBoth<T>(a: seq<T>, b: seq<T>, x: T)
    requires Subsequence(a, b)
    ensures Subsequence(a + [x], b + [x])
  {
    assert (a + [x])[..|a|] == a;
    assert (b + [x])[..|b|] == b;
  }

  lemma {:induction false} SubsequenceExtend<T>(a: seq<T>, b: seq<T>, c: seq<T>)
    requires Subsequence(a, b)
    ensures Subsequence(a, b + c)
    decreases |c|
  {
    if c == [] {
      assert b + c == b;
    } else {
      var init, last := c[..|c| - 1], c[|c| - 1];
      SubsequenceExtend(a, b, init);
      SubsequenceGrow(a, b + init, last);
      assert b + c == b + init + [last];
    }
  }

  /** A subsequence is never longer, and is the whole exactly when it is as long. */
  lemma {:induction false} SubsequenceLength<T>(a: seq<T>, b: seq<T>)
    requires Subsequence(a, b)
    ensures |a| <= |b|
    ensures |a| == |b| <==> a == b
    decreases |b|
  {
    if a != [] {
      if a[|a| - 1] == b[|b| - 1] {
        SubsequenceLength(a[..|a| - 1], b[..|b| - 1]);
        assert a == a[..|a| - 1] + [a[|a| - 1]] && b == b[..|b| - 1] + [b[|b| - 1]];
      } else {
        SubsequenceLength(a, b[..|b| - 1]);
      }
    }
  }

  lemma {:induction false} SubsequenceMember<T>(a: seq<T>, b: seq<T>, x: T)
    requires Subsequence(a, b) && x in a
    ensures x in b
    decreases |b|
  {
    if a[|a| - 1] == b[|b| - 1] {
      if x in a[..|a| - 1] {
        SubsequenceMember(a[..|a| - 1], b[..|b| - 1], x);
      }
    } else {
      SubsequenceMember(a, b[..|b| - 1], x);
    }
  }

  lemma {:induction false} SubsequenceTransitive<T>(a: seq<T>, b: seq<T>, c: seq<T>)
    requires Subsequence(a, b) && Subsequence(b, c)
    ensures Subsequence(a, c)
    decreases |c|
  {
    if a != [] {
      var b', c' := b[..|b| - 1], c[..|c| - 1];
      if b[|b| - 1] == c[|c| - 1] {
        if a[|a| - 1] == b[|b| - 1] {
          SubsequenceTransitive(a[..|a| - 1], b', c');
        } else {
          SubsequenceTransitive(a, b', c');
        }
      } else {
        SubsequenceTransitive(a, b, c');
        SubsequenceGrow(a, c', c[|c| - 1]);
        assert c == c' + [c[|c| - 1]];
      }
    }
  }

  lemma {:induction false} SubsequenceSlice<T>(s: seq<T>, lo: nat, hi: nat)
    requires lo <= hi <= |s|
    ensures Subsequence(s[lo..hi], s)
    decreases |s|
  {
    if lo < hi {
      var init, last := s[..|s| - 1], s[|s| - 1];
      if hi == |s| {
        var slice := s[lo..hi];
        SubsequenceSlice(init, lo, hi - 1);
        assert slice[..|slice| - 1] == init[lo..hi - 1];
        assert slice[|slice| - 1] == last;
      } else {
        SubsequenceSlice(init, lo, hi);
        assert init[lo..hi] == s[lo..hi];
        SubsequenceGrow(s[lo..hi], init, last);
        assert init + [last] == s;
      }
    }
  }

  /** No two positions of `s` share a key. */
  ghost predicate DistinctBy<T, K>(key: T -> K, s: seq<T>) {
    forall i, j | 0 <= i < j < |s| :: key(s[i]) != key(s[j])
  }

  lemma {:induction false} SubsequenceDistinct<T, K>(key: T -> K, a: seq<T>, b: seq<T>)
    requires Subsequence(a, b) && DistinctBy(key, b)
    ensures DistinctBy(key, a)
    decreases |b|
  {
    if a != [] {
      var a', b' := a[..|a| - 1], b[..|b| - 1];
      if a[|a| - 1] == b[|b| - 1] {
        SubsequenceDistinct(key, a', b');
        forall i, j | 0 <= i < j < |a| ensures key(a[i]) != key(a[j]) {
          if j == |a| - 1 {
            SubsequenceMember(a', b', a'[i]);
            var k :| 0 <= k < |b'| && b'[k] == a'[i];
            assert key(b[k]) != key(b[|b| - 1]);
          } else {
            assert key(a'[i]) != key(a'[j]);
          }
        }
      } else {
        SubsequenceDistinct(key, a, b');
      }
    }
  }
}
