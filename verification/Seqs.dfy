/** Laws of concatenation, called where a proof needs one step of rearranging. */
module Seqs {

  lemma AppNil<T>(a: seq<T>)
    ensures [] + a == a && a + [] == a
  {
  }

  lemma AppTail<T>(a: seq<T>, b: seq<T>)
    requires a != []
    ensures a + b != [] && (a + b)[0] == a[0] && (a + b)[1..] == a[1..] + b
  {
  }

  lemma ConsTail<T>(x: T, a: seq<T>)
    ensures ([x] + a)[0] == x && ([x] + a)[1..] == a
  {
  }

  lemma HeadTail<T>(a: seq<T>)
    requires a != []
    ensures a == [a[0]] + a[1..]
  {
  }

  lemma Assoc<T>(a: seq<T>, b: seq<T>, c: seq<T>)
    ensures a + b + c == a + (b + c)
  {
  }

  lemma BehindOne<T>(front: seq<T>, x: T, tail: seq<T>, k: nat)
    requires k < |tail|
    ensures (front + [x] + tail)[|front| + 1 + k] == tail[k]
  {
  }

  // The sequence b stands at the end of s, from `off` on.
  predicate EndsIn<T(==)>(s: seq<T>, off: nat, b: seq<T>) {
    |s| == off + |b| && forall i | 0 <= i < |b| :: s[off + i] == b[i]
  }

  lemma SliceShift<T>(s: seq<T>, off: nat, b: seq<T>, i: nat, j: nat)
    requires EndsIn(s, off, b) && i <= j <= |b|
    ensures s[off + i..off + j] == b[i..j]
  {
    forall k | 0 <= k < j - i ensures s[off + i..off + j][k] == b[i..j][k] { assert s[off + (i + k)] == b[i + k]; }
  }

  lemma SliceOfSlice<T>(s: seq<T>, q: nat, n: nat, i: nat, j: nat)
    requires q + n <= |s| && i <= j <= n
    ensures s[q..q + n][i..j] == s[q + i..q + j]
  {
    var a, b := s[q..q + n][i..j], s[q + i..q + j];
    assert |a| == |b| && forall k | 0 <= k < |a| :: a[k] == b[k];
  }
}
