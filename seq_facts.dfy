/** Small facts about concatenation and slicing, stated once for any element type. */
module SeqFacts {

  /** Regrouping a concatenation. */
  lemma AppendAssociative<T>(a: seq<T>, b: seq<T>, c: seq<T>)
    ensures a + b + c == a + (b + c)
  {
  }

  /** Appending elements one at a time is appending them together. */
  lemma PushTwo<T>(s: seq<T>, a: T, b: T)
    ensures s + [a] + [b] == s + [a, b]
  {
  }

  lemma PushThree<T>(s: seq<T>, a: T, b: T, c: T)
    ensures s + [a] + [b] + [c] == s + [a, b, c]
  {
  }

  lemma PushFour<T>(s: seq<T>, a: T, b: T, c: T, d: T)
    ensures s + [a] + [b] + [c] + [d] == s + [a, b, c, d]
  {
  }

  /** Appending nothing. */
  lemma AppendEmpty<T>(a: seq<T>)
    ensures a + [] == a
  {
  }

  /** Appending to nothing. */
  lemma AppendEmptyFront<T>(a: seq<T>)
    ensures [] + a == a
  {
  }

  /** An index inside the front part of a concatenation. */
  lemma IndexInFront<T>(a: seq<T>, b: seq<T>, k: nat)
    requires k < |a|
    ensures k < |a + b| && (a + b)[k] == a[k]
  {
  }

  /** An index inside the back part of a concatenation. */
  lemma IndexInBack<T>(a: seq<T>, b: seq<T>, k: nat)
    requires k < |b|
    ensures |a| + k < |a + b| && (a + b)[|a| + k] == b[k]
  {
  }

  /** The last element of a concatenation whose back part is not empty. */
  lemma LastOfAppend<T>(a: seq<T>, b: seq<T>)
    requires b != []
    ensures (a + b)[|a + b| - 1] == b[|b| - 1]
  {
  }

  /** The front part of a concatenation, taken back out. */
  lemma FrontOfAppend<T>(a: seq<T>, b: seq<T>)
    ensures (a + b)[..|a|] == a
  {
  }

  /** A prefix one longer is the shorter prefix and the next element. */
  lemma TakeSnoc<T>(s: seq<T>, n: nat)
    requires 0 < n <= |s|
    ensures s[..n] == s[..n - 1] + [s[n - 1]]
  {
  }

  /** A slice past a prefix is a slice of what follows the prefix. */
  lemma SliceAfterPrefix<T>(x: seq<T>, y: seq<T>, a: nat, b: nat)
    requires a <= b <= |y|
    ensures (x + y)[|x| + a..|x| + b] == y[a..b]
  {
  }

  /** A slice that lies within a prefix of `s` is the same slice of that prefix. */
  lemma SliceWithinPrefix<T>(s: seq<T>, u: seq<T>, a: nat, b: nat)
    requires a <= b <= |u| <= |s| && s[..|u|] == u
    ensures s[a..b] == u[a..b]
  {
    assert forall k | a <= k < b :: s[k] == s[..|u|][k];
  }
}
