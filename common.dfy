/** Small shared datatypes and facts. */
module Common {

  datatype Option<+T> = None | Some(value: T)

  /** Concatenation is associative. */
  lemma Assoc<T>(a: seq<T>, b: seq<T>, c: seq<T>)
    ensures (a + b) + c == a + (b + c)
  {
  }

  lemma AppendEmpty<T>(a: seq<T>)
    ensures a + [] == a
  {
  }

  /** The parts of a sequence with one more element at its end. */
  lemma SnocParts<T>(a: seq<T>, x: T)
    ensures |a + [x]| - 1 == |a| && (a + [x])[..|a|] == a && (a + [x])[|a|] == x
  {
  }

  /** A sequence with one element between two parts, grouped to the right. */
  lemma MiddleParts<T>(a: seq<T>, x: T, b: seq<T>)
    ensures a + [x] + b == a + ([x] + b) && [] + [x] + b == [x] + b
  {
  }

  /** The head and tail of a concatenation whose first part is not empty. */
  lemma HeadTail<T>(a: seq<T>, b: seq<T>)
    requires a != []
    ensures (a + b)[0] == a[0] && (a + b)[1..] == a[1..] + b
  {
  }

  /** Taking all of a sequence, and dropping all of it. */
  lemma WholeSlices<T>(a: seq<T>)
    ensures a[..|a|] == a && a[|a|..] == []
  {
  }

  /** The slices of a concatenation at a point inside its first part. */
  lemma SliceAppend<T>(a: seq<T>, b: seq<T>, k: nat)
    requires k <= |a|
    ensures (a + b)[k..] == a[k..] + b && (a + b)[..k] == a[..k]
  {
  }

  /** Two lists that start with equal pairs and go on equally are equal. */
  lemma PairPrefix<T>(x: T, y: T, x2: T, y2: T, l: seq<T>, l2: seq<T>)
    requires x == x2 && y == y2 && l == l2
    ensures [x, y] + l == [x2, y2] + l2
  {
  }

  /** A slice of the second part of a concatenation. */
  lemma SliceShift<T>(p: seq<T>, s: seq<T>, i: nat, j: nat)
    requires i <= j <= |s|
    ensures (p + s)[|p| + i..|p| + j] == s[i..j]
  {
  }

  /** A suffix of the second part of a concatenation. */
  lemma SuffixShift<T>(p: seq<T>, s: seq<T>, i: nat)
    requires i <= |s|
    ensures (p + s)[|p| + i..] == s[i..]
  {
  }

  /** Putting `s` in front of the first element of a list. */
  lemma PrependFirst<T>(s: seq<T>, x: seq<T>, y: seq<T>, l: seq<seq<T>>, l2: seq<seq<T>>)
    requires l == l2
    ensures [s + x, y] + l == [s + ([x, y] + l2)[0]] + ([x, y] + l2)[1..]
  {
    assert ([x, y] + l2)[1..] == [y] + l2;
  }
}
