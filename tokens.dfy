/** The tokenizer of src/template.py:154,
        re.split(r"(?s)({{.*?}}|{%.*?%}|{#.*?#})", text)
    written out as a scan: a tag opens with `{{`, `{%` or `{#` and runs to the
    FIRST matching `}}`, `%}` or `#}` after the opener (the lazy `.*?`, which
    with `(?s)` also crosses newlines); everything between tags is literal text.
    Because the pattern has one capturing group, the split keeps the tags:
    literal, tag, literal, ..., literal. */
module Tokens {
  import opened Common
  import opened PyText

  /** The character before the final `}` of the tag opened by `{` + `c`. */
  function CloseOf(c: char): char
  {
    if c == '{' then '}' else c
  }

  predicate IsOpener(c: char)
  {
    c == '{' || c == '%' || c == '#'
  }

  predicate PairAt(s: string, k: nat, close: char)
  {
    k + 1 < |s| && s[k] == close && s[k + 1] == '}'
  }

  /** The end (exclusive) of the first `close` + `}` at or after `j`. */
  function FindClose(s: string, j: nat, close: char): (r: Option<nat>)
    ensures r.Some? ==> j + 2 <= r.value <= |s| && PairAt(s, r.value - 2, close) &&
                        forall k :: j <= k < r.value - 2 ==> !PairAt(s, k, close)
    ensures r.None? ==> forall k :: j <= k ==> !PairAt(s, k, close)
    decreases |s| - j
  {
    if j + 1 >= |s| then None
    else if PairAt(s, j, close) then Some(j + 2)
    else FindClose(s, j + 1, close)
  }

  /** Where the tag that the pattern matches at position `i` ends, if one does. */
  function TagEndAt(s: string, i: nat): Option<nat>
  {
    if i + 1 < |s| && s[i] == '{' && IsOpener(s[i + 1]) then FindClose(s, i + 2, CloseOf(s[i + 1]))
    else None
  }

  /** A whole tag: an opener, then text, then the first matching closer. */
  predicate IsTag(t: string)
  {
    |t| >= 4 && t[0] == '{' && IsOpener(t[1]) && PairAt(t, |t| - 2, CloseOf(t[1])) &&
    forall k :: 2 <= k < |t| - 2 ==> !PairAt(t, k, CloseOf(t[1]))
  }

  /** Text in which the pattern matches nowhere: no piece of it is a tag. */
  predicate IsLiteral(t: string)
  {
    forall p, q :: 0 <= p < q <= |t| ==> !IsTag(t[p..q])
  }

  /** The leftmost position at or after `i` where a tag starts, and its end. */
  function NextTag(s: string, i: nat): (r: Option<(nat, nat)>)
    requires i <= |s|
    ensures r.Some? ==> i <= r.value.0 < r.value.1 <= |s| && TagEndAt(s, r.value.0) == Some(r.value.1)
    ensures r.Some? ==> forall p :: i <= p < r.value.0 ==> TagEndAt(s, p).None?
    ensures r.None? ==> forall p :: i <= p < |s| ==> TagEndAt(s, p).None?
    decreases |s| - i
  {
    if i == |s| then None
    else match TagEndAt(s, i)
      case Some(e) => Some((i, e))
      case None => NextTag(s, i + 1)
  }

  /** The pieces of `s[i..]`, as re.split returns them. */
  function SplitFrom(s: string, i: nat): seq<string>
    requires i <= |s|
    decreases |s| - i
  {
    match NextTag(s, i)
    case None => [s[i..]]
    case Some((a, b)) => [s[i..a], s[a..b]] + SplitFrom(s, b)
  }

  /** re.split(r"(?s)({{.*?}}|{%.*?%}|{#.*?#})", s) */
  function Split(s: string): seq<string>
  {
    SplitFrom(s, 0)
  }

  /** A match found by the scan is a whole tag. */
  lemma MatchIsTag(s: string, a: nat, b: nat)
    requires a < b <= |s| && TagEndAt(s, a) == Some(b)
    ensures IsTag(s[a..b])
  {
    var t, close := s[a..b], CloseOf(s[a + 1]);
    assert PairAt(t, |t| - 2, close);
    forall k | 2 <= k < |t| - 2
      ensures !PairAt(t, k, close)
    {
      assert !PairAt(s, a + k, close);
    }
  }

  /** A tag inside `s` is found by the scan at its first character. */
  lemma TagFoundAt(s: string, x: nat, y: nat)
    requires x < y <= |s|
    ensures IsTag(s[x..y]) ==> TagEndAt(s, x).Some?
  {
    var u := s[x..y];
    if IsTag(u) {
      var close := CloseOf(u[1]);
      assert u[0] == s[x] && u[1] == s[x + 1];
      assert u[|u| - 2] == s[y - 2] && u[|u| - 1] == s[y - 1];
      assert PairAt(s, y - 2, close);
    }
  }

  /** Text before the leftmost match contains no tag. */
  lemma GapIsLiteral(s: string, i: nat, a: nat)
    requires i <= a <= |s|
    requires forall p :: i <= p < a ==> TagEndAt(s, p).None?
    ensures IsLiteral(s[i..a])
  {
    var t := s[i..a];
    forall p, q | 0 <= p < q <= |t|
      ensures !IsTag(t[p..q])
    {
      assert forall k :: 0 <= k < q - p ==> t[p..q][k] == s[i + p..i + q][k];
      assert t[p..q] == s[i + p..i + q];
      TagFoundAt(s, i + p, i + q);
    }
  }

  /** Lossless: the pieces concatenate back to the text. */
  lemma {:induction false} SplitFromConcat(s: string, i: nat)
    requires i <= |s|
    ensures Concat(SplitFrom(s, i)) == s[i..]
    decreases |s| - i
  {
    match NextTag(s, i)
    case None =>
    case Some((a, b)) =>
      SplitFromConcat(s, b);
      ConcatPair(s[i..a], s[a..b], SplitFrom(s, b));
      SliceParts(s, i, a, b);
  }

  lemma SliceParts(s: string, i: nat, a: nat, b: nat)
    requires i <= a <= b <= |s|
    ensures s[i..] == s[i..a] + (s[a..b] + s[b..])
  {
  }

  lemma ConcatPair(x: string, y: string, r: seq<string>)
    ensures Concat([x, y] + r) == x + (y + Concat(r))
  {
    assert ([x, y] + r)[1..] == [y] + r;
    assert ([y] + r)[1..] == r;
  }

  lemma Lossless(s: string)
    ensures Concat(Split(s)) == s
  {
    SplitFromConcat(s, 0);
  }

  /** Literals at even positions, tags at odd positions, an odd count. */
  predicate WellShaped(r: seq<string>)
  {
    |r| % 2 == 1 &&
    forall k :: 0 <= k < |r| ==> if k % 2 == 0 then IsLiteral(r[k]) else IsTag(r[k])
  }

  lemma WellShapedCons(x: string, y: string, r: seq<string>)
    requires IsLiteral(x) && IsTag(y) && WellShaped(r)
    ensures WellShaped([x, y] + r)
  {
    var all := [x, y] + r;
    assert forall k :: 2 <= k < |all| ==> all[k] == r[k - 2];
  }

  lemma {:induction false} SplitFromShape(s: string, i: nat)
    requires i <= |s|
    ensures WellShaped(SplitFrom(s, i))
    decreases |s| - i
  {
    match NextTag(s, i)
    case None =>
      GapIsLiteral(s, i, |s|);
      assert s[i..|s|] == s[i..];
    case Some((a, b)) =>
      GapIsLiteral(s, i, a);
      MatchIsTag(s, a, b);
      SplitFromShape(s, b);
      WellShapedCons(s[i..a], s[a..b], SplitFrom(s, b));
  }

  /** Shape: an odd number of pieces, literals at even positions and tags at
      odd positions. */
  lemma Shape(s: string)
    ensures |Split(s)| % 2 == 1
    ensures forall k :: 0 <= k < |Split(s)| ==>
              if k % 2 == 0 then IsLiteral(Split(s)[k]) else IsTag(Split(s)[k])
  {
    SplitFromShape(s, 0);
  }

  /** Text without tags is one literal piece. */
  lemma TagFree(s: string)
    requires IsLiteral(s)
    ensures Split(s) == [s]
  {
    if NextTag(s, 0).Some? {
      var (a, b) := NextTag(s, 0).value;
      MatchIsTag(s, a, b);
      assert false;
    }
    assert s[0..] == s;
  }

  /** Text that is one whole tag splits into that tag between two empty
      literals. */
  lemma OneTag(s: string)
    requires IsTag(s)
    ensures Split(s) == ["", s, ""]
  {
    var close := CloseOf(s[1]);
    assert PairAt(s, |s| - 2, close);
    var r := FindClose(s, 2, close);
    assert r == Some(|s|);
    assert NextTag(s, 0) == Some((0, |s|));
    assert NextTag(s, |s|) == None;
    assert s[|s|..] == [];
    assert SplitFrom(s, |s|) == [s[|s|..]];
    assert s[0..0] == "" && s[0..|s|] == s;
    assert Split(s) == [s[0..0], s[0..|s|]] + SplitFrom(s, |s|);
  }

  /** `n` places further on. */
  function ShiftEnd(r: Option<nat>, n: nat): Option<nat>
  {
    match r
    case None => None
    case Some(e) => Some(n + e)
  }

  lemma {:induction false} FindCloseShift(p: string, s: string, j: nat, close: char)
    requires j <= |s|
    ensures FindClose(p + s, |p| + j, close) == ShiftEnd(FindClose(s, j, close), |p|)
    decreases |s| - j
  {
    var q := p + s;
    if j + 1 < |s| {
      assert q[|p| + j] == s[j] && q[|p| + j + 1] == s[j + 1];
      if !PairAt(s, j, close) {
        FindCloseShift(p, s, j + 1, close);
      }
    }
  }

  lemma TagEndAtShift(p: string, s: string, i: nat)
    requires i <= |s|
    ensures TagEndAt(p + s, |p| + i) == ShiftEnd(TagEndAt(s, i), |p|)
  {
    var q := p + s;
    if i + 1 < |s| {
      assert q[|p| + i] == s[i] && q[|p| + i + 1] == s[i + 1];
      if s[i] == '{' && IsOpener(s[i + 1]) {
        FindCloseShift(p, s, i + 2, CloseOf(s[i + 1]));
      }
    }
  }

  lemma {:induction false} NextTagShift(p: string, s: string, i: nat)
    requires i <= |s|
    ensures NextTag(s, i).None? ==> NextTag(p + s, |p| + i).None?
    ensures NextTag(s, i).Some? ==>
            NextTag(p + s, |p| + i).Some? &&
            NextTag(p + s, |p| + i).value.0 == |p| + NextTag(s, i).value.0 &&
            NextTag(p + s, |p| + i).value.1 == |p| + NextTag(s, i).value.1
    decreases |s| - i
  {
    if i < |s| {
      TagEndAtShift(p, s, i);
      if TagEndAt(s, i).None? {
        NextTagShift(p, s, i + 1);
        NextTagStep(p + s, |p| + i);
        NextTagStep(s, i);
      }
    }
  }

  /** Where no match starts at `i`, the search goes on from `i + 1`. */
  lemma NextTagStep(s: string, i: nat)
    requires i < |s| && TagEndAt(s, i).None?
    ensures NextTag(s, i) == NextTag(s, i + 1)
  {
  }

  /** The pieces from `i` when the next match is at `a`..`b`. */
  lemma SplitFromSome(s: string, i: nat, a: nat, b: nat)
    requires i <= |s| && NextTag(s, i).Some? && NextTag(s, i).value.0 == a && NextTag(s, i).value.1 == b
    ensures SplitFrom(s, i) == [s[i..a], s[a..b]] + SplitFrom(s, b)
  {
  }

  /** The pieces from `i` when no match follows. */
  lemma SplitFromNone(s: string, i: nat)
    requires i <= |s| && NextTag(s, i).None?
    ensures SplitFrom(s, i) == [s[i..]]
  {
  }

  /** What comes before a position does not change how the rest splits. */
  lemma {:induction false} SplitFromShift(p: string, s: string, i: nat)
    requires i <= |s|
    ensures SplitFrom(p + s, |p| + i) == SplitFrom(s, i)
    decreases |s| - i
  {
    var r := NextTag(s, i);
    if r.None? {
      ShiftNone(p, s, i);
    } else {
      SplitFromShift(p, s, r.value.1);
      ShiftSome(p, s, i);
    }
  }

  /** The last piece of the shift: no match follows. */
  lemma ShiftNone(p: string, s: string, i: nat)
    requires i <= |s| && NextTag(s, i).None?
    ensures SplitFrom(p + s, |p| + i) == SplitFrom(s, i)
  {
    NextTagShift(p, s, i);
    SuffixShift(p, s, i);
    PieceNone(p + s, s, |p|, i);
  }

  /** One step of the shift: the same match, then the same pieces after it. */
  lemma ShiftSome(p: string, s: string, i: nat)
    requires i <= |s| && NextTag(s, i).Some?
    requires SplitFrom(p + s, |p| + NextTag(s, i).value.1) == SplitFrom(s, NextTag(s, i).value.1)
    ensures SplitFrom(p + s, |p| + i) == SplitFrom(s, i)
  {
    NextTagShift(p, s, i);
    PieceSome(p, s, i, NextTag(s, i).value.0, NextTag(s, i).value.1);
  }

  /** `q` holds `s` from `n` on and no match follows in either. */
  lemma PieceNone(q: string, s: string, n: nat, i: nat)
    requires i <= |s| && n + |s| == |q| && NextTag(s, i).None? && NextTag(q, n + i).None?
    requires q[n + i..] == s[i..]
    ensures SplitFrom(q, n + i) == SplitFrom(s, i)
  {
    SplitFromNone(q, n + i);
    SplitFromNone(s, i);
  }

  /** After the same match, `p + s` and `s` go on splitting the same way. */
  lemma PieceSome(p: string, s: string, i: nat, a: nat, b: nat)
    requires i <= |s|
    requires NextTag(s, i).Some? && NextTag(s, i).value.0 == a && NextTag(s, i).value.1 == b
    requires NextTag(p + s, |p| + i).Some? && NextTag(p + s, |p| + i).value.0 == |p| + a &&
             NextTag(p + s, |p| + i).value.1 == |p| + b
    requires SplitFrom(p + s, |p| + b) == SplitFrom(s, b)
    ensures SplitFrom(p + s, |p| + i) == SplitFrom(s, i)
  {
    ShiftedPieces(p, s, i, a, b);
    SplitFromSome(s, i, a, b);
    PairPrefix(s[i..a], s[a..b], s[i..a], s[a..b], SplitFrom(p + s, |p| + b), SplitFrom(s, b));
  }

  /** The first two pieces of `p + s` from `|p| + i` are those of `s` from `i`. */
  lemma ShiftedPieces(p: string, s: string, i: nat, a: nat, b: nat)
    requires i <= a <= b <= |s|
    requires NextTag(p + s, |p| + i).Some? && NextTag(p + s, |p| + i).value.0 == |p| + a &&
             NextTag(p + s, |p| + i).value.1 == |p| + b
    ensures SplitFrom(p + s, |p| + i) == [s[i..a], s[a..b]] + SplitFrom(p + s, |p| + b)
  {
    SplitFromSome(p + s, |p| + i, |p| + a, |p| + b);
    SliceShift(p, s, i, a);
    SliceShift(p, s, a, b);
    PairPrefix((p + s)[|p| + i..|p| + a], (p + s)[|p| + a..|p| + b], s[i..a], s[a..b],
               SplitFrom(p + s, |p| + b), SplitFrom(p + s, |p| + b));
  }

  /** The pattern's match at a tag's start ends with that tag. */
  lemma TagEndOfTag(t: string, rest: string)
    requires IsTag(t)
    ensures TagEndAt(t + rest, 0) == Some(|t|)
  {
    var q, close := t + rest, CloseOf(t[1]);
    assert q[0] == t[0] && q[1] == t[1];
    assert PairAt(q, |t| - 2, close);
    forall k | 2 <= k < |t| - 2
      ensures !PairAt(q, k, close)
    {
      assert q[k] == t[k] && q[k + 1] == t[k + 1];
      assert !PairAt(t, k, close);
    }
  }

  /** A text that opens with a tag splits into an empty literal, the tag,
      and the pieces of the rest. */
  lemma TagPrefix(t: string, rest: string)
    requires IsTag(t)
    ensures Split(t + rest) == ["", t] + Split(rest)
  {
    var q := t + rest;
    TagEndOfTag(t, rest);
    assert NextTag(q, 0) == Some((0, |t|));
    assert q[0..0] == "" && q[0..|t|] == t;
    SplitFromShift(t, rest, 0);
  }

  lemma {:induction false} NextTagSkip(s: string, rest: string, i: nat)
    requires i <= |s| && '{' !in s
    ensures NextTag(s + rest, i) == NextTag(s + rest, |s|)
    decreases |s| - i
  {
    if i < |s| {
      assert (s + rest)[i] == s[i];
      NextTagSkip(s, rest, i + 1);
      NextTagStep(s + rest, i);
    }
  }

  /** Text without `{` before the rest joins the rest's first literal. */
  lemma BracelessPrefix(s: string, rest: string)
    requires '{' !in s
    ensures Split(s + rest) == [s + Split(rest)[0]] + Split(rest)[1..]
  {
    BracelessMatch(s, rest);
    if NextTag(rest, 0).None? {
      BracelessNone(s, rest);
    } else {
      BracelessSome(s, rest, NextTag(rest, 0).value.0, NextTag(rest, 0).value.1);
    }
  }

  /** The first match in `s + rest` is the rest's first match, moved on by `|s|`. */
  lemma BracelessMatch(s: string, rest: string)
    requires '{' !in s
    ensures NextTag(rest, 0).None? ==> NextTag(s + rest, 0).None?
    ensures NextTag(rest, 0).Some? ==>
            NextTag(s + rest, 0).Some? &&
            NextTag(s + rest, 0).value.0 == |s| + NextTag(rest, 0).value.0 &&
            NextTag(s + rest, 0).value.1 == |s| + NextTag(rest, 0).value.1
  {
    NextTagSkip(s, rest, 0);
    NextTagShift(s, rest, 0);
  }

  lemma BracelessNone(s: string, rest: string)
    requires NextTag(s + rest, 0).None? && NextTag(rest, 0).None?
    ensures Split(s + rest) == [s + Split(rest)[0]] + Split(rest)[1..]
  {
    SplitFromNone(s + rest, 0);
    SplitFromNone(rest, 0);
    assert (s + rest)[0..] == s + rest && rest[0..] == rest;
  }

  lemma BracelessSome(s: string, rest: string, a: nat, b: nat)
    requires NextTag(rest, 0).Some? && NextTag(rest, 0).value.0 == a && NextTag(rest, 0).value.1 == b
    requires NextTag(s + rest, 0).Some? && NextTag(s + rest, 0).value.0 == |s| + a &&
             NextTag(s + rest, 0).value.1 == |s| + b
    ensures Split(s + rest) == [s + Split(rest)[0]] + Split(rest)[1..]
  {
    SplitFromShift(s, rest, b);
    BracelessPieces(s, rest, a, b);
    SplitFromSome(rest, 0, a, b);
    PrependFirst(s, rest[0..a], rest[a..b], SplitFrom(s + rest, |s| + b), SplitFrom(rest, b));
  }

  /** The first two pieces of `s + rest` when its first match is the rest's. */
  lemma BracelessPieces(s: string, rest: string, a: nat, b: nat)
    requires a <= b <= |rest|
    requires NextTag(s + rest, 0).Some? && NextTag(s + rest, 0).value.0 == |s| + a &&
             NextTag(s + rest, 0).value.1 == |s| + b
    ensures Split(s + rest) == [s + rest[0..a], rest[a..b]] + SplitFrom(s + rest, |s| + b)
  {
    SplitFromSome(s + rest, 0, |s| + a, |s| + b);
    assert (s + rest)[0..|s| + a] == s + rest[0..a];
    SliceShift(s, rest, a, b);
    PairPrefix((s + rest)[0..|s| + a], (s + rest)[|s| + a..|s| + b], s + rest[0..a], rest[a..b],
               SplitFrom(s + rest, |s| + b), SplitFrom(s + rest, |s| + b));
  }
}
