/** Python string operations used by the template compiler (src/template.py):
    str.strip/lstrip, str.split() on whitespace, str.split(sep), str.join,
    str.startswith, slicing with negative indices, `" " * n`, and repr() of a
    string. Strings are sequences of Unicode scalar values, as Python's are. */
module PyText {
  import opened Common

  /** Python's str.isspace() for one character (the characters CPython's
      Py_UNICODE_ISSPACE accepts); str.strip() and str.split() use it. */
  predicate IsSpace(c: char)
  {
    ('\U{9}' <= c <= '\U{D}') || ('\U{1C}' <= c <= '\U{1F}') || c == ' ' ||
    c == '\U{85}' || c == '\U{A0}' || c == '\U{1680}' || ('\U{2000}' <= c <= '\U{200A}') ||
    c == '\U{2028}' || c == '\U{2029}' || c == '\U{202F}' || c == '\U{205F}' || c == '\U{3000}'
  }

  predicate NoSpace(s: string)
  {
    forall i :: 0 <= i < |s| ==> !IsSpace(s[i])
  }

  /** `s.startswith(p)` */
  predicate StartsWith(s: string, p: string)
  {
    |p| <= |s| && s[..|p|] == p
  }

  /** `s.lstrip()`: the longest suffix of `s` that does not start with whitespace. */
  function LStrip(s: string): (r: string)
    ensures |r| <= |s| && r == s[|s| - |r|..]
    ensures forall i :: 0 <= i < |s| - |r| ==> IsSpace(s[i])
    ensures r != [] ==> !IsSpace(r[0])
    decreases |s|
  {
    if s != [] && IsSpace(s[0]) then LStrip(s[1..]) else s
  }

  /** `s.rstrip()`: the longest prefix of `s` that does not end with whitespace. */
  function RStrip(s: string): (r: string)
    ensures |r| <= |s| && r == s[..|r|]
    ensures forall i :: |r| <= i < |s| ==> IsSpace(s[i])
    ensures r != [] ==> !IsSpace(r[|r| - 1])
    decreases |s|
  {
    if s != [] && IsSpace(s[|s| - 1]) then RStrip(s[..|s| - 1]) else s
  }

  /** `s.strip()` */
  function Strip(s: string): (r: string)
  {
    RStrip(LStrip(s))
  }

  /** The characters of `s` that are not whitespace, in order. */
  function WithoutSpaces(s: string): (r: string)
  {
    if s == [] then []
    else (if IsSpace(s[0]) then [] else [s[0]]) + WithoutSpaces(s[1..])
  }

  lemma {:induction false} WithoutSpacesAppend(a: string, b: string)
    ensures WithoutSpaces(a + b) == WithoutSpaces(a) + WithoutSpaces(b)
  {
    if a == [] {
      assert a + b == b;
    } else {
      assert (a + b)[0] == a[0] && (a + b)[1..] == a[1..] + b;
      WithoutSpacesAppend(a[1..], b);
      var h := if IsSpace(a[0]) then [] else [a[0]];
      calc {
        WithoutSpaces(a + b);
        h + WithoutSpaces(a[1..] + b);
        h + (WithoutSpaces(a[1..]) + WithoutSpaces(b));
        (h + WithoutSpaces(a[1..])) + WithoutSpaces(b);
      }
    }
  }

  lemma {:induction false} WithoutSpacesOfSpaces(s: string)
    requires forall i :: 0 <= i < |s| ==> IsSpace(s[i])
    ensures WithoutSpaces(s) == []
  {
    if s != [] {
      WithoutSpacesOfSpaces(s[1..]);
    }
  }

  lemma {:induction false} WithoutSpacesOfWord(s: string)
    requires NoSpace(s)
    ensures WithoutSpaces(s) == s
  {
    if s != [] {
      WithoutSpacesOfWord(s[1..]);
    }
  }

  /** The number of leading characters of `s` that are not whitespace. */
  function WordLength(s: string): (k: nat)
    ensures k <= |s| && NoSpace(s[..k]) && (k < |s| ==> IsSpace(s[k]))
    ensures s != [] && !IsSpace(s[0]) ==> k >= 1
  {
    if s == [] || IsSpace(s[0]) then 0
    else
      var k := 1 + WordLength(s[1..]);
      assert s[..k] == [s[0]] + s[1..][..k - 1];
      k
  }

  function Concat(parts: seq<string>): string
  {
    if parts == [] then "" else parts[0] + Concat(parts[1..])
  }

  /** `s.split()` with no argument: the maximal runs of non-whitespace
      characters, in order. Every word is non-empty, no word holds whitespace,
      and the words together hold exactly the non-whitespace characters of `s`. */
  function SplitWhitespace(s: string): (r: seq<string>)
    ensures forall i :: 0 <= i < |r| ==> r[i] != [] && NoSpace(r[i])
    ensures Concat(r) == WithoutSpaces(s)
    decreases |s|
  {
    var t := LStrip(s);
    if t == [] then
      WithoutSpacesOfSpaces(s);
      []
    else
      var k := WordLength(t);
      var rest := SplitWhitespace(t[k..]);
      SplitStep(s, t, k, rest);
      [t[..k]] + rest
  }

  /** One word, then the words of the rest. */
  lemma SplitStep(s: string, t: string, k: nat, rest: seq<string>)
    requires |t| <= |s| && t == s[|s| - |t|..] && (forall i :: 0 <= i < |s| - |t| ==> IsSpace(s[i]))
    requires 1 <= k <= |t| && NoSpace(t[..k])
    requires forall i :: 0 <= i < |rest| ==> rest[i] != [] && NoSpace(rest[i])
    requires Concat(rest) == WithoutSpaces(t[k..])
    ensures var r := [t[..k]] + rest;
            (forall i :: 0 <= i < |r| ==> r[i] != [] && NoSpace(r[i])) && Concat(r) == WithoutSpaces(s)
  {
    WordsStep(t[..k], rest);
    ConcatStep(s, t, k, rest);
  }

  lemma WordsStep(w: string, rest: seq<string>)
    requires w != [] && NoSpace(w)
    requires forall i :: 0 <= i < |rest| ==> rest[i] != [] && NoSpace(rest[i])
    ensures var r := [w] + rest; forall i :: 0 <= i < |r| ==> r[i] != [] && NoSpace(r[i])
  {
    var r := [w] + rest;
    assert r[0] == w && forall i :: 1 <= i < |r| ==> r[i] == rest[i - 1];
  }

  lemma ConcatStep(s: string, t: string, k: nat, rest: seq<string>)
    requires |t| <= |s| && t == s[|s| - |t|..] && (forall i :: 0 <= i < |s| - |t| ==> IsSpace(s[i]))
    requires k <= |t| && NoSpace(t[..k])
    requires Concat(rest) == WithoutSpaces(t[k..])
    ensures Concat([t[..k]] + rest) == WithoutSpaces(s)
  {
    var p, w := s[..|s| - |t|], t[..k];
    assert s == p + (w + t[k..]);
    WithoutSpacesOfSpaces(p);
    WithoutSpacesOfWord(w);
    WithoutSpacesAppend(p, w + t[k..]);
    WithoutSpacesAppend(w, t[k..]);
    assert ([w] + rest)[1..] == rest;
  }

  /** `str.split()` splits the same way whatever whitespace surrounds `s`, so
      the `.strip().split()` at src/template.py:177 gives the same words as
      `.split()` alone. */
  lemma {:induction false} SplitIgnoresLeadingSpace(s: string)
    ensures SplitWhitespace(LStrip(s)) == SplitWhitespace(s)
  {
    var t := LStrip(s);
    assert LStrip(t) == t;
  }

  lemma {:induction false} LStripSpaces(p: string, q: string)
    requires forall i :: 0 <= i < |p| ==> IsSpace(p[i])
    ensures LStrip(p + q) == LStrip(q)
    decreases |p|
  {
    if p != [] {
      HeadTail(p, q);
      LStripSpaces(p[1..], q);
    } else {
      assert p + q == q;
    }
  }

  lemma {:induction false} LStripWord(p: string, q: string)
    requires LStrip(p) != []
    ensures LStrip(p + q) == LStrip(p) + q
    decreases |p|
  {
    assert p != [];
    HeadTail(p, q);
    if IsSpace(p[0]) {
      LStripWord(p[1..], q);
    }
  }

  lemma {:induction false} WordLengthAppend(t: string, q: string)
    requires WordLength(t) < |t|
    ensures WordLength(t + q) == WordLength(t)
    decreases |t|
  {
    HeadTail(t, q);
    if !IsSpace(t[0]) {
      WordLengthAppend(t[1..], q);
    }
  }

  lemma {:induction false} WordLengthWhole(t: string, q: string)
    requires NoSpace(t) && q != [] && IsSpace(q[0])
    ensures WordLength(t + q) == |t|
    decreases |t|
  {
    if t == [] {
      assert t + q == q;
    } else {
      HeadTail(t, q);
      WordLengthWhole(t[1..], q);
    }
  }

  lemma SplitOfSpaces(s: string)
    requires forall i :: 0 <= i < |s| ==> IsSpace(s[i])
    ensures SplitWhitespace(s) == []
  {
  }

  /** The first word of `s`, then the words of the rest. */
  lemma SplitFirstWord(s: string, t: string, k: nat)
    requires t == LStrip(s) && t != [] && k == WordLength(t)
    ensures SplitWhitespace(s) == [t[..k]] + SplitWhitespace(t[k..])
  {
  }

  /** A run of non-whitespace characters is one word. */
  lemma SplitWord(w: string)
    requires w != [] && NoSpace(w)
    ensures SplitWhitespace(w) == [w]
  {
    assert LStrip(w) == w;
    WordLengthWhole(w, " ");
    assert (w + " ")[..|w|] == w && (w + " ")[..WordLength(w)] == w[..WordLength(w)];
    assert WordLength(w) == |w|;
    SplitFirstWord(w, w, |w|);
    assert w[|w|..] == [] && w[..|w|] == w;
  }

  /** Words end at whitespace: splitting at a whitespace character splits the
      words, so `str.split()` yields exactly the maximal runs. */
  lemma {:induction false} SplitAtSpace(a: string, c: char, b: string)
    requires IsSpace(c)
    ensures SplitWhitespace(a + [c] + b) == SplitWhitespace(a) + SplitWhitespace(b)
    decreases |a|
  {
    if LStrip(a) == [] {
      SplitAfterSpaces(a, c, b);
    } else {
      var t := LStrip(a);
      var k := WordLength(t);
      if k < |t| {
        SplitAtSpace(t[k..], c, b);
        SplitAfterWord(a, c, b);
      } else {
        SplitAtSpace([], c, b);
        MiddleParts([], c, b);
        SplitAfterWhole(a, c, b);
      }
    }
  }

  /** The case of SplitAtSpace where `a` is all whitespace. */
  lemma SplitAfterSpaces(a: string, c: char, b: string)
    requires IsSpace(c) && LStrip(a) == []
    ensures SplitWhitespace(a + [c] + b) == SplitWhitespace(a) + SplitWhitespace(b)
  {
    var p := a + [c];
    forall i | 0 <= i < |p|
      ensures IsSpace(p[i])
    {
      if i < |a| {
        assert p[i] == a[i];
      }
    }
    LStripSpaces(p, b);
    SplitIgnoresLeadingSpace(p + b);
    SplitIgnoresLeadingSpace(b);
    SplitOfSpaces(a);
  }

  /** The case of SplitAtSpace where `a`'s first word ends inside `a`. */
  lemma SplitAfterWord(a: string, c: char, b: string)
    requires IsSpace(c) && LStrip(a) != []
    requires var t := LStrip(a); var k := WordLength(t);
             k < |t| && SplitWhitespace(t[k..] + [c] + b) == SplitWhitespace(t[k..]) + SplitWhitespace(b)
    ensures SplitWhitespace(a + [c] + b) == SplitWhitespace(a) + SplitWhitespace(b)
  {
    var t := LStrip(a);
    var k := WordLength(t);
    var u := t + ([c] + b);
    var s := a + [c] + b;
    MiddleParts(a, c, b);
    LStripWord(a, [c] + b);
    WordLengthAppend(t, [c] + b);
    var x, rest := t[..k], t[k..];
    SliceAppend(t, [c] + b, k);
    MiddleParts(rest, c, b);
    calc {
      SplitWhitespace(s);
      { SplitFirstWord(s, u, k); }
      [x] + SplitWhitespace(rest + [c] + b);
      [x] + (SplitWhitespace(rest) + SplitWhitespace(b));
      { Assoc([x], SplitWhitespace(rest), SplitWhitespace(b)); }
      ([x] + SplitWhitespace(rest)) + SplitWhitespace(b);
      { SplitFirstWord(a, t, k); }
      SplitWhitespace(a) + SplitWhitespace(b);
    }
  }

  /** The case of SplitAtSpace where `a` holds one word, at its end. */
  lemma SplitAfterWhole(a: string, c: char, b: string)
    requires IsSpace(c) && LStrip(a) != [] && WordLength(LStrip(a)) == |LStrip(a)|
    requires SplitWhitespace([c] + b) == SplitWhitespace(b)
    ensures SplitWhitespace(a + [c] + b) == SplitWhitespace(a) + SplitWhitespace(b)
  {
    var t := LStrip(a);
    var k := |t|;
    var u := t + ([c] + b);
    assert SplitWhitespace(a) == [t] by {
      WholeSlices(t);
      SplitFirstWord(a, t, k);
      assert SplitWhitespace([]) == [];
    }
    assert SplitWhitespace(a + ([c] + b)) == [t] + SplitWhitespace([c] + b) by {
      LStripWord(a, [c] + b);
      WholeSlices(t);
      WordLengthWhole(t, [c] + b);
      SliceAppend(t, [c] + b, k);
      SplitFirstWord(a + ([c] + b), u, k);
    }
    MiddleParts(a, c, b);
  }

  /** Trailing whitespace does not change the words either. */
  lemma SplitIgnoresTrailingSpace(s: string)
    ensures SplitWhitespace(RStrip(s)) == SplitWhitespace(s)
  {
    var r := RStrip(s);
    if |r| < |s| {
      var rest := s[|r| + 1..];
      assert s == r + [s[|r|]] + rest;
      SplitAtSpace(r, s[|r|], rest);
      SplitOfSpaces(rest);
      assert SplitWhitespace(r) + [] == SplitWhitespace(r);
    }
  }

  /** `s.strip().split()` is `s.split()`. */
  lemma SplitStrip(s: string)
    ensures SplitWhitespace(Strip(s)) == SplitWhitespace(s)
  {
    SplitIgnoresTrailingSpace(LStrip(s));
    SplitIgnoresLeadingSpace(s);
  }

  /** Index of the first occurrence of `c` in `s`. */
  function IndexOf(s: string, c: char): (k: nat)
    requires c in s
    ensures k < |s| && s[k] == c && c !in s[..k]
  {
    if s[0] == c then 0
    else
      var k := 1 + IndexOf(s[1..], c);
      assert s[..k] == [s[0]] + s[1..][..k - 1];
      k
  }

  /** `sep.join(parts)` */
  function Join(sep: string, parts: seq<string>): string
  {
    if |parts| == 0 then ""
    else if |parts| == 1 then parts[0]
    else parts[0] + sep + Join(sep, parts[1..])
  }

  /** Joining three parts. */
  lemma Join3(sep: string, a: string, b: string, c: string)
    ensures Join(sep, [a, b, c]) == a + sep + b + sep + c
  {
    assert [a, b, c][1..] == [b, c] && [b, c][1..] == [c];
    assert Join(sep, [c]) == c;
    assert Join(sep, [b, c]) == b + sep + c;
    assert Join(sep, [a, b, c]) == a + sep + (b + sep + c);
  }

  /** `s.split(sep)` for a one-character separator: the pieces between the
      occurrences of `sep`. There is always at least one piece, no piece holds
      `sep`, and joining the pieces with `sep` gives `s` back. */
  function SplitOn(s: string, sep: char): (r: seq<string>)
    ensures |r| >= 1
    ensures forall i :: 0 <= i < |r| ==> sep !in r[i]
    ensures Join([sep], r) == s
    decreases |s|
  {
    if sep !in s then [s]
    else
      var k := IndexOf(s, sep);
      var rest := SplitOn(s[k + 1..], sep);
      assert s == s[..k] + [sep] + s[k + 1..];
      [s[..k]] + rest
  }

  /** The first piece of `s.split(sep)` is the text before the first `sep`. */
  lemma SplitOnFirst(s: string, sep: char)
    requires sep in s
    ensures SplitOn(s, sep)[0] == s[..IndexOf(s, sep)] && |SplitOn(s, sep)| >= 2
  {
  }

  /** Python slice `s[i:j]`: negative bounds count from the end, and both are
      clamped to the string. */
  function Slice(s: string, i: int, j: int): (r: string)
    ensures |r| <= |s|
  {
    var a := Clamp(if i < 0 then i + |s| else i, |s|);
    var b := Clamp(if j < 0 then j + |s| else j, |s|);
    if a < b then s[a..b] else ""
  }

  function Clamp(i: int, n: nat): (r: nat)
    ensures r <= n
  {
    if i < 0 then 0 else if i > n then n else i
  }

  /** `" " * n` (empty when `n` is not positive). */
  function Spaces(n: int): string
    decreases n
  {
    if n <= 0 then "" else " " + Spaces(n - 1)
  }

  function DigitChar(d: nat): char
    requires d < 10
  {
    "0123456789"[d]
  }

  /** Decimal text of a natural number, as str() gives it. */
  function NatToString(n: nat): (r: string)
    ensures |r| >= 1 && (forall i :: 0 <= i < |r| ==> '0' <= r[i] <= '9')
    ensures n > 0 ==> r[0] != '0'
  {
    if n < 10 then [DigitChar(n)] else NatToString(n / 10) + [DigitChar(n % 10)]
  }

  /** Decimal text of an integer, as str() and repr() give it. */
  function IntToString(i: int): (r: string)
    ensures |r| >= 1 && (i < 0) == (r[0] == '-')
  {
    if i < 0 then "-" + NatToString(-i) else NatToString(i)
  }

  /** The lowercase hexadecimal digit of `d`. */
  function HexDigit(d: nat): (c: char)
    requires d < 16
    ensures '0' <= c <= '9' || 'a' <= c <= 'f'
  {
    if d < 10 then ('0' as int + d) as char else ('a' as int + d - 10) as char
  }

  /** The value of a hexadecimal digit of either case. */
  function HexValue(c: char): Option<nat>
  {
    if '0' <= c <= '9' then Some(c as int - '0' as int)
    else if 'a' <= c <= 'f' then Some(c as int - 'a' as int + 10)
    else if 'A' <= c <= 'F' then Some(c as int - 'A' as int + 10)
    else None
  }

  function Pow16(k: nat): (p: nat)
    ensures p >= 1
  {
    if k == 0 then 1 else 16 * Pow16(k - 1)
  }

  /** The last `k` hexadecimal digits of `n`, as `f"{n:0{k}x}"` writes them. */
  function HexDigits(n: nat, k: nat): (r: string)
    ensures |r| == k
  {
    if k == 0 then "" else HexDigits(n / 16, k - 1) + [HexDigit(n % 16)]
  }

  /** The number a string of hexadecimal digits stands for. */
  function ParseHex(s: string): Option<nat>
  {
    if s == [] then Some(0)
    else match ParseHex(s[..|s| - 1])
      case None => None
      case Some(v) =>
        match HexValue(s[|s| - 1])
        case None => None
        case Some(d) => Some(16 * v + d)
  }

  lemma HexDigitValue(d: nat)
    requires d < 16
    ensures HexValue(HexDigit(d)) == Some(d)
  {
  }

  /** Reading back `k` digits gives the number, when it fits in them. */
  lemma {:induction false} HexRoundTrip(n: nat, k: nat)
    requires n < Pow16(k)
    ensures ParseHex(HexDigits(n, k)) == Some(n)
  {
    if k > 0 {
      var h := HexDigits(n, k);
      assert n / 16 < Pow16(k - 1);
      HexRoundTrip(n / 16, k - 1);
      HexDigitValue(n % 16);
      assert h[..|h| - 1] == HexDigits(n / 16, k - 1) && h[|h| - 1] == HexDigit(n % 16);
    }
  }

  /** The general categories "Other" and "Separator" of Unicode 15 that
      `str.isprintable()` rejects (the ASCII space excepted), and so repr()
      escapes: control (Cc), format (Cf), private use (Co), the space
      separators other than ' ' (Zs), the line and paragraph separators (Zl,
      Zp), and the unassigned code points (Cn) of the noncharacter ranges and
      of the entirely unassigned planes and rows. */
  predicate IsNonPrintable(c: char)
  {
    IsControl(c) || IsFormat(c) || IsPrivateUse(c) || IsSeparator(c) || IsUnassigned(c)
  }

  predicate IsControl(c: char)
  {
    c < ' ' || ('\U{7F}' <= c <= '\U{9F}')
  }

  predicate IsFormat(c: char)
  {
    c == '\U{AD}' || ('\U{600}' <= c <= '\U{605}') || c == '\U{61C}' || c == '\U{6DD}' || c == '\U{70F}' ||
    ('\U{890}' <= c <= '\U{891}') || c == '\U{8E2}' || c == '\U{180E}' || ('\U{200B}' <= c <= '\U{200F}') ||
    ('\U{202A}' <= c <= '\U{202E}') || ('\U{2060}' <= c <= '\U{2064}') || ('\U{2066}' <= c <= '\U{206F}') ||
    c == '\U{FEFF}' || ('\U{FFF9}' <= c <= '\U{FFFB}') || c == '\U{110BD}' || c == '\U{110CD}' ||
    ('\U{13430}' <= c <= '\U{1343F}') || ('\U{1BCA0}' <= c <= '\U{1BCA3}') || ('\U{1D173}' <= c <= '\U{1D17A}') ||
    c == '\U{E0001}' || ('\U{E0020}' <= c <= '\U{E007F}')
  }

  predicate IsPrivateUse(c: char)
  {
    ('\U{E000}' <= c <= '\U{F8FF}') || ('\U{F0000}' <= c <= '\U{FFFFD}') || ('\U{100000}' <= c <= '\U{10FFFD}')
  }

  predicate IsSeparator(c: char)
  {
    c == '\U{A0}' || c == '\U{1680}' || ('\U{2000}' <= c <= '\U{200A}') || c == '\U{2028}' || c == '\U{2029}' ||
    c == '\U{202F}' || c == '\U{205F}' || c == '\U{3000}'
  }

  predicate IsUnassigned(c: char)
  {
    ('\U{FDD0}' <= c <= '\U{FDEF}') || (c as int) % 0x1_0000 >= 0xFFFE || ('\U{40000}' <= c <= '\U{DFFFF}') ||
    c == '\U{E0000}' || ('\U{E0002}' <= c <= '\U{E001F}') || ('\U{E0080}' <= c <= '\U{E00FF}') ||
    ('\U{E01F0}' <= c <= '\U{EFFFF}')
  }

  /** repr() of one character inside a literal quoted with `quote`: the quote
      and the backslash get a backslash; tab, newline and carriage return
      their letters; any other non-printable character `\xhh`, `\uhhhh` or
      `\Uhhhhhhhh` by its code point; a printable one stands for itself. */
  function ReprChar(c: char, quote: char): (r: string)
    ensures |r| >= 1 && (r == [c] || r[0] == '\\')
    ensures r == [c] <==> c != quote && c != '\\' && !IsNonPrintable(c)
  {
    if c == quote || c == '\\' then ['\\', c]
    else if c == '\t' then "\\t"
    else if c == '\n' then "\\n"
    else if c == '\r' then "\\r"
    else if IsNonPrintable(c) then
      if c as int < 0x100 then "\\x" + HexDigits(c as int, 2)
      else if c as int < 0x1_0000 then "\\u" + HexDigits(c as int, 4)
      else "\\U" + HexDigits(c as int, 8)
    else [c]
  }

  function ReprChars(s: string, quote: char): string
  {
    if s == [] then "" else ReprChar(s[0], quote) + ReprChars(s[1..], quote)
  }

  /** repr() of a string: quoted with `'`, or with `"` when the text holds a
      `'` and no `"`; the quote, the backslash and non-printable characters
      are escaped. */
  function Repr(s: string): (r: string)
    ensures |r| >= 2 && r[0] == r[|r| - 1] && (r[0] == '\'' || r[0] == '"')
    ensures r[0] == '"' <==> '\'' in s && '"' !in s
  {
    var quote := if '\'' in s && '"' !in s then '"' else '\'';
    [quote] + ReprChars(s, quote) + [quote]
  }

  /** A code point that is a Unicode scalar value, the values a str holds. */
  predicate IsScalar(n: nat)
  {
    n < 0xD800 || (0xE000 <= n < 0x11_0000)
  }

  function Cons(c: char, r: Option<string>): Option<string>
  {
    match r
    case None => None
    case Some(s) => Some([c] + s)
  }

  /** The text between the quotes of a string literal, decoded: the escapes
      repr() writes (`\\`, `\'`, `\"`, `\t`, `\n`, `\r`, `\x`, `\u`, `\U`)
      become their characters, and any other character stands for itself. */
  function UnreprChars(r: string): Option<string>
    decreases |r|
  {
    if r == [] then Some("")
    else if r[0] != '\\' then Cons(r[0], UnreprChars(r[1..]))
    else if |r| < 2 then None
    else
      var e := r[1];
      if e == '\\' || e == '\'' || e == '"' then Cons(e, UnreprChars(r[2..]))
      else if e == 't' then Cons('\t', UnreprChars(r[2..]))
      else if e == 'n' then Cons('\n', UnreprChars(r[2..]))
      else if e == 'r' then Cons('\r', UnreprChars(r[2..]))
      else
        var k := if e == 'x' then 2 else if e == 'u' then 4 else if e == 'U' then 8 else 0;
        if k == 0 || |r| < 2 + k then None
        else match ParseHex(r[2..2 + k])
          case None => None
          case Some(n) => if IsScalar(n) then Cons(n as char, UnreprChars(r[2 + k..])) else None
  }

  /** The string a quoted literal stands for. */
  function Unrepr(r: string): Option<string>
  {
    if |r| >= 2 && (r[0] == '\'' || r[0] == '"') && r[|r| - 1] == r[0] then UnreprChars(r[1..|r| - 1])
    else None
  }

  /** Decoding an escaped character gives the character back. */
  lemma UnreprReprChar(c: char, quote: char, rest: string)
    requires quote == '\'' || quote == '"'
    ensures UnreprChars(ReprChar(c, quote) + rest) == Cons(c, UnreprChars(rest))
  {
    var r := ReprChar(c, quote) + rest;
    if c == quote || c == '\\' || c == '\t' || c == '\n' || c == '\r' {
      assert |ReprChar(c, quote)| == 2;
      SliceAppend(ReprChar(c, quote), rest, 2);
    } else if IsNonPrintable(c) {
      var n := c as int;
      var k := if n < 0x100 then 2 else if n < 0x1_0000 then 4 else 8;
      var e := if n < 0x100 then 'x' else if n < 0x1_0000 then 'u' else 'U';
      assert ReprChar(c, quote) == ['\\', e] + HexDigits(n, k);
      UnreprHex(c, e, k, rest);
    } else {
      assert r[0] == c && r[1..] == rest;
    }
  }

  /** Decoding `\xhh`, `\uhhhh` or `\Uhhhhhhhh` gives the character back. */
  lemma UnreprHex(c: char, e: char, k: nat, rest: string)
    requires (e, k) == ('x', 2) || (e, k) == ('u', 4) || (e, k) == ('U', 8)
    requires c as int < Pow16(k)
    ensures UnreprChars(['\\', e] + HexDigits(c as int, k) + rest) == Cons(c, UnreprChars(rest))
  {
    var n := c as int;
    var r := ['\\', e] + HexDigits(n, k) + rest;
    HexRoundTrip(n, k);
    assert r[2..2 + k] == HexDigits(n, k) && r[2 + k..] == rest;
    assert IsScalar(n) && n as char == c;
  }

  lemma {:induction false} UnreprReprChars(s: string, quote: char)
    requires quote == '\'' || quote == '"'
    ensures UnreprChars(ReprChars(s, quote)) == Some(s)
  {
    if s != [] {
      UnreprReprChars(s[1..], quote);
      UnreprReprChar(s[0], quote, ReprChars(s[1..], quote));
      assert [s[0]] + s[1..] == s;
    }
  }

  /** repr() loses nothing: reading the literal back gives the string, so two
      different strings never share a repr. */
  lemma ReprRoundTrip(s: string)
    ensures Unrepr(Repr(s)) == Some(s)
  {
    var quote := if '\'' in s && '"' !in s then '"' else '\'';
    var r := Repr(s);
    assert r[1..|r| - 1] == ReprChars(s, quote);
    UnreprReprChars(s, quote);
  }

  /** Text that repr() copies verbatim between its quotes: printable, and
      without quotes or backslashes. */
  predicate IsPlain(s: string)
  {
    forall i :: 0 <= i < |s| ==> s[i] != '\'' && s[i] != '"' && s[i] != '\\' && !IsNonPrintable(s[i])
  }

  lemma {:induction false} ReprCharsPlain(s: string, quote: char)
    requires IsPlain(s) && (quote == '\'' || quote == '"')
    ensures ReprChars(s, quote) == s
  {
    if s != [] {
      ReprCharsPlain(s[1..], quote);
    }
  }

  /** For printable text without quotes or backslashes, repr() only adds
      single quotes: repr('{% if %}') is `'{% if %}'`. */
  lemma ReprPlain(s: string)
    requires IsPlain(s)
    ensures Repr(s) == "'" + s + "'"
  {
    assert forall i :: 0 <= i < |s| ==> s[i] != '\'';
    assert '\'' !in s;
    ReprCharsPlain(s, '\'');
  }
}
