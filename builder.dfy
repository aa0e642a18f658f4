/** `CodeBuilder` (src/template.py:29-72): a buffer of source text whose
    entries are strings and sub-builders ("sections"). A section is shared
    with whoever asked for it, so lines added to it later still appear at the
    place where it was inserted. */
module Builder {
  import opened Common
  import opened PyText

  /** One entry of `CodeBuilder.code`: a string, or a sub-builder. */
  datatype Chunk = Text(s: string) | Section(b: CodeBuilder)

  /** The sub-builders among `cs` are valid, lie inside `R`, and do not share
      objects with each other. */
  ghost predicate ChunksValid(cs: seq<Chunk>, R: set<object>)
    reads R
    decreases R, 1
  {
    (forall i :: 0 <= i < |cs| && cs[i].Section? ==>
       cs[i].b in R && cs[i].b.Repr <= R && cs[i].b.Valid()) &&
    (forall i, j :: 0 <= i < j < |cs| && cs[i].Section? && cs[j].Section? ==>
       cs[i].b.Repr !! cs[j].b.Repr)
  }

  /** `"".join(map(str, cs))` */
  function TextOf(cs: seq<Chunk>, ghost R: set<object>): string
    requires ChunksValid(cs, R)
    reads R
    decreases R, 1, |cs|
  {
    if cs == [] then ""
    else
      var last := cs[|cs| - 1];
      assert forall i :: 0 <= i < |cs| - 1 ==> cs[..|cs| - 1][i] == cs[i];
      TextOf(cs[..|cs| - 1], R) + match last
                                  case Text(s) => s
                                  case Section(b) => b.ToString()
  }

  /** The text of chunks that are all strings. */
  function Texts(cs: seq<Chunk>): string
    requires forall i :: 0 <= i < |cs| ==> cs[i].Text?
  {
    if cs == [] then "" else Texts(cs[..|cs| - 1]) + cs[|cs| - 1].s
  }

  lemma {:induction false} TextOfTexts(cs: seq<Chunk>, R: set<object>)
    requires forall i :: 0 <= i < |cs| ==> cs[i].Text?
    requires ChunksValid(cs, R)
    ensures TextOf(cs, R) == Texts(cs)
    decreases |cs|
  {
    if cs != [] {
      TextOfTexts(cs[..|cs| - 1], R);
    }
  }

  /** The text of chunks after an added line. */
  lemma TextsAddLine(cs: seq<Chunk>, indent: int, line: string)
    requires forall i :: 0 <= i < |cs| ==> cs[i].Text?
    ensures var all := cs + [Text(Spaces(indent)), Text(line), Text("\n")];
            (forall i :: 0 <= i < |all| ==> all[i].Text?) && Texts(all) == Texts(cs) + (Spaces(indent) + line + "\n")
  {
    var a1 := cs + [Text(Spaces(indent))];
    var a2 := a1 + [Text(line)];
    var all := a2 + [Text("\n")];
    assert all == cs + [Text(Spaces(indent)), Text(line), Text("\n")];
    assert all[..|all| - 1] == a2 && a2[..|a2| - 1] == a1 && a1[..|a1| - 1] == cs;
    var t := Texts(cs);
    assert Texts(a1) == t + Spaces(indent);
    assert Texts(a2) == (t + Spaces(indent)) + line;
    assert Texts(all) == ((t + Spaces(indent)) + line) + "\n";
    assert ((t + Spaces(indent)) + line) + "\n" == t + (Spaces(indent) + line + "\n");
  }

  /** The parts of valid chunks are valid. */
  lemma ChunksValidParts(cs1: seq<Chunk>, cs2: seq<Chunk>, R: set<object>)
    requires ChunksValid(cs1 + cs2, R)
    ensures ChunksValid(cs1, R) && ChunksValid(cs2, R)
  {
    var all := cs1 + cs2;
    assert forall i :: 0 <= i < |cs1| ==> all[i] == cs1[i];
    assert forall i :: 0 <= i < |cs2| ==> all[|cs1| + i] == cs2[i];
    forall i, j | 0 <= i < j < |cs2| && cs2[i].Section? && cs2[j].Section?
      ensures cs2[i].b.Repr !! cs2[j].b.Repr
    {
      assert all[|cs1| + i] == cs2[i] && all[|cs1| + j] == cs2[j];
    }
  }

  /** The text of `cs1 + cs2` is the text of `cs1`, then that of `cs2`. */
  lemma {:induction false} TextOfAppend(cs1: seq<Chunk>, cs2: seq<Chunk>, R: set<object>)
    requires ChunksValid(cs1 + cs2, R)
    ensures ChunksValid(cs1, R) && ChunksValid(cs2, R)
    ensures TextOf(cs1 + cs2, R) == TextOf(cs1, R) + TextOf(cs2, R)
    decreases |cs2|
  {
    ChunksValidParts(cs1, cs2, R);
    if cs2 != [] {
      var init, last := cs2[..|cs2| - 1], cs2[|cs2| - 1];
      assert cs2 == init + [last];
      assert cs1 + cs2 == (cs1 + init) + [last];
      TextOfSnoc(cs1 + init, last, R);
      TextOfSnoc(init, last, R);
      TextOfAppend(cs1, init, R);
      Assoc(TextOf(cs1, R), TextOf(init, R), TextOf([last], R));
    } else {
      assert cs1 + cs2 == cs1;
    }
  }

  /** The text of chunks and one more. */
  lemma TextOfSnoc(cs: seq<Chunk>, c: Chunk, R: set<object>)
    requires ChunksValid(cs + [c], R)
    ensures ChunksValid(cs, R) && ChunksValid([c], R)
    ensures TextOf(cs + [c], R) == TextOf(cs, R) + TextOf([c], R)
  {
    ChunksValidParts(cs, [c], R);
    assert (cs + [c])[..|cs|] == cs;
    assert [c][..0] == [];
  }

  class CodeBuilder {
    var code: seq<Chunk>
    var indentLevel: int
    ghost var Repr: set<object>

    ghost predicate Valid()
      reads this, Repr
      decreases Repr, 0
    {
      this in Repr && ChunksValid(code, Repr - {this})
    }

    /** `str(self)` */
    function ToString(): string
      requires Valid()
      reads this, Repr
      decreases Repr, 0
    {
      TextOf(code, Repr - {this})
    }

    /** `CodeBuilder(indent)` */
    constructor (indent: int)
      ensures Valid() && fresh(Repr) && Repr == {this}
      ensures code == [] && indentLevel == indent
    {
      code := [];
      indentLevel := indent;
      Repr := {this};
    }

    /** `add_line`: the current indentation, the line and a newline. */
    method AddLine(line: string)
      requires Valid()
      modifies this
      ensures Valid() && Repr == old(Repr) && indentLevel == old(indentLevel)
      ensures code == old(code) + [Text(Spaces(indentLevel)), Text(line), Text("\n")]
      ensures ToString() == old(ToString()) + Spaces(indentLevel) + line + "\n"
    {
      var added := [Text(Spaces(indentLevel)), Text(line), Text("\n")];
      ghost var R := Repr - {this};
      ghost var before := TextOf(code, R);
      code := code + added;
      assert ChunksValid(code, R) by {
        assert forall i :: 0 <= i < |code| && code[i].Section? ==> i < |old(code)| && code[i] == old(code)[i];
      }
      TextOfAppend(old(code), added, R);
      TextOfTexts(added, R);
      assert Texts(added) == Spaces(indentLevel) + line + "\n" by {
        var one, two := added[..1], added[..2];
        assert one[..0] == [] && two[..1] == one && added[..2] == two;
        assert Texts(one) == Spaces(indentLevel);
        assert Texts(two) == Spaces(indentLevel) + line;
      }
    }

    /** `add_section`: a new empty sub-builder at the current indentation,
        inserted here. */
    method AddSection() returns (section: CodeBuilder)
      requires Valid()
      modifies this
      ensures Valid() && fresh(section) && Repr == old(Repr) + {section}
      ensures section.Valid() && section.Repr == {section} && section.code == []
      ensures section.indentLevel == old(indentLevel) && indentLevel == old(indentLevel)
      ensures code == old(code) + [Section(section)]
      ensures ToString() == old(ToString())
    {
      section := new CodeBuilder(indentLevel);
      ghost var R0 := Repr - {this};
      AppendSection(code, R0, section);
      code := code + [Section(section)];
      Repr := Repr + {section};
      assert Repr - {this} == R0 + {section};
    }

    /** `indent`: the following lines are indented four more spaces. */
    method Indent()
      requires Valid()
      modifies this
      ensures Valid() && Repr == old(Repr) && code == old(code)
      ensures indentLevel == old(indentLevel) + IndentStep
      ensures ToString() == old(ToString())
    {
      indentLevel := indentLevel + IndentStep;
    }

    /** `dedent`: the following lines are indented four fewer spaces. */
    method Dedent()
      requires Valid()
      modifies this
      ensures Valid() && Repr == old(Repr) && code == old(code)
      ensures indentLevel == old(indentLevel) - IndentStep
      ensures ToString() == old(ToString())
    {
      indentLevel := indentLevel - IndentStep;
    }

    /** The source `get_globals` hands to exec(), or None where its
        `assert self.indent_level == 0` fails. */
    function GlobalsSource(): (r: Option<string>)
      requires Valid()
      reads this, Repr
    {
      if indentLevel == 0 then Some(ToString()) else None
    }
  }

  /** `INDENT_STEP = 4` */
  const IndentStep: int := 4

  /** Text over a larger frame is the same text. */
  lemma {:induction false} TextOfFrame(cs: seq<Chunk>, R0: set<object>, R: set<object>)
    requires R0 <= R && ChunksValid(cs, R0) && ChunksValid(cs, R)
    ensures TextOf(cs, R0) == TextOf(cs, R)
    decreases |cs|
  {
    if cs != [] {
      TextOfFrame(cs[..|cs| - 1], R0, R);
    }
  }

  /** An empty sub-builder outside `R0`, appended to chunks valid in `R0`. */
  lemma AppendSection(cs: seq<Chunk>, R0: set<object>, sec: CodeBuilder)
    requires ChunksValid(cs, R0) && sec !in R0 && sec.Valid() && sec.Repr == {sec} && sec.code == []
    ensures ChunksValid(cs + [Section(sec)], R0 + {sec})
    ensures TextOf(cs + [Section(sec)], R0 + {sec}) == TextOf(cs, R0)
  {
    var R, all := R0 + {sec}, cs + [Section(sec)];
    assert forall i :: 0 <= i < |cs| ==> all[i] == cs[i];
    assert ChunksValid(all, R) by {
      forall i | 0 <= i < |cs| && cs[i].Section?
        ensures cs[i].b.Repr !! sec.Repr
      {
        assert cs[i].b.Repr <= R0;
      }
    }
    assert all[..|cs|] == cs;
    TextOfFrame(cs, R0, R);
    assert sec.ToString() == TextOf([], {});
  }

  /** Lines added to a section after it was inserted appear at the place of
      the insertion: the text of a builder whose only sub-builder is `s`, at
      index `k`, is the text before it, then the section's text as it is now,
      then the text after it. */
  lemma SectionText(b: CodeBuilder, s: CodeBuilder, k: nat)
    requires b.Valid() && k < |b.code| && b.code[k] == Section(s)
    requires forall j :: 0 <= j < |b.code| && j != k ==> b.code[j].Text?
    ensures s.Valid() && s in b.Repr && s.Repr <= b.Repr - {b}
    ensures b.ToString() == Texts(b.code[..k]) + s.ToString() + Texts(b.code[k + 1..])
  {
    SectionAt(b.code, s, k, b.Repr - {b});
  }

  /** The text of chunks whose only sub-builder is `s`, at index `k`. */
  lemma SectionAt(cs: seq<Chunk>, s: CodeBuilder, k: nat, R: set<object>)
    requires ChunksValid(cs, R) && k < |cs| && cs[k] == Section(s)
    requires forall j :: 0 <= j < |cs| && j != k ==> cs[j].Text?
    ensures s.Valid() && s in R && s.Repr <= R
    ensures TextOf(cs, R) == Texts(cs[..k]) + s.ToString() + Texts(cs[k + 1..])
  {
    var pre, post := cs[..k], cs[k + 1..];
    SplitAt(cs, k);
    TextOfAppend(pre, [Section(s)] + post, R);
    SectionFirst(s, post, R);
    TextOfTexts(pre, R);
    Assoc(Texts(pre), s.ToString(), Texts(post));
  }

  lemma SplitAt<T>(s: seq<T>, k: nat)
    requires k < |s|
    ensures s == s[..k] + ([s[k]] + s[k + 1..])
  {
  }

  /** The text of a section followed by strings. */
  lemma SectionFirst(s: CodeBuilder, post: seq<Chunk>, R: set<object>)
    requires ChunksValid([Section(s)] + post, R)
    requires forall j :: 0 <= j < |post| ==> post[j].Text?
    ensures s.Valid() && s in R && s.Repr <= R
    ensures TextOf([Section(s)] + post, R) == s.ToString() + Texts(post)
  {
    var one := [Section(s)];
    assert (one + post)[0] == Section(s);
    TextOfAppend(one, post, R);
    TextOfTexts(post, R);
    TextOfSection(s, R);
  }

  lemma TextOfSection(s: CodeBuilder, R: set<object>)
    requires ChunksValid([Section(s)], R)
    ensures s.Valid() && TextOf([Section(s)], R) == s.ToString()
  {
    assert [Section(s)][0] == Section(s);
    assert [Section(s)][..0] == [];
  }
}
