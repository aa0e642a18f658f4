/** Whole-template properties: what a compiled template renders. */
module Scenarios {
  import opened Common
  import opened PyText
  import opened Tokens
  import opened Values
  import opened Errors
  import opened Exprs
  import opened Program
  import opened Compiler
  import opened Runtime

  /** Text in which no tag occurs, and which does not start with `{`,
      compiles with no needed names and renders as itself, in any context
      (tests/test_template.py:52-58, 267-272). */
  lemma TagFreeRendersItself(host: Host, s: string, ctx: map<string, Value>)
    requires IsLiteral(s) && !StartsWith(s, "{")
    ensures CompileSpec(s).Success? && CompileSpec(s).value.need == {}
    ensures RunTemplate(host, CompileSpec(s).value.program, CompileSpec(s).value.need, ctx) == Ok(s)
  {
    TagFreeCompiles(s);
    if s != "" {
      OneLiteralRuns(host, s, ctx);
    }
  }

  /** Such text compiles to one output of itself, or to nothing when empty. */
  lemma TagFreeCompiles(s: string)
    requires IsLiteral(s) && !StartsWith(s, "{")
    ensures CompileSpec(s).Success? && CompileSpec(s).value.need == {}
    ensures CompileSpec(s).value.program == if s == "" then [] else [Emit([Lit(s)])]
  {
    TagFree(s);
    LiteralRun(s);
    FinishLiteral(s);
  }

  /** The loop over a lone literal piece only buffers it. */
  lemma LiteralRun(s: string)
    requires !StartsWith(s, "{")
    ensures Run(Start, [s]) == Success(LiteralStep(Start, s))
  {
    assert [s][1..] == [];
  }

  /** After one buffered literal, the end of the compile flushes it and
      succeeds. */
  lemma FinishLiteral(s: string)
    ensures Finish(LiteralStep(Start, s)).Success? && Finish(LiteralStep(Start, s)).value.need == {}
    ensures Finish(LiteralStep(Start, s)).value.program == if s == "" then [] else [Emit([Lit(s)])]
  {
    if s != "" {
      assert LiteralStep(Start, s).buffered == [] + [Lit(s)] == [Lit(s)];
      assert Flush(LiteralStep(Start, s)).nodes == [] + [Emit([Lit(s)])] == [Emit([Lit(s)])];
      assert !HasEmptyBlock([Emit([Lit(s)])]);
    }
  }

  /** A function body that outputs one piece of text outputs exactly it. */
  lemma OneLiteralRuns(host: Host, s: string, ctx: map<string, Value>)
    ensures RunTemplate(host, [Emit([Lit(s)])], {}, ctx) == Ok(s)
  {
    var env: map<string, Value> := map[];
    assert Fetch(ctx, {}) == Ok(env);
    assert RunParts(host, env, [Lit(s)]) == Ok(s) by {
      assert [Lit(s)][1..] == [];
      assert s + "" == s;
    }
    assert RunNodes(host, env, [Emit([Lit(s)])]) == Ok(Done(env, s)) by {
      assert [Emit([Lit(s)])][1..] == [];
      assert s + "" == s;
    }
  }

  /** A template that is one end tag fails with "Too many ends" and the raw
      tag (tests/test_template.py:308-314). */
  lemma LoneEndTag(t: string)
    requires IsTag(t) && t[1] == '%'
    requires var w := SplitWhitespace(Strip(Inner(t))); |w| == 1 && StartsWith(w[0], "end")
    ensures CompileSpec(t) == Failure(TemplateSyntaxError("Too many ends", t))
  {
    OneTag(t);
    var e := TemplateSyntaxError("Too many ends", t);
    var st0 := Start.(squash := t[|t| - 3] == '-');
    var w := SplitWhitespace(Strip(Inner(t)));
    EndWithNothingOpen(Flush(st0), t, w);
    ActionOpener(t);
    assert TagKindStep(st0, t) == Failure(e);
    assert Step(Start, t) == Failure(e);
    assert Run(Start, [t, ""]) == Failure(e);
    assert Step(Start, "") == Success(Start);
    assert Run(Start, ["", t, ""]) == Failure(e) by {
      assert ["", t, ""][1..] == [t, ""];
    }
  }

  /** A piece that opens with `{%` is an action tag. */
  lemma ActionOpener(t: string)
    requires |t| >= 2 && t[0] == '{' && t[1] == '%'
    ensures StartsWith(t, "{") && StartsWith(t, "{%") && !StartsWith(t, "{#") && !StartsWith(t, "{{")
  {
    assert t[..1] == "{" && t[..2] == "{%";
  }

  lemma EndWithNothingOpen(st: State, t: string, w: seq<string>)
    requires st.blocks == [] && |w| == 1 && StartsWith(w[0], "end")
    ensures ActionStep(st, t, w) == Failure(TemplateSyntaxError("Too many ends", t))
  {
    assert w[0] != "if" && w[0] != "for" by {
      assert w[0][0] == 'e';
    }
  }

  // ---- `{% if x %}...{% endif %}` from the text to its output ----

  /** `{% if x %}` */
  function IfTagText(x: string): string
  {
    "{% if " + x + " %}"
  }

  const EndIfText: string := "{% endif %}"

  /** The `if` block's program: one test of `c_x` around one output. */
  function IfProgram(x: string, s: string): seq<Node>
  {
    [If(Var(x), if s == "" then [] else [Emit([Lit(s)])])]
  }

  /** `{% if x %}s{% endif %}` compiles, when `s` is not empty, to one `if`
      on the needed name `x` around the output of `s`, and renders `s` when
      the context's `x` is truthy, nothing when it is falsy, and raises
      KeyError when the context has no `x` (tests/test_template.py:173-198).
      With nothing between the tags the generated `if` has no body, which
      exec() rejects. */
  lemma IfTemplate(host: Host, x: string, s: string, ctx: map<string, Value>)
    requires IsIdentifier(x) && '{' !in s
    ensures var c := CompileSpec(IfTagText(x) + s + EndIfText);
            if s == "" then c == Failure(ExecRejected)
            else c.Success? && c.value.program == IfProgram(x, s) && c.value.need == {x} && c.value.defs == {}
    ensures s != "" ==>
            RunTemplate(host, IfProgram(x, s), {x}, ctx) ==
            if x !in ctx then Err(KeyError) else if Truthy(ctx[x]) then Ok(s) else Ok("")
  {
    IfTokens(x, s);
    assert !StartsWith(s, "{") by {
      if s != "" {
        assert s[0] in s;
      }
    }
    IfRun(x, s);
    IfFinish(x, s);
    if s != "" {
      IfRenders(host, x, s, ctx);
    }
  }

  /** An identifier holds no whitespace, and none of `%`, `|` and `.`. */
  lemma IdentifierChars(x: string)
    requires IsIdentifier(x)
    ensures NoSpace(x) && '%' !in x && '|' !in x && '.' !in x && MatchesNamePattern(x)
  {
    forall i | 0 <= i < |x|
      ensures IsNameChar(x[i])
    {
    }
  }

  /** `{%` + `body` + `%}` is one whole action tag when `body` has no `%`,
      and `Inner` gives back `body` when it does not end in `-`. */
  lemma ActionTagShape(body: string)
    requires '%' !in body && body != [] && body[|body| - 1] != '-'
    ensures IsTag("{%" + body + "%}") && Inner("{%" + body + "%}") == body
    ensures ("{%" + body + "%}")[|"{%" + body + "%}"| - 3] != '-'
  {
    var t := "{%" + body + "%}";
    assert t[0] == '{' && t[1] == '%' && t[|t| - 2] == '%' && t[|t| - 1] == '}';
    forall k | 2 <= k < |t| - 2
      ensures !PairAt(t, k, '%')
    {
      assert t[k] == body[k - 2];
    }
    assert t[|t| - 3] == body[|body| - 1];
    assert t[2..|t| - 2] == body;
  }

  lemma IfTagShape(x: string)
    requires IsIdentifier(x)
    ensures IsTag(IfTagText(x)) && Inner(IfTagText(x)) == " if " + x + " "
    ensures IfTagText(x)[|IfTagText(x)| - 3] != '-'
  {
    IdentifierChars(x);
    var body := " if " + x + " ";
    assert IfTagText(x) == "{%" + body + "%}";
    assert '%' !in body by {
      forall i | 0 <= i < |body|
        ensures body[i] != '%'
      {
        if 4 <= i < 4 + |x| {
          assert body[i] == x[i - 4];
        }
      }
    }
    ActionTagShape(body);
  }

  lemma EndIfShape()
    ensures IsTag(EndIfText) && Inner(EndIfText) == " endif " && EndIfText[|EndIfText| - 3] != '-'
  {
    assert EndIfText == "{%" + " endif " + "%}";
    ActionTagShape(" endif ");
  }

  /** The words of the two tags. */
  lemma IfWords(x: string)
    requires IsIdentifier(x)
    ensures SplitWhitespace(Strip(" if " + x + " ")) == ["if", x]
  {
    IdentifierChars(x);
    KeywordsNoSpace();
    IfBodyShape(x);
    SplitStrip(" if " + x + " ");
    LeadingSpace("if" + " " + (x + " "));
    WordThenSpace("if", x + " ");
    LastWord(x);
    PairList("if", x);
  }

  lemma EndIfWords()
    ensures SplitWhitespace(Strip(" endif ")) == ["endif"]
  {
    KeywordsNoSpace();
    EndIfBodyShape();
    SplitStrip(" endif ");
    LeadingSpace("endif" + " ");
    LastWord("endif");
  }

  /** The keywords are single words. */
  lemma KeywordsNoSpace()
    ensures NoSpace("if") && NoSpace("endif")
  {
    assert forall c :: c in "endif" ==> 'a' <= c <= 'z';
  }

  lemma IfBodyShape(x: string)
    ensures " if " + x + " " == " " + ("if" + " " + (x + " "))
  {
  }

  lemma EndIfBodyShape()
    ensures " endif " == " " + ("endif" + " ")
  {
  }

  lemma PairList(a: string, b: string)
    ensures ["if"] + [b] == ["if", b] && [a] + [b] == [a, b]
  {
  }

  /** A leading space separates no word. */
  lemma LeadingSpace(r: string)
    ensures SplitWhitespace(" " + r) == SplitWhitespace(r)
  {
    LStripSpaces(" ", r);
    SplitIgnoresLeadingSpace(" " + r);
    SplitIgnoresLeadingSpace(r);
  }

  /** A word followed by a space is the first word. */
  lemma WordThenSpace(a: string, r: string)
    requires a != [] && NoSpace(a)
    ensures SplitWhitespace(a + " " + r) == [a] + SplitWhitespace(r)
  {
    SplitAtSpace(a, ' ', r);
    SplitWord(a);
  }

  /** A word followed by a space is the only word. */
  lemma LastWord(a: string)
    requires a != [] && NoSpace(a)
    ensures SplitWhitespace(a + " ") == [a]
  {
    WordThenSpace(a, "");
    SplitOfSpaces("");
    AppendEmpty(a + " ");
    AppendEmpty([a]);
  }

  /** The pieces: an empty literal, the `if` tag, `s`, the end tag, an empty
      literal. */
  lemma IfTokens(x: string, s: string)
    requires IsIdentifier(x) && '{' !in s
    ensures Split(IfTagText(x) + s + EndIfText) == ["", IfTagText(x), s, EndIfText, ""]
  {
    IfTagShape(x);
    EndIfShape();
    Assoc(IfTagText(x), s, EndIfText);
    TagPrefix(IfTagText(x), s + EndIfText);
    BracelessPrefix(s, EndIfText);
    OneTag(EndIfText);
    FiveParts(IfTagText(x), s, EndIfText, Split(s + EndIfText), Split(EndIfText));
  }

  lemma FiveParts(t1: string, s: string, t2: string, l: seq<string>, m: seq<string>)
    requires m == ["", t2, ""] && l == [s + m[0]] + m[1..]
    ensures ["", t1] + l == ["", t1, s, t2, ""]
  {
    assert s + "" == s;
  }

  /** The compile state once `{% if x %}` is read. */
  function IfOpened(x: string): State
  {
    State([OpenIf(Var(x), [])], [], [], false, {x}, {}, Line(4, IfHeader(Var(x))), 8)
  }

  /** The compile state once the end tag is read. */
  function IfClosed(x: string, s: string): State
  {
    var lines := Line(4, IfHeader(Var(x))) + if s == "" then "" else Line(8, FlushLine(PartCodes([Lit(s)])));
    State([], IfProgram(x, s), [], false, {x}, {}, lines, 4)
  }

  /** A `{%` tag that does not squash, read when nothing squashes, hands
      its words to the action step once the buffer is flushed. */
  lemma ActionTagStep(st: State, t: string)
    requires |t| >= 3 && t[0] == '{' && t[1] == '%' && t[|t| - 3] != '-' && !st.squash
    ensures Step(st, t) == ActionStep(Flush(st), t, SplitWhitespace(Strip(Inner(t))))
  {
    ActionOpener(t);
    assert st.(squash := false) == st;
  }

  lemma IfOpenStep(x: string)
    requires IsIdentifier(x)
    ensures Step(Start, IfTagText(x)) == Success(IfOpened(x))
  {
    IfTagShape(x);
    IfWords(x);
    ActionTagStep(Start, IfTagText(x));
    IfAction(x, IfTagText(x));
  }

  /** The `if` action opens the block with `x` needed. */
  lemma IfAction(x: string, t: string)
    requires IsIdentifier(x)
    ensures ActionStep(Start, t, ["if", x]) == Success(IfOpened(x))
  {
    IdentifierChars(x);
    PlainNameMeaning(x, {}, {});
    UndeclaredOne(x, {});
    assert Undeclared([x], {}) == {x};
    assert {} + {x} == {x};
    assert ExprSpec(x, {}, {}) == Success((Var(x), {x}));
    var o := OpenIf(Var(x), []);
    assert Start.blocks + [o] == [o] && "" + Line(4, Header(o)) == Line(4, IfHeader(Var(x)));
    assert OpenTop(Start.(need := {x}), o) == IfOpened(x);
  }

  lemma IfEndStep(x: string, s: string)
    requires IsIdentifier(x)
    ensures Step(LiteralStep(IfOpened(x), s), EndIfText) == Success(IfClosed(x, s))
  {
    EndIfShape();
    EndIfWords();
    ActionTagStep(LiteralStep(IfOpened(x), s), EndIfText);
    EndAction(x, s);
  }

  /** The compile state once the `if` block's text is read and flushed. */
  function IfBodyRead(x: string, s: string): State
  {
    var lines := Line(4, IfHeader(Var(x))) + if s == "" then "" else Line(8, FlushLine(PartCodes([Lit(s)])));
    State([OpenIf(Var(x), [])], if s == "" then [] else [Emit([Lit(s)])], [], false, {x}, {}, lines, 8)
  }

  lemma BodyFlushed(x: string, s: string)
    ensures Flush(LiteralStep(IfOpened(x), s)) == IfBodyRead(x, s)
  {
    if s == "" {
      assert Line(4, IfHeader(Var(x))) + "" == Line(4, IfHeader(Var(x)));
    } else {
      assert LiteralStep(IfOpened(x), s).buffered == [Lit(s)];
    }
  }

  /** The end tag closes the `if`. */
  lemma EndAction(x: string, s: string)
    ensures ActionStep(Flush(LiteralStep(IfOpened(x), s)), EndIfText, ["endif"]) == Success(IfClosed(x, s))
  {
    BodyFlushed(x, s);
    var f := IfBodyRead(x, s);
    assert "endif"[3..] == "if";
    assert CloseTop(f) == IfClosed(x, s);
    assert EndStep(f, EndIfText, ["endif"]) == Success(IfClosed(x, s));
  }

  lemma IfRun(x: string, s: string)
    requires IsIdentifier(x) && !StartsWith(s, "{")
    ensures Run(Start, ["", IfTagText(x), s, EndIfText, ""]) == Success(IfClosed(x, s))
  {
    var t1, t2, st1, st2 := IfTagText(x), EndIfText, IfOpened(x), LiteralStep(IfOpened(x), s);
    FiveTokens("", t1, s, t2, "");
    IfOpenStep(x);
    IfEndStep(x, s);
    assert Run(IfClosed(x, s), [""]) == Success(IfClosed(x, s)) by {
      assert [""][1..] == [];
    }
    RunOne(st2, t2, [""], IfClosed(x, s));
    RunOne(st1, s, [t2] + [""], st2);
    RunOne(Start, t1, [s] + ([t2] + [""]), st1);
    RunOne(Start, "", [t1] + ([s] + ([t2] + [""])), Start);
  }

  lemma FiveTokens(a: string, b: string, c: string, d: string, e: string)
    ensures [a, b, c, d, e] == [a] + ([b] + ([c] + ([d] + [e])))
  {
  }

  /** The run over a token and the rest, when the token's step succeeds. */
  lemma RunOne(st: State, t: string, rest: seq<string>, st1: State)
    requires Step(st, t) == Success(st1)
    ensures Run(st, [t] + rest) == Run(st1, rest)
  {
    assert ([t] + rest)[0] == t && ([t] + rest)[1..] == rest;
  }

  /** The end of the compile: nothing is open or buffered, and exec() takes
      the source unless the `if` has no body. */
  lemma IfFinish(x: string, s: string)
    requires IsIdentifier(x)
    ensures Finish(IfClosed(x, s)) ==
            if s == "" then Failure(ExecRejected)
            else Success(Compiled(IfProgram(x, s), {x}, {}, IfClosed(x, s).lines))
  {
    var p := IfProgram(x, s);
    if s == "" {
      assert p[0] == If(Var(x), []);
      assert HasEmptyBlock(p);
    } else {
      var body := [Emit([Lit(s)])];
      assert !HasEmptyBlock(body) by {
        forall k | 0 <= k < |body|
          ensures body[k].Emit?
        {
        }
      }
      assert !HasEmptyBlock(p) by {
        forall k | 0 <= k < |p|
          ensures p[k] == If(Var(x), body)
        {
        }
      }
      assert ExecAccepts(p, {x}, {});
    }
  }

  /** What the compiled `if` renders. */
  lemma IfRenders(host: Host, x: string, s: string, ctx: map<string, Value>)
    requires s != ""
    ensures RunTemplate(host, IfProgram(x, s), {x}, ctx) ==
            if x !in ctx then Err(KeyError) else if Truthy(ctx[x]) then Ok(s) else Ok("")
  {
    var p, body := IfProgram(x, s), [Emit([Lit(s)])];
    if x !in ctx {
      MissingNameFails(host, p, {x}, ctx, x);
    } else {
      var env := Fetch(ctx, {x}).value;
      assert Eval(host, env, Var(x)) == Ok(ctx[x]);
      IfRunsIffTruthy(host, env, Var(x), body, ctx[x]);
      assert RunParts(host, env, [Lit(s)]) == Ok(s) by {
        assert [Lit(s)][1..] == [];
        assert s + "" == s;
      }
      assert RunNodes(host, env, body) == Ok(Done(env, s)) by {
        assert body[1..] == [];
        assert s + "" == s;
      }
      var out := if Truthy(ctx[x]) then s else "";
      assert RunNode(host, env, p[0]) == Ok(Done(env, out));
      assert RunNodes(host, env, p) == Ok(Done(env, out)) by {
        assert p[1..] == [];
        assert out + "" == out;
      }
    }
  }
}
