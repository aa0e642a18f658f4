/** `Template` (src/template.py:75-285): the constructor compiles the text,
    `render` runs the compiled function on the merged context.

    exec() is not modelled. Next to each line the constructor adds to its
    CodeBuilder, the model builds the statement that line stands for, and
    `program` holds the resulting function body; `source` holds the text that
    would be handed to exec(). Compiler.CompiledSource proves the two agree. */
module Templates {
  import opened Common
  import opened PyText
  import opened Tokens
  import opened Values
  import opened Errors
  import opened Exprs
  import opened Program
  import opened Compiler
  import opened Runtime
  import opened Builder

  /** `order` lists each element of `s` exactly once. */
  ghost predicate Enumerates(order: seq<string>, s: set<string>)
  {
    (forall k :: 0 <= k < |order| ==> order[k] in s) &&
    (forall x :: x in s ==> x in order) &&
    (forall j, k :: 0 <= j < k < |order| ==> order[j] != order[k])
  }

  /** The CodeBuilder of a compile in progress: the `def` line, the vars
      section (still empty), then the prelude and the lines of `st`, at the
      indentation of `st`. */
  ghost predicate Builds(code: CodeBuilder, varsCode: CodeBuilder, st: State)
    reads code, varsCode
  {
    Holds(code, varsCode, PreludeLines() + st.lines) && varsCode.code == [] && code.indentLevel == st.indent
  }

  /** The CodeBuilder holds the `def` line, the vars section, then the
      strings of `body`. */
  ghost predicate Holds(code: CodeBuilder, varsCode: CodeBuilder, body: string)
    reads code, varsCode
  {
    code.Repr == {code, varsCode} && varsCode.Repr == {varsCode} && code != varsCode &&
    code.Valid() && varsCode.Valid() && varsCode.indentLevel == 4 &&
    |code.code| >= 4 && code.code[..4] == [Text(""), Text(DefLine), Text("\n"), Section(varsCode)] &&
    (forall k :: 4 <= k < |code.code| ==> code.code[k].Text?) &&
    BodyText(code.code[4..]) == body
  }

  /** The text of chunks that should all be strings. */
  function BodyText(cs: seq<Chunk>): string
  {
    if forall k :: 0 <= k < |cs| ==> cs[k].Text? then Texts(cs) else ""
  }

  /** Builds looks only at the lines and the indentation of the state. */
  lemma BuildsShape(code: CodeBuilder, varsCode: CodeBuilder, st: State, st2: State)
    requires Builds(code, varsCode, st) && st2.lines == st.lines && st2.indent == st.indent
    ensures Builds(code, varsCode, st2)
  {
  }

  /** Literal content (src/template.py:206-211): after a squashing tag its
      leading whitespace goes, and what is left, if anything, is buffered as
      its repr(). */
  method Literal(token: string, buffered: seq<string>, st: State) returns (buffered1: seq<string>, next: State)
    requires buffered == PartCodes(st.buffered)
    ensures next == LiteralStep(st, token) && buffered1 == PartCodes(next.buffered)
  {
    var literal := token;
    if st.squash {
      literal := LStrip(literal);
    }
    buffered1 := buffered;
    if literal != "" {
      buffered1 := buffered + [Repr(literal)];
    }
    next := LiteralStep(st, token);
  }

  /** `code.add_line` after the vars section: the line joins the body. */
  method AddBodyLine(code: CodeBuilder, ghost varsCode: CodeBuilder, line: string, ghost body: string)
    requires Holds(code, varsCode, body)
    modifies code
    ensures Holds(code, varsCode, body + Line(code.indentLevel, line)) && code.indentLevel == old(code.indentLevel)
  {
    ghost var rest := code.code[4..];
    code.AddLine(line);
    assert code.code[..4] == old(code.code)[..4];
    assert code.code[4..] == rest + [Text(Spaces(code.indentLevel)), Text(line), Text("\n")];
    TextsAddLine(rest, code.indentLevel, line);
  }

  /** `code.add_line` during the token loop: the line joins the lines of `st`. */
  method BodyLine(code: CodeBuilder, ghost varsCode: CodeBuilder, line: string, ghost st: State)
    requires Builds(code, varsCode, st)
    modifies code
    ensures Builds(code, varsCode, st.(lines := st.lines + Line(st.indent, line)))
  {
    AddBodyLine(code, varsCode, line, PreludeLines() + st.lines);
    Assoc(PreludeLines(), st.lines, Line(st.indent, line));
  }

  /** The header line of a block, then `code.indent()`. */
  method OpenLine(code: CodeBuilder, ghost varsCode: CodeBuilder, line: string, ghost st: State, ghost o: Open)
    requires Builds(code, varsCode, st) && line == Header(o)
    modifies code
    ensures Builds(code, varsCode, OpenTop(st, o))
  {
    BodyLine(code, varsCode, line, st);
    code.Indent();
  }

  /** `flush_output` (src/template.py:143-149): one line for the buffered
      expressions, none when the buffer is empty; the buffer comes back empty. */
  method FlushOutput(code: CodeBuilder, ghost varsCode: CodeBuilder, buffered: seq<string>, ghost st: State)
    returns (cleared: seq<string>)
    requires Builds(code, varsCode, st) && buffered == PartCodes(st.buffered)
    modifies code
    ensures Builds(code, varsCode, Flush(st)) && cleared == []
  {
    if |buffered| == 1 {
      BodyLine(code, varsCode, "append_result(" + buffered[0] + ")", st);
    } else if |buffered| > 1 {
      BodyLine(code, varsCode, "extend_result((" + Join(", ", buffered) + "))", st);
    }
    cleared := [];
  }

  lemma EnumeratesAdd(order: seq<string>, s: set<string>, v: string)
    requires Enumerates(order, s) && v !in s
    ensures Enumerates(order + [v], s + {v})
  {
  }

  /** The chunks the vars section holds after a line for each of `order`. */
  function VarChunks(order: seq<string>): (r: seq<Chunk>)
    ensures forall k :: 0 <= k < |r| ==> r[k].Text?
    decreases |order|
  {
    if order == [] then []
    else
      var v := order[|order| - 1];
      VarChunks(order[..|order| - 1]) + [Text(Spaces(4)), Text(VarText(v)), Text("\n")]
  }

  lemma {:induction false} VarChunksTexts(order: seq<string>)
    ensures Texts(VarChunks(order)) == VarLines(order)
    decreases |order|
  {
    if order != [] {
      var init := order[..|order| - 1];
      VarChunksTexts(init);
      TextsAddLine(VarChunks(init), 4, VarText(order[|order| - 1]));
    }
  }

  lemma VarChunksText(order: seq<string>, b: CodeBuilder)
    requires b.Valid() && b.Repr == {b} && b.code == VarChunks(order)
    ensures b.ToString() == VarLines(order)
  {
    assert b.Repr - {b} == {};
    TextOfTexts(b.code, {});
    VarChunksTexts(order);
  }

  /** The chunks `add_line` leaves for the `def` line at indentation 0. */
  function DefChunks(): seq<Chunk>
  {
    [Text(""), Text(DefLine), Text("\n")]
  }

  lemma DefChunksText()
    ensures Texts(DefChunks()) == Line(0, DefLine)
  {
    var cs := DefChunks();
    var one, two := cs[..1], cs[..2];
    assert one == [Text("")] && two == [Text(""), Text(DefLine)] && cs[2] == Text("\n");
    assert two[..1] == one && one[..0] == [];
    assert Texts(one) == "";
    assert Texts(two) == DefLine;
    assert Spaces(0) == "";
  }

  /** src/template.py:221-222: the return line ends the body, and the
      indentation goes back one step. */
  method AddReturn(code: CodeBuilder, varsCode: CodeBuilder, ghost body: string)
    requires Holds(code, varsCode, body)
    modifies code
    ensures code.Valid() && code.indentLevel == old(code.indentLevel) - 4
    ensures varsCode.Valid() && varsCode.ToString() == old(varsCode.ToString())
    ensures code.ToString() == Line(0, DefLine) + varsCode.ToString() + (body + Line(old(code.indentLevel), ReturnLine))
  {
    AddBodyLine(code, varsCode, ReturnLine, body);
    code.Dedent();
    HoldsText(code, varsCode, body + Line(old(code.indentLevel), ReturnLine));
  }

  /** A builder whose only sub-builder is the vars section at index 3 is
      valid whenever that section is. */
  lemma OnlySection(code: CodeBuilder, varsCode: CodeBuilder)
    requires code.Repr == {code, varsCode} && varsCode.Repr == {varsCode} && code != varsCode && varsCode.Valid()
    requires |code.code| >= 4 && code.code[..4] == [Text(""), Text(DefLine), Text("\n"), Section(varsCode)]
    requires forall k :: 4 <= k < |code.code| ==> code.code[k].Text?
    ensures code.Valid()
  {
    forall i | 0 <= i < |code.code| && code.code[i].Section?
      ensures i == 3
    {
      if i < 4 {
        assert code.code[i] == code.code[..4][i];
      }
    }
  }

  /** The text of the CodeBuilder: the `def` line, the vars section as it is
      now, then the body. */
  lemma HoldsText(code: CodeBuilder, varsCode: CodeBuilder, body: string)
    requires Holds(code, varsCode, body)
    ensures code.ToString() == Line(0, DefLine) + varsCode.ToString() + body
  {
    assert code.code[..3] == code.code[..4][..3] == DefChunks();
    DefChunksText();
    SectionText(code, varsCode, 3);
  }

  /** src/template.py:131-139: a CodeBuilder holding the `def` line, the vars
      section and the four lines that set up `result`. */
  method NewCode() returns (code: CodeBuilder, varsCode: CodeBuilder)
    ensures fresh(code) && fresh(varsCode) && Builds(code, varsCode, Start)
  {
    code := new CodeBuilder(0);
    code.AddLine(DefLine);
    code.Indent();
    varsCode := code.AddSection();
    AddPrelude(code, varsCode);
  }

  method AddPrelude(code: CodeBuilder, varsCode: CodeBuilder)
    requires code.Repr == {code, varsCode} && varsCode.Repr == {varsCode} && code != varsCode
    requires code.Valid() && varsCode.Valid() && varsCode.code == [] && varsCode.indentLevel == 4
    requires code.code == [Text(""), Text(DefLine), Text("\n"), Section(varsCode)] && code.indentLevel == 4
    modifies code
    ensures Builds(code, varsCode, Start)
  {
    assert code.code[4..] == [];
    ghost var l1, l2 := Line(4, "result = []"), Line(4, "append_result = result.append");
    ghost var l3, l4 := Line(4, "extend_result = result.extend"), Line(4, "to_str = str");
    AddBodyLine(code, varsCode, "result = []", "");
    assert "" + l1 == l1;
    AddBodyLine(code, varsCode, "append_result = result.append", l1);
    AddBodyLine(code, varsCode, "extend_result = result.extend", l1 + l2);
    AddBodyLine(code, varsCode, "to_str = str", l1 + l2 + l3);
    assert PreludeLines() + Start.lines == l1 + l2 + l3 + l4;
  }

  /** `Template(text, *contexts)` (src/template.py:115-223): the contexts
      merged, then the text compiled; on success the template holds the
      compiled program, its needed and declared names and its source. */
  method NewTemplate(text: string, contexts: seq<map<string, Value>>) returns (t: Template, err: Option<CompileError>)
    ensures fresh(t) && t.context == Merge(contexts)
    ensures match CompileSpec(text)
            case Failure(e) => err == Some(e)
            case Success(c) => err == None && t.program == c.program && t.varsNeed == c.need && t.varsDefs == c.defs &&
                               Enumerates(t.needOrder, c.need) && t.source == Source(t.needOrder, c.lines)
  {
    t := new Template(contexts);
    err := t.Compile(text);
  }

  /** src/template.py:218-219: one line of the vars section per needed
      name of `need`, in the order the set is iterated. */
  method VarsSection(varsCode: CodeBuilder, need: set<string>) returns (ghost order: seq<string>)
    requires varsCode.Valid() && varsCode.Repr == {varsCode} && varsCode.code == [] && varsCode.indentLevel == 4
    modifies varsCode
    ensures varsCode.Valid() && varsCode.Repr == {varsCode} && varsCode.indentLevel == 4
    ensures Enumerates(order, need) && varsCode.ToString() == VarLines(order)
  {
    order := [];
    ghost var done: set<string> := {};
    var rest := need;
    while rest != {}
      invariant rest <= need && done == need - rest && Enumerates(order, done)
      invariant varsCode.Valid() && varsCode.Repr == {varsCode} && varsCode.indentLevel == 4
      invariant varsCode.code == VarChunks(order)
      decreases rest
    {
      var v :| v in rest;
      varsCode.AddLine(VarText(v));
      assert (order + [v])[..|order|] == order;
      EnumeratesAdd(order, done, v);
      order, done := order + [v], done + {v};
      rest := rest - {v};
    }
    VarChunksText(order, varsCode);
    assert need - rest == need;
  }

  /** src/template.py:218-221: the vars section and the return line. */
  method FinishCode(code: CodeBuilder, varsCode: CodeBuilder, need: set<string>, fin: State) returns (ghost order: seq<string>)
    requires Builds(code, varsCode, fin)
    modifies code, varsCode
    ensures Enumerates(order, need)
    ensures code.Valid() && code.indentLevel == fin.indent - 4
    ensures code.ToString() == Line(0, DefLine) + VarLines(order) + ((PreludeLines() + fin.lines) + Line(fin.indent, ReturnLine))
  {
    order := VarsSection(varsCode, need);
    OnlySection(code, varsCode);
    AddReturn(code, varsCode, PreludeLines() + fin.lines);
  }

  class Template {
    var context: map<string, Value>
    var varsNeed: set<string>
    var varsDefs: set<string>
    /** The function exec() makes of `source`, as the statements of its body. */
    var program: seq<Node>
    var source: string
    /** The order in which `for var in self.vars_need` visited the names. */
    ghost var needOrder: seq<string>

    /** src/template.py:122-127: the contexts merged left to right, and no
        names needed or declared yet. */
    constructor (contexts: seq<map<string, Value>>)
      ensures context == Merge(contexts) && varsNeed == {} && varsDefs == {}
      ensures program == [] && source == "" && needOrder == []
    {
      var merged := map[];
      var i := 0;
      while i < |contexts|
        invariant 0 <= i <= |contexts|
        invariant merged == Merge(contexts[..i])
      {
        assert contexts[..i + 1][..i] == contexts[..i];
        merged := merged + contexts[i];
        i := i + 1;
      }
      assert contexts[..|contexts|] == contexts;
      context := merged;
      varsNeed := {};
      varsDefs := {};
      program := [];
      source := "";
      needOrder := [];
    }

    /** `_need` */
    method Need(name: string) returns (err: Option<CompileError>)
      modifies this
      ensures match NeedSpec(name, old(varsNeed), varsDefs)
              case Failure(e) => err == Some(e) && varsNeed == old(varsNeed)
              case Success(n) => err == None && varsNeed == n
      ensures varsDefs == old(varsDefs) && context == old(context)
      ensures program == old(program) && source == old(source) && needOrder == old(needOrder)
    {
      err := CheckNaming(name);
      if err.Some? {
        return;
      }
      if name !in varsDefs {
        varsNeed := varsNeed + {name};
      }
    }

    /** `_declare` */
    method Declare(name: string) returns (err: Option<CompileError>)
      modifies this
      ensures match DeclareSpec(name, old(varsDefs))
              case Failure(e) => err == Some(e) && varsDefs == old(varsDefs)
              case Success(d) => err == None && varsDefs == d
      ensures varsNeed == old(varsNeed) && context == old(context)
      ensures program == old(program) && source == old(source) && needOrder == old(needOrder)
    {
      err := CheckNaming(name);
      if err.Some? {
        return;
      }
      varsDefs := varsDefs + {name};
    }

    /** `_expr_code`: the compiled expression and its Python text. */
    method ExprCode(expr: string) returns (r: Outcome<(Expr, string)>)
      modifies this
      ensures match ExprSpec(expr, old(varsNeed), varsDefs)
              case Failure(e) => r == Failure(e)
              case Success(res) => r == Success((res.0, Code(res.0))) && varsNeed == res.1
      ensures varsDefs == old(varsDefs) && context == old(context)
      ensures program == old(program) && source == old(source) && needOrder == old(needOrder)
      decreases |expr|
    {
      if '|' in expr {
        var pipes := SplitOn(expr, '|');
        SplitOnFirst(expr, '|');
        var head :- ExprCode(pipes[0]);
        r := Filters(head.0, head.1, pipes[1..]);
      } else if '.' in expr {
        var dots := SplitOn(expr, '.');
        SplitOnFirst(expr, '.');
        var head :- ExprCode(dots[0]);
        var segs := dots[1..];
        var args := Join(", ", seq(|segs|, k requires 0 <= k < |segs| => Repr(segs[k])));
        return Success((Dots(head.0, segs), "do_dots(" + head.1 + ", " + args + ")"));
      } else {
        var err := Need(expr);
        if err.Some? {
          return Failure(err.value);
        }
        return Success((Var(expr), "c_" + expr));
      }
    }

    /** src/template.py:230-232: each filter name is needed, and wraps the
        code so far in a call. */
    method Filters(e0: Expr, code0: string, fs: seq<string>) returns (r: Outcome<(Expr, string)>)
      requires code0 == Code(e0)
      modifies this
      ensures match FiltersSpec(e0, fs, old(varsNeed), varsDefs)
              case Failure(e) => r == Failure(e)
              case Success(res) => r == Success((res.0, Code(res.0))) && varsNeed == res.1
      ensures varsDefs == old(varsDefs) && context == old(context)
      ensures program == old(program) && source == old(source) && needOrder == old(needOrder)
    {
      var e, code := e0, code0;
      var i := 0;
      while i < |fs|
        invariant 0 <= i <= |fs| && code == Code(e)
        invariant varsDefs == old(varsDefs) && context == old(context)
        invariant program == old(program) && source == old(source) && needOrder == old(needOrder)
        invariant FiltersSpec(e0, fs, old(varsNeed), varsDefs) == FiltersSpec(e, fs[i..], varsNeed, varsDefs)
      {
        var func := fs[i];
        assert fs[i..][0] == func && fs[i..][1..] == fs[i + 1..];
        var err := Need(func);
        if err.Some? {
          return Failure(err.value);
        }
        code := "c_" + func + "(" + code + ")";
        e := Filter(func, e);
        i := i + 1;
      }
      assert fs[i..] == [];
      return Success((e, code));
    }

    /** The compile state `st` agrees with `ops_stack` and with the names
        needed and declared so far. */
    ghost predicate Mirrors(st: State, opsStack: seq<string>)
      reads this
    {
      opsStack == Ops(st.blocks) && st.need == varsNeed && st.defs == varsDefs
    }

    /** An `if` tag (src/template.py:180-185). */
    method IfTag(code: CodeBuilder, ghost varsCode: CodeBuilder, token: string, words: seq<string>,
                 opsStack: seq<string>, st: State) returns (err: Option<CompileError>, opsStack1: seq<string>, next: State)
      requires Builds(code, varsCode, st) && Mirrors(st, opsStack)
      modifies this, code
      ensures context == old(context) && program == old(program) && source == old(source) && needOrder == old(needOrder)
      ensures match IfStep(st, token, words)
              case Failure(e) => err == Some(e)
              case Success(s) => err == None && next == s && Builds(code, varsCode, s) && Mirrors(s, opsStack1)
    {
      next, opsStack1 := st, opsStack;
      if |words| != 2 {
        return Some(TemplateSyntaxError("Don't understand if", token)), opsStack1, next;
      }
      opsStack1 := opsStack + ["if"];
      var r := ExprCode(words[1]);
      if r.Failure? {
        return Some(r.error), opsStack1, next;
      }
      var o := OpenIf(r.value.0, st.nodes);
      OpenLine(code, varsCode, "if " + r.value.1 + ":", st, o);
      next := OpenTop(st.(need := varsNeed), o);
      BuildsShape(code, varsCode, OpenTop(st, o), next);
      err := None;
    }

    /** A `for` tag (src/template.py:186-193). */
    method ForTag(code: CodeBuilder, ghost varsCode: CodeBuilder, token: string, words: seq<string>,
                  opsStack: seq<string>, st: State) returns (err: Option<CompileError>, opsStack1: seq<string>, next: State)
      requires Builds(code, varsCode, st) && Mirrors(st, opsStack)
      modifies this, code
      ensures context == old(context) && program == old(program) && source == old(source) && needOrder == old(needOrder)
      ensures match ForStep(st, token, words)
              case Failure(e) => err == Some(e)
              case Success(s) => err == None && next == s && Builds(code, varsCode, s) && Mirrors(s, opsStack1)
    {
      if |words| != 4 || words[2] != "in" {
        return Some(TemplateSyntaxError("Don't understand for", token)), opsStack, st;
      }
      err, opsStack1, next := ForOpen(code, varsCode, token, words, opsStack, st);
    }

    /** A well-shaped `for` tag: the loop name is declared, the iterable
        compiled, and the loop opened (src/template.py:189-192). */
    method ForOpen(code: CodeBuilder, ghost varsCode: CodeBuilder, token: string, words: seq<string>,
                   opsStack: seq<string>, st: State) returns (err: Option<CompileError>, opsStack1: seq<string>, next: State)
      requires |words| == 4 && words[2] == "in"
      requires Builds(code, varsCode, st) && Mirrors(st, opsStack)
      modifies this, code
      ensures context == old(context) && program == old(program) && source == old(source) && needOrder == old(needOrder)
      ensures match ForStep(st, token, words)
              case Failure(e) => err == Some(e)
              case Success(s) => err == None && next == s && Builds(code, varsCode, s) && Mirrors(s, opsStack1)
    {
      next, opsStack1 := st, opsStack + ["for"];
      err := Declare(words[1]);
      if err.Some? {
        return;
      }
      var r := ExprCode(words[3]);
      if r.Failure? {
        return Some(r.error), opsStack1, next;
      }
      var o := OpenFor(words[1], r.value.0, st.nodes);
      OpenLine(code, varsCode, "for c_" + words[1] + " in " + r.value.1 + ":", st, o);
      next := OpenTop(st.(need := varsNeed, defs := varsDefs), o);
      BuildsShape(code, varsCode, OpenTop(st, o), next);
    }

    /** An `end...` tag (src/template.py:194-203). */
    method EndTag(code: CodeBuilder, ghost varsCode: CodeBuilder, token: string, words: seq<string>,
                  opsStack: seq<string>, st: State) returns (err: Option<CompileError>, opsStack1: seq<string>, next: State)
      requires words != [] && StartsWith(words[0], "end")
      requires Builds(code, varsCode, st) && Mirrors(st, opsStack)
      modifies this, code
      ensures context == old(context) && program == old(program) && source == old(source) && needOrder == old(needOrder)
      ensures match EndStep(st, token, words)
              case Failure(e) => err == Some(e)
              case Success(s) => err == None && next == s && Builds(code, varsCode, s) && Mirrors(s, opsStack1)
    {
      next, opsStack1 := st, opsStack;
      if |words| != 1 {
        return Some(TemplateSyntaxError("Don't understand end", token)), opsStack1, next;
      }
      var endWhat := words[0][3..];
      if opsStack == [] {
        return Some(TemplateSyntaxError("Too many ends", token)), opsStack1, next;
      }
      var startWhat := opsStack[|opsStack| - 1];
      opsStack1 := opsStack[..|opsStack| - 1];
      if startWhat != endWhat {
        return Some(TemplateSyntaxError("Mismatched end tag", endWhat)), opsStack1, next;
      }
      code.Dedent();
      next := CloseTop(st);
      err := None;
    }

    /** An action tag split into `words` (src/template.py:177-205). */
    method ActionTag(code: CodeBuilder, ghost varsCode: CodeBuilder, token: string, words: seq<string>,
                     opsStack: seq<string>, st: State) returns (err: Option<CompileError>, opsStack1: seq<string>, next: State)
      requires Builds(code, varsCode, st) && Mirrors(st, opsStack)
      modifies this, code
      ensures context == old(context) && program == old(program) && source == old(source) && needOrder == old(needOrder)
      ensures match ActionStep(st, token, words)
              case Failure(e) => err == Some(e)
              case Success(s) => err == None && next == s && Builds(code, varsCode, s) && Mirrors(s, opsStack1)
    {
      if words == [] {
        return Some(IndexError), opsStack, st;
      }
      if words[0] == "if" {
        err, opsStack1, next := IfTag(code, varsCode, token, words, opsStack, st);
      } else if words[0] == "for" {
        err, opsStack1, next := ForTag(code, varsCode, token, words, opsStack, st);
      } else if StartsWith(words[0], "end") {
        err, opsStack1, next := EndTag(code, varsCode, token, words, opsStack, st);
      } else {
        return Some(TemplateSyntaxError("Don't understand tag", words[0])), opsStack, st;
      }
    }

    /** A piece that starts with `{` (src/template.py:159-205). */
    method Tag(code: CodeBuilder, ghost varsCode: CodeBuilder, token: string, buffered: seq<string>,
               opsStack: seq<string>, st: State)
      returns (err: Option<CompileError>, buffered1: seq<string>, opsStack1: seq<string>, next: State)
      requires Builds(code, varsCode, st) && Mirrors(st, opsStack) && buffered == PartCodes(st.buffered)
      modifies this, code
      ensures context == old(context) && program == old(program) && source == old(source) && needOrder == old(needOrder)
      ensures match TagStep(st, token)
              case Failure(e) => err == Some(e)
              case Success(s) => err == None && next == s && Builds(code, varsCode, s) && Mirrors(s, opsStack1) &&
                                 buffered1 == PartCodes(s.buffered)
    {
      buffered1, opsStack1, next := buffered, opsStack, st;
      if |token| < 3 {
        return Some(IndexError), buffered1, opsStack1, next;
      }
      var start, end := 2, -2;
      var squash := token[|token| - 3] == '-';
      if squash {
        end := -3;
      }
      var st0 := st.(squash := squash);
      BuildsShape(code, varsCode, st, st0);
      err, buffered1, opsStack1, next := TagKind(code, varsCode, token, Slice(token, start, end), buffered, opsStack, st0);
    }

    /** A tag once `squash` is set: a comment, an expression, or an action
        tag; anything else fails the source's assert. */
    method TagKind(code: CodeBuilder, ghost varsCode: CodeBuilder, token: string, inner: string, buffered: seq<string>,
                   opsStack: seq<string>, st: State)
      returns (err: Option<CompileError>, buffered1: seq<string>, opsStack1: seq<string>, next: State)
      requires |token| >= 3 && inner == Inner(token)
      requires Builds(code, varsCode, st) && Mirrors(st, opsStack) && buffered == PartCodes(st.buffered)
      modifies this, code
      ensures context == old(context) && program == old(program) && source == old(source) && needOrder == old(needOrder)
      ensures match TagKindStep(st, token)
              case Failure(e) => err == Some(e)
              case Success(s) => err == None && next == s && Builds(code, varsCode, s) && Mirrors(s, opsStack1) &&
                                 buffered1 == PartCodes(s.buffered)
    {
      buffered1, opsStack1, next := buffered, opsStack, st;
      if StartsWith(token, "{#") {
        err := None;
      } else if StartsWith(token, "{{") {
        err, buffered1, next := ExprTag(token, inner, buffered, st);
        if err.None? {
          BuildsShape(code, varsCode, st, next);
        }
      } else {
        if !StartsWith(token, "{%") {
          return Some(AssertionError), buffered1, opsStack1, next;
        }
        buffered1 := FlushOutput(code, varsCode, buffered, st);
        var words := SplitWhitespace(Strip(inner));
        err, opsStack1, next := ActionTag(code, varsCode, token, words, opsStack, Flush(st));
        if err.None? {
          ActionKeepsBuffer(Flush(st), token, words);
        }
      }
    }

    /** An expression tag (src/template.py:168-171): its code is buffered. */
    method ExprTag(token: string, inner: string, buffered: seq<string>, st: State)
      returns (err: Option<CompileError>, buffered1: seq<string>, next: State)
      requires |token| >= 3 && inner == Inner(token)
      requires st.need == varsNeed && st.defs == varsDefs && buffered == PartCodes(st.buffered)
      modifies this
      ensures context == old(context) && program == old(program) && source == old(source) && needOrder == old(needOrder)
      ensures varsDefs == old(varsDefs)
      ensures match ExprTagStep(st, token)
              case Failure(e) => err == Some(e)
              case Success(s) => err == None && next == s && s.need == varsNeed && buffered1 == PartCodes(s.buffered)
    {
      buffered1, next := buffered, st;
      var r := ExprCode(Strip(inner));
      if r.Failure? {
        return Some(r.error), buffered1, next;
      }
      buffered1 := buffered + ["to_str(" + r.value.1 + ")"];
      next := st.(need := varsNeed, buffered := st.buffered + [Out(r.value.0)]);
      assert buffered1 == PartCodes(next.buffered);
      err := None;
    }

    /** src/template.py:131-223: the token loop and the generated function.
        The outcome is the one CompileSpec gives; on success the fields hold
        the needed and declared names, the function body, and the source. */
    method Compile(text: string) returns (err: Option<CompileError>)
      requires varsNeed == {} && varsDefs == {}
      modifies this
      ensures context == old(context)
      ensures match CompileSpec(text)
              case Failure(e) => err == Some(e)
              case Success(c) => err == None && program == c.program && varsNeed == c.need && varsDefs == c.defs &&
                                 Enumerates(needOrder, c.need) && source == Source(needOrder, c.lines)
    {
      var code, varsCode := NewCode();
      var buffered, opsStack, st;
      err, buffered, opsStack, st := CompileTokens(code, varsCode, Split(text));
      if err.Some? {
        return;
      }
      err := Conclude(code, varsCode, buffered, opsStack, st);
    }

    /** src/template.py:157-211: the token loop, which stops at the first
        error. */
    method CompileTokens(code: CodeBuilder, ghost varsCode: CodeBuilder, tokens: seq<string>)
      returns (err: Option<CompileError>, buffered: seq<string>, opsStack: seq<string>, st: State)
      requires Builds(code, varsCode, Start) && Mirrors(Start, [])
      modifies this, code
      ensures context == old(context) && program == old(program) && source == old(source) && needOrder == old(needOrder)
      ensures match Run(Start, tokens)
              case Failure(e) => err == Some(e)
              case Success(s) => err == None && st == s && Builds(code, varsCode, s) && Mirrors(s, opsStack) &&
                                 buffered == PartCodes(s.buffered)
    {
      buffered, opsStack := [], [];
      // The statements compiled so far; its `squash` is the source's flag.
      st := Start;
      var i := 0;
      while i < |tokens|
        invariant 0 <= i <= |tokens|
        invariant Run(Start, tokens) == Run(st, tokens[i..])
        invariant Builds(code, varsCode, st) && Mirrors(st, opsStack) && buffered == PartCodes(st.buffered)
        invariant context == old(context) && program == old(program) && source == old(source) && needOrder == old(needOrder)
      {
        ghost var prev := st;
        err, buffered, opsStack, st := StepToken(code, varsCode, tokens[i], buffered, opsStack, st);
        if err.Some? {
          RunStops(prev, tokens, i);
          return;
        }
        RunAdvances(prev, tokens, i);
        i := i + 1;
      }
      RunEnds(st, tokens);
      err := None;
    }

    /** One piece of the template (src/template.py:158-211): a tag, or
        literal content. */
    method StepToken(code: CodeBuilder, ghost varsCode: CodeBuilder, token: string, buffered: seq<string>,
                     opsStack: seq<string>, st: State)
      returns (err: Option<CompileError>, buffered1: seq<string>, opsStack1: seq<string>, next: State)
      requires Builds(code, varsCode, st) && Mirrors(st, opsStack) && buffered == PartCodes(st.buffered)
      modifies this, code
      ensures context == old(context) && program == old(program) && source == old(source) && needOrder == old(needOrder)
      ensures match Step(st, token)
              case Failure(e) => err == Some(e)
              case Success(s) => err == None && next == s && Builds(code, varsCode, s) && Mirrors(s, opsStack1) &&
                                 buffered1 == PartCodes(s.buffered)
    {
      if StartsWith(token, "{") {
        err, buffered1, opsStack1, next := Tag(code, varsCode, token, buffered, opsStack, st);
      } else {
        buffered1, next := Literal(token, buffered, st);
        BuildsShape(code, varsCode, st, next);
        opsStack1, err := opsStack, None;
      }
    }

    /** src/template.py:218-223: the vars section, the return line, the final
        dedent and `get_globals`, which gives the whole source when the
        indentation is back at zero. */
    method Generate(code: CodeBuilder, varsCode: CodeBuilder, fin: State)
      returns (globals: Option<string>, ghost order: seq<string>)
      requires Builds(code, varsCode, fin)
      modifies code, varsCode
      ensures Enumerates(order, varsNeed)
      ensures globals == if fin.indent == 4 then Some(Source(order, fin.lines)) else None
    {
      order := FinishCode(code, varsCode, varsNeed, fin);
      globals := code.GlobalsSource();
    }

    /** src/template.py:213-223, after the token loop: the unmatched-tag
        check, the last flush, then the generated function. */
    method Conclude(code: CodeBuilder, varsCode: CodeBuilder, buffered: seq<string>, opsStack: seq<string>, st: State)
      returns (err: Option<CompileError>)
      requires Builds(code, varsCode, st) && Mirrors(st, opsStack) && buffered == PartCodes(st.buffered)
      modifies this, code, varsCode
      ensures context == old(context)
      ensures match Finish(st)
              case Failure(e) => err == Some(e)
              case Success(c) => err == None && program == c.program && varsNeed == c.need && varsDefs == c.defs &&
                                 Enumerates(needOrder, c.need) && source == Source(needOrder, c.lines)
    {
      if opsStack != [] {
        return Some(TemplateSyntaxError("Unmatched action tag", opsStack[|opsStack| - 1]));
      }
      var cleared := FlushOutput(code, varsCode, buffered, st);
      err := Emit(code, varsCode, Flush(st));
    }

    /** src/template.py:218-223: the vars section, the return line, the final
        dedent, `get_globals`, and what exec() makes of the source. */
    method Emit(code: CodeBuilder, varsCode: CodeBuilder, fin: State) returns (err: Option<CompileError>)
      requires Builds(code, varsCode, fin) && fin.need == varsNeed && fin.defs == varsDefs
      modifies this, code, varsCode
      ensures context == old(context)
      ensures match Generated(fin)
              case Failure(e) => err == Some(e)
              case Success(c) => err == None && program == c.program && varsNeed == c.need && varsDefs == c.defs &&
                                 Enumerates(needOrder, c.need) && source == Source(needOrder, c.lines)
    {
      var globals, order := Generate(code, varsCode, fin);
      if globals.None? {
        return Some(AssertionError);
      }
      if !ExecAccepts(fin.nodes, varsNeed, varsDefs) {
        return Some(ExecRejected);
      }
      program := fin.nodes;
      source := globals.value;
      needOrder := order;
      err := None;
    }

    /** `render`: the compiled function run on the constructor's contexts
        overridden by `ctx` (an omitted or empty context changes nothing). */
    function Render(host: Host, ctx: map<string, Value>): (r: Result<string>)
      reads this
      ensures !(varsNeed <= (context + ctx).Keys) ==> r == Err(KeyError)
    {
      RunTemplate(host, program, varsNeed, context + ctx)
    }
  }
}
