/** The token loop of `Template.__init__` (src/template.py:141-223) as a
    function over a state: `ops_stack` (kept as the open blocks), the output
    buffer, the `squash` flag, `vars_need`, `vars_defs`, the lines added after
    the prelude, and the CodeBuilder's indentation. Next to every line the
    source adds, the state also records the statement that line stands for,
    so a successful compile yields both the Python source and its program. */
module Compiler {
  import opened Common
  import opened PyText
  import opened Tokens
  import opened Errors
  import opened Exprs
  import opened Program

  /** An `if` or `for` whose end tag has not come yet, with the statements
      of the enclosing block before it. */
  datatype Open =
    | OpenIf(test: Expr, before: seq<Node>)
    | OpenFor(name: string, iter: Expr, before: seq<Node>)

  /** The keyword `ops_stack` holds for an open block. */
  function Op(o: Open): string
  {
    if o.OpenIf? then "if" else "for"
  }

  /** `ops_stack` */
  function Ops(blocks: seq<Open>): (r: seq<string>)
    ensures |r| == |blocks| && forall k :: 0 <= k < |blocks| ==> r[k] == Op(blocks[k])
  {
    seq(|blocks|, k requires 0 <= k < |blocks| => Op(blocks[k]))
  }

  function Header(o: Open): string
  {
    match o
    case OpenIf(t, _) => IfHeader(t)
    case OpenFor(x, it, _) => ForHeader(x, it)
  }

  /** The enclosing block once the open one is closed with `body`. */
  function Closed(o: Open, body: seq<Node>): seq<Node>
  {
    o.before + [match o
                case OpenIf(t, _) => If(t, body)
                case OpenFor(x, it, _) => For(x, it, body)]
  }

  datatype State = State(
    blocks: seq<Open>,     // innermost last
    nodes: seq<Node>,      // the statements of the innermost open block so far
    buffered: seq<Part>,   // `buffered`, as the parts its strings stand for
    squash: bool,
    need: set<string>,     // `vars_need`
    defs: set<string>,     // `vars_defs`
    lines: string,         // what the CodeBuilder holds after the prelude
    indent: int)           // `code.indent_level`

  /** The state after src/template.py:122-156. */
  const Start: State := State([], [], [], false, {}, {}, "", 4)

  /** `flush_output` */
  function Flush(st: State): State
  {
    if st.buffered == [] then st
    else st.(nodes := st.nodes + [Emit(st.buffered)],
             lines := st.lines + Line(st.indent, FlushLine(PartCodes(st.buffered))),
             buffered := [])
  }

  /** One round of the loop at src/template.py:158-211. */
  function Step(st: State, token: string): Outcome<State>
  {
    if StartsWith(token, "{") then TagStep(st, token) else Success(LiteralStep(st, token))
  }

  /** Literal content (src/template.py:206-211): after a squashing tag its
      leading whitespace goes; what is left, if anything, is buffered. */
  function LiteralStep(st: State, token: string): State
  {
    var lit := if st.squash then LStrip(token) else token;
    if lit != "" then st.(buffered := st.buffered + [Lit(lit)]) else st
  }

  /** The text between the delimiters, without the squash hyphen
      (`token[start:end]`, src/template.py:160-163). */
  function Inner(token: string): string
    requires |token| >= 3
  {
    Slice(token, 2, if token[|token| - 3] == '-' then -3 else -2)
  }

  /** A piece that starts with `{` (src/template.py:159-205). */
  function TagStep(st: State, token: string): Outcome<State>
  {
    if |token| < 3 then Failure(IndexError)
    else TagKindStep(st.(squash := token[|token| - 3] == '-'), token)
  }

  /** A tag, once the squash flag is set: a comment, an expression, an action
      tag, or a piece the code asserts cannot occur. */
  function TagKindStep(st: State, token: string): Outcome<State>
    requires |token| >= 3
  {
    if StartsWith(token, "{#") then Success(st)
    else if StartsWith(token, "{{") then ExprTagStep(st, token)
    else if !StartsWith(token, "{%") then Failure(AssertionError)
    else ActionStep(Flush(st), token, SplitWhitespace(Strip(Inner(token))))
  }

  /** An expression tag (src/template.py:168-171). */
  function ExprTagStep(st: State, token: string): Outcome<State>
    requires |token| >= 3
  {
    var r :- ExprSpec(Strip(Inner(token)), st.need, st.defs);
    Success(st.(need := r.1, buffered := st.buffered + [Out(r.0)]))
  }

  /** An action tag split into `words` (src/template.py:177-205). */
  function ActionStep(st: State, token: string, words: seq<string>): Outcome<State>
  {
    if words == [] then Failure(IndexError)
    else if words[0] == "if" then IfStep(st, token, words)
    else if words[0] == "for" then ForStep(st, token, words)
    else if StartsWith(words[0], "end") then EndStep(st, token, words)
    else Failure(TemplateSyntaxError("Don't understand tag", words[0]))
  }

  /** An action tag leaves the output buffer and the squash flag as it
      found them. */
  lemma ActionKeepsBuffer(st: State, token: string, words: seq<string>)
    requires ActionStep(st, token, words).Success?
    ensures ActionStep(st, token, words).value.buffered == st.buffered
    ensures ActionStep(st, token, words).value.squash == st.squash
  {
  }

  function IfStep(st: State, token: string, words: seq<string>): Outcome<State>
  {
    if |words| != 2 then Failure(TemplateSyntaxError("Don't understand if", token))
    else
      var r :- ExprSpec(words[1], st.need, st.defs);
      Success(OpenTop(st.(need := r.1), OpenIf(r.0, st.nodes)))
  }

  /** The state once the block `o` is opened: its header is added and the
      following lines are indented one step further (src/template.py:183-185,
      191-193). */
  function OpenTop(st: State, o: Open): State
  {
    st.(blocks := st.blocks + [o], nodes := [], lines := st.lines + Line(st.indent, Header(o)), indent := st.indent + 4)
  }

  function ForStep(st: State, token: string, words: seq<string>): Outcome<State>
  {
    if |words| != 4 || words[2] != "in" then Failure(TemplateSyntaxError("Don't understand for", token))
    else
      var defs :- DeclareSpec(words[1], st.defs);
      var r :- ExprSpec(words[3], st.need, defs);
      Success(OpenTop(st.(need := r.1, defs := defs), OpenFor(words[1], r.0, st.nodes)))
  }

  function EndStep(st: State, token: string, words: seq<string>): Outcome<State>
    requires words != [] && StartsWith(words[0], "end")
  {
    if |words| != 1 then Failure(TemplateSyntaxError("Don't understand end", token))
    else
      var endWhat := words[0][3..];
      if st.blocks == [] then Failure(TemplateSyntaxError("Too many ends", token))
      else
        var top := st.blocks[|st.blocks| - 1];
        if Op(top) != endWhat then Failure(TemplateSyntaxError("Mismatched end tag", endWhat))
        else Success(CloseTop(st))
  }

  /** The state once the innermost open block is closed (src/template.py:200-203). */
  function CloseTop(st: State): State
    requires st.blocks != []
  {
    st.(blocks := st.blocks[..|st.blocks| - 1], nodes := Closed(st.blocks[|st.blocks| - 1], st.nodes),
        indent := st.indent - 4)
  }

  /** The loop over all the tokens; the first failing one decides the outcome. */
  function Run(st: State, tokens: seq<string>): Outcome<State>
    decreases |tokens|
  {
    if tokens == [] then Success(st)
    else
      var st1 :- Step(st, tokens[0]);
      Run(st1, tokens[1..])
  }

  /** The run from token `i` is the step over it, then the run from `i + 1`. */
  lemma RunFrom(st: State, tokens: seq<string>, i: nat)
    requires i <= |tokens|
    ensures i == |tokens| ==> Run(st, tokens[i..]) == Success(st)
    ensures i < |tokens| ==> Run(st, tokens[i..]) == match Step(st, tokens[i])
                                                 case Failure(e) => Failure(e)
                                                 case Success(st1) => Run(st1, tokens[i + 1..])
  {
    if i < |tokens| {
      assert tokens[i..][0] == tokens[i] && tokens[i..][1..] == tokens[i + 1..];
    } else {
      assert tokens[i..] == [];
    }
  }

  /** A step that fails ends the run from that piece with its error. */
  lemma RunStops(st: State, tokens: seq<string>, i: nat)
    requires i < |tokens| && Step(st, tokens[i]).Failure?
    ensures Run(st, tokens[i..]) == Failure(Step(st, tokens[i]).error)
  {
    RunFrom(st, tokens, i);
  }

  /** A step that succeeds hands the rest of the run to the state it gives. */
  lemma RunAdvances(st: State, tokens: seq<string>, i: nat)
    requires i < |tokens| && Step(st, tokens[i]).Success?
    ensures Run(st, tokens[i..]) == Run(Step(st, tokens[i]).value, tokens[i + 1..])
  {
    RunFrom(st, tokens, i);
  }

  /** Past the last piece the run is over. */
  lemma RunEnds(st: State, tokens: seq<string>)
    ensures Run(st, tokens[|tokens|..]) == Success(st)
  {
    RunFrom(st, tokens, |tokens|);
  }

  /** `ops_stack` under a successful action tag: `if` and `for` push their
      keyword; an `end...` tag pops the top, which it names (src/template.py:182,
      189, 193-203). */
  lemma ActionStack(st: State, token: string, words: seq<string>)
    requires ActionStep(st, token, words).Success?
    ensures var ops, ops1 := Ops(st.blocks), Ops(ActionStep(st, token, words).value.blocks);
            (words[0] == "if" ==> ops1 == ops + ["if"]) &&
            (words[0] == "for" ==> ops1 == ops + ["for"]) &&
            (words[0] != "if" && words[0] != "for" ==>
               StartsWith(words[0], "end") && |words| == 1 && ops != [] &&
               ops[|ops| - 1] == words[0][3..] && ops1 == ops[..|ops| - 1])
  {
    var next := ActionStep(st, token, words).value;
    var ops, ops1 := Ops(st.blocks), Ops(next.blocks);
    if words[0] == "if" || words[0] == "for" {
      assert next.blocks[..|st.blocks|] == st.blocks;
      assert ops1 == ops + [Op(next.blocks[|st.blocks|])];
    } else {
      assert next.blocks == st.blocks[..|st.blocks| - 1];
      assert ops1 == ops[..|ops| - 1];
    }
  }

  /** The squash flag set by a tag ending in `-` strips the leading
      whitespace of the literal that follows; otherwise the literal is
      buffered as it is, and an empty one not at all (src/template.py:161,
      206-211). */
  lemma SquashNext(st: State, tag: string, lit: string)
    requires StartsWith(tag, "{") && Step(st, tag).Success? && !StartsWith(lit, "{")
    ensures var s1 := Step(st, tag).value;
            var kept := if tag[|tag| - 3] == '-' then LStrip(lit) else lit;
            Step(s1, lit) == Success(s1.(buffered := s1.buffered + if kept == "" then [] else [Lit(kept)]))
  {
    assert Step(st, tag) == TagStep(st, tag) && |tag| >= 3;
    TagSetsSquash(st, tag);
    var s1 := Step(st, tag).value;
    assert s1.buffered + [] == s1.buffered;
  }

  /** After a tag the squash flag says whether it ended in `-`. */
  lemma TagSetsSquash(st: State, tag: string)
    requires |tag| >= 3 && TagKindStep(st.(squash := tag[|tag| - 3] == '-'), tag).Success?
    ensures TagKindStep(st.(squash := tag[|tag| - 3] == '-'), tag).value.squash == (tag[|tag| - 3] == '-')
  {
    var st0 := st.(squash := tag[|tag| - 3] == '-');
    if !StartsWith(tag, "{#") && !StartsWith(tag, "{{") {
      ActionKeepsBuffer(Flush(st0), tag, SplitWhitespace(Strip(Inner(tag))));
    }
  }

  /** A comment outputs nothing and changes nothing but the squash flag
      (src/template.py:165-167). */
  lemma CommentStep(st: State, tag: string)
    requires |tag| >= 3 && StartsWith(tag, "{#")
    ensures Step(st, tag) == Success(st.(squash := tag[|tag| - 3] == '-'))
  {
  }

  /** How an action tag fails, by the shape of its words and the open
      blocks: an `if`, `for` or `end` shape error shows the whole raw tag, a
      mismatched end shows what follows `end`, an unknown tag its first word
      (src/template.py:177-205). */
  lemma ActionErrors(st: State, token: string, words: seq<string>)
    ensures words == [] ==> ActionStep(st, token, words) == Failure(IndexError)
    ensures words != [] && words[0] == "if" && |words| != 2 ==>
              ActionStep(st, token, words) == Failure(TemplateSyntaxError("Don't understand if", token))
    ensures words != [] && words[0] == "for" && (|words| != 4 || words[2] != "in") ==>
              ActionStep(st, token, words) == Failure(TemplateSyntaxError("Don't understand for", token))
    ensures words != [] && words[0] != "if" && words[0] != "for" && StartsWith(words[0], "end") ==>
              var ops := Ops(st.blocks);
              (|words| != 1 ==> ActionStep(st, token, words) == Failure(TemplateSyntaxError("Don't understand end", token))) &&
              (|words| == 1 && ops == [] ==> ActionStep(st, token, words) == Failure(TemplateSyntaxError("Too many ends", token))) &&
              (|words| == 1 && ops != [] && ops[|ops| - 1] != words[0][3..] ==>
                 ActionStep(st, token, words) == Failure(TemplateSyntaxError("Mismatched end tag", words[0][3..])))
    ensures words != [] && words[0] != "if" && words[0] != "for" && !StartsWith(words[0], "end") ==>
              ActionStep(st, token, words) == Failure(TemplateSyntaxError("Don't understand tag", words[0]))
  {
  }

  /** A run whose step over token `i` fails fails with that error: no later
      token is looked at. */
  lemma {:induction false} RunFailsAt(st: State, tokens: seq<string>, i: nat, s: State, e: CompileError)
    requires i < |tokens| && Run(st, tokens[..i]) == Success(s) && Step(s, tokens[i]) == Failure(e)
    ensures Run(st, tokens) == Failure(e)
    decreases i
  {
    if i == 0 {
      assert tokens[..0] == [];
    } else {
      assert tokens[..i][0] == tokens[0];
      var st1 := Step(st, tokens[0]).value;
      assert tokens[..i][1..] == tokens[1..][..i - 1];
      RunFailsAt(st1, tokens[1..], i - 1, s, e);
    }
  }

  /** A compiled template: the body of `render_function`, `vars_need`,
      `vars_defs`, and the lines of the body as the CodeBuilder holds them. */
  datatype Compiled = Compiled(program: seq<Node>, need: set<string>, defs: set<string>, lines: string)

  /** The generated source is accepted by exec(): every block has a body and
      no name ends in the newline that `check_naming`'s `$` lets through. */
  predicate ExecAccepts(program: seq<Node>, need: set<string>, defs: set<string>)
  {
    !HasEmptyBlock(program) && forall x :: x in need + defs ==> IsIdentifier(x)
  }

  /** src/template.py:213-223 after the loop: the unmatched-tag check, the last
      flush, the final dedent, and the assert of `get_globals` and exec(). */
  function Finish(st: State): Outcome<Compiled>
  {
    if st.blocks != [] then Failure(TemplateSyntaxError("Unmatched action tag", Op(st.blocks[|st.blocks| - 1])))
    else Generated(Flush(st))
  }

  /** src/template.py:218-223: the final dedent must bring the indentation to
      zero, and exec() must accept the source. */
  function Generated(fin: State): Outcome<Compiled>
  {
    if fin.indent - 4 != 0 then Failure(AssertionError)
    else if !ExecAccepts(fin.nodes, fin.need, fin.defs) then Failure(ExecRejected)
    else Success(Compiled(fin.nodes, fin.need, fin.defs, fin.lines))
  }

  /** `Template(text)`: what the constructor compiles, or what it raises. */
  function CompileSpec(text: string): Outcome<Compiled>
  {
    var st :- Run(Start, Split(text));
    Finish(st)
  }

  /** The prelude line `c_x = context['x']` (src/template.py:219). */
  function VarLine(x: string): string
  {
    Line(4, VarText(x))
  }

  function VarText(x: string): string
  {
    "c_" + x + " = context[" + Repr(x) + "]"
  }

  function VarLines(order: seq<string>): string
    decreases |order|
  {
    if order == [] then "" else VarLines(order[..|order| - 1]) + VarLine(order[|order| - 1])
  }

  const DefLine: string := "def render_function(context, do_dots):"

  /** The lines of src/template.py:136-139, after the vars section. */
  function PreludeLines(): string
  {
    Line(4, "result = []") + Line(4, "append_result = result.append") +
    Line(4, "extend_result = result.extend") + Line(4, "to_str = str")
  }

  const ReturnLine: string := "return ''.join(result)"

  /** The whole source handed to exec(), with the needed names in `order`. */
  function Source(order: seq<string>, lines: string): string
  {
    Line(0, DefLine) + VarLines(order) + ((PreludeLines() + lines) + Line(4, ReturnLine))
  }

  /** A syntax error in any piece aborts the whole compile with that error
      (src/template.py:158-211). */
  lemma CompileFailsAt(text: string, i: nat, s: State, e: CompileError)
    requires i < |Split(text)| && Run(Start, Split(text)[..i]) == Success(s) && Step(s, Split(text)[i]) == Failure(e)
    ensures CompileSpec(text) == Failure(e)
  {
    RunFailsAt(Start, Split(text), i, s, e);
  }

  /** Blocks still open after the last piece fail the compile with the
      keyword of the innermost one (src/template.py:213-214). */
  lemma UnmatchedTop(st: State)
    requires st.blocks != []
    ensures Finish(st) == Failure(TemplateSyntaxError("Unmatched action tag", Ops(st.blocks)[|st.blocks| - 1]))
  {
  }

  // ---- The indentation and the source stay in step with the open blocks ----

  /** The lines of the open blocks: each one's earlier statements and header. */
  function OpenText(blocks: seq<Open>): string
    decreases |blocks|
  {
    if blocks == [] then ""
    else
      var k := |blocks| - 1;
      OpenText(blocks[..k]) + EmitNodes(blocks[k].before, 4 + 4 * k) + Line(4 + 4 * k, Header(blocks[k]))
  }

  /** `code.indent_level == 4 * (1 + len(ops_stack))`, and the lines added so
      far are those of the open blocks, then those of the innermost block's
      statements. */
  ghost predicate Inv(st: State)
  {
    st.indent == 4 + 4 * |st.blocks| &&
    st.lines == BlockText(st.blocks, st.nodes, st.indent)
  }

  /** The lines of the open blocks, then those of the innermost block's
      statements at `indent`. */
  function BlockText(blocks: seq<Open>, nodes: seq<Node>, indent: int): string
  {
    OpenText(blocks) + EmitNodes(nodes, indent)
  }

  /** A flushed statement adds its line to the innermost block. */
  lemma FlushText(blocks: seq<Open>, nodes: seq<Node>, n: Node, indent: int)
    ensures BlockText(blocks, nodes, indent) + EmitNode(n, indent) == BlockText(blocks, nodes + [n], indent)
  {
    EmitNodesAppend(nodes, n, indent);
    Assoc(OpenText(blocks), EmitNodes(nodes, indent), EmitNode(n, indent));
  }

  lemma FlushInv(st: State)
    requires Inv(st)
    ensures Inv(Flush(st)) && Flush(st).blocks == st.blocks && Flush(st).buffered == []
  {
    if st.buffered != [] {
      var n := Emit(st.buffered);
      var st2 := Flush(st);
      FlushText(st.blocks, st.nodes, n, st.indent);
      assert st2.lines == BlockText(st2.blocks, st2.nodes, st2.indent);
    }
  }

  /** An opened block's header follows the enclosing block's statements. */
  lemma OpenBlockText(blocks: seq<Open>, o: Open, indent: int)
    requires indent == 4 + 4 * |blocks|
    ensures BlockText(blocks, o.before, indent) + Line(indent, Header(o)) == BlockText(blocks + [o], [], indent + 4)
  {
    OpenTextSnoc(blocks, o);
    assert EmitNodes([], indent + 4) == "";
    AppendEmpty(OpenText(blocks + [o]));
  }

  lemma {:induction false} OpenTextSnoc(blocks: seq<Open>, o: Open)
    ensures OpenText(blocks + [o]) ==
            OpenText(blocks) + EmitNodes(o.before, 4 + 4 * |blocks|) + Line(4 + 4 * |blocks|, Header(o))
  {
    SnocParts(blocks, o);
    OpenTextLast(blocks + [o]);
  }

  lemma OpenInv(st: State, o: Open)
    requires Inv(st) && o.before == st.nodes
    ensures Inv(OpenTop(st, o))
  {
    var st2 := OpenTop(st, o);
    OpenBlockText(st.blocks, o, st.indent);
    assert st2.lines == BlockText(st2.blocks, st2.nodes, st2.indent);
  }

  /** The last open block's part of `OpenText`. */
  lemma OpenTextLast(blocks: seq<Open>)
    requires blocks != []
    ensures var k := |blocks| - 1;
            OpenText(blocks) == OpenText(blocks[..k]) + EmitNodes(blocks[k].before, 4 + 4 * k) + Line(4 + 4 * k, Header(blocks[k]))
  {
  }

  /** The source of the enclosing block once an open block is closed. */
  lemma EmitClosed(o: Open, body: seq<Node>, indent: int)
    ensures EmitNodes(Closed(o, body), indent) ==
            EmitNodes(o.before, indent) + (Line(indent, Header(o)) + EmitNodes(body, indent + 4))
  {
    var n := Closed(o, body)[|o.before|];
    assert Closed(o, body) == o.before + [n];
    EmitNodesAppend(o.before, n, indent);
    assert EmitNode(n, indent) == Line(indent, Header(o)) + EmitNodes(body, indent + 4) by {
      if o.OpenIf? {
        assert n == If(o.test, body);
      } else {
        assert n == For(o.name, o.iter, body);
      }
    }
  }

  lemma Assoc4(a: string, b: string, c: string, d: string)
    ensures ((a + b) + c) + d == a + (b + (c + d))
  {
    Assoc(a, b, c);
    Assoc(a, b + c, d);
    Assoc(b, c, d);
  }

  /** The lines of the open blocks and of the innermost block's statements
      are those of the enclosing blocks and of the enclosing block's
      statements once the innermost one is closed. */
  lemma {:induction false} CloseText(blocks: seq<Open>, nodes: seq<Node>, indent: int, inner: int)
    requires blocks != [] && indent == 4 + 4 * (|blocks| - 1) && inner == indent + 4
    ensures BlockText(blocks, nodes, inner) ==
            BlockText(blocks[..|blocks| - 1], Closed(blocks[|blocks| - 1], nodes), indent)
  {
    var top := blocks[|blocks| - 1];
    var outer, a, h, b := OpenText(blocks[..|blocks| - 1]), EmitNodes(top.before, indent), Line(indent, Header(top)), EmitNodes(nodes, inner);
    OpenTextLast(blocks);
    EmitClosed(top, nodes, indent);
    Assoc4(outer, a, h, b);
  }

  /** Closing the innermost block keeps the invariant. */
  lemma {:induction false} CloseInv(st: State)
    requires Inv(st) && st.blocks != []
    ensures Inv(CloseTop(st))
  {
    CloseLines(st.blocks, st.nodes, st.lines, st.indent, CloseTop(st));
  }

  /** CloseInv on the parts of the state, `c` being the state after the close. */
  lemma {:induction false} CloseLines(blocks: seq<Open>, nodes: seq<Node>, lines: string, indent: int, c: State)
    requires blocks != [] && indent == 4 + 4 * |blocks| && lines == BlockText(blocks, nodes, indent)
    requires c.blocks == blocks[..|blocks| - 1] && c.nodes == Closed(blocks[|blocks| - 1], nodes)
    requires c.lines == lines && c.indent == indent - 4
    ensures Inv(c)
  {
    CloseText(blocks, nodes, indent - 4, indent);
  }

  /** Inv looks only at the blocks, the statements, the lines and the indentation. */
  lemma InvShape(st: State, st2: State)
    requires Inv(st)
    requires st2.blocks == st.blocks && st2.nodes == st.nodes && st2.lines == st.lines && st2.indent == st.indent
    ensures Inv(st2)
  {
  }

  lemma IfInv(st: State, token: string, words: seq<string>)
    requires Inv(st) && IfStep(st, token, words).Success?
    ensures Inv(IfStep(st, token, words).value)
  {
    var r := ExprSpec(words[1], st.need, st.defs).value;
    OpenInv(st.(need := r.1), OpenIf(r.0, st.nodes));
  }

  lemma ForInv(st: State, token: string, words: seq<string>)
    requires Inv(st) && ForStep(st, token, words).Success?
    ensures Inv(ForStep(st, token, words).value)
  {
    var defs := DeclareSpec(words[1], st.defs).value;
    var r := ExprSpec(words[3], st.need, defs).value;
    OpenInv(st.(need := r.1, defs := defs), OpenFor(words[1], r.0, st.nodes));
  }

  lemma EndInv(st: State, token: string, words: seq<string>)
    requires Inv(st) && words != [] && StartsWith(words[0], "end") && EndStep(st, token, words).Success?
    ensures Inv(EndStep(st, token, words).value)
  {
    CloseInv(st);
  }

  lemma ActionInv(st: State, token: string, words: seq<string>)
    requires Inv(st) && ActionStep(st, token, words).Success?
    ensures Inv(ActionStep(st, token, words).value)
  {
    if words[0] == "if" {
      IfInv(st, token, words);
    } else if words[0] == "for" {
      ForInv(st, token, words);
    } else {
      EndInv(st, token, words);
    }
  }

  lemma StepInv(st: State, token: string)
    requires Inv(st) && Step(st, token).Success?
    ensures Inv(Step(st, token).value)
  {
    if !StartsWith(token, "{") {
      InvShape(st, Step(st, token).value);
    } else {
      var st0 := st.(squash := token[|token| - 3] == '-');
      InvShape(st, st0);
      if StartsWith(token, "{#") {
      } else if StartsWith(token, "{{") {
        InvShape(st, Step(st, token).value);
      } else {
        FlushInv(st0);
        ActionInv(Flush(st0), token, SplitWhitespace(Strip(Inner(token))));
      }
    }
  }

  lemma {:induction false} RunInv(st: State, tokens: seq<string>)
    requires Inv(st) && Run(st, tokens).Success?
    ensures Inv(Run(st, tokens).value)
    decreases |tokens|
  {
    if tokens != [] {
      StepInv(st, tokens[0]);
      RunInv(Step(st, tokens[0]).value, tokens[1..]);
    }
  }

  /** A compile that gets past the loop never fails the assert in
      `get_globals`: with no block open the indentation is back at 4, and the
      final dedent brings it to 0. A successful compile's lines are exactly
      the source of its program at the function body's indentation. */
  lemma CompiledSource(text: string)
    ensures CompileSpec(text) != Failure(AssertionError) || Run(Start, Split(text)) == Failure(AssertionError)
    ensures CompileSpec(text).Success? ==> CompileSpec(text).value.lines == EmitNodes(CompileSpec(text).value.program, 4)
  {
    assert Inv(Start);
    if Run(Start, Split(text)).Success? {
      var st := Run(Start, Split(text)).value;
      RunInv(Start, Split(text));
      if st.blocks == [] {
        FlushInv(st);
      }
    }
  }
}
