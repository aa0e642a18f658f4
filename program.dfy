/** What `Template.__init__` compiles a template into (src/template.py:131-223):
    the body of `render_function` as a tree of output, `if` and `for`
    statements, and the Python source text the CodeBuilder accumulates for
    that tree. */
module Program {
  import opened PyText
  import opened Exprs

  /** One entry of the output buffer: a literal piece, or an expression whose
      str() is output. */
  datatype Part = Lit(text: string) | Out(e: Expr)

  /** A statement of `render_function`: one flush of the output buffer, an
      `if`, or a `for` that binds `c_<name>`. */
  datatype Node =
    | Emit(parts: seq<Part>)
    | If(test: Expr, body: seq<Node>)
    | For(name: string, iter: Expr, body: seq<Node>)

  /** The Python expression buffered for a part (src/template.py:171, 211). */
  function PartCode(p: Part): string
  {
    match p
    case Lit(t) => Repr(t)
    case Out(e) => "to_str(" + Code(e) + ")"
  }

  function PartCodes(ps: seq<Part>): (r: seq<string>)
    ensures |r| == |ps| && forall k :: 0 <= k < |ps| ==> r[k] == PartCode(ps[k])
  {
    seq(|ps|, k requires 0 <= k < |ps| => PartCode(ps[k]))
  }

  /** The line `flush_output` adds for a non-empty buffer (src/template.py:145-148). */
  function FlushLine(codes: seq<string>): string
  {
    if |codes| == 1 then "append_result(" + codes[0] + ")"
    else "extend_result((" + Join(", ", codes) + "))"
  }

  /** `add_line` at a given indentation. */
  function Line(indent: int, s: string): string
  {
    Spaces(indent) + s + "\n"
  }

  /** The header lines of src/template.py:183 and 191. */
  function IfHeader(test: Expr): string
  {
    "if " + Code(test) + ":"
  }

  function ForHeader(name: string, iter: Expr): string
  {
    "for c_" + name + " in " + Code(iter) + ":"
  }

  /** The source lines of a statement at `indent`; a block's body is one step
      further in. */
  function EmitNode(n: Node, indent: int): string
    decreases n, 1
  {
    match n
    case Emit(ps) => if ps == [] then "" else Line(indent, FlushLine(PartCodes(ps)))
    case If(t, body) => Line(indent, IfHeader(t)) + EmitNodes(body, indent + 4)
    case For(x, it, body) => Line(indent, ForHeader(x, it)) + EmitNodes(body, indent + 4)
  }

  function EmitNodes(ns: seq<Node>, indent: int): string
    decreases ns, 0
  {
    if ns == [] then "" else EmitNodes(ns[..|ns| - 1], indent) + EmitNode(ns[|ns| - 1], indent)
  }

  lemma EmitNodesAppend(ns: seq<Node>, n: Node, indent: int)
    ensures EmitNodes(ns + [n], indent) == EmitNodes(ns, indent) + EmitNode(n, indent)
  {
    assert (ns + [n])[..|ns|] == ns;
  }

  /** Some `if` or `for` has no statement in its body. Its header is then
      followed by no indented line, which Python rejects. */
  predicate HasEmptyBlock(ns: seq<Node>)
    decreases ns
  {
    exists k :: 0 <= k < |ns| && match ns[k]
      case Emit(_) => false
      case If(_, body) => body == [] || HasEmptyBlock(body)
      case For(_, _, body) => body == [] || HasEmptyBlock(body)
  }

  /** Every name reached by an expression of `e`: its variable and its filters. */
  function ExprNames(e: Expr): set<string>
  {
    match e
    case Var(n) => {n}
    case Dots(b, _) => ExprNames(b)
    case Filter(f, a) => {f} + ExprNames(a)
  }

  /** Every name the statements read or bind. */
  function NodeNames(ns: seq<Node>): set<string>
    decreases ns
  {
    if ns == [] then {}
    else
      NodeNames(ns[..|ns| - 1]) +
      match ns[|ns| - 1]
      case Emit(ps) => set k, x | 0 <= k < |ps| && ps[k].Out? && x in ExprNames(ps[k].e) :: x
      case If(t, body) => ExprNames(t) + NodeNames(body)
      case For(x, it, body) => {x} + ExprNames(it) + NodeNames(body)
  }
}
