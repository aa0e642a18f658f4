/** The expression compiler of src/template.py:225-258: `_expr_code`,
    `check_naming`, `_need` and `_declare`, and the meaning of the Python
    expression `_expr_code` generates. An expression `base.d1...dk|f1|...|fn`
    is split on `|` first and its head on `.`; the base name and the filter
    names are checked and recorded as needed, the dotted segments are not. */
module Exprs {
  import opened Common
  import opened PyText
  import opened Values
  import opened Errors

  /** The generated expression: `c_name`, `do_dots(code, 'd1', ...)`, `c_f(code)`. */
  datatype Expr = Var(name: string) | Dots(base: Expr, segs: seq<string>) | Filter(fn: string, arg: Expr)

  predicate IsNameStart(c: char)
  {
    c == '_' || ('a' <= c <= 'z') || ('A' <= c <= 'Z')
  }

  predicate IsNameChar(c: char)
  {
    IsNameStart(c) || ('0' <= c <= '9')
  }

  /** `[_a-zA-Z][_a-zA-Z0-9]*` matched by the whole of `s`. */
  predicate IsIdentifier(s: string)
  {
    |s| >= 1 && IsNameStart(s[0]) && forall i :: 1 <= i < |s| ==> IsNameChar(s[i])
  }

  /** `re.match(r"[_a-zA-Z][_a-zA-Z0-9]*$", s)` succeeds: `$` matches at the
      end of the text and also just before a newline that ends it. */
  predicate MatchesNamePattern(s: string)
  {
    IsIdentifier(s) || (|s| >= 2 && s[|s| - 1] == '\n' && IsIdentifier(s[..|s| - 1]))
  }

  /** `Template.check_naming` */
  function CheckNaming(name: string): Option<CompileError>
  {
    if MatchesNamePattern(name) then None else Some(TemplateSyntaxError("Not a valid name", name))
  }

  /** `Template._need`: check the name and record it as needed from the
      context unless a loop has declared it already. */
  function NeedSpec(name: string, need: set<string>, defs: set<string>): Outcome<set<string>>
  {
    match CheckNaming(name)
    case Some(e) => Failure(e)
    case None => Success(if name in defs then need else need + {name})
  }

  /** `Template._declare`: check the name and record it as a loop variable. */
  function DeclareSpec(name: string, defs: set<string>): Outcome<set<string>>
  {
    match CheckNaming(name)
    case Some(e) => Failure(e)
    case None => Success(defs + {name})
  }

  /** The loop of src/template.py:230-232 over the filter names. */
  function FiltersSpec(e: Expr, fs: seq<string>, need: set<string>, defs: set<string>): Outcome<(Expr, set<string>)>
    decreases |fs|
  {
    if fs == [] then Success((e, need))
    else
      var need1 :- NeedSpec(fs[0], need, defs);
      FiltersSpec(Filter(fs[0], e), fs[1..], need1, defs)
  }

  /** `Template._expr_code`: the compiled expression and the new `vars_need`. */
  function ExprSpec(expr: string, need: set<string>, defs: set<string>): Outcome<(Expr, set<string>)>
    decreases |expr|
  {
    if '|' in expr then
      var pipes := SplitOn(expr, '|');
      SplitOnFirst(expr, '|');
      var head :- ExprSpec(pipes[0], need, defs);
      FiltersSpec(head.0, pipes[1..], head.1, defs)
    else if '.' in expr then
      var dots := SplitOn(expr, '.');
      SplitOnFirst(expr, '.');
      var head :- ExprSpec(dots[0], need, defs);
      Success((Dots(head.0, dots[1..]), head.1))
    else
      var need1 :- NeedSpec(expr, need, defs);
      Success((Var(expr), need1))
  }

  /** The Python source of a compiled expression. */
  function Code(e: Expr): string
  {
    match e
    case Var(n) => "c_" + n
    case Dots(b, segs) =>
      "do_dots(" + Code(b) + ", " + Join(", ", seq(|segs|, k requires 0 <= k < |segs| => Repr(segs[k]))) + ")"
    case Filter(f, a) => "c_" + f + "(" + Code(a) + ")"
  }

  /** An expression read as base name, dotted segments and filter names. */
  datatype Parsed = Parsed(base: string, dots: seq<string>, filters: seq<string>)

  /** The reading the expression grammar `name(.name)*(|name)*` gives: split
      on `|`, then split the first piece on `.`. */
  function Parse(expr: string): Parsed
  {
    var pipes := SplitOn(expr, '|');
    var parts := SplitOn(pipes[0], '.');
    Parsed(parts[0], parts[1..], pipes[1..])
  }

  /** The names the compiler checks and needs: the base, then each filter. */
  function CheckedNames(p: Parsed): seq<string>
  {
    [p.base] + p.filters
  }

  function ApplyFilters(e: Expr, fs: seq<string>): Expr
    decreases |fs|
  {
    if fs == [] then e else ApplyFilters(Filter(fs[0], e), fs[1..])
  }

  /** The expression the reading stands for: `fn(...f1(do_dots(base, d1...dk)))`,
      with no do_dots call when there are no dotted segments. */
  function Build(p: Parsed): Expr
  {
    ApplyFilters(if p.dots == [] then Var(p.base) else Dots(Var(p.base), p.dots), p.filters)
  }

  /** The first name in `names` that fails check_naming, as its error. */
  function FirstBadName(names: seq<string>): (r: Option<CompileError>)
    ensures r.None? <==> forall k :: 0 <= k < |names| ==> MatchesNamePattern(names[k])
    ensures r.Some? ==> exists k :: 0 <= k < |names| && !MatchesNamePattern(names[k]) &&
                          r.value == TemplateSyntaxError("Not a valid name", names[k]) &&
                          forall j :: 0 <= j < k ==> MatchesNamePattern(names[j])
  {
    if names == [] then None
    else if !MatchesNamePattern(names[0]) then Some(TemplateSyntaxError("Not a valid name", names[0]))
    else
      var r := FirstBadName(names[1..]);
      assert forall k :: 1 <= k < |names| ==> names[k] == names[1..][k - 1];
      r
  }

  /** The names of `names` that a loop has not declared. */
  function Undeclared(names: seq<string>, defs: set<string>): set<string>
  {
    set k | 0 <= k < |names| && names[k] !in defs :: names[k]
  }

  lemma UndeclaredOne(x: string, defs: set<string>)
    ensures Undeclared([x], defs) == if x in defs then {} else {x}
  {
    if x !in defs {
      assert [x][0] == x;
      assert x in Undeclared([x], defs);
    }
  }

  lemma UndeclaredCons(x: string, rest: seq<string>, defs: set<string>)
    ensures Undeclared([x] + rest, defs) == Undeclared([x], defs) + Undeclared(rest, defs)
  {
    var all := [x] + rest;
    UndeclaredOne(x, defs);
    forall n | n in Undeclared(all, defs)
      ensures n in Undeclared([x], defs) + Undeclared(rest, defs)
    {
      var k :| 0 <= k < |all| && all[k] !in defs && all[k] == n;
      if k > 0 {
        assert rest[k - 1] == n;
      }
    }
    forall n | n in Undeclared(rest, defs)
      ensures n in Undeclared(all, defs)
    {
      var k :| 0 <= k < |rest| && rest[k] !in defs && rest[k] == n;
      assert all[k + 1] == n;
    }
    if x !in defs {
      assert all[0] == x;
    }
  }

  lemma {:induction false} FiltersMeaning(e: Expr, fs: seq<string>, need: set<string>, defs: set<string>)
    ensures FiltersSpec(e, fs, need, defs) ==
            match FirstBadName(fs)
            case Some(err) => Failure(err)
            case None => Success((ApplyFilters(e, fs), need + Undeclared(fs, defs)))
    decreases |fs|
  {
    if fs == [] {
      assert Undeclared(fs, defs) == {};
      assert need + Undeclared(fs, defs) == need;
    } else if MatchesNamePattern(fs[0]) {
      var need1 := if fs[0] in defs then need else need + {fs[0]};
      assert NeedSpec(fs[0], need, defs) == Success(need1);
      assert FiltersSpec(e, fs, need, defs) == FiltersSpec(Filter(fs[0], e), fs[1..], need1, defs);
      assert ApplyFilters(e, fs) == ApplyFilters(Filter(fs[0], e), fs[1..]);
      FiltersMeaning(Filter(fs[0], e), fs[1..], need1, defs);
      assert fs == [fs[0]] + fs[1..];
      UndeclaredCons(fs[0], fs[1..], defs);
      UndeclaredOne(fs[0], defs);
      assert need1 + Undeclared(fs[1..], defs) == need + Undeclared(fs, defs);
      assert FirstBadName(fs) == FirstBadName(fs[1..]);
    }
  }

  /** A name without `|` or `.` compiles to itself. */
  lemma PlainNameMeaning(name: string, need: set<string>, defs: set<string>)
    requires '|' !in name && '.' !in name
    ensures ExprSpec(name, need, defs) ==
            if MatchesNamePattern(name) then Success((Var(name), need + Undeclared([name], defs)))
            else Failure(TemplateSyntaxError("Not a valid name", name))
  {
    UndeclaredOne(name, defs);
    if MatchesNamePattern(name) {
      var need1 := if name in defs then need else need + {name};
      assert NeedSpec(name, need, defs) == Success(need1);
      assert need1 == need + Undeclared([name], defs);
      assert ExprSpec(name, need, defs) == Success((Var(name), need1));
    }
  }

  /** A piece without `|` compiles to its dotted reading. */
  lemma HeadMeaning(head: string, need: set<string>, defs: set<string>)
    requires '|' !in head
    ensures var parts := SplitOn(head, '.');
            ExprSpec(head, need, defs) ==
            if MatchesNamePattern(parts[0]) then
              Success((if parts[1..] == [] then Var(parts[0]) else Dots(Var(parts[0]), parts[1..]),
                       need + Undeclared([parts[0]], defs)))
            else Failure(TemplateSyntaxError("Not a valid name", parts[0]))
  {
    var parts := SplitOn(head, '.');
    if '.' in head {
      SplitOnFirst(head, '.');
      assert parts[0] == head[..IndexOf(head, '.')];
      assert '|' !in parts[0] by {
        assert forall c :: c in parts[0] ==> c in head;
      }
      PlainNameMeaning(parts[0], need, defs);
    } else {
      PlainNameMeaning(head, need, defs);
    }
  }

  /** What `_expr_code` does, stated on the reading of the expression: it
      fails with "Not a valid name" on the first bad name among the base and
      the filters (dotted segments are never checked); otherwise it gives
      `fn(...f1(do_dots(base, ...)))` and adds to vars_need the checked names
      that no loop has declared. */
  lemma ExprMeaning(expr: string, need: set<string>, defs: set<string>)
    ensures var p := Parse(expr);
            ExprSpec(expr, need, defs) ==
            match FirstBadName(CheckedNames(p))
            case Some(err) => Failure(err)
            case None => Success((Build(p), need + Undeclared(CheckedNames(p), defs)))
  {
    var p := Parse(expr);
    var pipes := SplitOn(expr, '|');
    var names := CheckedNames(p);
    assert names[1..] == p.filters;
    assert '|' !in pipes[0];
    HeadMeaning(pipes[0], need, defs);
    var headExpr := if p.dots == [] then Var(p.base) else Dots(Var(p.base), p.dots);
    var need1 := need + Undeclared([p.base], defs);
    FiltersMeaning(headExpr, p.filters, need1, defs);
    UndeclaredCons(p.base, p.filters, defs);
    if '|' !in expr {
      assert pipes == [expr];
      assert p.filters == [] && names == [p.base];
      assert Build(p) == headExpr;
      assert Undeclared(names, defs) == Undeclared([p.base], defs);
      assert need + Undeclared(names, defs) == need1;
      assert ExprSpec(expr, need, defs) == ExprSpec(pipes[0], need, defs);
      if MatchesNamePattern(p.base) {
        assert ExprSpec(expr, need, defs) == Success((Build(p), need + Undeclared(names, defs)));
      } else {
        assert ExprSpec(expr, need, defs) == Failure(TemplateSyntaxError("Not a valid name", p.base));
      }
      assert FirstBadName(names) == (if MatchesNamePattern(p.base) then None
                                     else Some(TemplateSyntaxError("Not a valid name", p.base)));
    } else {
      SplitOnFirst(expr, '|');
      assert ExprSpec(expr, need, defs) ==
             (var head :- ExprSpec(pipes[0], need, defs); FiltersSpec(head.0, pipes[1..], head.1, defs));
      if MatchesNamePattern(p.base) {
        assert ExprSpec(pipes[0], need, defs) == Success((headExpr, need1));
        assert FirstBadName(names) == FirstBadName(p.filters);
        assert Build(p) == ApplyFilters(headExpr, p.filters);
        assert need1 + Undeclared(p.filters, defs) == need + Undeclared(names, defs);
      } else {
        assert ExprSpec(pipes[0], need, defs) == Failure(TemplateSyntaxError("Not a valid name", p.base));
      }
    }
  }

  /** The value of a compiled expression in the render function's local
      names: the callee of a filter is looked up before its argument is
      evaluated. */
  function Eval(host: Host, env: map<string, Value>, e: Expr): Result<Value>
  {
    match e
    case Var(n) => if n in env then Ok(env[n]) else Err(UnboundLocalError(n))
    case Dots(b, segs) =>
      var v :- Eval(host, env, b);
      Dotted(host, v, segs)
    case Filter(f, a) =>
      if f !in env then Err(UnboundLocalError(f))
      else
        var x :- Eval(host, env, a);
        Call(host, env[f], [x])
  }

  /** The filters applied in turn to a value. */
  function Piped(host: Host, env: map<string, Value>, r: Result<Value>, fs: seq<string>): Result<Value>
    requires forall k :: 0 <= k < |fs| ==> fs[k] in env
    decreases |fs|
  {
    if fs == [] then r
    else
      match r
      case Err(e) => Err(e)
      case Ok(v) => Piped(host, env, Call(host, env[fs[0]], [v]), fs[1..])
  }

  lemma {:induction false} EvalApplyFilters(host: Host, env: map<string, Value>, e: Expr, fs: seq<string>)
    requires forall k :: 0 <= k < |fs| ==> fs[k] in env
    ensures Eval(host, env, ApplyFilters(e, fs)) == Piped(host, env, Eval(host, env, e), fs)
    decreases |fs|
  {
    if fs != [] {
      assert forall k :: 0 <= k < |fs[1..]| ==> fs[1..][k] == fs[k + 1];
      EvalApplyFilters(host, env, Filter(fs[0], e), fs[1..]);
    }
  }

  /** `base.d1...dk|f1|...|fn` evaluates to `fn(...f1(do_dots(base, d1...dk)))`:
      the base's value is dotted through the segments (and is never called
      when there are none), then handed to each filter in turn. */
  lemma EvalMeaning(host: Host, env: map<string, Value>, p: Parsed)
    requires p.base in env && forall k :: 0 <= k < |p.filters| ==> p.filters[k] in env
    ensures Eval(host, env, Build(p)) == Piped(host, env, Dotted(host, env[p.base], p.dots), p.filters)
  {
    var headExpr := if p.dots == [] then Var(p.base) else Dots(Var(p.base), p.dots);
    EvalApplyFilters(host, env, headExpr, p.filters);
  }
}
