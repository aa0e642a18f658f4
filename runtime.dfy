/** The meaning of the generated `render_function(context, do_dots)`
    (src/template.py:133-139, 218-221) and of `Template.render`
    (src/template.py:260-270).

    The function first copies every needed name out of the context into its
    local `c_<name>`; then it runs its statements, appending str() of each
    output part to `result`; `if` runs its body when the test is truthy; `for`
    assigns each element in turn to `c_<name>`. All the locals live in one
    namespace: a loop variable keeps its last value after the loop, and a
    name assigned by no statement so far is unbound. */
module Runtime {
  import opened Common
  import opened PyText
  import opened Values
  import opened Exprs
  import opened Program

  /** The local names after some statements, and what they appended. */
  datatype Done = Done(env: map<string, Value>, out: string)

  /** One flush: the parts are evaluated in order and their texts appended. */
  function RunParts(host: Host, env: map<string, Value>, ps: seq<Part>): Result<string>
    decreases |ps|
  {
    if ps == [] then Ok("")
    else
      var first :- match ps[0]
                   case Lit(t) => Ok(t)
                   case Out(e) =>
                     (match Eval(host, env, e)
                      case Ok(v) => Ok(StrOf(host, v))
                      case Err(x) => Err(x));
      var rest :- RunParts(host, env, ps[1..]);
      Ok(first + rest)
  }

  /** One statement. */
  function RunNode(host: Host, env: map<string, Value>, n: Node): Result<Done>
    decreases n, 1
  {
    match n
    case Emit(ps) =>
      var s :- RunParts(host, env, ps);
      Ok(Done(env, s))
    case If(t, body) =>
      var v :- Eval(host, env, t);
      if Truthy(v) then RunNodes(host, env, body) else Ok(Done(env, ""))
    case For(x, it, body) =>
      var v :- Eval(host, env, it);
      match Iterate(v)
      case None => Err(TypeError)
      case Some(items) => RunLoop(host, env, x, items, body)
  }

  /** Statements in order, each in the names the previous one left. */
  function RunNodes(host: Host, env: map<string, Value>, ns: seq<Node>): Result<Done>
    decreases ns, 0
  {
    if ns == [] then Ok(Done(env, ""))
    else
      var first :- RunNode(host, env, ns[0]);
      var rest :- RunNodes(host, first.env, ns[1..]);
      Ok(Done(rest.env, first.out + rest.out))
  }

  /** `for c_x in items: body`, from the current element on. */
  function RunLoop(host: Host, env: map<string, Value>, x: string, items: seq<Value>, body: seq<Node>): Result<Done>
    decreases body, |items|
  {
    if items == [] then Ok(Done(env, ""))
    else
      var first :- RunNodes(host, env[x := items[0]], body);
      var rest :- RunLoop(host, first.env, x, items[1..], body);
      Ok(Done(rest.env, first.out + rest.out))
  }

  /** The prelude `c_x = context[x]` for every needed name: any missing one
      raises KeyError, before anything is output. */
  function Fetch(ctx: map<string, Value>, need: set<string>): (r: Result<map<string, Value>>)
    ensures r.Ok? <==> need <= ctx.Keys
    ensures r.Ok? ==> r.value.Keys == need && forall x :: x in need ==> r.value[x] == ctx[x]
  {
    if need <= ctx.Keys then Ok(map x | x in need :: ctx[x]) else Err(KeyError)
  }

  /** A call of the generated function: the joined output, or what it raised. */
  function RunTemplate(host: Host, program: seq<Node>, need: set<string>, ctx: map<string, Value>): Result<string>
  {
    var env :- Fetch(ctx, need);
    var done :- RunNodes(host, env, program);
    Ok(done.out)
  }

  /** `Template.__init__`'s `self.context.update(c)` for each context in turn. */
  function Merge(contexts: seq<map<string, Value>>): map<string, Value>
    decreases |contexts|
  {
    if contexts == [] then map[] else Merge(contexts[..|contexts| - 1]) + contexts[|contexts| - 1]
  }

  /** The merged context holds a name iff some context does, with the value
      of the last context that holds it. */
  lemma {:induction false} MergeMeaning(contexts: seq<map<string, Value>>, x: string)
    ensures x in Merge(contexts) <==> exists k :: 0 <= k < |contexts| && x in contexts[k]
    ensures x in Merge(contexts) ==>
              exists k :: 0 <= k < |contexts| && x in contexts[k] && Merge(contexts)[x] == contexts[k][x] &&
                          forall j :: k < j < |contexts| ==> x !in contexts[j]
    decreases |contexts|
  {
    if contexts != [] {
      var n := |contexts| - 1;
      var init := contexts[..n];
      MergeMeaning(init, x);
      assert forall k :: 0 <= k < n ==> init[k] == contexts[k];
      if x in contexts[n] {
        assert Merge(contexts)[x] == contexts[n][x];
      } else if x in Merge(init) {
        var k :| 0 <= k < |init| && x in init[k] && Merge(init)[x] == init[k][x] &&
                 forall j :: k < j < |init| ==> x !in init[j];
        assert Merge(contexts)[x] == contexts[k][x];
      }
    }
  }

  // ---- Composition ----

  /** Running `a + b` runs `a`, then `b` in the names `a` left, and joins
      their output. */
  lemma {:induction false} RunNodesAppend(host: Host, env: map<string, Value>, a: seq<Node>, b: seq<Node>)
    ensures RunNodes(host, env, a + b) ==
            match RunNodes(host, env, a)
            case Err(e) => Err(e)
            case Ok(d1) =>
              match RunNodes(host, d1.env, b)
              case Err(e) => Err(e)
              case Ok(d2) => Ok(Done(d2.env, d1.out + d2.out))
    decreases |a|
  {
    if a == [] {
      assert a + b == b;
      match RunNodes(host, env, b)
      case Err(e) =>
      case Ok(d2) => assert "" + d2.out == d2.out;
    } else {
      assert (a + b)[0] == a[0] && (a + b)[1..] == a[1..] + b;
      match RunNode(host, env, a[0])
      case Err(e) =>
      case Ok(d0) =>
        RunNodesAppend(host, d0.env, a[1..], b);
        match RunNodes(host, d0.env, a[1..])
        case Err(e) =>
        case Ok(d1) =>
          match RunNodes(host, d1.env, b)
          case Err(_) =>
          case Ok(d2) => assert d0.out + (d1.out + d2.out) == (d0.out + d1.out) + d2.out;
    }
  }

  /** A loop over `a + b` runs over `a`, then on over `b`. */
  lemma {:induction false} RunLoopAppend(host: Host, env: map<string, Value>, x: string, a: seq<Value>, b: seq<Value>, body: seq<Node>)
    ensures RunLoop(host, env, x, a + b, body) ==
            match RunLoop(host, env, x, a, body)
            case Err(e) => Err(e)
            case Ok(d1) =>
              match RunLoop(host, d1.env, x, b, body)
              case Err(e) => Err(e)
              case Ok(d2) => Ok(Done(d2.env, d1.out + d2.out))
    decreases |a|
  {
    if a == [] {
      assert a + b == b;
      match RunLoop(host, env, x, b, body)
      case Err(e) =>
      case Ok(d2) => assert "" + d2.out == d2.out;
    } else {
      assert (a + b)[0] == a[0] && (a + b)[1..] == a[1..] + b;
      match RunNodes(host, env[x := a[0]], body)
      case Err(e) =>
      case Ok(d0) =>
        RunLoopAppend(host, d0.env, x, a[1..], b, body);
        match RunLoop(host, d0.env, x, a[1..], body)
        case Err(e) =>
        case Ok(d1) =>
          match RunLoop(host, d1.env, x, b, body)
          case Err(_) =>
          case Ok(d2) => assert d0.out + (d1.out + d2.out) == (d0.out + d1.out) + d2.out;
    }
  }

  // ---- Loops and the flat namespace ----

  /** The names the `for` statements among `ns` bind, at any depth. */
  function Binds(ns: seq<Node>): set<string>
    decreases ns
  {
    if ns == [] then {}
    else
      Binds(ns[..|ns| - 1]) +
      match ns[|ns| - 1]
      case Emit(_) => {}
      case If(_, body) => Binds(body)
      case For(x, _, body) => {x} + Binds(body)
  }

  lemma BindsCons(n: Node, ns: seq<Node>)
    ensures Binds([n] + ns) == Binds([n]) + Binds(ns)
    decreases |ns|
  {
    if ns != [] {
      var all := [n] + ns;
      assert all[..|all| - 1] == [n] + ns[..|ns| - 1];
      BindsCons(n, ns[..|ns| - 1]);
    } else {
      assert [n] + ns == [n];
    }
  }

  lemma BindsOfOne(n: Node)
    ensures Binds([n]) == match n
                          case Emit(_) => {}
                          case If(_, body) => Binds(body)
                          case For(x, _, body) => {x} + Binds(body)
  {
    assert [n][..0] == [];
  }

  /** The names `env` and `env2` agree on everything outside `bound`, and `env2`
      keeps every name of `env`. */
  ghost predicate KeepsOutside(env: map<string, Value>, env2: map<string, Value>, bound: set<string>)
  {
    env.Keys <= env2.Keys &&
    forall y :: y in env2 && y !in bound ==> y in env && env2[y] == env[y]
  }

  /** Statements bind only what their loops bind; nothing is ever unbound. */
  lemma {:induction false} NodeEnvFrame(host: Host, env: map<string, Value>, n: Node)
    requires RunNode(host, env, n).Ok?
    ensures KeepsOutside(env, RunNode(host, env, n).value.env, Binds([n]))
    decreases n, 1
  {
    BindsOfOne(n);
    match n
    case Emit(_) =>
    case If(t, body) =>
      var v := Eval(host, env, t).value;
      if Truthy(v) {
        NodesEnvFrame(host, env, body);
      }
    case For(x, it, body) =>
      var v := Eval(host, env, it).value;
      var items := Iterate(v).value;
      LoopEnvFrame(host, env, x, items, body);
  }

  lemma {:induction false} NodesEnvFrame(host: Host, env: map<string, Value>, ns: seq<Node>)
    requires RunNodes(host, env, ns).Ok?
    ensures KeepsOutside(env, RunNodes(host, env, ns).value.env, Binds(ns))
    decreases ns, 0
  {
    if ns != [] {
      var d0 := RunNode(host, env, ns[0]).value;
      NodeEnvFrame(host, env, ns[0]);
      NodesEnvFrame(host, d0.env, ns[1..]);
      assert ns == [ns[0]] + ns[1..];
      BindsCons(ns[0], ns[1..]);
    }
  }

  lemma {:induction false} LoopEnvFrame(host: Host, env: map<string, Value>, x: string, items: seq<Value>, body: seq<Node>)
    requires RunLoop(host, env, x, items, body).Ok?
    ensures KeepsOutside(env, RunLoop(host, env, x, items, body).value.env, {x} + Binds(body))
    decreases body, |items|
  {
    if items != [] {
      var d0 := RunNodes(host, env[x := items[0]], body).value;
      NodesEnvFrame(host, env[x := items[0]], body);
      LoopEnvFrame(host, d0.env, x, items[1..], body);
    }
  }

  /** The loop name is not restored: after a loop over a non-empty list whose
      body binds no loop of the same name, it holds the last element. After a
      loop over an empty list every name is as before. */
  lemma {:induction false} LoopLeavesLast(host: Host, env: map<string, Value>, x: string, items: seq<Value>, body: seq<Node>)
    requires RunLoop(host, env, x, items, body).Ok? && x !in Binds(body)
    ensures items == [] ==> RunLoop(host, env, x, items, body).value.env == env
    ensures items != [] ==> x in RunLoop(host, env, x, items, body).value.env &&
                            RunLoop(host, env, x, items, body).value.env[x] == items[|items| - 1]
    decreases |items|
  {
    if items != [] {
      var env1 := env[x := items[0]];
      var d0 := RunNodes(host, env1, body).value;
      NodesEnvFrame(host, env1, body);
      assert x in d0.env && d0.env[x] == items[0];
      LoopLeavesLast(host, d0.env, x, items[1..], body);
    }
  }

  /** str() of each element, joined. */
  function Strs(host: Host, items: seq<Value>): string
    decreases |items|
  {
    if items == [] then "" else StrOf(host, items[0]) + Strs(host, items[1..])
  }

  /** `{% for x in xs %}{{x}}{% endfor %}` outputs each element once, in order. */
  lemma {:induction false} LoopEcho(host: Host, env: map<string, Value>, x: string, items: seq<Value>)
    ensures RunLoop(host, env, x, items, [Emit([Out(Var(x))])]).Ok?
    ensures RunLoop(host, env, x, items, [Emit([Out(Var(x))])]).value.out == Strs(host, items)
    decreases |items|
  {
    if items != [] {
      var body := [Emit([Out(Var(x))])];
      var env1 := env[x := items[0]];
      assert RunParts(host, env1, [Out(Var(x))]) == Ok(StrOf(host, items[0])) by {
        assert [Out(Var(x))][1..] == [];
        assert StrOf(host, items[0]) + "" == StrOf(host, items[0]);
      }
      assert body[1..] == [];
      assert RunNodes(host, env1, body) == Ok(Done(env1, StrOf(host, items[0]))) by {
        assert StrOf(host, items[0]) + "" == StrOf(host, items[0]);
      }
      LoopEcho(host, env1, x, items[1..]);
    }
  }

  /** `s` repeated `n` times. */
  function Repeat(s: string, n: nat): string
  {
    if n == 0 then "" else s + Repeat(s, n - 1)
  }

  /** A body of fixed text is output once per element. */
  lemma {:induction false} LoopConstant(host: Host, env: map<string, Value>, x: string, items: seq<Value>, s: string)
    ensures RunLoop(host, env, x, items, [Emit([Lit(s)])]).Ok?
    ensures RunLoop(host, env, x, items, [Emit([Lit(s)])]).value.out == Repeat(s, |items|)
    decreases |items|
  {
    if items != [] {
      var body := [Emit([Lit(s)])];
      var env1 := env[x := items[0]];
      assert RunParts(host, env1, [Lit(s)]) == Ok(s) by {
        assert [Lit(s)][1..] == [];
        assert s + "" == s;
      }
      assert body[1..] == [];
      assert RunNodes(host, env1, body) == Ok(Done(env1, s)) by {
        assert s + "" == s;
      }
      LoopConstant(host, env1, x, items[1..], s);
    }
  }

  /** An `if` runs its body exactly when its test is truthy, and otherwise
      outputs nothing and binds nothing. */
  lemma IfRunsIffTruthy(host: Host, env: map<string, Value>, t: Expr, body: seq<Node>, v: Value)
    requires Eval(host, env, t) == Ok(v)
    ensures Truthy(v) ==> RunNode(host, env, If(t, body)) == RunNodes(host, env, body)
    ensures !Truthy(v) ==> RunNode(host, env, If(t, body)) == Ok(Done(env, ""))
  {
  }

  /** Every needed name is read from the context before any statement runs, so
      a missing one raises KeyError whatever the statements are, even when
      only an untaken branch uses it. */
  lemma MissingNameFails(host: Host, program: seq<Node>, need: set<string>, ctx: map<string, Value>, x: string)
    requires x in need && x !in ctx
    ensures RunTemplate(host, program, need, ctx) == Err(KeyError)
  {
  }
}
