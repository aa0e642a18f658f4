/** Python values as the rendered template sees them, the exceptions a render
    can raise, and `Template._do_dots` (src/template.py:272-285).

    None, bool, int, str, list and dict are spelled out. Objects carry their
    attributes (methods included, as function values). A function is known by
    an identity; what calling it returns is up to the `Host`, which also gives
    the attributes of built-in values (`"ned".upper`, `{}.keys`) and the str()
    and repr() of objects and functions, none of which the engine defines. */
module Values {
  import opened Common
  import opened PyText

  datatype Value =
    | PyNone
    | PyBool(b: bool)
    | PyInt(i: int)
    | PyStr(s: string)
    | PyList(items: seq<Value>)
    | PyDict(entries: seq<(Value, Value)>)
    | PyObject(attrs: map<string, Value>)
    | PyFunc(id: nat)

  /** The parts of Python's object model that the engine uses but does not define. */
  datatype Host = Host(
    call: (nat, seq<Value>) -> Option<Value>,  // result of calling function `id`; None when the call raises
    attr: (Value, string) -> Option<Value>,    // attributes of values that are not PyObject
    str: Value -> string,                      // str() of objects and functions
    repr: Value -> string)                     // repr() of objects and functions

  /** What a render can raise. */
  datatype Exception =
    | TemplateValueError(msg: string)   // a dotted segment that is neither attribute nor item
    | KeyError                          // a name the template needs is not in the context
    | UnboundLocalError(name: string)   // a loop variable read before any loop bound it
    | TypeError                         // calling a value that is not callable, looping over one that is not iterable
    | Raised                            // a caller-supplied function raised

  datatype Result<+T> = Ok(value: T) | Err(exc: Exception)
  {
    predicate IsFailure() { Err? }

    function PropagateFailure<U>(): Result<U>
      requires Err?
    {
      Err(exc)
    }

    function Extract(): T
      requires Ok?
    {
      value
    }
  }

  /** repr(v) */
  function ReprOf(host: Host, v: Value): string
  {
    match v
    case PyNone => "None"
    case PyBool(b) => if b then "True" else "False"
    case PyInt(i) => IntToString(i)
    case PyStr(s) => Repr(s)
    case PyList(items) =>
      "[" + Join(", ", seq(|items|, k requires 0 <= k < |items| => ReprOf(host, items[k]))) + "]"
    case PyDict(entries) =>
      "{" + Join(", ", seq(|entries|, k requires 0 <= k < |entries| =>
                         ReprOf(host, entries[k].0) + ": " + ReprOf(host, entries[k].1))) + "}"
    case PyObject(_) => host.repr(v)
    case PyFunc(_) => host.repr(v)
  }

  /** str(v), which the generated code calls `to_str`. */
  function StrOf(host: Host, v: Value): string
  {
    match v
    case PyStr(s) => s
    case PyObject(_) => host.str(v)
    case PyFunc(_) => host.str(v)
    case _ => ReprOf(host, v)
  }

  /** Python truthiness: None, False, 0 and empty str, list and dict are false. */
  predicate Truthy(v: Value)
  {
    match v
    case PyNone => false
    case PyBool(b) => b
    case PyInt(i) => i != 0
    case PyStr(s) => s != ""
    case PyList(items) => items != []
    case PyDict(entries) => entries != []
    case PyObject(_) => true
    case PyFunc(_) => true
  }

  /** callable(v) */
  predicate Callable(v: Value)
  {
    v.PyFunc?
  }

  /** Calling `f` with `args`. */
  function Call(host: Host, f: Value, args: seq<Value>): Result<Value>
  {
    match f
    case PyFunc(id) =>
      (match host.call(id, args)
       case Some(x) => Ok(x)
       case None => Err(Raised))
    case _ => Err(TypeError)
  }

  /** getattr(v, name), None standing for AttributeError. */
  function GetAttr(host: Host, v: Value, name: string): Option<Value>
  {
    match v
    case PyObject(attrs) => if name in attrs then Some(attrs[name]) else None
    case _ => host.attr(v, name)
  }

  /** The value of the first entry whose key is `key`. */
  function Lookup(entries: seq<(Value, Value)>, key: Value): (r: Option<Value>)
    ensures r.Some? <==> exists k :: 0 <= k < |entries| && entries[k].0 == key
    ensures r.Some? ==> exists k :: 0 <= k < |entries| && entries[k].0 == key && r.value == entries[k].1 &&
                                    forall j :: 0 <= j < k ==> entries[j].0 != key
  {
    if entries == [] then None
    else if entries[0].0 == key then Some(entries[0].1)
    else Lookup(entries[1..], key)
  }

  /** v[key] with a string key; None stands for TypeError (v is not a
      mapping) and KeyError (the key is missing), the two that _do_dots catches. */
  function GetItem(v: Value, key: string): Option<Value>
  {
    match v
    case PyDict(entries) => Lookup(entries, PyStr(key))
    case _ => None
  }

  /** `for x in v`: the elements, in order, or None when v is not iterable. */
  function Iterate(v: Value): Option<seq<Value>>
  {
    match v
    case PyList(items) => Some(items)
    case PyStr(s) => Some(seq(|s|, k requires 0 <= k < |s| => PyStr([s[k]])))
    case PyDict(entries) => Some(seq(|entries|, k requires 0 <= k < |entries| => entries[k].0))
    case _ => None
  }

  /** The message _do_dots raises when a segment resolves to nothing. */
  function CouldNotEvaluate(host: Host, v: Value, dot: string): string
  {
    "Couldn't evaluate " + ReprOf(host, v) + "." + dot
  }

  /** One dotted segment: the attribute, else the item, else
      TemplateValueError; a callable result is then called with no arguments. */
  function Segment(host: Host, v: Value, dot: string): Result<Value>
  {
    var found :=
      match GetAttr(host, v, dot)
      case Some(a) => Some(a)
      case None => GetItem(v, dot);
    match found
    case None => Err(TemplateValueError(CouldNotEvaluate(host, v, dot)))
    case Some(x) => if Callable(x) then Call(host, x, []) else Ok(x)
  }

  /** The value `_do_dots(value, *dots)` returns: the segments applied in turn. */
  function Dotted(host: Host, v: Value, dots: seq<string>): Result<Value>
    decreases |dots|
  {
    if dots == [] then Ok(v)
    else
      var next :- Segment(host, v, dots[0]);
      Dotted(host, next, dots[1..])
  }

  /** `Template._do_dots`: the loop of src/template.py:275-285. */
  method DoDots(host: Host, value: Value, dots: seq<string>) returns (r: Result<Value>)
    ensures r == Dotted(host, value, dots)
  {
    var v := value;
    var i := 0;
    while i < |dots|
      invariant 0 <= i <= |dots|
      invariant Dotted(host, value, dots) == Dotted(host, v, dots[i..])
    {
      var dot := dots[i];
      assert dots[i..][1..] == dots[i + 1..];
      var found := GetAttr(host, v, dot);
      if found.None? {
        found := GetItem(v, dot);
        if found.None? {
          return Err(TemplateValueError(CouldNotEvaluate(host, v, dot)));
        }
      }
      v := found.value;
      if Callable(v) {
        var called := Call(host, v, []);
        if called.Err? {
          return called;
        }
        v := called.value;
      }
      i := i + 1;
    }
    return Ok(v);
  }

  /** Dotting through `a + b` is dotting through `a`, then through `b`. */
  lemma {:induction false} DottedAppend(host: Host, v: Value, a: seq<string>, b: seq<string>)
    ensures Dotted(host, v, a + b) ==
            match Dotted(host, v, a)
            case Ok(w) => Dotted(host, w, b)
            case Err(e) => Err(e)
    decreases |a|
  {
    if a == [] {
      assert a + b == b;
    } else {
      assert (a + b)[0] == a[0] && (a + b)[1..] == a[1..] + b;
      match Segment(host, v, a[0])
      case Ok(next) => DottedAppend(host, next, a[1..], b);
      case Err(_) =>
    }
  }

  /** Every TemplateValueError that dotting raises names a value reached on the
      way and one of the segments: "Couldn't evaluate {value!r}.{dot}". */
  lemma {:induction false} DottedErrorMessage(host: Host, v: Value, dots: seq<string>)
    requires Dotted(host, v, dots).Err? && Dotted(host, v, dots).exc.TemplateValueError?
    ensures exists k, w :: 0 <= k < |dots| && Dotted(host, v, dots).exc.msg == CouldNotEvaluate(host, w, dots[k])
    decreases |dots|
  {
    match Segment(host, v, dots[0])
    case Err(e) =>
      assert Dotted(host, v, dots).exc.msg == CouldNotEvaluate(host, v, dots[0]);
    case Ok(next) =>
      DottedErrorMessage(host, next, dots[1..]);
      var k, w :| 0 <= k < |dots[1..]| && Dotted(host, next, dots[1..]).exc.msg == CouldNotEvaluate(host, w, dots[1..][k]);
      assert dots[1..][k] == dots[k + 1];
  }

  /** A segment that is neither an attribute nor an item stops the render
      with the message naming the value and the segment, whatever follows. */
  lemma SegmentMissing(host: Host, v: Value, dots: seq<string>)
    requires dots != [] && GetAttr(host, v, dots[0]).None? && GetItem(v, dots[0]).None?
    ensures Dotted(host, v, dots) == Err(TemplateValueError(CouldNotEvaluate(host, v, dots[0])))
  {
  }

  /** A dict without the attribute `dot` resolves `d.dot` to the value of
      its first entry with the key `dot`, as `{{d.a}}` gives 17 for
      `{'a': 17, 'b': 23}` (tests/test_template.py:112-115). */
  lemma DictItem(host: Host, entries: seq<(Value, Value)>, dot: string, k: nat)
    requires k < |entries| && entries[k].0 == PyStr(dot) && forall j :: 0 <= j < k ==> entries[j].0 != PyStr(dot)
    requires host.attr(PyDict(entries), dot).None? && !Callable(entries[k].1)
    ensures Dotted(host, PyDict(entries), [dot]) == Ok(entries[k].1)
  {
    var r := Lookup(entries, PyStr(dot));
    assert r.Some?;
    var k' :| 0 <= k' < |entries| && entries[k'].0 == PyStr(dot) && r.value == entries[k'].1 &&
              forall j :: 0 <= j < k' ==> entries[j].0 != PyStr(dot);
    assert k' == k;
    assert [dot][1..] == [];
  }

  /** A callable that a segment finds is called once, with no arguments:
      what the call returns is the segment's value, even when it is itself
      callable (src/template.py:283-284 is an `if`, not a loop). */
  lemma SegmentCallsOnce(host: Host, v: Value, dot: string, id: nat, w: Value)
    requires GetAttr(host, v, dot) == Some(PyFunc(id)) && host.call(id, []) == Some(w)
    ensures Dotted(host, v, [dot]) == Ok(w)
  {
    assert [dot][1..] == [];
  }

  /** str() of a list is its repr(), in which a str element is quoted:
      `str(['a b'])` is `['a b']` with the quotes. */
  lemma StrOfList(host: Host, s: string)
    requires IsPlain(s)
    ensures StrOf(host, PyList([PyStr(s)])) == "['" + s + "']"
    ensures StrOf(host, PyStr(s)) == s
  {
    ReprPlain(s);
    var items := [PyStr(s)];
    assert seq(|items|, k requires 0 <= k < |items| => ReprOf(host, items[k])) == ["'" + s + "'"];
  }

  /** `{{ n }}` for n = [[1, 2, 3], [2, 3, 4], [3, 4, 5]] outputs the text
      tests/test_template.py:332-342 expects. */
  lemma StrOfNestedInts(host: Host)
    ensures StrOf(host, PyList([Ints(1), Ints(2), Ints(3)])) == "[[1, 2, 3], [2, 3, 4], [3, 4, 5]]"
  {
    IntListsRepr(host);
    ReprOfThree(host, Ints(1), Ints(2), Ints(3));
    NestedText();
  }

  lemma NestedText()
    ensures "[" + "[1, 2, 3]" + ", " + "[2, 3, 4]" + ", " + "[3, 4, 5]" + "]" == "[[1, 2, 3], [2, 3, 4], [3, 4, 5]]"
  {
  }

  lemma IntListsRepr(host: Host)
    ensures ReprOf(host, Ints(1)) == "[1, 2, 3]" && ReprOf(host, Ints(2)) == "[2, 3, 4]" &&
            ReprOf(host, Ints(3)) == "[3, 4, 5]"
  {
    IntsRepr(host, 1);
    IntsRepr(host, 2);
    IntsRepr(host, 3);
  }

  /** The list [a, a + 1, a + 2]. */
  function Ints(a: int): Value
  {
    PyList([PyInt(a), PyInt(a + 1), PyInt(a + 2)])
  }

  lemma IntsRepr(host: Host, a: int)
    requires 1 <= a <= 3
    ensures ReprOf(host, Ints(a)) == "[" + [DigitChar(a)] + ", " + [DigitChar(a + 1)] + ", " + [DigitChar(a + 2)] + "]"
  {
    ReprOfThree(host, PyInt(a), PyInt(a + 1), PyInt(a + 2));
  }

  /** repr() of a three-element list. */
  lemma ReprOfThree(host: Host, x: Value, y: Value, z: Value)
    ensures ReprOf(host, PyList([x, y, z])) == "[" + ReprOf(host, x) + ", " + ReprOf(host, y) + ", " + ReprOf(host, z) + "]"
  {
    var items := [x, y, z];
    var a, b, c := ReprOf(host, x), ReprOf(host, y), ReprOf(host, z);
    var reprs := seq(|items|, k requires 0 <= k < |items| => ReprOf(host, items[k]));
    assert reprs == [a, b, c];
    Join3(", ", a, b, c);
    Bracketed(a, b, c, ", ");
  }

  lemma Bracketed(a: string, b: string, c: string, sep: string)
    ensures "[" + (a + sep + b + sep + c) + "]" == "[" + a + sep + b + sep + c + "]"
  {
  }

  /** `{{foo.bar.baz}}` with foo = None: "Couldn't evaluate None.bar"
      (tests/test_template.py:274-280), for any host in which None has no
      attribute `bar`. */
  lemma NoneHasNoBar(host: Host)
    requires host.attr(PyNone, "bar").None?
    ensures Dotted(host, PyNone, ["bar", "baz"]) == Err(TemplateValueError("Couldn't evaluate None.bar"))
  {
    SegmentMissing(host, PyNone, ["bar", "baz"]);
    assert ReprOf(host, PyNone) == "None";
    assert CouldNotEvaluate(host, PyNone, "bar") == "Couldn't evaluate None.bar";
  }
}
