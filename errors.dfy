/** The exceptions that constructing a Template can raise (src/template.py:16-21
    and the Python errors the constructor lets escape). */
module Errors {
  import opened PyText

  datatype CompileError =
    | TemplateSyntaxError(msg: string, thing: string)
    | IndexError      // `token[-3]` of a piece shorter than three characters, `words[0]` of an empty action tag
    | AssertionError  // a piece that starts with "{" but with none of "{#", "{{", "{%"
    | ExecRejected    // exec() refuses the generated source (a block with no body, a name ending in a newline)

  /** The text of a TemplateSyntaxError: f"{msg}: {thing!r}". */
  function Message(e: CompileError): string
    requires e.TemplateSyntaxError?
  {
    e.msg + ": " + Repr(e.thing)
  }

  datatype Outcome<+T> = Success(value: T) | Failure(error: CompileError)
  {
    predicate IsFailure() { Failure? }

    function PropagateFailure<U>(): Outcome<U>
      requires Failure?
    {
      Failure(error)
    }

    function Extract(): T
      requires Success?
    {
      value
    }
  }

  /** When the offending text needs no escaping, the message is the category,
      a colon and the text in single quotes, as the tests pin it
      (tests/test_template.py:43-50). */
  lemma MessageOfPlain(msg: string, thing: string)
    requires IsPlain(thing)
    ensures Message(TemplateSyntaxError(msg, thing)) == msg + ": '" + thing + "'"
  {
    ReprPlain(thing);
  }
}
