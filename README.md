# Templite-style template compiler, in Dafny

This project models `src/template.py`, a small template engine for a subset
of Django syntax that derives from coverage.py's Templite. It proves
properties of the model.

`Template(text, *contexts)` compiles the text into the source of a Python
function, `render_function(context, do_dots)`:

- `re.split` cuts the text into literal pieces and tags. There are three
  kinds of tag: `{{ expr }}`, `{% action %}` and `{# comment #}`.
- One loop walks the pieces. It keeps an output buffer, an `ops_stack` of
  open `if`/`for` blocks, a `squash` flag, and the sets `vars_need` and
  `vars_defs`. It writes lines into a `CodeBuilder`. A malformed tag raises
  `TemplateSyntaxError` with a fixed message.
- `_expr_code` translates `base.d1.d2|f1|f2` into
  `c_f2(c_f1(do_dots(c_base, 'd1', 'd2')))`. `check_naming` validates names.

`render(context)` runs that function on the constructor's contexts, overridden
by the argument.

## Modules

| module | models |
|---|---|
| `Common` | `Option`, and a few facts about sequences and slices |
| `PyText` | the Python string operations the engine uses: `lstrip`, `strip`, `split()`, `split(sep)`, `', '.join`, `repr` of a str, slicing with negative ends |
| `Tokens` | `re.split(r"(?s)({{.*?}}\|{%.*?%}\|{#.*?#})", text)`, written as a leftmost, shortest-match scanner |
| `Errors` | the compile-time outcomes: `TemplateSyntaxError(msg, thing)` and the stray `IndexError`/`AssertionError`; the message `f"{msg}: {thing!r}"` |
| `Values` | Python values, truthiness, `callable`, `getattr`, item access on a dict, and `_do_dots` as a method with its loop |
| `Exprs` | `_expr_code`, `check_naming`, `_need` and `_declare` as functions over (`vars_need`, `vars_defs`); the expression tree, its generated code, and its evaluation |
| `Program` | the statements of the generated function body (`append`/`extend`, `if`, `for`) and the source lines each one produces |
| `Compiler` | the loop of `__init__` as a function over a state, and the invariants it keeps |
| `Runtime` | the meaning of `render_function`: eager name fetch, output in order, truthiness and a flat namespace |
| `Builder` | the `CodeBuilder` class |
| `Templates` | the `Template` class |
| `Scenarios` | whole-template properties |

The imperative parts keep their form:

- `Builder.CodeBuilder` holds `code` (a sequence of text pieces and
  sub-builders) and `indentLevel`. Its methods mutate both.
- `Templates.Template` holds `context`, `varsNeed` and `varsDefs`.
  - Its constructor merges the contexts in a loop.
  - `Compile` runs the token loop over a real `CodeBuilder`, with the output
    buffer as a sequence of code strings and `ops_stack` as a sequence of
    keywords.
  - `Need`, `Declare`, `ExprCode` and `Filters` update `varsNeed`/`varsDefs`
    as the source does.

Each method of `Template` is proved against the function in `Compiler` or
`Exprs` that specifies it.

`exec()` is not modelled. Two things stand in for the compiled function:

- The state also records the statement each generated line stands for.
  `Template.program` holds the resulting body.
- `Template.source` is the text that would be handed to `exec()`.

`Compiler.CompiledSource` proves that the source lines are the lines emitted
for `program`. `Runtime` gives `program` its meaning.

## Model

| member | source | states |
|---|---|---|
| PyText.LStrip | src/template.py:208-209 | `str.lstrip()`: the result is a suffix of the input, everything removed is whitespace, and the result does not start with whitespace |
| PyText.RStrip | src/template.py:170 | the right half of `str.strip()`: the result is a prefix, everything removed is whitespace, and the result does not end with whitespace |
| PyText.SplitWhitespace | src/template.py:177 | `str.split()`: every word is non-empty and holds no whitespace, and the words in order are the input with its whitespace removed |
| PyText.SplitIgnoresLeadingSpace | src/template.py:177 | leading whitespace does not change `split()`'s words |
| PyText.SplitWord | src/template.py:177 | a non-empty run without whitespace is one word |
| PyText.SplitAtSpace | src/template.py:177 | a whitespace character ends a word: the words of `a + c + b` are those of `a`, then those of `b` |
| PyText.SplitStrip | src/template.py:170-177 | `strip()` before `split()` changes no word |
| PyText.SplitOn | src/template.py:228 | `str.split(sep)`: at least one part, no part holds the separator, and joining the parts with the separator gives the input back |
| PyText.SplitOnFirst | src/template.py:227-229 | when the separator occurs, there are at least two parts and the first is the text before its first occurrence |
| PyText.Repr | src/template.py:211 | `repr` of a str is quoted at both ends with the same quote, and the quote is `"` exactly when the text holds `'` and no `"` |
| PyText.ReprChar | src/template.py:211 | a character stands for itself in `repr` exactly when it is not the quote, not a backslash and printable; otherwise its escape starts with a backslash |
| PyText.ReprRoundTrip | src/template.py:211 | `repr` loses nothing: reading the escapes back gives the text again |
| PyText.ReprPlain | src/template.py:211 | for printable text without quotes or backslashes, `repr` only adds single quotes around it |
| Tokens.FindClose | src/template.py:154 | the lazy `.*?`: the first closing delimiter at or after a position, or none when there is none |
| Tokens.NextTag | src/template.py:154 | the leftmost position from `i` where a tag matches, with the end of its shortest match; no tag matches before it; none when no tag matches in the rest |
| Tokens.MatchIsTag | src/template.py:154 | what the pattern matches is a tag: an opener, a closer of the same kind, and no earlier closer inside |
| Tokens.TagFoundAt | src/template.py:154 | a tag that occurs at a position is matched at that position |
| Tokens.GapIsLiteral | src/template.py:154 | text in which no match starts holds no tag |
| Tokens.Lossless | src/template.py:154 | the pieces, concatenated, are the input |
| Tokens.Shape | src/template.py:154 | the number of pieces is odd; literals sit at even positions and tags at odd ones |
| Tokens.TagFree | src/template.py:154 | text without a tag splits into itself alone |
| Tokens.OneTag | src/template.py:154 | a lone tag splits into an empty literal, the tag, and an empty literal |
| Tokens.TagPrefix | src/template.py:154 | a tag at the start of the text splits off as an empty literal and the tag, and the rest splits as it does alone |
| Tokens.BracelessPrefix | src/template.py:154 | text without a `{` at the start of the text joins the first literal of the rest, and the rest splits as it does alone |
| Tokens.SplitFromShift | src/template.py:154 | the pieces of a text after a prefix, scanned from past the prefix, are the pieces of that text alone |
| Errors.MessageOfPlain | src/template.py:19-21 | for printable `thing` without quotes or backslashes, the error text is `msg`, a colon and a space, then `thing` in single quotes, as the tests' `assertSynErr` expects |
| Values.Lookup | src/template.py:280 | a dict lookup finds a value exactly when some entry has that key, and the value is that of the first entry with the key |
| Values.DoDots | src/template.py:272-285 | the loop returns the segments applied in turn, each one's failure stopping it |
| Values.DottedAppend | src/template.py:275-285 | resolving `a + b` resolves `a`, then resolves `b` from the result; a failure in `a` is the result |
| Values.DottedErrorMessage | src/template.py:281-282 | every TemplateValueError says `Couldn't evaluate <repr of a value>.<one of the segments>` |
| Values.SegmentMissing | src/template.py:276-282 | a first segment that is neither an attribute nor an item fails with the message naming the starting value and that segment |
| Values.DictItem | tests/test_template.py:112-115 | `d.a` on a dict with a key `'a'` and no attribute `a` is the value of the first entry with that key, when it is not callable |
| Values.SegmentCallsOnce | src/template.py:283-284 | a segment that finds a function calls it once with no arguments, and the segment's value is what the call returns, even a function |
| Values.StrOfList | src/template.py:139 | `str` of a str is the str itself, while `str` of a list holding it shows it quoted |
| Values.StrOfNestedInts | tests/test_template.py:332-342 | `str` of `[[1, 2, 3], [2, 3, 4], [3, 4, 5]]` is the text the test expects |
| Values.NoneHasNoBar | tests/test_template.py:274-280 | `foo.bar.baz` with `foo` None fails with "Couldn't evaluate None.bar" |
| Exprs.FirstBadName | src/template.py:243-247 | no error exactly when every name matches `[_a-zA-Z][_a-zA-Z0-9]*$`; otherwise "Not a valid name" with the first name that does not |
| Exprs.FiltersMeaning | src/template.py:230-232 | the filter loop fails at the first bad filter name; otherwise it wraps the expression in the filters in order, and the undeclared filter names join `vars_need` |
| Exprs.PlainNameMeaning | src/template.py:238-240 | a name without `\|` or `.` is checked and becomes `c_name`; it joins `vars_need` unless a loop declared it |
| Exprs.HeadMeaning | src/template.py:233-237 | in a dotted expression only the base name is checked and needed; the segments after the first dot are neither |
| Exprs.ExprMeaning | src/template.py:225-241 | the whole translation: it fails with the first bad name among the base and then the filters; otherwise the tree is the base, then its segments, then its filters, and exactly the undeclared base and filter names join `vars_need` |
| Exprs.EvalApplyFilters | src/template.py:232 | a filtered expression evaluates to its value piped through the filters in order |
| Exprs.EvalMeaning | src/template.py:227-237 | `base.d1…dk\|f1…\|fn` evaluates to `fn(…f1(do_dots(base, d1…dk)))` |
| Program.EmitNodesAppend | src/template.py:143-149 | the source lines of statements with one more statement at the end are the lines so far, then that statement's lines |
| Compiler.ActionKeepsBuffer | src/template.py:175-205 | a successful action tag changes neither the output buffer, which line 175 has just flushed, nor the squash flag |
| Compiler.ActionErrors | src/template.py:177-205 | an `if` without exactly 2 words, a `for` without 4 words and `in` third, or an `end…` without exactly 1 word fails with the whole raw tag; an `end` with nothing open fails with "Too many ends" and the raw tag; an end that differs from the top of `ops_stack` fails with "Mismatched end tag" and what follows `end`; any other first word fails with "Don't understand tag" and that word; `{% %}` raises IndexError |
| Compiler.ActionStack | src/template.py:182-203 | `if` and `for` push their keyword onto `ops_stack`; a successful `end…` has exactly one word, a non-empty stack whose top is its suffix, and pops it |
| Compiler.SquashNext | src/template.py:160-163 | after a tag whose third-from-last character is `-`, the next literal loses all its leading whitespace, otherwise it is kept whole; an empty result buffers nothing |
| Compiler.TagSetsSquash | src/template.py:161-163 | after any tag the squash flag says whether that tag's third-from-last character is `-` |
| Compiler.CommentStep | src/template.py:165-167 | a comment outputs nothing and changes nothing but the squash flag |
| Compiler.RunFailsAt | src/template.py:158-211 | the loop fails with the error of the first piece whose step fails, whatever follows |
| Compiler.CompileFailsAt | src/template.py:158-211 | a syntax error in any piece aborts the whole construction with that error |
| Compiler.UnmatchedTop | src/template.py:213-214 | blocks still open at the end fail with "Unmatched action tag" and the keyword at the top of `ops_stack` |
| Compiler.FlushInv | src/template.py:143-149 | `flush_output` empties the buffer and keeps the invariant below |
| Compiler.OpenInv | src/template.py:182-192 | opening a block keeps `indent_level == 4 * (1 + len(ops_stack))` and keeps the generated lines equal to those of the open blocks and the current statements |
| Compiler.CloseInv | src/template.py:200-203 | closing the top block with a dedent keeps that invariant |
| Compiler.StepInv | src/template.py:158-211 | every successful step over a piece keeps the invariant |
| Compiler.RunInv | src/template.py:158-211 | the whole loop keeps the invariant, so a compile that ends with no open block ends at indentation 4, and the final dedent reaches 0 |
| Compiler.CompiledSource | src/template.py:213-223 | `get_globals`' assert that the indentation is 0 never fails: an AssertionError can only come from the loop; on success the lines the CodeBuilder holds after the prelude are exactly the lines emitted for the compiled program |
| Runtime.Fetch | src/template.py:218-219 | the prelude succeeds exactly when every needed name is in the context, and then binds each one to its context value and nothing else |
| Runtime.MergeMeaning | src/template.py:122-124 | a name is in the merged context exactly when some context has it, and its value comes from the last context that has it |
| Runtime.RunNodesAppend | src/template.py:145-148 | statements run in order: the output of `a + b` is the output of `a` followed by that of `b`, run in the names `a` left, and a failure stops the run |
| Runtime.RunLoopAppend | src/template.py:191 | a loop over `a + b` is the loop over `a`, then the loop over `b` from the names it left |
| Runtime.NodesEnvFrame | src/template.py:191 | running statements changes no name except the loop variables they bind |
| Runtime.LoopLeavesLast | src/template.py:191 | in one flat namespace a loop variable keeps the last element after the loop, and an empty loop changes nothing; it is not restored |
| Runtime.LoopEcho | src/template.py:191 | `{% for x in v %}{{x}}{% endfor %}` outputs the `str` of each element, in order |
| Runtime.LoopConstant | src/template.py:191 | a loop whose body is literal text outputs that text once per element |
| Runtime.MissingNameFails | src/template.py:219 | a needed name missing from the context fails the whole render with KeyError, whatever the program does |
| Builder.TextOfAppend | src/template.py:36-37 | `str(builder)`: the text of two chunk lists together is the text of the first, then that of the second |
| Builder.AppendSection | src/template.py:47-51 | appending an empty fresh section adds nothing to the text |
| Builder.SectionText | src/template.py:36-37 | a section's text appears where the section was inserted, including lines added to it later |
| Builder.CodeBuilder.constructor | src/template.py:32-34 | an empty builder at the given indentation |
| Builder.CodeBuilder.AddLine | src/template.py:39-45 | appends the indentation, the line and a newline as three pieces; the text gains exactly that line |
| Builder.CodeBuilder.AddSection | src/template.py:47-51 | appends a fresh, empty sub-builder at the current indentation and returns it; the text is unchanged |
| Builder.CodeBuilder.Indent | src/template.py:53-57 | the indentation grows by exactly 4 and nothing else changes |
| Builder.CodeBuilder.Dedent | src/template.py:59-61 | the indentation shrinks by exactly 4 and nothing else changes |
| Templates.HoldsText | src/template.py:133-135 | the builder's text is the `def` line, then the `vars_code` section's text, then the body lines |
| Templates.NewCode | src/template.py:131-139 | the fresh builder holds the `def` line, an empty `vars_code` section and the four prelude lines, at indentation 4 |
| Templates.Literal | src/template.py:206-211 | a literal adds the `repr` of its kept text to the buffer, after squashing; an empty one adds nothing |
| Templates.FlushOutput | src/template.py:143-149 | adds `append_result(x)` for one buffered part, `extend_result((x, y, …))` for several, nothing for none, and clears the buffer |
| Templates.NewTemplate | src/template.py:115-223 | `Template(text, *contexts)`: the merged context, and the syntax error the text causes or the compiled program with its names and source |
| Templates.Template.constructor | src/template.py:122-127 | the contexts merged left to right; no names needed or declared |
| Templates.Template.Need | src/template.py:254-258 | a bad name fails and changes nothing; otherwise the name joins `vars_need` unless it is declared |
| Templates.Template.Declare | src/template.py:249-252 | a bad name fails and changes nothing; otherwise it joins `vars_defs` |
| Templates.Template.ExprCode | src/template.py:225-241 | returns the generated code of the expression tree `Exprs.ExprMeaning` describes, and updates `vars_need` to match, or fails with its error |
| Templates.Template.Filters | src/template.py:230-232 | the filter loop, as `Exprs.FiltersMeaning` describes it |
| Templates.Template.IfTag | src/template.py:178-184 | an `if` tag: the error, or the header line, the indent and the pushed keyword |
| Templates.Template.ForTag | src/template.py:185-192 | a `for` tag: the error, or the declared loop name, the header line, the indent and the pushed keyword |
| Templates.Template.ForOpen | src/template.py:189-192 | a `for` tag of the right shape: the error of the loop name or the iterable, or the declared name, the header line, the indent and the pushed keyword |
| Templates.Template.EndTag | src/template.py:193-203 | an `end…` tag: the error, or the popped keyword and the dedent |
| Templates.Template.ActionTag | src/template.py:177-205 | dispatch on the first word, with the errors `Compiler.ActionErrors` lists |
| Templates.Template.TagKind | src/template.py:165-205 | a comment, an expression, or an action tag after a flush; any other `{` piece is an AssertionError |
| Templates.Template.Tag | src/template.py:159-205 | a piece starting with `{`: IndexError when shorter than 3, otherwise the squash flag, then the kind of tag |
| Templates.Template.ExprTag | src/template.py:168-171 | buffers `to_str(code)` for the stripped expression, or fails with its error |
| Templates.Template.StepToken | src/template.py:158-211 | one round of the loop; the builder, the buffer and `ops_stack` stay in step with the state of the loop |
| Templates.Template.CompileTokens | src/template.py:154-211 | the loop over all the pieces: the first error, or the final state, with the builder holding its lines |
| Templates.VarsSection | src/template.py:218-219 | one `c_x = context['x']` line per needed name, each name once, in the set's iteration order |
| Templates.FinishCode | src/template.py:218-222 | the text is the `def` line, the vars lines, the prelude, the body lines and the return line; the indentation drops by 4 |
| Templates.AddReturn | src/template.py:221-222 | the text gains the return line at the current indentation, the vars section keeps its text, and the indentation drops by 4 |
| Templates.Template.Generate | src/template.py:63-72 | the source `get_globals` receives, exactly when its indentation assert holds |
| Templates.Template.Emit | src/template.py:218-223 | after the last flush: the AssertionError or the rejection by `exec`, or the program, `vars_need`, `vars_defs` and the source |
| Templates.Template.Conclude | src/template.py:213-223 | the unmatched-tag check, then the last flush and the code generation |
| Templates.Template.Compile | src/template.py:131-223 | the whole compile: the first error, or the compiled program and the source of `render_function` |
| Templates.Template.Render | src/template.py:260-270 | the render context is the merged contexts overridden by the argument; a needed name missing from it raises KeyError |
| Scenarios.TagFreeRendersItself | tests/test_template.py:52-58 | text without a tag that does not start with `{` (non-ASCII included) needs no name and renders as itself in any context |
| Scenarios.TagFreeCompiles | src/template.py:206-216 | such text compiles to one append of itself, or to nothing when it is empty |
| Scenarios.LiteralRun | src/template.py:206-211 | the loop over one literal piece that does not start with `{` only buffers it |
| Scenarios.FinishLiteral | src/template.py:213-223 | when the only piece is a literal, the end of the compile flushes it into one append, or none when it is empty, and succeeds, needing no name |
| Scenarios.OneLiteralRuns | src/template.py:146 | a function body that appends one text returns exactly that text |
| Scenarios.EndWithNothingOpen | src/template.py:193-199 | an `end…` tag with nothing open fails with "Too many ends" and the raw tag |
| Scenarios.LoneEndTag | tests/test_template.py:308-314 | a template that is one end tag fails with "Too many ends" and the raw tag |
| Scenarios.IfTemplate | tests/test_template.py:173-198 | `{% if x %}s{% endif %}`, for a valid name `x` and text `s` without `{`: it compiles to one `if` on `x` around one append of `s`, needing only `x`; a render fails with KeyError when `x` is missing, and otherwise outputs `s` when `x`'s value is truthy and nothing when it is not; an empty `s` is rejected by `exec` |

## Where the model follows the code

In the places below, the tests or the source's own comments and the code
say different things, or the code does something a reader could easily
miss. The model follows the code in each one:

- **Whitespace control.** The class docstring (src/template.py:94-95) says
  a hyphen at the end of a tag collapses the whitespace that follows. The
  code (src/template.py:160-163, 208-209) tests the third-from-last
  character of a tag, for example `{{ x -}}`, and then strips all the
  leading whitespace (`lstrip()`) of the next literal piece, newlines
  included. A `-` after the opening delimiter is part of the tag's text.
- **No non-strict mode.** tests/test_template.py:357-358 constructs
  `Template("{{foo}}", strict=False)`, but the constructor
  (src/template.py:115) takes only `text` and `*contexts`, so that call is a
  TypeError. Every name in `vars_need` is read with `context[name]`
  (src/template.py:218-219) before any output. A missing one raises
  KeyError, even when it only appears in a branch that is not taken.
- **Loop variables.** All names live in one namespace of `c_<name>` locals
  (src/template.py:191, 218-219), and a loop variable is not restored after
  the loop. tests/test_template.py:322-342 use an outer name as the loop
  variable, and the loop rebinds that same local. A loop variable
  that is read after an empty loop, with no outer binding, is unbound
  (UnboundLocalError).
- **Calls in dotted lookups.** After each segment, a callable result is
  called with no arguments (src/template.py:283-284). The undotted base is
  never called.
- **Unmatched action tag.** "Unmatched action tag" names the innermost open
  block, the top of `ops_stack` (src/template.py:213-214).

## Left out

- `exec` of the generated source (src/template.py:63-72) is a call into the
  Python interpreter.
  - The model computes the source text and gives the statements behind it a
    meaning in `Runtime`.
  - `exec`'s acceptance is the predicate `Compiler.ExecAccepts`. It stands
    for the two rejections of the generated source that this model tracks:
    - an `if`/`for` block with an empty body;
    - a name ending in a newline, which `check_naming`'s `$` lets through.
  - CPython's static limits on source text are not modelled. For such a
    template `Compiler.Generated` succeeds where `exec` raises SyntaxError:
    - more than 20 nested `for` tags ("too many statically nested blocks");
    - about 100 nested `if`/`for` tags ("too many levels of indentation");
    - about 200 filters in one expression, whose nested calls open about 200
      parentheses ("too many nested parentheses").
  - `Templates.Template.Generate` returns the source rather than the globals
    `exec` would build.
- Python's `str()`, `repr()`, attribute lookup on built-in values, and calls
  of functions are parameters of the model (the `Values.Host` record), because
  the engine does not define them.
  - `repr` is spelled out for str, None, bool, int, list and dict.
  - `PyText.IsNonPrintable` lists the characters that `str.isprintable()`
    rejects, and so `repr` escapes, by the general categories of Unicode 15.
    Of the unassigned code points (Cn) it lists only the noncharacters
    (U+FDD0-U+FDEF and the last two code points of every plane), planes 4
    to 13, and the gaps of plane 14. Every other unassigned code point counts
    as printable in the model, while Python escapes it. That includes
    unassigned ranges inside assigned blocks and large ranges such as
    U+2FA20-U+2FFFD and U+323B0-U+3FFFD.
  - A Dafny `char` is a Unicode scalar value, so it cannot hold a lone
    surrogate. A Python str can, and `repr` escapes it. Such strings are not
    modelled.
  - Truthiness and `callable` follow only the built-in values:
    `Values.Truthy` holds for every `PyObject`, and `Values.Callable` only for
    `PyFunc`. Objects with `__bool__`, `__len__` or `__call__`, and classes,
    are not modelled.
  - `value[dot]` (src/template.py:280) finds an item only in a `PyDict`
    (`Values.GetItem`). Objects whose class defines `__getitem__`, and
    mappings other than a plain dict (a `defaultdict`, for example), are not
    modelled. For them the model fails with TemplateValueError where Python
    would find the item.
  - Any exception a caller's function raises is one outcome, `Raised`.
- Iteration covers lists, strings and dicts (their keys). Other iterables,
  such as a `map` object, are not modelled; looping over any other value
  raises TypeError.
- The regex engine is not modelled. `re.split` with the tag pattern and
  `re.match` with the name pattern are written out as predicates on
  characters.
  - The whitespace that `strip()`, `lstrip()` and `split()` remove is the
    set of characters Python's `str.isspace()` accepts, listed in
    `PyText.IsSpace`.
- The order in which `for var in self.vars_need` visits the set depends on
  string hashing. The model chooses some order (`needOrder`) and proves
  everything for every order; the meaning of a render does not depend on it.
- When construction fails, the half-built object is never returned. So the
  model states nothing about the fields after a failed `Compile`.
- `render`'s `if context:` is not a separate branch: updating with an empty
  or omitted context changes nothing.
- Integers are unbounded, as Python's are; no width matters here.
- examples/counter/main.py is not part of this model. It does file input and
  output and printing, and it calls members that src/template.py does not
  define.
- Templates.Template.Render: it states the KeyError case, and otherwise the
  result is that of running `program` on the merged context through
  `Runtime`. Its contract says nothing further, because the properties of
  a run are the lemmas of `Runtime`.
