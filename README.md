# Vyper compiler diagnostics, modelled in Dafny

This project models the positioned compiler diagnostic of the Vyper compiler
(`vyper/exceptions.py`). A diagnostic (`ParserException`) holds a message, a
line number and a column offset, and may hold the full source text. The
position is set at most once: "first write wins", judged by Python
truthiness, so `None` and `0` both count as unset. A diagnostic renders
itself in one of three tiers:

1. with a source excerpt, when it has a line and source text;
2. as `line L:C message`, when it has a line and a column but no source;
3. as the bare message otherwise.

Fourteen of the fifteen subclasses of `ParserException` add no behaviour.
They become tags of the `Kind` datatype, which is a `const` of each
diagnostic. The fifteenth, `PythonSyntaxException`, has its own constructor,
which adapts Python's own `SyntaxError`. It is modelled as the named
constructor `FromSyntaxError` and has the tag `PythonSyntax`. `CompilerPanic`
renders as its message plus a fixed request to report the bug. `JSONError`
records a message and an optional position in the compiler's input JSON.

Files:

- `wrappers.dfy` — `Option`, standing for a Python value that may be `None`.
- `decimal.dfy` — `IntToString`, which spells an `int` the way Python's
  `str()` does. `ParseInt` reads it back, and both directions of the round
  trip are proved.
- `exceptions.dfy` — the model itself:
  - `ParserException` is a class. Its constructors, `AttachOrigin` and
    `SetErrPos` update the fields in place. `ToString` is `__str__`.
  - `SetOnce` is the pure specification of one `set_err_pos` call, and
    `Render` is the pure specification of `__str__`.
  - `CompilerPanic` and `JSONError` are classes whose fields are set only
    by their constructors.
- `exception_properties.dfy` — lemmas about those specifications:
  - over any sequence of `set_err_pos` calls (a diagnostic re-raised through
    outer passes);
  - reading the second tier back into line, column and message;
  - how the tiers relate to each other and to the annotator;
  - client methods that run the class through a re-raise, and through
    adapting and rendering a Python `SyntaxError`.

Python's duck typing is replaced by the `Origin` datatype. It is a `Tuple`,
a `Node` (an object with `lineno` and `col_offset`, and `full_source_code`
when present), or `Absent` (`None`, a falsy object, or an object without
`lineno`). Every position value is an `Option<int>`. `annotate_source_code`
from `vyper.utils` is not part of this model: rendering takes it as a
function parameter (`Annotator`) and assumes nothing about it. The two
`vyper.settings` values it is configured with are passed in as
`ErrorConfig`.

`__str__` is modelled as a function that only reads the object. So rendering
changes no field, and rendering twice gives the same text.

Two edge cases of the code are stated exactly:

- A `set_err_pos` call made while the line is falsy stores its line, even a
  `None` or `0` one. In the same call it fills the column if the column is
  falsy (vyper/exceptions.py:24-28). So a column can come from an earlier
  call whose line was falsy. `SetOnce` and `FirstTruthyLineWins` state this.
- Rendering tests `is not None` rather than truthiness
  (vyper/exceptions.py:33,46). So a line of 0 still renders as `line 0:…`.

## Model

| member | source | states |
|---|---|---|
| `Decimal.IntToString` | vyper/exceptions.py:43-47 | `str()` of an int: non-empty, a leading `-` exactly for negatives, digits elsewhere |
| `Decimal.IntToStringRoundTrip` | vyper/exceptions.py:43-47 | parsing the spelling of any integer gives back that integer |
| `Decimal.ParseIntIsCanonical` | vyper/exceptions.py:43-47 | every string the parser accepts is the spelling of the integer it reads (the other direction of the round trip) |
| `Exceptions.SetOnce` | vyper/exceptions.py:23-28 | a stored truthy line freezes line and column; otherwise the line is taken as given; the column changes only in a call where line and column were both falsy, and then takes the given value |
| `Exceptions.ParserException.SetErrPos` | vyper/exceptions.py:23-28 | the new line and column are `SetOnce` of the old ones; nothing else changes (frame) |
| `Exceptions.ParserException.constructor` | vyper/exceptions.py:11-21 | a tuple's first two elements are stored directly; a node's line and column are stored and its source is attached only if it has one; no item leaves both fields and the source unset; kind and message as given |
| `Exceptions.ParserException.AttachOrigin` | vyper/exceptions.py:16-21 | from cleared fields: a tuple bypasses `set_err_pos`, a node goes through it and attaches `full_source_code` if present, an absent item changes nothing |
| `Exceptions.ParserException.FromSyntaxError` | vyper/exceptions.py:58-63 | message is `"SyntaxError: " + msg`, line is the error's `lineno`, column its `offset`, source the given text, kind `PythonSyntax` |
| `Exceptions.ColumnText` | vyper/exceptions.py:43 | the column prints as the empty string exactly when it is `None` |
| `Exceptions.Render` | vyper/exceptions.py:30-49 | tier 1 and tier 2 texts exactly; the result is the bare message if and only if there is no line, or a line with neither source nor column; without source the message is never cut |
| `Exceptions.CompilerPanic.constructor` | vyper/exceptions.py:126-127 | stores the message |
| `Exceptions.CompilerPanic.ToString` | vyper/exceptions.py:129-130 | the message verbatim, followed by exactly `" Please create an issue."` |
| `Exceptions.JSONError.constructor` | vyper/exceptions.py:137-140 | stores message, line and column unchanged (line and column default to `None`) |
| `ExceptionProperties.SettledPositionIsFinal` | vyper/exceptions.py:23-28 | once a truthy line is stored, no sequence of further `set_err_pos` calls moves the position |
| `ExceptionProperties.FirstTruthyLineWins` | vyper/exceptions.py:23-28 | after any calls, the line is that of the first call bringing a truthy line; with no truthy column before it, line and column are both that call's |
| `ExceptionProperties.LocatedRenderingRoundTrip` | vyper/exceptions.py:46-47 | line, column and whole message are read back from `line L:C message` |
| `ExceptionProperties.AnnotatedExtendsLocated` | vyper/exceptions.py:33-47 | with a column, tier 1 is tier 2's text, a newline, and the annotation of (source, line, column, settings) |
| `ExceptionProperties.RenderWithoutSourceIgnoresAnnotator` | vyper/exceptions.py:46-49 | without source the result does not depend on the annotator or the settings |
| `ExceptionProperties.ReraiseKeepsInnerPosition` | vyper/exceptions.py:18-28 | a diagnostic built from a node with a truthy line keeps that line, column and source through a later `set_err_pos` with any other position |
| `ExceptionProperties.SyntaxErrorRendering` | vyper/exceptions.py:58-63 | for any message, line, offset and source, the diagnostic built by `FromSyntaxError` renders as `line L:C SyntaxError: msg`, a newline, and the annotation of the source at line L, column C |

## Left out

- `annotate_source_code` (in `vyper.utils`) is not part of this model. It is a function parameter with no properties assumed: nothing is stated about its context window, line numbers or caret.
- `VYPER_ERROR_CONTEXT_LINES` and `VYPER_ERROR_LINE_NUMBERS` are passed in as `ErrorConfig` rather than read from `vyper.settings`.
- Raising and propagation, the `Exception` base class, and `isinstance` catching by base class are not modelled. The subclasses are tags only.
- The `JSONError.msg` field stands for what `super().__init__(msg)` stores. Only the inherited `Exception.__str__` is not modelled.
- `hasattr` probing and `types.SimpleNamespace` are replaced by the `Origin` datatype. So these cases are not modelled: an object with `lineno` but no `col_offset` (an `AttributeError` in Python), and a position value that is neither an int nor `None`.
- `Exceptions.ParserException.constructor`: a tuple with fewer than two elements, which fails at unpacking in Python, is excluded by a precondition rather than modelled as a crash.
- A `full_source_code` attribute whose value is `None` is not distinguished from a string: a present attribute is always `Some(text)`.
