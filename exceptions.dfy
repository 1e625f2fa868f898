/**
 * The positioned compiler diagnostic of vyper/exceptions.py.
 *
 * A `ParserException` carries a message, a line and a column that are set at
 * most once (first write wins, with Python truthiness: `None` and `0` both
 * count as unset), and optionally the full source text, which lets it render
 * a source excerpt. The Python subclasses carry no behaviour of their own and
 * become the tags of `Kind`. `CompilerPanic` and `JSONError` are independent
 * error types.
 *
 * `annotate_source_code` (from vyper.utils) is not part of this model: it is
 * the `Annotator` parameter of rendering, left unconstrained. The two settings
 * it is configured with are the `ErrorConfig` parameter.
 */
module Exceptions {
  import opened Wrappers
  import opened Decimal

  /** The subclasses of ParserException, one tag each; `Parser` is the base class itself. */
  datatype Kind =
    | Parser
    | PythonSyntax
    | Syntax
    | Structure
    | InvalidLiteral
    | InvalidType
    | VariableDeclaration
    | FunctionDeclaration
    | EventDeclaration
    | TypeMismatch
    | ConstancyViolation
    | NonPayableViolation
    | Version
    | ArrayIndex
    | ZeroDivision
    | EvmVersion

  /** What the constructor's `item` argument can be. */
  datatype Origin =
    | /** A tuple; its first two elements are the line and the column. */
      Tuple(elems: seq<Option<int>>)
    | /** A truthy object with `lineno` and `col_offset` attributes, and
          `full_source_code` when `fullSource` is Some. */
      Node(lineno: Option<int>, colOffset: Option<int>, fullSource: Option<string>)
    | /** `None`, a falsy object, or an object without `lineno`. */
      Absent

  /** The `SyntaxError` raised by Python's own parser: its `msg`, `lineno` and `offset`. */
  datatype HostSyntaxError = HostSyntaxError(msg: string, lineno: Option<int>, offset: Option<int>)

  /** A line and column as stored on a diagnostic; each may be `None`. */
  datatype Position = Position(lineno: Option<int>, colOffset: Option<int>)

  /** The two settings rendering reads from vyper.settings. */
  datatype ErrorConfig = ErrorConfig(contextLines: int, lineNumbers: bool)

  /** annotate_source_code(source, lineno, col_offset, context_lines, line_numbers). */
  type Annotator = (string, int, Option<int>, int, bool) -> string

  const DefaultMessage: string := "Error Message not found."
  const PanicSuffix: string := " Please create an issue."
  const SyntaxErrorPrefix: string := "SyntaxError: "

  /** Python's `not v` for an optional integer: None and 0 are falsy. */
  predicate Falsy(v: Option<int>) {
    v.None? || v.value == 0
  }

  /**
   * The position after one `set_err_pos(lineno, col_offset)` call.
   */
  function SetOnce(p: Position, lineno: Option<int>, colOffset: Option<int>): (q: Position)
    // first write wins: once a truthy line is stored nothing changes
    ensures !Falsy(p.lineno) ==> q == p
    // otherwise the line is taken as given, even a falsy one
    ensures Falsy(p.lineno) ==> q.lineno == lineno
    // the column is filled only in the call that sets the line, and only if unset
    ensures q.colOffset != p.colOffset ==> Falsy(p.lineno) && Falsy(p.colOffset) && q.colOffset == colOffset
    ensures Falsy(p.lineno) && Falsy(p.colOffset) ==> q.colOffset == colOffset
  {
    if Falsy(p.lineno) then
      Position(lineno, if Falsy(p.colOffset) then colOffset else p.colOffset)
    else
      p
  }

  /** "line L:C message" — the located form used by the first two tiers. */
  function Located(lineno: int, colText: string, message: string): string {
    "line " + IntToString(lineno) + ":" + colText + " " + message
  }

  /** The column as the first tier prints it: empty for None. */
  function ColumnText(colOffset: Option<int>): (s: string)
    ensures colOffset.None? <==> s == ""
  {
    match colOffset
    case None => ""
    case Some(c) => IntToString(c)
  }

  /**
   * `ParserException.__str__` over the fields it reads. Three tiers: with
   * source attached and a line, the located header plus the annotation;
   * without source but with both line and column, the located header alone;
   * otherwise the bare message. The tests are `is not None`, so a line or
   * column of 0 still counts as present here.
   */
  function Render(message: string, pos: Position, sourceCode: Option<string>,
                  annotate: Annotator, config: ErrorConfig): (r: string)
    ensures pos.lineno.Some? && sourceCode.Some? ==>
      r == "line " + IntToString(pos.lineno.value) + ":" + ColumnText(pos.colOffset) + " " + message + "\n"
           + annotate(sourceCode.value, pos.lineno.value, pos.colOffset, config.contextLines, config.lineNumbers)
    ensures pos.lineno.Some? && sourceCode.None? && pos.colOffset.Some? ==>
      r == "line " + IntToString(pos.lineno.value) + ":" + IntToString(pos.colOffset.value) + " " + message
    // the bare message comes out exactly when there is no line, or a line
    // with neither source nor column
    ensures r == message <==> pos.lineno.None? || (sourceCode.None? && pos.colOffset.None?)
    // the message always ends the located header: nothing is cut from it
    ensures sourceCode.None? ==> |message| <= |r| && r[|r| - |message|..] == message
  {
    match pos.lineno
    case None => message
    case Some(line) =>
      if sourceCode.Some? then
        Located(line, ColumnText(pos.colOffset), message) + "\n"
          + annotate(sourceCode.value, line, pos.colOffset, config.contextLines, config.lineNumbers)
      else if pos.colOffset.Some? then
        Located(line, IntToString(pos.colOffset.value), message)
      else
        message
  }

  /** A diagnostic raised on user source: ParserException and its subclasses. */
  class ParserException {
    const kind: Kind
    const message: string
    var lineno: Option<int>
    var colOffset: Option<int>
    /** None when the `source_code` attribute was never set. */
    var sourceCode: Option<string>

    function Pos(): Position
      reads this
    {
      Position(lineno, colOffset)
    }

    /**
     * `ParserException(message, item)` and every subclass except
     * PythonSyntaxException, which has its own constructor below.
     */
    constructor (kind: Kind, message: string := DefaultMessage, item: Origin := Absent)
      requires kind != PythonSyntax
      requires item.Tuple? ==> |item.elems| >= 2
      ensures this.kind == kind && this.message == message
      ensures item.Tuple? ==> lineno == item.elems[0] && colOffset == item.elems[1] && sourceCode.None?
      ensures item.Node? ==> lineno == item.lineno && colOffset == item.colOffset && sourceCode == item.fullSource
      ensures item.Absent? ==> lineno.None? && colOffset.None? && sourceCode.None?
    {
      this.kind := kind;
      this.message := message;
      lineno, colOffset, sourceCode := None, None, None;
      new;
      AttachOrigin(item);
    }

    /**
     * `PythonSyntaxException(syntax_error, source_code)`: goes through the
     * same initialisation with an object carrying the error's line, its
     * offset as the column, and the full source.
     */
    constructor FromSyntaxError(syntaxError: HostSyntaxError, source: string)
      ensures kind == PythonSyntax && message == SyntaxErrorPrefix + syntaxError.msg
      ensures lineno == syntaxError.lineno && colOffset == syntaxError.offset
      ensures sourceCode == Some(source)
    {
      kind := PythonSyntax;
      message := SyntaxErrorPrefix + syntaxError.msg;
      lineno, colOffset, sourceCode := None, None, None;
      new;
      AttachOrigin(Node(syntaxError.lineno, syntaxError.offset, Some(source)));
    }

    /** The body of `__init__` after the fields are cleared: read the position from `item`. */
    method AttachOrigin(item: Origin)
      requires lineno.None? && colOffset.None? && sourceCode.None?
      requires item.Tuple? ==> |item.elems| >= 2
      modifies this`lineno, this`colOffset, this`sourceCode
      ensures item.Tuple? ==> lineno == item.elems[0] && colOffset == item.elems[1] && sourceCode.None?
      ensures item.Node? ==> lineno == item.lineno && colOffset == item.colOffset && sourceCode == item.fullSource
      ensures item.Absent? ==> lineno.None? && colOffset.None? && sourceCode.None?
    {
      match item
      case Tuple(elems) =>
        // a tuple is stored directly, without the set-once rule
        lineno, colOffset := elems[0], elems[1];
      case Node(l, c, src) =>
        SetErrPos(l, c);
        if src.Some? {
          sourceCode := src;
        }
      case Absent =>
    }

    /** `set_err_pos`: first write wins; the column sticks with the call that set the line. */
    method SetErrPos(lineno: Option<int>, colOffset: Option<int>)
      modifies this`lineno, this`colOffset
      ensures Pos() == SetOnce(old(Pos()), lineno, colOffset)
    {
      if Falsy(this.lineno) {
        this.lineno := lineno;
        if Falsy(this.colOffset) {
          this.colOffset := colOffset;
        }
      }
    }

    /** `__str__`: reads the fields and changes none of them. */
    function ToString(annotate: Annotator, config: ErrorConfig): string
      reads this
    {
      Render(message, Pos(), sourceCode, annotate, config)
    }
  }

  /** An unexpected failure inside the compiler itself; it has no position. */
  class CompilerPanic {
    const message: string

    constructor (message: string)
      ensures this.message == message
    {
      this.message := message;
    }

    /** `__str__`: the message followed by the request to report the bug. */
    function ToString(): (r: string)
      ensures |r| == |message| + |PanicSuffix|
      ensures r[..|message|] == message && r[|message|..] == PanicSuffix
    {
      message + PanicSuffix
    }
  }

  /** Malformed compiler input JSON, optionally positioned within that input. */
  class JSONError {
    const msg: string
    const lineno: Option<int>
    const colOffset: Option<int>

    constructor (msg: string, lineno: Option<int> := None, colOffset: Option<int> := None)
      ensures this.msg == msg && this.lineno == lineno && this.colOffset == colOffset
    {
      this.msg := msg;
      this.lineno := lineno;
      this.colOffset := colOffset;
    }
  }
}
