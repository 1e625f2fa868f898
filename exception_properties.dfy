/**
 * Properties of the diagnostic model that relate several calls: repeated
 * `set_err_pos` calls as a diagnostic is re-raised through outer passes, and
 * reading a rendered diagnostic back.
 */
module ExceptionProperties {
  import opened Wrappers
  import opened Decimal
  import opened Exceptions

  // ---------------------------------------------------------------------------
  // Repeated set_err_pos calls

  /** The position after `set_err_pos` is called with each of `calls` in turn. */
  function ApplyAll(p: Position, calls: seq<Position>): Position
    decreases |calls|
  {
    if |calls| == 0 then p
    else ApplyAll(SetOnce(p, calls[0].lineno, calls[0].colOffset), calls[1..])
  }

  lemma {:induction false} ApplyAllConcat(p: Position, a: seq<Position>, b: seq<Position>)
    ensures ApplyAll(p, a + b) == ApplyAll(ApplyAll(p, a), b)
    decreases |a|
  {
    if |a| == 0 {
      assert a + b == b;
    } else {
      assert (a + b)[1..] == a[1..] + b;
      ApplyAllConcat(SetOnce(p, a[0].lineno, a[0].colOffset), a[1..], b);
    }
  }

  /** Once a truthy line is stored, no later sequence of calls moves the position. */
  lemma {:induction false} SettledPositionIsFinal(p: Position, calls: seq<Position>)
    requires !Falsy(p.lineno)
    ensures ApplyAll(p, calls) == p
    decreases |calls|
  {
    if |calls| > 0 {
      SettledPositionIsFinal(p, calls[1..]);
    }
  }

  /** Calls whose lines and columns are all falsy leave the line and the column falsy. */
  lemma {:induction false} FalsyCallsKeepUnset(p: Position, calls: seq<Position>)
    requires Falsy(p.lineno) && Falsy(p.colOffset)
    requires forall i :: 0 <= i < |calls| ==> Falsy(calls[i].lineno) && Falsy(calls[i].colOffset)
    ensures Falsy(ApplyAll(p, calls).lineno) && Falsy(ApplyAll(p, calls).colOffset)
    decreases |calls|
  {
    if |calls| > 0 {
      FalsyCallsKeepUnset(SetOnce(p, calls[0].lineno, calls[0].colOffset), calls[1..]);
    }
  }

  /**
   * The first call that brings a truthy line wins: its line is kept through
   * every later call, whatever those carry. If nothing before it had a truthy
   * column, its column is kept too.
   */
  lemma FirstTruthyLineWins(p: Position, before: seq<Position>, first: Position, after: seq<Position>)
    requires Falsy(p.lineno)
    requires forall i :: 0 <= i < |before| ==> Falsy(before[i].lineno)
    requires !Falsy(first.lineno)
    ensures ApplyAll(p, before + [first] + after).lineno == first.lineno
    ensures Falsy(p.colOffset) && (forall i :: 0 <= i < |before| ==> Falsy(before[i].colOffset)) ==>
      ApplyAll(p, before + [first] + after) == first
  {
    var q := ApplyAll(p, before);
    ApplyAllConcat(p, before + [first], after);
    ApplyAllConcat(p, before, [first]);
    UnsetLineStaysUnset(p, before);
    var r := SetOnce(q, first.lineno, first.colOffset);
    assert ApplyAll(q, [first]) == ApplyAll(r, []);
    SettledPositionIsFinal(r, after);
    if Falsy(p.colOffset) && (forall i :: 0 <= i < |before| ==> Falsy(before[i].colOffset)) {
      FalsyCallsKeepUnset(p, before);
    }
  }

  /** Calls that all bring falsy lines leave the line falsy. */
  lemma {:induction false} UnsetLineStaysUnset(p: Position, calls: seq<Position>)
    requires Falsy(p.lineno)
    requires forall i :: 0 <= i < |calls| ==> Falsy(calls[i].lineno)
    ensures Falsy(ApplyAll(p, calls).lineno)
    decreases |calls|
  {
    if |calls| > 0 {
      UnsetLineStaysUnset(SetOnce(p, calls[0].lineno, calls[0].colOffset), calls[1..]);
    }
  }

  // ---------------------------------------------------------------------------
  // Reading a rendered diagnostic back

  /** The index of the first `c` in `s`, or `|s|` if there is none. */
  function IndexOf(s: string, c: char): (k: nat)
    ensures k <= |s|
    ensures forall j :: 0 <= j < k ==> s[j] != c
    ensures k < |s| ==> s[k] == c
    decreases |s|
  {
    if |s| == 0 then 0 else if s[0] == c then 0 else 1 + IndexOf(s[1..], c)
  }

  lemma IndexOfAfterPrefix(a: string, c: char, b: string)
    requires forall j :: 0 <= j < |a| ==> a[j] != c
    ensures IndexOf(a + [c] + b, c) == |a|
  {
    var s := a + [c] + b;
    var k := IndexOf(s, c);
    assert s[|a|] == c;
  }

  /** The line, column and message of a rendered "line L:C message". */
  datatype LocatedParts = LocatedParts(lineno: int, colOffset: int, message: string)

  /** Splits "line L:C message" at the first ':' and the first ' ' after it. */
  function ParseLocated(r: string): Option<LocatedParts> {
    if |r| < 5 || r[..5] != "line " then None
    else
      var rest := r[5..];
      var i := IndexOf(rest, ':');
      if i == |rest| then None
      else
        var tail := rest[i + 1..];
        var j := IndexOf(tail, ' ');
        if j == |tail| then None
        else
          match (ParseInt(rest[..i]), ParseInt(tail[..j]))
          case (Some(l), Some(c)) => Some(LocatedParts(l, c, tail[j + 1..]))
          case _ => None
  }

  lemma IntToStringHasNo(i: int, c: char)
    requires c != '-' && !IsDigit(c)
    ensures forall j :: 0 <= j < |IntToString(i)| ==> IntToString(i)[j] != c
  {
  }

  /** Splitting "line a:b m" finds `a` and `b` when neither holds its separator. */
  lemma ParseLocatedSplits(a: string, b: string, m: string)
    requires forall j :: 0 <= j < |a| ==> a[j] != ':'
    requires forall j :: 0 <= j < |b| ==> b[j] != ' '
    ensures ParseLocated("line " + a + ":" + b + " " + m)
         == match (ParseInt(a), ParseInt(b))
            case (Some(l), Some(c)) => Some(LocatedParts(l, c, m))
            case _ => None
  {
    var r := "line " + a + ":" + b + " " + m;
    var rest := r[5..];
    assert r[..5] == "line ";
    assert rest == a + [':'] + (b + " " + m);
    IndexOfAfterPrefix(a, ':', b + " " + m);
    var tail := rest[|a| + 1..];
    assert tail == b + [' '] + m;
    IndexOfAfterPrefix(b, ' ', m);
    assert rest[..|a|] == a;
    assert tail[..|b|] == b;
    assert tail[|b| + 1..] == m;
  }

  /**
   * The second tier loses nothing: the line, the column and the whole
   * message (which may itself contain ':' and ' ') are read back from it.
   */
  lemma LocatedRenderingRoundTrip(message: string, lineno: int, colOffset: int,
                                  annotate: Annotator, config: ErrorConfig)
    ensures ParseLocated(Render(message, Position(Some(lineno), Some(colOffset)), None, annotate, config))
            == Some(LocatedParts(lineno, colOffset, message))
  {
    var ls, cs := IntToString(lineno), IntToString(colOffset);
    assert Render(message, Position(Some(lineno), Some(colOffset)), None, annotate, config)
        == "line " + ls + ":" + cs + " " + message;
    IntToStringHasNo(lineno, ':');
    IntToStringHasNo(colOffset, ' ');
    ParseLocatedSplits(ls, cs, message);
    IntToStringRoundTrip(lineno);
    IntToStringRoundTrip(colOffset);
  }

  /**
   * With a column, the first tier is the second tier's text followed by a
   * newline and the annotation; without source the annotator is never used,
   * so the rendered text cannot hold an excerpt.
   */
  lemma AnnotatedExtendsLocated(message: string, lineno: int, colOffset: int, source: string,
                                annotate: Annotator, config: ErrorConfig)
    ensures Render(message, Position(Some(lineno), Some(colOffset)), Some(source), annotate, config)
         == Render(message, Position(Some(lineno), Some(colOffset)), None, annotate, config) + "\n"
            + annotate(source, lineno, Some(colOffset), config.contextLines, config.lineNumbers)
  {
  }

  lemma RenderWithoutSourceIgnoresAnnotator(message: string, pos: Position,
                                            annotate1: Annotator, config1: ErrorConfig,
                                            annotate2: Annotator, config2: ErrorConfig)
    ensures Render(message, pos, None, annotate1, config1) == Render(message, pos, None, annotate2, config2)
  {
  }

  // ---------------------------------------------------------------------------
  // A diagnostic re-raised through an outer pass

  /**
   * An inner pass raises a diagnostic positioned at `inner`; an outer pass
   * catches it and calls `set_err_pos` with its own, coarser position. The
   * inner position survives, and so does the attached source.
   */
  method ReraiseKeepsInnerPosition(kind: Kind, message: string, inner: Position, source: Option<string>,
                                   outer: Position)
    returns (lineno: Option<int>, colOffset: Option<int>, sourceCode: Option<string>)
    requires kind != PythonSyntax
    requires !Falsy(inner.lineno)
    ensures lineno == inner.lineno && colOffset == inner.colOffset && sourceCode == source
  {
    var e := new ParserException(kind, message, Node(inner.lineno, inner.colOffset, source));
    e.SetErrPos(outer.lineno, outer.colOffset);
    lineno, colOffset, sourceCode := e.lineno, e.colOffset, e.sourceCode;
  }

  // ---------------------------------------------------------------------------
  // A Python syntax error, adapted and rendered

  /**
   * A `SyntaxError` from Python's parser with a line and an offset, adapted
   * together with the full source, renders as "line L:C SyntaxError: msg",
   * a newline, and the annotation of the source at that line and column.
   */
  method SyntaxErrorRendering(msg: string, lineno: int, offset: int, source: string,
                              annotate: Annotator, config: ErrorConfig)
    returns (r: string)
    ensures r == "line " + IntToString(lineno) + ":" + IntToString(offset) + " SyntaxError: " + msg + "\n"
                 + annotate(source, lineno, Some(offset), config.contextLines, config.lineNumbers)
  {
    var e := new ParserException.FromSyntaxError(HostSyntaxError(msg, Some(lineno), Some(offset)), source);
    r := e.ToString(annotate, config);
    assert r == Render(SyntaxErrorPrefix + msg, Position(Some(lineno), Some(offset)), Some(source), annotate, config);
    PrefixedMessageRendering(msg, lineno, offset, source, annotate, config);
  }

  /** The first tier with the message prefix spelled out. */
  lemma PrefixedMessageRendering(msg: string, lineno: int, offset: int, source: string,
                                 annotate: Annotator, config: ErrorConfig)
    ensures Render(SyntaxErrorPrefix + msg, Position(Some(lineno), Some(offset)), Some(source), annotate, config)
         == "line " + IntToString(lineno) + ":" + IntToString(offset) + " SyntaxError: " + msg + "\n"
            + annotate(source, lineno, Some(offset), config.contextLines, config.lineNumbers)
  {
    var head := "line " + IntToString(lineno) + ":" + IntToString(offset) + " ";
    var ann := annotate(source, lineno, Some(offset), config.contextLines, config.lineNumbers);
    assert ColumnText(Some(offset)) == IntToString(offset);
    assert Render(SyntaxErrorPrefix + msg, Position(Some(lineno), Some(offset)), Some(source), annotate, config)
        == head + (SyntaxErrorPrefix + msg) + "\n" + ann;
    assert head + (SyntaxErrorPrefix + msg) == head + "SyntaxError: " + msg;
  }
}
