/**
 * The script interpreter (painter/lang/parser.go).
 *
 * A Parser keeps session state between calls of Parse: the last background fill,
 * the last background rectangle, the figures created so far, the pending moves and
 * the update request.  Figures are records in the shared arena (Ops.Arena); the
 * parser's figure list and each Move hold arena indices, so a Move refers to exactly
 * the figures in the list at the moment it was parsed.
 */
module Lang {
  import opened Wrappers
  import opened Ops
  import opened Text

  datatype ParseError =
    | UnknownCommand(command: string)
    | WrongArgCount(command: string, expected: nat, actual: nat)
    | InvalidArguments(command: string)

  /**
   * The fields of Parser.  lastBgColor is nil (None) or one of the wrapped fills;
   * moveOps holds only Move operations, so it is kept as a sequence of Move values.
   */
  datatype ParserState = ParserState(
    lastBgColor: Option<Func>,
    lastBgRect: Option<BgRectangle>,
    figures: seq<nat>,
    moveOps: seq<Move>,
    updateOp: bool)

  /** The parser together with the figure arena it allocates into. */
  datatype Session = Session(parser: ParserState, heap: seq<Figure>)

  /** The zero Parser, `&Parser{}`. */
  const Fresh: ParserState := ParserState(None, None, [], [], false)

  predicate AllNil(p: ParserState)
  {
    p.lastBgColor.None? && p.lastBgRect.None? && |p.figures| == 0 && |p.moveOps| == 0 && !p.updateOp
  }

  /** initialize: the default ResetScreen background when every field is empty; the update request cleared. */
  function AfterInit(p: ParserState): (q: ParserState)
    ensures !q.updateOp
    ensures q.(lastBgColor := p.lastBgColor, updateOp := p.updateOp) == p
    ensures q.lastBgColor != p.lastBgColor ==> AllNil(p) && q.lastBgColor == Some(ResetScreen)
    ensures Started(p) ==> q.lastBgColor.Some?
  {
    var q := if AllNil(p) then p.(lastBgColor := Some(ResetScreen)) else p;
    q.(updateOp := false)
  }

  /** The state the `reset` command leaves: resetState, then the ResetScreen background. */
  const AfterReset: ParserState := ParserState(Some(ResetScreen), None, [], [], false)

  /** The number of arguments a command takes, for the commands that check it. */
  function Arity(command: string): Option<nat>
  {
    if command == "bgrect" then Some(4)
    else if command == "figure" || command == "move" then Some(2)
    else None
  }

  predicate Known(command: string)
  {
    command in {"white", "green", "update", "bgrect", "figure", "move", "reset"}
  }

  /**
   * The numeric arguments of a command that takes n of them: the argument-count check,
   * then every argument read with ParseFloat.
   */
  function Arguments(command: string, args: seq<string>, n: nat): (r: Result<seq<real>, ParseError>)
    ensures r.Success? <==> |args| == n && forall k :: 0 <= k < |args| ==> ParseFloat(args[k]).Some?
    ensures r.Success? ==> |r.value| == n && forall k :: 0 <= k < n ==> r.value[k] == ParseFloat(args[k]).value
    ensures r.Failure? && |args| != n ==> r.error == WrongArgCount(command, n, |args|)
    ensures r.Failure? && |args| == n ==> r.error == InvalidArguments(command)
  {
    if |args| != n then Failure(WrongArgCount(command, n, |args|))
    else if forall k :: 0 <= k < |args| ==> ParseFloat(args[k]).Some? then
      Success(seq(|args|, k requires 0 <= k < |args| => ParseFloat(args[k]).value))
    else Failure(InvalidArguments(command))
  }

  /** parse: the effect of one script line on the session, or the error it is rejected with. */
  function AfterLine(s: Session, line: string): (r: Result<Session, ParseError>)
    ensures r.Success? ==> s.heap <= r.value.heap && |r.value.heap| <= |s.heap| + 1
  {
    var parts := Fields(line);
    if parts == [] then Success(s) else Command(s, parts[0], parts[1..])
  }

  /** The switch on the instruction of a non-blank line. */
  function Command(s: Session, command: string, args: seq<string>): (r: Result<Session, ParseError>)
    ensures r.Success? ==> s.heap <= r.value.heap && |r.value.heap| <= |s.heap| + 1
    ensures r.Failure? ==> r.error.command == command
  {
    var p := s.parser;
    if command == "white" then Success(s.(parser := p.(lastBgColor := Some(WhiteFill))))
    else if command == "green" then Success(s.(parser := p.(lastBgColor := Some(GreenFill))))
    else if command == "update" then Success(s.(parser := p.(updateOp := true)))
    else if command == "bgrect" then
      match Arguments(command, args, 4)
      case Failure(e) => Failure(e)
      case Success(v) =>
        Success(s.(parser := p.(lastBgRect := Some(BgRectangle(Scale(v[0]), Scale(v[1]), Scale(v[2]), Scale(v[3]))))))
    else if command == "figure" then
      match Arguments(command, args, 2)
      case Failure(e) => Failure(e)
      case Success(v) =>
        Success(Session(p.(figures := p.figures + [|s.heap|]), s.heap + [Figure(Scale(v[0]), Scale(v[1]), Red)]))
    else if command == "move" then
      match Arguments(command, args, 2)
      case Failure(e) => Failure(e)
      case Success(v) =>
        Success(s.(parser := p.(moveOps := p.moveOps + [Move(Scale(v[0]), Scale(v[1]), p.figures)])))
    else if command == "reset" then Success(s.(parser := AfterReset))
    else Failure(UnknownCommand(command))
  }

  /** The session after some lines, and the error of the line that stopped them, if any. */
  datatype Run = Run(session: Session, error: Option<ParseError>)

  /** Parse's loop: lines in order, stopping at the first error with the state reached so far. */
  function AfterLines(s: Session, lines: seq<string>): Run
    decreases |lines|
  {
    if lines == [] then Run(s, None)
    else
      var r := AfterLines(s, lines[..|lines| - 1]);
      if r.error.Some? then r
      else
        match AfterLine(r.session, lines[|lines| - 1])
        case Success(s') => Run(s', None)
        case Failure(e) => Run(r.session, Some(e))
  }

  function MoveOps(moves: seq<Move>): (ops: seq<Op>)
    ensures |ops| == |moves| && forall k :: 0 <= k < |moves| ==> ops[k] == OpMove(moves[k])
  {
    seq(|moves|, k requires 0 <= k < |moves| => OpMove(moves[k]))
  }

  function FigureOps(ids: seq<nat>): (ops: seq<Op>)
    ensures |ops| == |ids| && forall k :: 0 <= k < |ids| ==> ops[k] == OpFigure(ids[k])
  {
    seq(|ids|, k requires 0 <= k < |ids| => OpFigure(ids[k]))
  }

  /** The batch finalResult returns and the parser state it leaves. */
  datatype Flat = Flat(batch: seq<Op>, parser: ParserState)

  /** finalResult: the fields flattened in category order; the pending moves are dropped. */
  function Flatten(p: ParserState): (f: Flat)
    ensures f.parser == p.(moveOps := [])
  {
    Flat((if p.lastBgColor.Some? then [OpFunc(p.lastBgColor.value)] else [])
         + (if p.lastBgRect.Some? then [OpBgRect(p.lastBgRect.value)] else [])
         + MoveOps(p.moveOps)
         + FigureOps(p.figures)
         + (if p.updateOp then [OpUpdate] else []),
         p.(moveOps := []))
  }

  /** The state in which Parse returns the bare [UpdateOp] instead of calling finalResult. */
  function IsBareUpdate(p: ParserState): (bare: bool)
    ensures bare ==> Flatten(p).batch == [OpFunc(ResetScreen), OpUpdate]
  {
    p.updateOp && p.lastBgColor == Some(ResetScreen) && p.lastBgRect.None?
    && |p.figures| == 0 && |p.moveOps| == 0
  }

  /** What Parse returns, with the session it leaves (the state reached so far on an error). */
  datatype ParseOutcome = ParseOutcome(result: Result<seq<Op>, ParseError>, session: Session)

  /** Parse after its line loop: the error, the bare update, or finalResult. */
  function Finish(r: Run): (o: ParseOutcome)
    ensures o.result.Failure? <==> r.error.Some?
    ensures o.result.Failure? ==> o.result.error == r.error.value && o.session == r.session
    ensures o.result.Success? ==> o.session.parser == r.session.parser.(moveOps := [])
    ensures o.session.heap == r.session.heap
  {
    if r.error.Some? then ParseOutcome(Failure(r.error.value), r.session)
    else if IsBareUpdate(r.session.parser) then ParseOutcome(Success([OpUpdate]), r.session)
    else
      var f := Flatten(r.session.parser);
      ParseOutcome(Success(f.batch), r.session.(parser := f.parser))
  }

  /** Parse: initialize, the lines, then the batch. */
  function Interpret(s: Session, lines: seq<string>): (o: ParseOutcome)
    ensures o.result.Success? ==> o.session.parser.moveOps == []
  {
    Finish(AfterLines(s.(parser := AfterInit(s.parser)), lines))
  }

  // ---------------------------------------------------------------------------
  // The session invariant

  predicate StrictlyIncreasing(ids: seq<nat>)
  {
    forall i, j :: 0 <= i < j < |ids| ==> ids[i] < ids[j]
  }

  /**
   * The parser's fields over an arena of n figures: the background is a fill, the
   * figure indices exist and are in creation order, and every pending move holds a
   * prefix of the figure list.
   */
  predicate StateValid(p: ParserState, n: nat)
  {
    && p.lastBgColor != Some(StopRequest)
    && StrictlyIncreasing(p.figures)
    && (forall k :: 0 <= k < |p.figures| ==> p.figures[k] < n)
    && (forall j :: 0 <= j < |p.moveOps| ==> p.moveOps[j].figures <= p.figures)
  }

  predicate SessionValid(s: Session)
  {
    StateValid(s.parser, |s.heap|)
  }

  lemma {:induction false} LineKeepsValid(s: Session, line: string)
    requires SessionValid(s)
    requires AfterLine(s, line).Success?
    ensures SessionValid(AfterLine(s, line).value)
    ensures s.heap <= AfterLine(s, line).value.heap
  {
    var parts := Fields(line);
    if parts != [] && parts[0] == "figure" {
      var s' := AfterLine(s, line).value;
      var p := s.parser;
      assert s'.parser.figures == p.figures + [|s.heap|];
      forall j | 0 <= j < |p.moveOps|
        ensures s'.parser.moveOps[j].figures <= s'.parser.figures
      {
        assert p.moveOps[j].figures <= p.figures;
      }
    }
  }

  lemma {:induction false} LinesKeepValid(s: Session, lines: seq<string>)
    requires SessionValid(s)
    ensures SessionValid(AfterLines(s, lines).session)
    ensures s.heap <= AfterLines(s, lines).session.heap
    decreases |lines|
  {
    if lines != [] {
      var r := AfterLines(s, lines[..|lines| - 1]);
      LinesKeepValid(s, lines[..|lines| - 1]);
      if r.error.None? && AfterLine(r.session, lines[|lines| - 1]).Success? {
        LineKeepsValid(r.session, lines[|lines| - 1]);
      }
    }
  }

  /** Every operation of a flattened valid state refers to figures of the arena. */
  lemma FlattenWellFormed(p: ParserState, n: nat)
    requires StateValid(p, n)
    ensures AllWellFormed(Flatten(p).batch, n)
    ensures StateValid(Flatten(p).parser, n)
  {
    var b := Flatten(p).batch;
    forall j | 0 <= j < |p.moveOps|
      ensures WellFormed(OpMove(p.moveOps[j]), n)
    {
      var m := p.moveOps[j];
      assert m.figures <= p.figures;
      assert forall k :: 0 <= k < |m.figures| ==> m.figures[k] == p.figures[k];
    }
  }

  /**
   * Parse keeps the session valid, only appends to the arena, and returns a batch
   * whose operations all refer to figures of the arena it leaves.
   */
  lemma InterpretKeepsValid(s: Session, lines: seq<string>)
    requires SessionValid(s)
    ensures SessionValid(Interpret(s, lines).session)
    ensures s.heap <= Interpret(s, lines).session.heap
    ensures Interpret(s, lines).result.Success? ==>
              AllWellFormed(Interpret(s, lines).result.value, |Interpret(s, lines).session.heap|)
  {
    var s1 := s.(parser := AfterInit(s.parser));
    assert SessionValid(s1);
    LinesKeepValid(s1, lines);
    var r := AfterLines(s1, lines);
    if r.error.None? && !IsBareUpdate(r.session.parser) {
      FlattenWellFormed(r.session.parser, |r.session.heap|);
    }
  }

  // ---------------------------------------------------------------------------
  // Lines and errors

  /** A blank or white-space-only line changes nothing. */
  lemma BlankLineChangesNothing(s: Session, line: string)
    requires forall i :: 0 <= i < |line| ==> IsSpace(line[i])
    ensures AfterLine(s, line) == Success(s)
  {
    FieldsOfBlank(line);
  }

  /** A line is accepted exactly when its command is known, with the right number of numeric arguments. */
  predicate LineWellFormed(parts: seq<string>)
  {
    parts == []
    || (Known(parts[0])
        && (Arity(parts[0]).Some? ==>
              |parts| - 1 == Arity(parts[0]).value
              && forall k :: 1 <= k < |parts| ==> ParseFloat(parts[k]).Some?))
  }

  /** The error a rejected line reports, by the first check it fails. */
  function ExpectedError(parts: seq<string>): ParseError
    requires parts != []
  {
    if !Known(parts[0]) then UnknownCommand(parts[0])
    else if Arity(parts[0]).Some? && |parts| - 1 != Arity(parts[0]).value
    then WrongArgCount(parts[0], Arity(parts[0]).value, |parts| - 1)
    else InvalidArguments(parts[0])
  }

  lemma LineAcceptedIff(s: Session, line: string)
    ensures AfterLine(s, line).Success? <==> LineWellFormed(Fields(line))
    ensures AfterLine(s, line).Failure? ==> AfterLine(s, line).error == ExpectedError(Fields(line))
  {
    var parts := Fields(line);
    if parts != [] {
      var args := parts[1..];
      assert forall k :: 1 <= k < |parts| ==> parts[k] == args[k - 1];
      assert forall k :: 0 <= k < |args| ==> args[k] == parts[k + 1];
    }
  }

  /** Once a line has been rejected, the lines after it change nothing. */
  lemma ErrorStaysFrom(s: Session, lines: seq<string>, k: nat)
    requires k <= |lines|
    requires AfterLines(s, lines[..k]).error.Some?
    ensures AfterLines(s, lines) == AfterLines(s, lines[..k])
  {
    assert lines == lines[..k] + lines[k..];
    AfterLinesAppend(s, lines[..k], lines[k..]);
  }

  /**
   * Parsing aborts at the first rejected line: Parse reports that line's error, returns
   * no batch, and the lines after it have no effect.
   */
  lemma {:induction false} FirstErrorAborts(s: Session, lines: seq<string>, k: nat)
    requires k < |lines|
    requires AfterLines(s.(parser := AfterInit(s.parser)), lines[..k]).error.None?
    requires AfterLine(AfterLines(s.(parser := AfterInit(s.parser)), lines[..k]).session, lines[k]).Failure?
    ensures Interpret(s, lines).result
         == Failure(AfterLine(AfterLines(s.(parser := AfterInit(s.parser)), lines[..k]).session, lines[k]).error)
    ensures Interpret(s, lines).session == AfterLines(s.(parser := AfterInit(s.parser)), lines[..k]).session
  {
    var s1 := s.(parser := AfterInit(s.parser));
    assert lines[..k + 1][..k] == lines[..k];
    assert lines[..k + 1][k] == lines[k];
    ErrorStaysFrom(s1, lines, k + 1);
  }

  // ---------------------------------------------------------------------------
  // The batch layout

  /** The position of each kind of operation in a batch. */
  function Category(op: Op): nat
  {
    match op
    case OpFunc(_) => 0
    case OpBgRect(_) => 1
    case OpMove(_) => 2
    case OpFigure(_) => 3
    case OpUpdate => 4
    case OpList(_) => 5
  }

  /** The members of one category, in batch order. */
  function Only(ops: seq<Op>, c: nat): seq<Op>
  {
    if ops == [] then [] else (if Category(ops[0]) == c then [ops[0]] else []) + Only(ops[1..], c)
  }

  lemma {:induction false} OnlyAppend(a: seq<Op>, b: seq<Op>, c: nat)
    ensures Only(a + b, c) == Only(a, c) + Only(b, c)
    decreases |a|
  {
    if a == [] {
      assert a + b == b;
    } else {
      assert (a + b)[1..] == a[1..] + b;
      assert (a + b)[0] == a[0];
      OnlyAppend(a[1..], b, c);
      var h := if Category(a[0]) == c then [a[0]] else [];
      assert Only(a + b, c) == h + Only(a[1..] + b, c);
      assert Only(a, c) == h + Only(a[1..], c);
    }
  }

  lemma {:induction false} OnlyUniform(ops: seq<Op>, d: nat, c: nat)
    requires Uniform(ops, d)
    ensures Only(ops, c) == if c == d then ops else []
    decreases |ops|
  {
    if ops != [] {
      OnlyUniform(ops[1..], d, c);
    }
  }

  predicate CategorySorted(ops: seq<Op>)
  {
    forall i, j :: 0 <= i < j < |ops| ==> Category(ops[i]) <= Category(ops[j])
  }

  predicate Uniform(ops: seq<Op>, c: nat)
  {
    forall k :: 0 <= k < |ops| ==> Category(ops[k]) == c
  }

  lemma SortedThenUniform(x: seq<Op>, y: seq<Op>, c: nat)
    requires CategorySorted(x) && Uniform(y, c)
    requires forall k :: 0 <= k < |x| ==> Category(x[k]) <= c
    ensures CategorySorted(x + y)
    ensures forall k :: 0 <= k < |x + y| ==> Category((x + y)[k]) <= c
  {
  }

  /** Five runs of categories 0 to 4, in that order, form a sorted batch. */
  lemma SortedParts(a: seq<Op>, b: seq<Op>, c: seq<Op>, d: seq<Op>, e: seq<Op>)
    requires Uniform(a, 0) && Uniform(b, 1) && Uniform(c, 2) && Uniform(d, 3) && Uniform(e, 4)
    ensures CategorySorted(a + b + c + d + e)
  {
    SortedThenUniform([], a, 0);
    assert [] + a == a;
    SortedThenUniform(a, b, 1);
    SortedThenUniform(a + b, c, 2);
    SortedThenUniform(a + b + c, d, 3);
    SortedThenUniform(a + b + c + d, e, 4);
  }

  lemma OnlyAppendFive(a: seq<Op>, b: seq<Op>, c: seq<Op>, d: seq<Op>, e: seq<Op>, cat: nat)
    ensures Only(a + b + c + d + e, cat)
         == Only(a, cat) + Only(b, cat) + Only(c, cat) + Only(d, cat) + Only(e, cat)
  {
    OnlyAppend(a + b + c + d, e, cat);
    OnlyAppend(a + b + c, d, cat);
    OnlyAppend(a + b, c, cat);
    OnlyAppend(a, b, cat);
  }

  lemma OnlyOfParts(a: seq<Op>, b: seq<Op>, c: seq<Op>, d: seq<Op>, e: seq<Op>, cat: nat)
    requires Uniform(a, 0) && Uniform(b, 1) && Uniform(c, 2) && Uniform(d, 3) && Uniform(e, 4)
    ensures Only(a + b + c + d + e, cat)
         == (if cat == 0 then a else if cat == 1 then b else if cat == 2 then c
             else if cat == 3 then d else if cat == 4 then e else [])
  {
    OnlyAppendFive(a, b, c, d, e, cat);
    OnlyUniform(a, 0, cat);
    OnlyUniform(b, 1, cat);
    OnlyUniform(c, 2, cat);
    OnlyUniform(d, 3, cat);
    OnlyUniform(e, 4, cat);
    var none: seq<Op> := [];
    if cat == 0 {
      assert a + none + none + none + none == a;
    } else if cat == 1 {
      assert none + b + none + none + none == b;
    } else if cat == 2 {
      assert none + none + c + none + none == c;
    } else if cat == 3 {
      assert none + none + none + d + none == d;
    } else if cat == 4 {
      assert none + none + none + none + e == e;
    } else {
      assert none + none + none + none + none == none;
    }
  }

  /** The part of Flatten's batch that holds the operations of category cat. */
  function Section(p: ParserState, cat: nat): seq<Op>
  {
    if cat == 0 then (if p.lastBgColor.Some? then [OpFunc(p.lastBgColor.value)] else [])
    else if cat == 1 then (if p.lastBgRect.Some? then [OpBgRect(p.lastBgRect.value)] else [])
    else if cat == 2 then MoveOps(p.moveOps)
    else if cat == 3 then FigureOps(p.figures)
    else if cat == 4 then (if p.updateOp then [OpUpdate] else [])
    else []
  }

  lemma OnlyOfFlatten(p: ParserState, cat: nat)
    ensures Only(Flatten(p).batch, cat) == Section(p, cat)
  {
    var a := if p.lastBgColor.Some? then [OpFunc(p.lastBgColor.value)] else [];
    var b := if p.lastBgRect.Some? then [OpBgRect(p.lastBgRect.value)] else [];
    var c, d := MoveOps(p.moveOps), FigureOps(p.figures);
    var e := if p.updateOp then [OpUpdate] else [];
    OnlyOfParts(a, b, c, d, e, cat);
  }

  /**
   * finalResult's ordering contract: background fill, background rectangle, moves in
   * creation order, figures in creation order, UpdateOp, whatever the order of the script.
   */
  lemma FlattenLayout(p: ParserState)
    ensures CategorySorted(Flatten(p).batch)
    ensures Only(Flatten(p).batch, 0) == if p.lastBgColor.Some? then [OpFunc(p.lastBgColor.value)] else []
    ensures Only(Flatten(p).batch, 1) == if p.lastBgRect.Some? then [OpBgRect(p.lastBgRect.value)] else []
    ensures Only(Flatten(p).batch, 2) == MoveOps(p.moveOps)
    ensures Only(Flatten(p).batch, 3) == FigureOps(p.figures)
    ensures Only(Flatten(p).batch, 4) == if p.updateOp then [OpUpdate] else []
    ensures forall cat :: cat > 4 ==> Only(Flatten(p).batch, cat) == []
  {
    var a := if p.lastBgColor.Some? then [OpFunc(p.lastBgColor.value)] else [];
    var b := if p.lastBgRect.Some? then [OpBgRect(p.lastBgRect.value)] else [];
    assert CategorySorted(Flatten(p).batch) by {
      SortedParts(a, b, MoveOps(p.moveOps), FigureOps(p.figures), if p.updateOp then [OpUpdate] else []);
    }
    assert Only(Flatten(p).batch, 0) == Section(p, 0) by { OnlyOfFlatten(p, 0); }
    assert Only(Flatten(p).batch, 1) == Section(p, 1) by { OnlyOfFlatten(p, 1); }
    assert Only(Flatten(p).batch, 2) == Section(p, 2) by { OnlyOfFlatten(p, 2); }
    assert Only(Flatten(p).batch, 3) == Section(p, 3) by { OnlyOfFlatten(p, 3); }
    assert Only(Flatten(p).batch, 4) == Section(p, 4) by { OnlyOfFlatten(p, 4); }
    forall cat | cat > 4
      ensures Only(Flatten(p).batch, cat) == []
    {
      OnlyOfFlatten(p, cat);
    }
  }

  // ---------------------------------------------------------------------------
  // Last-wins rules

  predicate SetsBackground(line: string)
  {
    var parts := Fields(line);
    parts != [] && parts[0] in {"white", "green", "reset"}
  }

  function BackgroundOf(command: string): Func
  {
    if command == "white" then WhiteFill else if command == "green" then GreenFill else ResetScreen
  }

  predicate SetsRect(line: string)
  {
    var parts := Fields(line);
    parts != [] && parts[0] in {"bgrect", "reset"}
  }

  lemma {:induction false} LaterLinesKeepBackground(s: Session, lines: seq<string>)
    requires forall k :: 0 <= k < |lines| ==> !SetsBackground(lines[k])
    ensures AfterLines(s, lines).session.parser.lastBgColor == s.parser.lastBgColor
    decreases |lines|
  {
    if lines != [] {
      LaterLinesKeepBackground(s, lines[..|lines| - 1]);
    }
  }

  /** white/green are last-wins: the background is the one set by the last line that sets one. */
  lemma LastBackgroundWins(s: Session, lines: seq<string>, k: nat)
    requires k < |lines| && SetsBackground(lines[k])
    requires forall j :: k < j < |lines| ==> !SetsBackground(lines[j])
    requires AfterLines(s, lines).error.None?
    ensures AfterLines(s, lines).session.parser.lastBgColor == Some(BackgroundOf(Fields(lines[k])[0]))
  {
    var pre, post := lines[..k + 1], lines[k + 1..];
    assert lines == pre + post;
    AfterLinesAppend(s, pre, post);
    LastLine(s, pre);
    assert pre[..k] == lines[..k] && pre[k] == lines[k];
    LaterLinesKeepBackground(AfterLines(s, pre).session, post);
  }

  lemma {:induction false} LaterLinesKeepRect(s: Session, lines: seq<string>)
    requires forall k :: 0 <= k < |lines| ==> !SetsRect(lines[k])
    ensures AfterLines(s, lines).session.parser.lastBgRect == s.parser.lastBgRect
    decreases |lines|
  {
    if lines != [] {
      LaterLinesKeepRect(s, lines[..|lines| - 1]);
    }
  }

  /** bgrect is last-wins: the rectangle is the one of the last accepted bgrect line after any reset. */
  lemma LastRectWins(s: Session, lines: seq<string>, k: nat)
    requires k < |lines| && Fields(lines[k]) != [] && Fields(lines[k])[0] == "bgrect"
    requires Arguments("bgrect", Fields(lines[k])[1..], 4).Success?
    requires forall j :: k < j < |lines| ==> !SetsRect(lines[j])
    requires AfterLines(s, lines).error.None?
    ensures var v := Arguments("bgrect", Fields(lines[k])[1..], 4).value;
            AfterLines(s, lines).session.parser.lastBgRect == Some(BgRectangle(Scale(v[0]), Scale(v[1]), Scale(v[2]), Scale(v[3])))
  {
    var pre, post := lines[..k + 1], lines[k + 1..];
    assert lines == pre + post;
    AfterLinesAppend(s, pre, post);
    LastLine(s, pre);
    assert pre[..k] == lines[..k] && pre[k] == lines[k];
    LaterLinesKeepRect(AfterLines(s, pre).session, post);
  }

  /** The last line of an accepted script is accepted, and the script ends in its effect. */
  lemma LastLine(s: Session, lines: seq<string>)
    requires lines != [] && AfterLines(s, lines).error.None?
    ensures AfterLines(s, lines[..|lines| - 1]).error.None?
    ensures AfterLine(AfterLines(s, lines[..|lines| - 1]).session, lines[|lines| - 1]).Success?
    ensures AfterLines(s, lines).session
         == AfterLine(AfterLines(s, lines[..|lines| - 1]).session, lines[|lines| - 1]).value
  {
  }

  /** Running two scripts one after the other is running their concatenation. */
  lemma {:induction false} AfterLinesAppend(s: Session, pre: seq<string>, post: seq<string>)
    ensures AfterLines(s, pre).error.None? ==>
              AfterLines(s, pre + post) == AfterLines(AfterLines(s, pre).session, post)
    ensures AfterLines(s, pre).error.Some? ==> AfterLines(s, pre + post) == AfterLines(s, pre)
    decreases |post|
  {
    if post == [] {
      assert pre + post == pre;
    } else {
      var all := pre + post;
      assert all[..|all| - 1] == pre + post[..|post| - 1];
      assert all[|all| - 1] == post[|post| - 1];
      AfterLinesAppend(s, pre, post[..|post| - 1]);
    }
  }

  // ---------------------------------------------------------------------------
  // Moves capture a snapshot of the figure list

  predicate IsReset(line: string)
  {
    var parts := Fields(line);
    parts != [] && parts[0] == "reset"
  }

  /**
   * Lines without a reset keep every pending move as it was and only append to the
   * figure list, with indices beyond the arena as it was.
   */
  lemma {:induction false} LinesOnlyAppend(s: Session, lines: seq<string>)
    requires SessionValid(s)
    requires forall k :: 0 <= k < |lines| ==> !IsReset(lines[k])
    ensures var t := AfterLines(s, lines).session;
            && s.parser.moveOps <= t.parser.moveOps
            && s.parser.figures <= t.parser.figures
            && s.heap <= t.heap
            && forall k :: |s.parser.figures| <= k < |t.parser.figures| ==> t.parser.figures[k] >= |s.heap|
    decreases |lines|
  {
    if lines != [] {
      var r := AfterLines(s, lines[..|lines| - 1]);
      LinesOnlyAppend(s, lines[..|lines| - 1]);
      LinesKeepValid(s, lines[..|lines| - 1]);
    }
  }

  /**
   * A Move refers exactly to the figures that existed when its line was parsed:
   * of the figures in the list at the end of the script, it holds those created
   * before it and none created after it.
   */
  lemma MoveSnapshot(s: Session, pre: seq<string>, line: string, post: seq<string>)
    requires SessionValid(s)
    requires AfterLines(s, pre).error.None?
    requires Fields(line) != [] && Fields(line)[0] == "move"
    requires AfterLine(AfterLines(s, pre).session, line).Success?
    requires forall k :: 0 <= k < |post| ==> !IsReset(post[k])
    ensures var before := AfterLines(s, pre).session;
            var t := AfterLines(s, pre + [line] + post).session;
            && |before.parser.moveOps| < |t.parser.moveOps|
            && t.parser.moveOps[|before.parser.moveOps|].figures == before.parser.figures
            && forall k :: 0 <= k < |t.parser.figures| ==>
                 (t.parser.figures[k] in t.parser.moveOps[|before.parser.moveOps|].figures
                  <==> t.parser.figures[k] < |before.heap|)
  {
    var before := AfterLines(s, pre).session;
    LinesKeepValid(s, pre);
    var mid := AfterLine(before, line).value;
    assert AfterLines(s, pre + [line]) == Run(mid, None) by {
      AfterLinesAppend(s, pre, [line]);
      assert [line][..0] == [];
    }
    LineKeepsValid(before, line);
    AfterLinesAppend(s, pre + [line], post);
    LinesOnlyAppend(mid, post);
    var t := AfterLines(s, pre + [line] + post).session;
    var j := |before.parser.moveOps|;
    assert mid.parser.moveOps[j].figures == before.parser.figures;
    assert t.parser.moveOps[j] == mid.parser.moveOps[j];
    var snap := before.parser.figures;
    LinesKeepValid(mid, post);
    assert mid.parser.figures == snap && mid.heap == before.heap;
    forall k | 0 <= k < |t.parser.figures|
      ensures t.parser.figures[k] in snap <==> t.parser.figures[k] < |before.heap|
    {
      var f := t.parser.figures[k];
      if k < |snap| {
        assert f == snap[k];
      } else {
        assert f >= |before.heap|;
        assert forall i :: 0 <= i < |snap| ==> snap[i] < |before.heap|;
      }
    }
  }

  // ---------------------------------------------------------------------------
  // Sessions across calls of Parse

  predicate IsUpdateOrBlank(line: string)
  {
    var parts := Fields(line);
    parts == [] || parts[0] == "update"
  }

  lemma {:induction false} UpdatesOnlySetFlag(s: Session, lines: seq<string>)
    requires forall k :: 0 <= k < |lines| ==> IsUpdateOrBlank(lines[k])
    ensures AfterLines(s, lines).error.None?
    ensures AfterLines(s, lines).session
         == s.(parser := s.parser.(updateOp := s.parser.updateOp || exists k :: 0 <= k < |lines| && Fields(lines[k]) != []))
    decreases |lines|
  {
    if lines != [] {
      var init := lines[..|lines| - 1];
      UpdatesOnlySetFlag(s, init);
      assert forall k :: 0 <= k < |init| ==> init[k] == lines[k];
      assert (exists k :: 0 <= k < |lines| && Fields(lines[k]) != [])
         <==> (exists k :: 0 <= k < |init| && Fields(init[k]) != []) || Fields(lines[|lines| - 1]) != [];
    }
  }

  /**
   * reset discards everything before it: a script whose last reset is followed only by
   * update or blank lines yields exactly [UpdateOp] (or [ResetScreen] without an update).
   */
  lemma ResetThenUpdate(s: Session, pre: seq<string>, line: string, post: seq<string>)
    requires IsReset(line)
    requires AfterLines(s.(parser := AfterInit(s.parser)), pre).error.None?
    requires forall k :: 0 <= k < |post| ==> IsUpdateOrBlank(post[k])
    ensures Interpret(s, pre + [line] + post).result
         == if exists k :: 0 <= k < |post| && Fields(post[k]) != []
            then Success([OpUpdate]) else Success([OpFunc(ResetScreen)])
  {
    var s1 := s.(parser := AfterInit(s.parser));
    var before := AfterLines(s1, pre).session;
    var mid := before.(parser := AfterReset);
    assert AfterLine(before, line) == Success(mid);
    assert AfterLines(s1, pre + [line]) == Run(mid, None) by {
      AfterLinesAppend(s1, pre, [line]);
      assert [line][..0] == [];
    }
    AfterLinesAppend(s1, pre + [line], post);
    UpdatesOnlySetFlag(mid, post);
    assert Flatten(AfterReset).batch == [OpFunc(ResetScreen)] by {
      assert MoveOps([]) == [] && FigureOps([]) == [];
    }
  }

  predicate IsUpdate(line: string)
  {
    var parts := Fields(line);
    parts != [] && parts[0] == "update"
  }

  lemma {:induction false} NoUpdateLineNoFlag(s: Session, lines: seq<string>)
    requires !s.parser.updateOp
    requires forall k :: 0 <= k < |lines| ==> !IsUpdate(lines[k])
    ensures !AfterLines(s, lines).session.parser.updateOp
    decreases |lines|
  {
    if lines != [] {
      NoUpdateLineNoFlag(s, lines[..|lines| - 1]);
    }
  }

  /** The update request does not carry over: without an update line the batch has no UpdateOp. */
  lemma UpdateIsPerParse(s: Session, lines: seq<string>)
    requires forall k :: 0 <= k < |lines| ==> !IsUpdate(lines[k])
    requires Interpret(s, lines).result.Success?
    ensures Only(Interpret(s, lines).result.value, 4) == []
  {
    var s1 := s.(parser := AfterInit(s.parser));
    NoUpdateLineNoFlag(s1, lines);
    FlattenLayout(AfterLines(s1, lines).session.parser);
  }

  /** An empty script flattens whatever the session holds (after initialize). */
  lemma InterpretEmpty(t: Session)
    ensures Interpret(t, []).result == Success(Flatten(AfterInit(t.parser)).batch)
  {
    assert AfterLines(t.(parser := AfterInit(t.parser)), []) == Run(t.(parser := AfterInit(t.parser)), None);
  }

  /** Once initialized, a session always has a background: no line sets it back to nil. */
  lemma {:induction false} BackgroundStaysSet(s: Session, lines: seq<string>)
    requires s.parser.lastBgColor.Some?
    ensures AfterLines(s, lines).session.parser.lastBgColor.Some?
    decreases |lines|
  {
    if lines != [] {
      BackgroundStaysSet(s, lines[..|lines| - 1]);
    }
  }

  /**
   * A Parser built as `&Parser{}` either is still the zero Parser or has a background:
   * initialize sets one on the zero Parser and no line clears it.
   */
  predicate Started(p: ParserState)
  {
    p.lastBgColor.Some? || AllNil(p)
  }

  lemma InterpretKeepsStarted(s: Session, lines: seq<string>)
    requires Started(s.parser)
    ensures Interpret(s, lines).session.parser.lastBgColor.Some?
  {
    var s1 := s.(parser := AfterInit(s.parser));
    BackgroundStaysSet(s1, lines);
  }

  /** A successful Parse that is not the bare update returns the flattened state and keeps it, minus the moves. */
  lemma InterpretFlattens(s: Session, lines: seq<string>)
    requires Started(s.parser)
    requires Interpret(s, lines).result.Success?
    requires !IsBareUpdate(AfterLines(s.(parser := AfterInit(s.parser)), lines).session.parser)
    ensures var p := AfterLines(s.(parser := AfterInit(s.parser)), lines).session.parser;
            && p.lastBgColor.Some?
            && Interpret(s, lines).result.value == Flatten(p).batch
            && Interpret(s, lines).session.parser == p.(moveOps := [])
  {
    var s1 := s.(parser := AfterInit(s.parser));
    BackgroundStaysSet(s1, lines);
  }

  /**
   * After a successful Parse the next Parse starts from the same figures, background and
   * rectangle, without the moves and without the update request: an empty script then
   * redraws them without moving them.
   */
  lemma SessionCarriesOver(s: Session, lines: seq<string>)
    requires Started(s.parser)
    requires Interpret(s, lines).result.Success?
    requires !IsBareUpdate(AfterLines(s.(parser := AfterInit(s.parser)), lines).session.parser)
    ensures var p := AfterLines(s.(parser := AfterInit(s.parser)), lines).session.parser;
            Interpret(Interpret(s, lines).session, []).result
              == Success(Flatten(p.(moveOps := [], updateOp := false)).batch)
  {
    InterpretFlattens(s, lines);
    var t := Interpret(s, lines).session;
    var empty: seq<string> := [];
    assert AfterLines(t.(parser := AfterInit(t.parser)), empty) == Run(t.(parser := AfterInit(t.parser)), None);
  }

  // ---------------------------------------------------------------------------
  // The Parser object

  class Parser {
    var lastBgColor: Option<Func>
    var lastBgRect: Option<BgRectangle>
    var figures: seq<nat>
    var moveOps: seq<Move>
    var updateOp: bool
    /** The arena the parser allocates figures into; batches refer to it. */
    const heap: Arena

    function State(): ParserState
      reads this
    {
      ParserState(lastBgColor, lastBgRect, figures, moveOps, updateOp)
    }

    function Current(): Session
      reads this, heap
    {
      Session(State(), heap.figures)
    }

    ghost predicate Valid()
      reads this, heap
    {
      SessionValid(Current())
    }

    /** `&Parser{}` over the given arena. */
    constructor (heap: Arena)
      ensures State() == Fresh && this.heap == heap
    {
      this.heap := heap;
      lastBgColor, lastBgRect, figures, moveOps, updateOp := None, None, [], [], false;
    }

    method Initialize()
      modifies this
      ensures State() == AfterInit(old(State()))
    {
      if lastBgColor.None? && lastBgRect.None? && |figures| == 0 && |moveOps| == 0 && !updateOp {
        lastBgColor := Some(ResetScreen);
      }
      if updateOp {
        updateOp := false;
      }
    }

    method ResetState()
      modifies this
      ensures State() == Fresh
    {
      lastBgColor := None;
      lastBgRect := None;
      figures := [];
      moveOps := [];
      updateOp := false;
    }

    /** parse: one line; on an error nothing changes and the error is returned. */
    method ParseLine(line: string) returns (err: Option<ParseError>)
      modifies this, heap
      ensures match AfterLine(old(Current()), line)
              case Success(s) => err.None? && Current() == s
              case Failure(e) => err == Some(e) && Current() == old(Current())
    {
      var parts := Fields(line);
      if |parts| == 0 {
        return None;
      }
      var instruction := parts[0];
      var args := parts[1..];
      if instruction == "white" {
        lastBgColor := Some(WhiteFill);
      } else if instruction == "green" {
        lastBgColor := Some(GreenFill);
      } else if instruction == "update" {
        updateOp := true;
      } else if instruction == "bgrect" {
        var v := Arguments("bgrect", args, 4);
        if v.Failure? {
          return Some(v.error);
        }
        var x1, y1, x2, y2 := v.value[0], v.value[1], v.value[2], v.value[3];
        lastBgRect := Some(BgRectangle(Scale(x1), Scale(y1), Scale(x2), Scale(y2)));
      } else if instruction == "figure" {
        var v := Arguments("figure", args, 2);
        if v.Failure? {
          return Some(v.error);
        }
        var id := |heap.figures|;
        heap.figures := heap.figures + [Figure(Scale(v.value[0]), Scale(v.value[1]), Red)];
        figures := figures + [id];
      } else if instruction == "move" {
        var v := Arguments("move", args, 2);
        if v.Failure? {
          return Some(v.error);
        }
        moveOps := moveOps + [Move(Scale(v.value[0]), Scale(v.value[1]), figures)];
      } else if instruction == "reset" {
        ResetState();
        lastBgColor := Some(ResetScreen);
      } else {
        return Some(UnknownCommand(instruction));
      }
      return None;
    }

    /** finalResult: builds the batch by appends and drops the pending moves. */
    method FinalResult() returns (res: seq<Op>)
      modifies this
      ensures Flat(res, State()) == Flatten(old(State()))
    {
      ghost var p := State();
      res := [];
      if lastBgColor.Some? {
        res := res + [OpFunc(lastBgColor.value)];
      }
      if lastBgRect.Some? {
        res := res + [OpBgRect(lastBgRect.value)];
      }
      if |moveOps| != 0 {
        res := res + MoveOps(moveOps);
        moveOps := [];
      }
      ghost var head := res;
      var i := 0;
      while i < |figures|
        invariant 0 <= i <= |figures|
        invariant res == head + FigureOps(figures[..i])
      {
        res := res + [OpFigure(figures[i])];
        i := i + 1;
        assert FigureOps(figures[..i]) == FigureOps(figures[..i - 1]) + [OpFigure(figures[i - 1])];
      }
      assert figures[..i] == figures;
      if updateOp {
        res := res + [OpUpdate];
      }
      assert head == (if p.lastBgColor.Some? then [OpFunc(p.lastBgColor.value)] else [])
                     + (if p.lastBgRect.Some? then [OpBgRect(p.lastBgRect.value)] else [])
                     + MoveOps(p.moveOps);
      assert State() == p.(moveOps := []);
    }

    /** Parse: the lines in order, the bare-update special case, then finalResult. */
    method Parse(lines: seq<string>) returns (result: Result<seq<Op>, ParseError>)
      modifies this, heap
      ensures ParseOutcome(result, Current()) == Interpret(old(Current()), lines)
      ensures old(Valid()) ==> Valid() && old(heap.figures) <= heap.figures
    {
      ghost var s0 := Current();
      Initialize();
      ghost var s1 := Current();
      var i := 0;
      while i < |lines|
        invariant 0 <= i <= |lines|
        invariant AfterLines(s1, lines[..i]) == Run(Current(), None)
      {
        assert lines[..i + 1][..i] == lines[..i];
        var err := ParseLine(lines[i]);
        if err.Some? {
          ErrorStaysFrom(s1, lines, i + 1);
          InterpretKeepsValidIf(s0, lines);
          return Failure(err.value);
        }
        i := i + 1;
      }
      assert lines[..i] == lines;
      if updateOp && lastBgColor == Some(ResetScreen) && lastBgRect.None? && |figures| == 0 && |moveOps| == 0 {
        InterpretKeepsValidIf(s0, lines);
        return Success([OpUpdate]);
      }
      var res := FinalResult();
      InterpretKeepsValidIf(s0, lines);
      return Success(res);
    }
  }

  lemma InterpretKeepsValidIf(s: Session, lines: seq<string>)
    ensures SessionValid(s) ==> SessionValid(Interpret(s, lines).session) && s.heap <= Interpret(s, lines).session.heap
  {
    if SessionValid(s) {
      InterpretKeepsValid(s, lines);
    }
  }
}
