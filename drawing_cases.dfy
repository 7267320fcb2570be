/**
 * Two scripts parsed on a fresh parser and drawn on the loop's 800x800 texture:
 * a move captures the figures created before it, so the order of `figure` and
 * `move` decides whether the figure is drawn moved.
 */
module DrawingCases {
  import opened Wrappers
  import opened Ops
  import opened Text
  import opened Lang
  import opened Drawing
  import opened ParserCases

  const Bounds: Rect := Rect(0, 0, 800, 800)

  const FigureLine: string := "figure 0.5 0.5"
  const MoveLine: string := "move 0.1 0.1"
  const UpdateLine: string := "update"

  /** move 0.1 0.1 on any session: the move by (40, 40) of the figures created so far. */
  lemma MoveCommandAt(s: Session, args: seq<string>)
    requires args == ["0.1", "0.1"]
    ensures Command(s, "move", args)
         == Success(s.(parser := s.parser.(moveOps := s.parser.moveOps + [Move(40, 40, s.parser.figures)])))
  {
    ReadTenth();
    ArgumentsAre("move", args, 2, [0.1, 0.1]);
    assert Scale(0.1) == 40;
  }

  /** figure 0.5 0.5 on any session: a red figure at (200, 200), appended to the arena. */
  lemma FigureLineAt(s: Session, line: string)
    requires line == "figure 0.5 0.5"
    ensures AfterLine(s, line)
         == Success(Session(s.parser.(figures := s.parser.figures + [|s.heap|]), s.heap + [Figure(200, 200, Red)]))
  {
    ThreeWordLine(line);
    var words := ["figure", "0.5", "0.5"];
    LineIs(s, line, words);
    FigureHalfCommand(s, words[1..]);
  }

  /** move 0.1 0.1 as a line on any session. */
  lemma MoveLineAt(s: Session, line: string)
    requires line == "move 0.1 0.1"
    ensures AfterLine(s, line)
         == Success(s.(parser := s.parser.(moveOps := s.parser.moveOps + [Move(40, 40, s.parser.figures)])))
  {
    ThreeWordLine(line);
    var words := ["move", "0.1", "0.1"];
    LineIs(s, line, words);
    MoveCommandAt(s, words[1..]);
  }

  /** update as a line on any session. */
  lemma UpdateLineAt(s: Session, line: string)
    requires line == "update"
    ensures AfterLine(s, line) == Success(s.(parser := s.parser.(updateOp := true)))
  {
    assert Fields(line) == ["update"] by {
      ScriptWordsAreWords();
      FieldsOfOne(line, "update");
    }
    LineIs(s, line, ["update"]);
  }

  // figure, then move, then update

  const Moved1: ParserState := ParserState(Some(ResetScreen), None, [0], [], false)
  const Moved2: ParserState := ParserState(Some(ResetScreen), None, [0], [Move(40, 40, [0])], false)
  const Moved3: ParserState := ParserState(Some(ResetScreen), None, [0], [Move(40, 40, [0])], true)

  lemma FigureFirstPrefix1(f: string)
    requires f == FigureLine
    ensures AfterLines(Started0, [f]) == Run(Session(Moved1, Heap1), None)
  {
    FigureLineAt(Started0, f);
    assert Started0.parser.figures + [|Started0.heap|] == [0];
    assert Started0.parser.(figures := [0]) == Moved1;
    assert Started0.heap + [Figure(200, 200, Red)] == Heap1;
    assert AfterLines(Started0, []) == Run(Started0, None);
    Extend(Started0, [], f, Started0, Session(Moved1, Heap1));
    assert [] + [f] == [f];
  }

  lemma FigureFirstPrefix2(f: string, m: string)
    requires f == FigureLine && m == MoveLine
    ensures AfterLines(Started0, [f, m]) == Run(Session(Moved2, Heap1), None)
  {
    FigureFirstPrefix1(f);
    MoveLineAt(Session(Moved1, Heap1), m);
    assert Moved1.moveOps + [Move(40, 40, Moved1.figures)] == [Move(40, 40, [0])];
    assert Moved1.(moveOps := [Move(40, 40, [0])]) == Moved2;
    Extend(Started0, [f], m, Session(Moved1, Heap1), Session(Moved2, Heap1));
    assert [f] + [m] == [f, m];
  }

  lemma FigureFirstLines(f: string, m: string, u: string)
    requires f == FigureLine && m == MoveLine && u == UpdateLine
    ensures AfterLines(Started0, [f, m, u]) == Run(Session(Moved3, Heap1), None)
  {
    FigureFirstPrefix2(f, m);
    UpdateLineAt(Session(Moved2, Heap1), u);
    Extend(Started0, [f, m], u, Session(Moved2, Heap1), Session(Moved3, Heap1));
    assert [f, m] + [u] == [f, m, u];
  }

  lemma FigureFirstFinish()
    ensures Finish(Run(Session(Moved3, Heap1), None))
         == ParseOutcome(Success([OpFunc(ResetScreen), OpMove(Move(40, 40, [0])), OpFigure(0), OpUpdate])
                         , Session(Moved3.(moveOps := []), Heap1))
  {
    assert !IsBareUpdate(Moved3);
    assert Flatten(Moved3).batch == [OpFunc(ResetScreen), OpMove(Move(40, 40, [0])), OpFigure(0), OpUpdate] by {
      assert MoveOps([Move(40, 40, [0])]) == [OpMove(Move(40, 40, [0]))] && FigureOps([0]) == [OpFigure(0)];
    }
  }

  /** The batch: the default background, the move of figure 0, the figure, update. */
  lemma FigureFirstBatch(f: string, m: string, u: string)
    requires f == FigureLine && m == MoveLine && u == UpdateLine
    ensures Interpret(FreshSession, [f, m, u]).result
         == Success([OpFunc(ResetScreen), OpMove(Move(40, 40, [0])), OpFigure(0), OpUpdate])
    ensures Interpret(FreshSession, [f, m, u]).session.heap == Heap1
  {
    InterpretFresh([f, m, u]);
    FigureFirstLines(f, m, u);
    FigureFirstFinish();
  }

  /** One move holding the only figure of a one-figure arena translates it. */
  lemma OneFigureMoved(f: Figure, m: Move)
    requires m.figures == [0]
    ensures MovesIn([m], 1) && MovesDistinct([m])
    ensures AfterMoves([f], [m]) == [Translate(f, m.x, m.y)]
  {
    AfterMovesAt([f], [m], 0);
    assert [m][1..] == [];
  }

  /** One move holding no figure leaves the arena as it was. */
  lemma NoFigureMoved(f: Figure, m: Move)
    requires m.figures == []
    ensures MovesIn([m], 1) && MovesDistinct([m])
    ensures AfterMoves([f], [m]) == [f]
  {
    AfterMovesAt([f], [m], 0);
    assert [m][1..] == [];
  }

  lemma OneGlyph(figs: seq<Figure>)
    requires |figs| == 1
    ensures Glyphs(figs, [0]) == FigureFills(figs[0])
  {
  }

  /** Drawn, the figure created at (200, 200) appears at (240, 240), on black, and the frame is ready. */
  lemma FigureFirstDrawn()
    ensures AllWellFormed(Flatten(Moved3).batch, 1)
    ensures ApplyList(Flatten(Moved3).batch, Bounds, World(Heap1, []))
         == Outcome(true, World([Figure(240, 240, Red)],
                                [FillRecord(Bounds, Black)] + FigureFills(Figure(240, 240, Red))))
  {
    var w := World(Heap1, []);
    BatchDraws(Moved3, Bounds, w);
    OneFigureMoved(Figure(200, 200, Red), Move(40, 40, [0]));
    assert Translate(Figure(200, 200, Red), 40, 40) == Figure(240, 240, Red);
    OneGlyph([Figure(240, 240, Red)]);
    assert BackgroundFills(Moved3, Bounds) == [FillRecord(Bounds, Black)];
    assert RectFills(Moved3) == [];
  }

  // move, then figure, then update

  const Late1: ParserState := ParserState(Some(ResetScreen), None, [], [Move(40, 40, [])], false)
  const Late2: ParserState := ParserState(Some(ResetScreen), None, [0], [Move(40, 40, [])], false)
  const Late3: ParserState := ParserState(Some(ResetScreen), None, [0], [Move(40, 40, [])], true)

  lemma MoveFirstPrefix1(m: string)
    requires m == MoveLine
    ensures AfterLines(Started0, [m]) == Run(Session(Late1, []), None)
  {
    MoveLineAt(Started0, m);
    assert Started0.parser.moveOps + [Move(40, 40, Started0.parser.figures)] == [Move(40, 40, [])];
    assert Started0.parser.(moveOps := [Move(40, 40, [])]) == Late1;
    assert AfterLines(Started0, []) == Run(Started0, None);
    Extend(Started0, [], m, Started0, Session(Late1, []));
    assert [] + [m] == [m];
  }

  lemma MoveFirstPrefix2(m: string, f: string)
    requires m == MoveLine && f == FigureLine
    ensures AfterLines(Started0, [m, f]) == Run(Session(Late2, Heap1), None)
  {
    MoveFirstPrefix1(m);
    FigureLineAt(Session(Late1, []), f);
    assert Late1.figures + [0] == [0];
    assert Late1.(figures := [0]) == Late2;
    assert [] + [Figure(200, 200, Red)] == Heap1;
    Extend(Started0, [m], f, Session(Late1, []), Session(Late2, Heap1));
    assert [m] + [f] == [m, f];
  }

  lemma MoveFirstLines(m: string, f: string, u: string)
    requires m == MoveLine && f == FigureLine && u == UpdateLine
    ensures AfterLines(Started0, [m, f, u]) == Run(Session(Late3, Heap1), None)
  {
    MoveFirstPrefix2(m, f);
    UpdateLineAt(Session(Late2, Heap1), u);
    Extend(Started0, [m, f], u, Session(Late2, Heap1), Session(Late3, Heap1));
    assert [m, f] + [u] == [m, f, u];
  }

  lemma MoveFirstFinish()
    ensures Finish(Run(Session(Late3, Heap1), None))
         == ParseOutcome(Success([OpFunc(ResetScreen), OpMove(Move(40, 40, [])), OpFigure(0), OpUpdate])
                         , Session(Late3.(moveOps := []), Heap1))
  {
    assert !IsBareUpdate(Late3);
    assert Flatten(Late3).batch == [OpFunc(ResetScreen), OpMove(Move(40, 40, [])), OpFigure(0), OpUpdate] by {
      assert MoveOps([Move(40, 40, [])]) == [OpMove(Move(40, 40, []))] && FigureOps([0]) == [OpFigure(0)];
    }
  }

  /** The batch: the move holds no figure, since none existed when it was parsed. */
  lemma MoveFirstBatch(m: string, f: string, u: string)
    requires m == MoveLine && f == FigureLine && u == UpdateLine
    ensures Interpret(FreshSession, [m, f, u]).result
         == Success([OpFunc(ResetScreen), OpMove(Move(40, 40, [])), OpFigure(0), OpUpdate])
    ensures Interpret(FreshSession, [m, f, u]).session.heap == Heap1
  {
    InterpretFresh([m, f, u]);
    MoveFirstLines(m, f, u);
    MoveFirstFinish();
  }

  /** Drawn, the figure stays where it was created, at (200, 200). */
  lemma MoveFirstDrawn()
    ensures AllWellFormed(Flatten(Late3).batch, 1)
    ensures ApplyList(Flatten(Late3).batch, Bounds, World(Heap1, []))
         == Outcome(true, World(Heap1, [FillRecord(Bounds, Black)] + FigureFills(Figure(200, 200, Red))))
  {
    var w := World(Heap1, []);
    BatchDraws(Late3, Bounds, w);
    NoFigureMoved(Figure(200, 200, Red), Move(40, 40, []));
    OneGlyph(Heap1);
    assert BackgroundFills(Late3, Bounds) == [FillRecord(Bounds, Black)];
    assert RectFills(Late3) == [];
  }
}
