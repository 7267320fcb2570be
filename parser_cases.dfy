/**
 * The scripts of the parser's own test suite (painter/lang/parser_test.go), each run
 * on a fresh `&Parser{}` with an empty arena, with the batch Parse returns.
 */
module ParserCases {
  import opened Wrappers
  import opened Ops
  import opened Text
  import opened Lang

  const FreshSession: Session := Session(Fresh, [])

  /** The session a fresh parser starts its line loop from: initialize's default background. */
  const Started0: Session := Session(ParserState(Some(ResetScreen), None, [], [], false), [])

  /** One more line: its effect if the lines before it were accepted. */
  function Next(r: Run, line: string): Run
  {
    if r.error.Some? then r
    else if AfterLine(r.session, line).Success? then Run(AfterLine(r.session, line).value, None)
    else Run(r.session, Some(AfterLine(r.session, line).error))
  }

  lemma AfterLinesSnoc(s: Session, lines: seq<string>, line: string)
    ensures AfterLines(s, lines + [line]) == Next(AfterLines(s, lines), line)
  {
    assert (lines + [line])[..|lines|] == lines;
  }

  /** Any script on a fresh parser runs from initialize's default background. */
  lemma InterpretFresh(lines: seq<string>)
    ensures Interpret(FreshSession, lines) == Finish(AfterLines(Started0, lines))
  {
    assert FreshSession.(parser := AfterInit(Fresh)) == Started0;
  }

  /** A one-line script on a fresh parser. */
  lemma RunOne(line: string)
    ensures Interpret(FreshSession, [line]) == Finish(Next(Run(Started0, None), line))
  {
    assert FreshSession.(parser := AfterInit(Fresh)) == Started0;
    AfterLinesSnoc(Started0, [], line);
    assert [] + [line] == [line];
  }

  /** A one-line script whose line is refused fails with that line's error. */
  lemma RefusedOne(line: string, e: ParseError)
    requires AfterLine(Started0, line) == Failure(e)
    ensures Interpret(FreshSession, [line]).result == Failure(e)
  {
    RunOne(line);
  }

  /** A one-line script whose line is accepted returns finalResult of the state it leaves. */
  lemma AcceptedOne(line: string, t: Session)
    requires AfterLine(Started0, line) == Success(t) && !IsBareUpdate(t.parser)
    ensures Interpret(FreshSession, [line]).result == Success(Flatten(t.parser).batch)
    ensures Interpret(FreshSession, [line]).session == t.(parser := t.parser.(moveOps := []))
  {
    RunOne(line);
  }

  /** A line whose fields are known: its command and its arguments. */
  lemma LineIs(s: Session, line: string, words: seq<string>)
    requires words != [] && Fields(line) == words
    ensures AfterLine(s, line) == Command(s, words[0], words[1..])
  {
  }

  /** The arguments of a line, given what each of them reads as. */
  lemma ArgumentsAre(command: string, args: seq<string>, n: nat, v: seq<real>)
    requires |args| == n == |v|
    requires forall k :: 0 <= k < n ==> ParseFloat(args[k]) == Some(v[k])
    ensures Arguments(command, args, n) == Success(v)
  {
    var r := Arguments(command, args, n);
    assert r.Success?;
    assert forall k :: 0 <= k < n ==> r.value[k] == v[k];
    assert r.value == v;
  }

  /** A numeral "0.<digits>" reads as its digits over the matching power of ten. */
  lemma ReadFraction(a: string, digits: nat)
    requires |a| >= 3 && a[0] == '0' && a[1] == '.'
    requires DigitsIn(a, 2, |a|) && ValueIn(a, 2, |a|) == digits
    ensures ParseFloat(a) == Some(digits as real / Pow10(|a| - 2) as real)
  {
    assert DotFrom(a, 0) == 1 by {
      assert DotFrom(a, 0) == DotFrom(a, 1);
    }
    assert DigitsIn(a, 0, 1) && ValueIn(a, 0, 1) == 0;
    var q := Pow10(|a| - 2) as real;
    var v := digits as real / q;
    assert v < 1.0 by {
      ValueBelowPow10(a, 2, |a|);
      BelowOne(digits as real, q);
    }
    assert UnsignedFrom(a, 0) == Some(v);
  }

  lemma BelowOne(x: real, q: real)
    requires 0.0 <= x < q
    ensures x / q < 1.0
  {
  }

  lemma ReadTenth() ensures ParseFloat("0.1") == Some(0.1)
  {
    ReadFraction("0.1", 1);
  }

  lemma ReadQuarter() ensures ParseFloat("0.25") == Some(0.25)
  {
    ReadFraction("0.25", 25);
  }

  lemma ReadHalf() ensures ParseFloat("0.5") == Some(0.5)
  {
    ReadFraction("0.5", 5);
  }

  lemma ReadSixTenths() ensures ParseFloat("0.6") == Some(0.6)
  {
    ReadFraction("0.6", 6);
  }

  lemma ReadThreeQuarters() ensures ParseFloat("0.75") == Some(0.75)
  {
    ReadFraction("0.75", 75);
  }

  lemma ReadNineTenths() ensures ParseFloat("0.9") == Some(0.9)
  {
    ReadFraction("0.9", 9);
  }

  // ---------------------------------------------------------------------------
  // The fields of each script line

  /** The characters the test scripts' words are made of. */
  predicate Plain(c: char)
  {
    'a' <= c <= 'z' || '0' <= c <= '9' || c == '.'
  }

  /** A non-empty run of plain characters, so a word without white space. */
  predicate Word(w: string)
  {
    w != [] && forall i :: 0 <= i < |w| ==> Plain(w[i])
  }

  /** The words the test scripts are made of. */
  lemma ScriptWordsAreWords()
    ensures Word("white") && Word("green") && Word("update") && Word("reset")
    ensures Word("invalidcommand") && Word("bgrect") && Word("figure") && Word("move")
    ensures Word("0.1") && Word("0.25") && Word("0.5") && Word("0.6") && Word("0.75") && Word("0.9")
  {
  }

  /** A line of one word: a command without arguments. */
  lemma FieldsOfOne(line: string, a: string)
    requires Word(a) && line == a
    ensures Fields(line) == [a]
  {
    assert NoSpace(a);
    assert a + "" == a;
    FieldsPeel(a, "");
  }

  /** A command with one argument. */
  lemma FieldsOfTwo(line: string, a: string, b: string)
    requires Word(a) && Word(b) && line == a + " " + b
    ensures Fields(line) == [a, b]
  {
    assert NoSpace(b);
    FieldsSnoc(a, b);
    FieldsOfOne(a, a);
  }

  /** A command with two arguments. */
  lemma FieldsOfThree(line: string, a: string, b: string, c: string)
    requires Word(a) && Word(b) && Word(c) && line == a + " " + b + " " + c
    ensures Fields(line) == [a, b, c]
  {
    assert NoSpace(c);
    FieldsSnoc(a + " " + b, c);
    FieldsOfTwo(a + " " + b, a, b);
  }

  /** A command with four arguments. */
  lemma FieldsOfFive(line: string, a: string, b: string, c: string, d: string, e: string)
    requires Word(a) && Word(b) && Word(c) && Word(d) && Word(e)
    requires line == a + " " + b + " " + c + " " + d + " " + e
    ensures Fields(line) == [a, b, c, d, e]
  {
    var three := a + " " + b + " " + c;
    assert NoSpace(d) && NoSpace(e);
    FieldsSnoc(three + " " + d, e);
    FieldsSnoc(three, d);
    FieldsOfThree(three, a, b, c);
  }

  /** The three-word lines of the test scripts, split into their fields. */
  lemma ThreeWordLine(line: string)
    requires line == "figure 0.5 0.5"
          || line == "figure 0.6 0.6"
          || line == "move 0.1 0.1"
          || line == "bgrect 0.1 0.1"
    ensures line == "figure 0.5 0.5" ==> Fields(line) == ["figure", "0.5", "0.5"]
    ensures line == "figure 0.6 0.6" ==> Fields(line) == ["figure", "0.6", "0.6"]
    ensures line == "move 0.1 0.1" ==> Fields(line) == ["move", "0.1", "0.1"]
    ensures line == "bgrect 0.1 0.1" ==> Fields(line) == ["bgrect", "0.1", "0.1"]
  {
    ScriptWordsAreWords();
    if line == "figure 0.5 0.5" {
      FieldsOfThree(line, "figure", "0.5", "0.5");
    } else if line == "figure 0.6 0.6" {
      FieldsOfThree(line, "figure", "0.6", "0.6");
    } else if line == "move 0.1 0.1" {
      FieldsOfThree(line, "move", "0.1", "0.1");
    } else {
      FieldsOfThree(line, "bgrect", "0.1", "0.1");
    }
  }

  /** The two five-word lines of the test scripts, split into their fields. */
  lemma FiveWordLine(line: string)
    requires line == "bgrect 0.1 0.1 0.9 0.9" || line == "bgrect 0.25 0.25 0.75 0.75"
    ensures line == "bgrect 0.1 0.1 0.9 0.9" ==> Fields(line) == ["bgrect", "0.1", "0.1", "0.9", "0.9"]
    ensures line == "bgrect 0.25 0.25 0.75 0.75" ==> Fields(line) == ["bgrect", "0.25", "0.25", "0.75", "0.75"]
  {
    ScriptWordsAreWords();
    if line == "bgrect 0.1 0.1 0.9 0.9" {
      FieldsOfFive(line, "bgrect", "0.1", "0.1", "0.9", "0.9");
    } else {
      FieldsOfFive(line, "bgrect", "0.25", "0.25", "0.75", "0.75");
    }
  }


  // ---------------------------------------------------------------------------
  // Commands without arguments

  lemma WhiteScript(line: string)
    requires line == "white"
    ensures Interpret(FreshSession, [line]).result == Success([OpFunc(WhiteFill)])
  {
    assert Fields(line) == ["white"] by {
      ScriptWordsAreWords();
      FieldsOfOne(line, "white");
    }
    LineIs(Started0, line, ["white"]);
    var p := Started0.parser.(lastBgColor := Some(WhiteFill));
    assert Flatten(p).batch == [OpFunc(WhiteFill)] by {
      assert MoveOps([]) == [] && FigureOps([]) == [];
    }
    AcceptedOne(line, Started0.(parser := p));
  }

  lemma GreenScript(line: string)
    requires line == "green"
    ensures Interpret(FreshSession, [line]).result == Success([OpFunc(GreenFill)])
  {
    assert Fields(line) == ["green"] by {
      ScriptWordsAreWords();
      FieldsOfOne(line, "green");
    }
    LineIs(Started0, line, ["green"]);
    var p := Started0.parser.(lastBgColor := Some(GreenFill));
    assert Flatten(p).batch == [OpFunc(GreenFill)] by {
      assert MoveOps([]) == [] && FigureOps([]) == [];
    }
    AcceptedOne(line, Started0.(parser := p));
  }

  /** A lone update on a fresh parser is the bare [UpdateOp], not [ResetScreen, UpdateOp]. */
  lemma UpdateScript(line: string)
    requires line == "update"
    ensures Interpret(FreshSession, [line]).result == Success([OpUpdate])
  {
    assert Fields(line) == ["update"] by {
      ScriptWordsAreWords();
      FieldsOfOne(line, "update");
    }
    RunOne(line);
    LineIs(Started0, line, ["update"]);
    assert IsBareUpdate(Started0.parser.(updateOp := true));
  }

  lemma ResetScript(line: string)
    requires line == "reset"
    ensures Interpret(FreshSession, [line]).result == Success([OpFunc(ResetScreen)])
  {
    assert Fields(line) == ["reset"] by {
      ScriptWordsAreWords();
      FieldsOfOne(line, "reset");
    }
    LineIs(Started0, line, ["reset"]);
    assert Flatten(AfterReset).batch == [OpFunc(ResetScreen)] by {
      assert MoveOps([]) == [] && FigureOps([]) == [];
    }
    AcceptedOne(line, Started0.(parser := AfterReset));
  }

  // ---------------------------------------------------------------------------
  // Commands with arguments

  lemma BgRectCommand(args: seq<string>)
    requires args == ["0.1", "0.1", "0.9", "0.9"]
    ensures Command(Started0, "bgrect", args)
         == Success(Started0.(parser := Started0.parser.(lastBgRect := Some(BgRectangle(40, 40, 360, 360)))))
  {
    ReadTenth();
    ReadNineTenths();
    ArgumentsAre("bgrect", args, 4, [0.1, 0.1, 0.9, 0.9]);
    assert Scale(0.1) == 40 && Scale(0.9) == 360;
  }

  /** bgrect 0.1 0.1 0.9 0.9 is the rectangle (40, 40)-(360, 360), after the default background. */
  lemma BgRectScript(line: string)
    requires line == "bgrect 0.1 0.1 0.9 0.9"
    ensures Interpret(FreshSession, [line]).result
         == Success([OpFunc(ResetScreen), OpBgRect(BgRectangle(40, 40, 360, 360))])
  {
    var p := Started0.parser.(lastBgRect := Some(BgRectangle(40, 40, 360, 360)));
    assert Flatten(p).batch == [OpFunc(ResetScreen), OpBgRect(BgRectangle(40, 40, 360, 360))] by {
      assert MoveOps([]) == [] && FigureOps([]) == [];
    }
    assert AfterLine(Started0, line) == Success(Started0.(parser := p)) by {
      FiveWordLine(line);
      var words := ["bgrect", "0.1", "0.1", "0.9", "0.9"];
      LineIs(Started0, line, words);
      BgRectCommand(words[1..]);
    }
    AcceptedOne(line, Started0.(parser := p));
  }

  lemma FigureCommand(s: Session, args: seq<string>, a: string, x: real)
    requires args == [a, a] && ParseFloat(a) == Some(x)
    ensures Command(s, "figure", args)
         == Success(Session(s.parser.(figures := s.parser.figures + [|s.heap|]),
                            s.heap + [Figure(Scale(x), Scale(x), Red)]))
  {
    ArgumentsAre("figure", args, 2, [x, x]);
  }

  /** figure 0.5 0.5 on any session: the red figure at (200, 200), appended to the arena. */
  lemma FigureHalfCommand(s: Session, args: seq<string>)
    requires args == ["0.5", "0.5"]
    ensures Command(s, "figure", args)
         == Success(Session(s.parser.(figures := s.parser.figures + [|s.heap|]), s.heap + [Figure(200, 200, Red)]))
  {
    ReadHalf();
    FigureCommand(s, args, "0.5", 0.5);
    assert Scale(0.5) == 200;
  }

  /** figure 0.5 0.5 allocates the red figure at (200, 200) as arena entry 0. */
  lemma FigureScript(line: string)
    requires line == "figure 0.5 0.5"
    ensures Interpret(FreshSession, [line]).result == Success([OpFunc(ResetScreen), OpFigure(0)])
    ensures Interpret(FreshSession, [line]).session.heap == [Figure(200, 200, Red)]
  {
    ThreeWordLine(line);
    var words := ["figure", "0.5", "0.5"];
    LineIs(Started0, line, words);
    FigureHalfCommand(Started0, words[1..]);
    assert Started0.parser.figures + [|Started0.heap|] == [0];
    assert Started0.heap + [Figure(200, 200, Red)] == [Figure(200, 200, Red)];
    var p := Started0.parser.(figures := [0]);
    assert Flatten(p).batch == [OpFunc(ResetScreen), OpFigure(0)] by {
      assert MoveOps([]) == [] && FigureOps([0]) == [OpFigure(0)];
    }
    AcceptedOne(line, Session(p, [Figure(200, 200, Red)]));
  }

  lemma MoveCommand(args: seq<string>)
    requires args == ["0.1", "0.1"]
    ensures Command(Started0, "move", args)
         == Success(Started0.(parser := Started0.parser.(moveOps := [Move(40, 40, [])])))
  {
    ReadTenth();
    ArgumentsAre("move", args, 2, [0.1, 0.1]);
    assert Scale(0.1) == 40;
    assert Started0.parser.moveOps + [Move(40, 40, [])] == [Move(40, 40, [])];
  }

  /** move 0.1 0.1 is the move by (40, 40); with no figure before it, it moves none. */
  lemma MoveScript(line: string)
    requires line == "move 0.1 0.1"
    ensures Interpret(FreshSession, [line]).result == Success([OpFunc(ResetScreen), OpMove(Move(40, 40, []))])
  {
    ThreeWordLine(line);
    var words := ["move", "0.1", "0.1"];
    LineIs(Started0, line, words);
    MoveCommand(words[1..]);
    var p := Started0.parser.(moveOps := [Move(40, 40, [])]);
    assert Flatten(p).batch == [OpFunc(ResetScreen), OpMove(Move(40, 40, []))] by {
      assert MoveOps([Move(40, 40, [])]) == [OpMove(Move(40, 40, []))] && FigureOps([]) == [];
    }
    AcceptedOne(line, Started0.(parser := p));
  }

  // ---------------------------------------------------------------------------
  // Rejected scripts

  /** A command of none of the known lengths is rejected by the default branch. */
  lemma UnknownCommandIs(s: Session, c: string, args: seq<string>)
    requires |c| !in {4, 5, 6}
    ensures Command(s, c, args) == Failure(UnknownCommand(c))
  {
    assert |"white"| == 5 && |"green"| == 5 && |"reset"| == 5 && |"move"| == 4;
    assert |"update"| == 6 && |"bgrect"| == 6 && |"figure"| == 6;
  }

  lemma UnknownCommandScript(line: string)
    requires line == "invalidcommand"
    ensures Interpret(FreshSession, [line]).result == Failure(UnknownCommand("invalidcommand"))
  {
    assert Fields(line) == ["invalidcommand"] by {
      ScriptWordsAreWords();
      FieldsOfOne(line, "invalidcommand");
    }
    LineIs(Started0, line, ["invalidcommand"]);
    UnknownCommandIs(Started0, "invalidcommand", []);
    RefusedOne(line, UnknownCommand("invalidcommand"));
  }

  lemma ShortBgRectScript(line: string)
    requires line == "bgrect 0.1 0.1"
    ensures Interpret(FreshSession, [line]).result == Failure(WrongArgCount("bgrect", 4, 2))
  {
    ThreeWordLine(line);
    var words := ["bgrect", "0.1", "0.1"];
    LineIs(Started0, line, words);
    RefusedOne(line, WrongArgCount("bgrect", 4, 2));
  }

  lemma ShortFigureScript(line: string)
    requires line == "figure 0.5"
    ensures Interpret(FreshSession, [line]).result == Failure(WrongArgCount("figure", 2, 1))
  {
    assert Fields(line) == ["figure", "0.5"] by {
      ScriptWordsAreWords();
      FieldsOfTwo(line, "figure", "0.5");
    }
    var words := ["figure", "0.5"];
    LineIs(Started0, line, words);
    RefusedOne(line, WrongArgCount("figure", 2, 1));
  }

  lemma ShortMoveScript(line: string)
    requires line == "move 0.1"
    ensures Interpret(FreshSession, [line]).result == Failure(WrongArgCount("move", 2, 1))
  {
    assert Fields(line) == ["move", "0.1"] by {
      ScriptWordsAreWords();
      FieldsOfTwo(line, "move", "0.1");
    }
    var words := ["move", "0.1"];
    LineIs(Started0, line, words);
    RefusedOne(line, WrongArgCount("move", 2, 1));
  }

  // ---------------------------------------------------------------------------
  // The multi-line script

  const Line0: string := ""
  const Line1: string := "white"
  const Line2: string := "bgrect 0.25 0.25 0.75 0.75"
  const Line3: string := "figure 0.5 0.5"
  const Line4: string := "green"
  const Line5: string := "figure 0.6 0.6"
  const Line6: string := "update"
  const Script: seq<string> := [Line0, Line1, Line2, Line3, Line4, Line5, Line6]

  /** The sessions after each line of Script. */
  const Rect: BgRectangle := BgRectangle(100, 100, 300, 300)
  const Bg1: ParserState := ParserState(Some(WhiteFill), None, [], [], false)
  const Bg2: ParserState := ParserState(Some(WhiteFill), Some(Rect), [], [], false)
  const Bg3: ParserState := ParserState(Some(WhiteFill), Some(Rect), [0], [], false)
  const Bg4: ParserState := ParserState(Some(GreenFill), Some(Rect), [0], [], false)
  const Bg5: ParserState := ParserState(Some(GreenFill), Some(Rect), [0, 1], [], false)
  const Bg6: ParserState := ParserState(Some(GreenFill), Some(Rect), [0, 1], [], true)
  const Heap1: seq<Figure> := [Figure(200, 200, Red)]
  const Heap2: seq<Figure> := [Figure(200, 200, Red), Figure(240, 240, Red)]

  lemma ScriptLine0()
    ensures AfterLine(Started0, Line0) == Success(Started0)
  {
    BlankLineChangesNothing(Started0, Line0);
  }

  lemma ScriptLine1(line: string)
    requires line == Line1
    ensures AfterLine(Started0, line) == Success(Session(Bg1, []))
  {
    assert Fields(line) == ["white"] by {
      ScriptWordsAreWords();
      FieldsOfOne(line, "white");
    }
    LineIs(Started0, line, ["white"]);
  }

  lemma ScriptLine2Command(s: Session, line: string)
    requires s == Session(Bg1, []) && Fields(line) == ["bgrect", "0.25", "0.25", "0.75", "0.75"]
    ensures AfterLine(s, line) == Success(Session(Bg2, []))
  {
    var words := Fields(line);
    LineIs(s, line, words);
    ReadQuarter();
    ReadThreeQuarters();
    ArgumentsAre("bgrect", words[1..], 4, [0.25, 0.25, 0.75, 0.75]);
    assert Scale(0.25) == 100 && Scale(0.75) == 300;
  }

  lemma ScriptLine2(line: string)
    requires line == Line2
    ensures AfterLine(Session(Bg1, []), line) == Success(Session(Bg2, []))
  {
    FiveWordLine(line);
    ScriptLine2Command(Session(Bg1, []), line);
  }

  lemma ScriptLine3Command(args: seq<string>)
    requires args == ["0.5", "0.5"]
    ensures Command(Session(Bg2, []), "figure", args) == Success(Session(Bg3, Heap1))
  {
    ReadHalf();
    FigureCommand(Session(Bg2, []), args, "0.5", 0.5);
    assert Scale(0.5) == 200;
    assert Bg2.figures + [0] == [0];
    assert [] + [Figure(200, 200, Red)] == Heap1;
  }

  lemma ScriptLine3(line: string)
    requires line == Line3
    ensures AfterLine(Session(Bg2, []), line) == Success(Session(Bg3, Heap1))
  {
    ThreeWordLine(line);
    var words := ["figure", "0.5", "0.5"];
    LineIs(Session(Bg2, []), line, words);
    ScriptLine3Command(words[1..]);
  }

  lemma ScriptLine4(line: string)
    requires line == Line4
    ensures AfterLine(Session(Bg3, Heap1), line) == Success(Session(Bg4, Heap1))
  {
    assert Fields(line) == ["green"] by {
      ScriptWordsAreWords();
      FieldsOfOne(line, "green");
    }
    LineIs(Session(Bg3, Heap1), line, ["green"]);
  }

  lemma ScriptLine5Command(args: seq<string>)
    requires args == ["0.6", "0.6"]
    ensures Command(Session(Bg4, Heap1), "figure", args) == Success(Session(Bg5, Heap2))
  {
    ReadSixTenths();
    FigureCommand(Session(Bg4, Heap1), args, "0.6", 0.6);
    assert Scale(0.6) == 240;
    assert Bg4.figures + [1] == [0, 1];
    assert Heap1 + [Figure(240, 240, Red)] == Heap2;
  }

  lemma ScriptLine5(line: string)
    requires line == Line5
    ensures AfterLine(Session(Bg4, Heap1), line) == Success(Session(Bg5, Heap2))
  {
    ThreeWordLine(line);
    var words := ["figure", "0.6", "0.6"];
    LineIs(Session(Bg4, Heap1), line, words);
    ScriptLine5Command(words[1..]);
  }

  lemma ScriptLine6(line: string)
    requires line == Line6
    ensures AfterLine(Session(Bg5, Heap2), line) == Success(Session(Bg6, Heap2))
  {
    assert Fields(line) == ["update"] by {
      ScriptWordsAreWords();
      FieldsOfOne(line, "update");
    }
    LineIs(Session(Bg5, Heap2), line, ["update"]);
  }

  /** An accepted line extends an accepted run. */
  lemma Extend(s: Session, lines: seq<string>, line: string, t: Session, u: Session)
    requires AfterLines(s, lines) == Run(t, None)
    requires AfterLine(t, line) == Success(u)
    ensures AfterLines(s, lines + [line]) == Run(u, None)
  {
    AfterLinesSnoc(s, lines, line);
  }

  lemma ScriptPrefix1()
    ensures AfterLines(Started0, [Line0]) == Run(Started0, None)
  {
    ScriptLine0();
    assert AfterLines(Started0, []) == Run(Started0, None);
    Extend(Started0, [], Line0, Started0, Started0);
    assert [] + [Line0] == [Line0];
  }

  lemma ScriptPrefix2()
    ensures AfterLines(Started0, [Line0, Line1]) == Run(Session(Bg1, []), None)
  {
    ScriptLine1(Line1);
    ScriptPrefix1();
    Extend(Started0, [Line0], Line1, Started0, Session(Bg1, []));
    assert [Line0] + [Line1] == [Line0, Line1];
  }

  lemma ScriptPrefix3()
    ensures AfterLines(Started0, [Line0, Line1, Line2]) == Run(Session(Bg2, []), None)
  {
    ScriptLine2(Line2);
    ScriptPrefix2();
    Extend(Started0, [Line0, Line1], Line2, Session(Bg1, []), Session(Bg2, []));
    assert [Line0, Line1] + [Line2] == [Line0, Line1, Line2];
  }

  lemma ScriptPrefix4()
    ensures AfterLines(Started0, [Line0, Line1, Line2, Line3]) == Run(Session(Bg3, Heap1), None)
  {
    ScriptLine3(Line3);
    ScriptPrefix3();
    Extend(Started0, [Line0, Line1, Line2], Line3, Session(Bg2, []), Session(Bg3, Heap1));
    assert [Line0, Line1, Line2] + [Line3] == [Line0, Line1, Line2, Line3];
  }

  lemma ScriptPrefix5()
    ensures AfterLines(Started0, [Line0, Line1, Line2, Line3, Line4]) == Run(Session(Bg4, Heap1), None)
  {
    ScriptLine4(Line4);
    ScriptPrefix4();
    Extend(Started0, [Line0, Line1, Line2, Line3], Line4, Session(Bg3, Heap1), Session(Bg4, Heap1));
    assert [Line0, Line1, Line2, Line3] + [Line4] == [Line0, Line1, Line2, Line3, Line4];
  }

  lemma ScriptPrefix6()
    ensures AfterLines(Started0, [Line0, Line1, Line2, Line3, Line4, Line5]) == Run(Session(Bg5, Heap2), None)
  {
    ScriptLine5(Line5);
    ScriptPrefix5();
    Extend(Started0, [Line0, Line1, Line2, Line3, Line4], Line5, Session(Bg4, Heap1), Session(Bg5, Heap2));
    assert [Line0, Line1, Line2, Line3, Line4] + [Line5] == [Line0, Line1, Line2, Line3, Line4, Line5];
  }

  lemma ScriptPrefix7()
    ensures AfterLines(Started0, Script) == Run(Session(Bg6, Heap2), None)
  {
    ScriptLine6(Line6);
    ScriptPrefix6();
    Extend(Started0, [Line0, Line1, Line2, Line3, Line4, Line5], Line6, Session(Bg5, Heap2), Session(Bg6, Heap2));
    assert [Line0, Line1, Line2, Line3, Line4, Line5] + [Line6] == Script;
  }

  lemma ScriptBatch()
    ensures Finish(Run(Session(Bg6, Heap2), None))
         == ParseOutcome(Success([OpFunc(GreenFill), OpBgRect(Rect), OpFigure(0), OpFigure(1), OpUpdate]),
                         Session(Bg6, Heap2))
  {
    assert !IsBareUpdate(Bg6);
    assert Flatten(Bg6).batch == [OpFunc(GreenFill), OpBgRect(Rect), OpFigure(0), OpFigure(1), OpUpdate] by {
      assert MoveOps([]) == [] && FigureOps([0, 1]) == [OpFigure(0), OpFigure(1)];
    }
  }

  /**
   * The multi-line script: the last background (green) replaces the first, the figures
   * follow the rectangle in creation order, and UpdateOp comes last.
   */
  lemma ComplexScript()
    ensures Interpret(FreshSession, Script).result
         == Success([OpFunc(GreenFill), OpBgRect(BgRectangle(100, 100, 300, 300)), OpFigure(0), OpFigure(1), OpUpdate])
    ensures Interpret(FreshSession, Script).session.heap == Heap2
  {
    InterpretFresh(Script);
    ScriptPrefix7();
    ScriptBatch();
  }
}
