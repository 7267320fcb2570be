# painter: a Dafny model of the script interpreter, the drawing operations and the event loop

The painter reads a small drawing language and draws it on an 800x800 texture. Three
parts make up its core:

- **the script interpreter** (`painter/lang/parser.go`). A `Parser` keeps session state
  between calls of `Parse`: the last background fill, the last background rectangle,
  the figures created so far, the pending moves, and the update request. `Parse`
  reads a script line by line. On the first bad line it stops with an error, and the
  state reached up to then is kept. Otherwise it returns one batch of operations, in
  the fixed order background, rectangle, moves, figures, update. A script holding
  only `update` after a reset gives the bare `[UpdateOp]`.
- **the operations** (`painter/op.go`). The three whole-texture fills, the black
  background rectangle, and the figure, drawn as an inverted "T" from two fills.
  Also the move, which translates the figures it holds in place, `UpdateOp`, which
  draws nothing and reports the texture ready, and `OperationList`, which runs its
  members in order and is ready if any member was.
- **the event loop** (`painter/loop.go`). It holds a FIFO message queue and two
  textures: `next`, being drawn, and `prev`, last handed to the receiver. Each
  iteration pulls one operation and applies it to `next`. When the operation reports
  ready, the loop hands `next` to the receiver and swaps the two textures.
  `StopAndWait` posts a closure that sets the stop request. The loop ends right
  after that closure runs.

## How the model is built

**Textures.** A texture is a class (`Ops.Texture`) with its bounds and a log of the
`Fill(rect, colour)` calls made on it. This mirrors how the loop's test double
records its colours.

**Figures.** Figures are heap objects in Go, and a `Move` holds pointers to the
figures in the parser's list at the moment the move is parsed. Here the figures live
in an append-only arena (`Ops.Arena`, shared by the parser and the loop). Operations
refer to figures by arena index. `WellFormed(op, n)` says every index an operation
mentions is below `n`.

**Functions and imperative code.** The pure behaviour is defined as functions:

- `Lang.AfterLine`, `Lang.Command`, `Lang.AfterLines`, `Lang.Flatten` and
  `Lang.Interpret` for the parser;
- `Ops.Apply` and `Ops.ApplyList` for `Do`;
- `EventLoop.Step` and `EventLoop.Run` for the loop.

The Go code's imperative parts are classes whose methods are proved against those
functions:

- `Lang.Parser`, including the loop in `finalResult`;
- `Ops.Texture`, `Ops.Arena`, the `Do*` methods, and `Ops.DoMove` with the loop of
  `Move.Do`;
- `EventLoop.MessageQueue`, `EventLoop.Receiver`, and `EventLoop.Loop` with the loop of
  `eventProcess`.

**Module layout.**

| module | contents |
|---|---|
| `Wrappers` | Option and Result. |
| `Ops` | `op.go`. |
| `Text` | `strings.Fields`, `strconv.ParseFloat` on decimal literals, and the `int(x * 400)` conversion, as used by the parser. |
| `Lang` | `parser.go`. |
| `ParserCases` | The scripts of the parser's test suite. |
| `Drawing` | What a parsed batch draws. |
| `DrawingCases` | Two scripts in which the order of `figure` and `move` decides the drawing. |
| `EventLoop` | `loop.go`. |
| `LoopCases` | The loop's test scenarios. |

**Where the tests and the code disagree, the model follows the code.**

- `TestParser_Parse_StructCommands` (`painter/lang/parser_test.go:94-111`) reads the
  constructed operation at `ops[0]`. In the code, `initialize` gives a fresh parser
  the default `ResetScreen` background, and `finalResult` puts it first. So the
  operation appears at `ops[1]`, as `ParserCases.BgRectScript`, `ParserCases.FigureScript`
  and `ParserCases.MoveScript` state.
- The complex script's test asks for at least 5 operations. The model gives exactly 5
  (`ParserCases.ComplexScript`).
- `TestMessageQueue` (`painter/loop_test.go:128-159`) calls `empty`, `push` and
  `pull`, which `loop.go` does not define. The model reads them as `Size() == 0`,
  `Push` and `Pull`.

## Model

| member | source | states |
|---|---|---|
| Ops.MakeRect | painter/op.go:58 | image.Rect: the rectangle has Min <= Max, and its corner coordinates are exactly the given ones, swapped where needed |
| Ops.FigureFills | painter/op.go:68-75 | a figure is two fills in its colour: a 150x70 bar whose lower edge is the centre row, and a 60x140 bar centred on (x, y) |
| Ops.MovedFigures | painter/op.go:83-89 | after the move, each figure is translated once for every occurrence of its index; all others are unchanged |
| Ops.Apply | painter/op.go:11-15 | applying an operation never changes the number of figures, and only appends to the texture's fill log |
| Ops.ApplyList | painter/op.go:20-25 | the same for an operation list |
| Ops.ApplyListAppend | painter/op.go:20-25 | running a + b equals running a and then b on the result; ready if either was |
| Ops.ApplyListSnoc | painter/op.go:20-25 | running ops + [op] equals running ops and then op; ready if either was |
| Ops.ApplyReadyIff | painter/op.go:32-40 | Do reports ready exactly when the operation is UpdateOp or a list holding one |
| Ops.ApplyListReadyIff | painter/op.go:20-25 | a list reports ready exactly when one of its members does |
| Ops.ApplyFillCount | painter/op.go:37-94 | an operation records exactly the number of fills its kind makes: 1 for a fill or a background rectangle, 2 for a figure, none for a move, UpdateOp or the stop request |
| Ops.ApplyListFillCount | painter/op.go:20-25 | a list records the sum of its members' fills |
| Ops.NoShortCircuit | painter/op.go:22 | `o.Do(t) \|\| ready` calls Do first: the members after a ready one still run and still change the texture |
| Ops.ApplyLeavesLater | painter/op.go:57-89 | an operation that refers only to the first n figures leaves every later figure unchanged |
| Ops.ApplyListLeavesLater | painter/op.go:20-25 | the same for an operation list |
| Ops.WellFormedGrows | painter/op.go:78-81 | an operation valid for an arena stays valid when the arena grows |
| Ops.Texture.constructor | painter/loop_test.go:31-35 | a new texture has bounds (0,0)-(width,height) and an empty fill log |
| Ops.Texture.Fill | painter/loop_test.go:39-41 | Fill appends one record with the rectangle and the colour to the log |
| Ops.Arena.constructor | painter/lang/parser.go:18 | a new arena holds no figures |
| Ops.WhiteFill | painter/op.go:43-45 | fills the whole texture with color.White |
| Ops.GreenFill | painter/op.go:48-50 | fills the whole texture with RGBA{G: 0xff, A: 0xff} |
| Ops.ResetScreen | painter/op.go:92-94 | fills the whole texture with color.Black |
| Ops.DoFunc | painter/op.go:37-40 | an OperationFunc runs its function and is never ready |
| Ops.DoUpdate | painter/op.go:32 | UpdateOp is always ready |
| Ops.DoBgRect | painter/op.go:57-60 | a background rectangle fills image.Rect(X1, Y1, X2, Y2) with black and is not ready |
| Ops.DoFigure | painter/op.go:68-75 | a figure appends its two fills and is not ready |
| Ops.DoMove | painter/op.go:83-89 | the loop translates every held figure by (X, Y) in place, as MovedFigures says; the figures it does not hold are unchanged and it is not ready |
| Ops.Do | painter/op.go:11-15 | the dispatched Do leaves exactly the texture, arena and ready flag that Apply describes |
| Ops.DoList | painter/op.go:20-25 | OperationList.Do leaves exactly what ApplyList describes |
| Text.WordLength | painter/lang/parser.go:93 | a word ends at the first space or at the end of the line, and holds no space |
| Text.Fields | painter/lang/parser.go:93 | strings.Fields: every field is non-empty and holds no space |
| Text.FieldsSkipSpace | painter/lang/parser.go:93 | white space in front of a line adds no field |
| Text.FieldsPeel | painter/lang/parser.go:93 | a run of non-space characters ending at a space or at the end of the line is a field of its own, followed by the fields of the rest; with FieldsSkipSpace this fixes the fields of every line as its maximal non-space runs |
| Text.FieldsOfBlank | painter/lang/parser.go:93-96 | a line of spaces has no fields |
| Text.FieldsKeepText | painter/lang/parser.go:93 | the fields, joined, are the line with its spaces removed |
| Text.FieldsUnwords | painter/lang/parser.go:93 | splitting words joined by single spaces gives back those words |
| Text.FieldsSnoc | painter/lang/parser.go:93 | a word appended after a space becomes one more last field |
| Text.ParseFloat | painter/lang/parser.go:115-118 | strconv.ParseFloat(s, 64): a value is returned only when float64 can hold it, strictly between -(2^1024 - 2^970) and 2^1024 - 2^970; a larger magnitude is the range error |
| Text.IntegerNumeral | painter/lang/parser.go:115-118 | strconv.ParseFloat reads a numeral made only of digits as its integer value when that is below 2^1024 - 2^970, and refuses it with the range error otherwise |
| Text.SignedNumeral | painter/lang/parser.go:115-118 | a leading "-" negates the value of the numeral after it, and a leading "+" keeps it; a refused numeral stays refused with either sign |
| Text.ValueBelowPow10 | painter/lang/parser.go:115-118 | n decimal digits read as a value below 10^n |
| ParserCases.ReadFraction | painter/lang/parser.go:115-118 | a numeral "0." followed by digits reads as those digits over the matching power of ten |
| Text.TruncateToInt | painter/lang/parser.go:126-129 | int(f) truncates toward zero |
| Text.Scale | painter/lang/parser.go:126-129 | int(c * 400): the pixel coordinate, truncated toward zero, is within one of c * 400 and has c's sign |
| Lang.AfterInit | painter/lang/parser.go:24-35 | initialize clears the update request and changes nothing but the background and that request; it sets the background only on the all-nil parser, to ResetScreen, so a parser that has been started has a background afterwards |
| Lang.AfterLine | painter/lang/parser.go:92-175 | parse of one line: an accepted line appends at most one figure to the arena and changes none of the existing ones; LineAcceptedIff states which lines are accepted |
| Lang.Command | painter/lang/parser.go:98-172 | the switch on the instruction: every error names the instruction, and an accepted command appends at most one figure to the arena |
| Lang.Flatten | painter/lang/parser.go:61-80 | finalResult leaves the parser as it was except that the pending moves are dropped; what the batch holds, and in which order, is stated by Lang.FlattenLayout |
| Lang.IsBareUpdate | painter/lang/parser.go:51-55 | the state Parse singles out, to return the bare [UpdateOp], is one whose finalResult batch would be just [ResetScreen, UpdateOp] |
| Lang.Finish | painter/lang/parser.go:45-57 | Parse after its loop: an error is returned exactly when a line failed, with the state reached so far; on success only the pending moves are dropped; the arena is as the lines left it |
| Lang.Interpret | painter/lang/parser.go:38-58 | after a successful Parse no move is pending; the error and success outcomes are stated by Lang.Finish and Lang.InterpretFlattens |
| Lang.Arguments | painter/lang/parser.go:112-122 | the numeric arguments are accepted exactly when there are n of them and each parses; otherwise the error is the argument count when that is wrong, and the invalid-arguments error when it is right |
| Lang.LineKeepsValid | painter/lang/parser.go:92-175 | an accepted line keeps the session invariant: the figure list is strictly increasing and refers to existing figures, every move's figures are a prefix of the list, and the arena only grows |
| Lang.LinesKeepValid | painter/lang/parser.go:43-49 | the same for a whole sequence of lines, accepted or not |
| Lang.FlattenWellFormed | painter/lang/parser.go:61-80 | the batch of a valid parser refers only to existing figures, and the parser stays valid |
| Lang.InterpretKeepsValid | painter/lang/parser.go:38-58 | Parse keeps the invariant and only grows the arena; a returned batch refers only to existing figures |
| Lang.BlankLineChangesNothing | painter/lang/parser.go:93-96 | a line of blanks is accepted and changes nothing |
| Lang.LineAcceptedIff | painter/lang/parser.go:92-175 | a line is accepted exactly when it is blank, a known command with the right number of parsable arguments, or one of white, green, update or reset; the error otherwise is the one the source returns |
| Lang.ErrorStaysFrom | painter/lang/parser.go:43-48 | once a line fails, the later lines are not read |
| Lang.FirstErrorAborts | painter/lang/parser.go:43-48 | Parse returns the first line's error and keeps the state the earlier lines left |
| Lang.OnlyAppend | painter/lang/parser.go:61-80 | the operations of one category in a + b are those in a followed by those in b |
| Lang.OnlyUniform | painter/lang/parser.go:61-80 | a run of one category contributes all of itself to that category and nothing to the others |
| Lang.SortedThenUniform | painter/lang/parser.go:61-80 | a sorted run followed by a run of a category no smaller stays sorted |
| Lang.SortedParts | painter/lang/parser.go:61-80 | five uniform parts in category order form a sorted batch |
| Lang.OnlyOfParts | painter/lang/parser.go:61-80 | each category of such a batch is exactly its own part |
| Lang.FlattenLayout | painter/lang/parser.go:61-80 | finalResult orders the batch background, rectangle, moves, figures, update. The background part is the last fill if set. The rectangle part is the last rectangle if set. Then come all pending moves in order, all listed figures in order, and UpdateOp if it was requested. Nothing else is in the batch |
| Lang.LaterLinesKeepBackground | painter/lang/parser.go:105-108 | lines that are not white, green or reset leave the background fill as it was |
| Lang.LastBackgroundWins | painter/lang/parser.go:105-108 | after an accepted script, the background is the one set by the last white, green or reset line |
| Lang.LaterLinesKeepRect | painter/lang/parser.go:111-130 | lines that are not bgrect or reset leave the rectangle as it was |
| Lang.LastRectWins | painter/lang/parser.go:111-130 | after an accepted script, the rectangle is the last bgrect's arguments scaled to pixels |
| Lang.LastLine | painter/lang/parser.go:43-49 | an accepted script's state is the last line applied to the state before it |
| Lang.AfterLinesAppend | painter/lang/parser.go:43-49 | reading pre + post is reading pre and then post, unless pre already failed |
| Lang.LinesOnlyAppend | painter/lang/parser.go:143-166 | without a reset, the moves, the figure list and the arena only grow, and a newly listed figure is a new one |
| Lang.MoveSnapshot | painter/lang/parser.go:161-166 | a move holds exactly the figures listed when it was parsed: of the later list, a figure is in it exactly when it already existed then |
| Lang.UpdatesOnlySetFlag | painter/lang/parser.go:109-110 | update lines and blank lines only set the update flag, and set it if any is present |
| Lang.ResetThenUpdate | painter/lang/parser.go:51-55 | a reset followed only by updates gives the bare [UpdateOp]; with no update it gives [ResetScreen] |
| Lang.NoUpdateLineNoFlag | painter/lang/parser.go:32-34 | with no update line, the update flag stays off |
| Lang.UpdateIsPerParse | painter/lang/parser.go:32-34 | the update request does not carry over: a parse with no update line returns a batch without UpdateOp |
| Lang.InterpretEmpty | painter/lang/parser.go:38-58 | parsing no lines returns the batch of the initialised state |
| Lang.BackgroundStaysSet | painter/lang/parser.go:105-108 | no line clears a set background |
| Lang.InterpretKeepsStarted | painter/lang/parser.go:24-30 | after a parse, the background is always set |
| Lang.InterpretFlattens | painter/lang/parser.go:51-57 | apart from the bare-update case, an accepted parse returns finalResult's batch of the state the lines reached, and it keeps that state minus the pending moves |
| Lang.SessionCarriesOver | painter/lang/parser.go:38-80 | a second, empty parse returns the earlier background, rectangle and figures again, without the moves and without UpdateOp |
| Lang.Parser.constructor | painter/lang/parser.go:15-21 | `&Parser{}`: every field is nil |
| Lang.Parser.Initialize | painter/lang/parser.go:24-35 | initialize: the default ResetScreen background when every field is nil, and the update request cleared |
| Lang.Parser.ResetState | painter/lang/parser.go:83-89 | resetState sets every field to nil |
| Lang.Parser.ParseLine | painter/lang/parser.go:92-175 | parse: an accepted line leaves the state AfterLine describes; a refused line returns its error and changes nothing |
| Lang.Parser.FinalResult | painter/lang/parser.go:61-80 | finalResult returns Flatten's batch by appends, and drops the pending moves |
| Lang.Parser.Parse | painter/lang/parser.go:38-58 | Parse returns what Interpret describes and leaves its state; it keeps the invariant and only grows the arena |
| Lang.InterpretKeepsValidIf | painter/lang/parser.go:38-58 | for any session: valid in, valid out, and the arena only grows |
| ParserCases.WhiteScript | painter/lang/parser_test.go:19-24 | `white` gives [OperationFunc(WhiteFill)] |
| ParserCases.GreenScript | painter/lang/parser_test.go:26-31 | `green` gives [OperationFunc(GreenFill)] |
| ParserCases.UpdateScript | painter/lang/parser_test.go:33-38 | `update` gives the bare [UpdateOp] |
| ParserCases.ResetScript | painter/lang/parser_test.go:40-45 | `reset` gives [OperationFunc(ResetScreen)] |
| ParserCases.BgRectScript | painter/lang/parser_test.go:67-71 | `bgrect 0.1 0.1 0.9 0.9` gives the default background, then BgRectangle{40, 40, 360, 360} |
| ParserCases.FigureScript | painter/lang/parser_test.go:73-76 | `figure 0.5 0.5` gives the default background, then a red figure at (200, 200) |
| ParserCases.MoveScript | painter/lang/parser_test.go:77-81 | `move 0.1 0.1` gives the default background, then a move by (40, 40) holding no figure |
| ParserCases.UnknownCommandScript | painter/lang/parser_test.go:141-144 | `invalidcommand` fails with the unknown-command error |
| ParserCases.ShortBgRectScript | painter/lang/parser_test.go:146-148 | `bgrect 0.1 0.1` fails: 4 arguments expected, 2 given |
| ParserCases.ShortFigureScript | painter/lang/parser_test.go:150-152 | `figure 0.5` fails: 2 arguments expected, 1 given |
| ParserCases.ShortMoveScript | painter/lang/parser_test.go:154-156 | `move 0.1` fails: 2 arguments expected, 1 given |
| ParserCases.ComplexScript | painter/lang/parser_test.go:117-134 | the six-line script gives exactly 5 operations: green, the rectangle (100, 100, 300, 300), the two figures, and last UpdateOp |
| Drawing.Glyphs | painter/lang/parser.go:73-75 | the figures' fills, two per listed figure, in list order |
| Drawing.CountDistinct | painter/lang/parser.go:148 | a strictly increasing list holds each index at most once |
| Drawing.MovedOnce | painter/op.go:83-89 | a move whose figure list has no repeats translates each held figure exactly once |
| Drawing.AfterMovesAt | painter/op.go:83-89 | after a series of moves, each figure is translated by the sum of the moves that hold it |
| Drawing.OffsetOfMissing | painter/op.go:83-89 | a figure no move holds is not translated |
| Drawing.MoveOpsApply | painter/lang/parser.go:69-72 | the batch's moves draw nothing and translate the figures as AfterMoves says |
| Drawing.FigureOpsApply | painter/lang/parser.go:73-75 | the batch's figures draw the Glyphs of the current arena and move nothing |
| Drawing.BatchDraws | painter/lang/parser.go:61-80 | a valid parser's batch: ready exactly when update was requested; it leaves the arena after all moves, and it draws the background, then the rectangle, then every listed figure at its moved position |
| Drawing.FigureDrawnAt | painter/lang/parser.go:61-80 | the k-th listed figure is drawn translated by the sum of the moves that hold it |
| Drawing.LateFigureStays | painter/lang/parser.go:161-166 | a figure created after every move of the batch is drawn where it was created |
| Drawing.EarlierBatchLeavesLater | painter/lang/parser.go:61-80 | a batch leaves untouched the figures created after its parser state |
| DrawingCases.FigureFirstBatch | painter/lang/parser.go:143-166 | `figure`, `move`, `update` gives background, a move of figure 0, figure 0, UpdateOp |
| DrawingCases.FigureFirstDrawn | painter/op.go:83-89 | drawn, that figure created at (200, 200) appears at (240, 240), on black, and the frame is ready |
| DrawingCases.MoveFirstBatch | painter/lang/parser.go:161-166 | `move`, `figure`, `update` gives a move that holds no figure |
| DrawingCases.MoveFirstDrawn | painter/lang/parser.go:161-166 | drawn, that figure stays at (200, 200) |
| EventLoop.RequestsStop | painter/loop.go:91-95 | the closure StopAndWait posts requests the stop; only it, or an operation list that holds it, does |
| EventLoop.Step | painter/loop.go:44-56 | one iteration consumes the head of the queue, keeps the figure count, and keeps the queued operations valid |
| EventLoop.Run | painter/loop.go:43-58 | the loop runs until the queue is empty or the stop request is set; it only consumes the queue |
| EventLoop.RunLeavesSuffix | painter/loop.go:133-148 | FIFO: what is left queued is a suffix of what was queued |
| EventLoop.StepHead | painter/loop.go:44-50 | one iteration depends only on the head of the queue |
| EventLoop.RunAppend | painter/loop.go:43-58 | with no stop among them, operations queued first are all applied before the ones queued after them |
| EventLoop.RunWithoutUpdates | painter/loop.go:45-50 | with no UpdateOp and no stop, the loop applies the whole queue to `next`, in order, as one operation list, and hands nothing out |
| EventLoop.StopAfterPending | painter/loop.go:91-95 | the loop stops right after the stop request: everything queued before it is applied, nothing after it |
| EventLoop.FillStep | painter/loop.go:45-46 | a queued fill appends its record to `next` |
| EventLoop.UpdateStep | painter/loop.go:46-49 | a queued UpdateOp hands `next` over and swaps the textures |
| EventLoop.RunOn | painter/loop.go:52-57 | the loop goes on after an iteration that did not request the stop |
| EventLoop.FillThenRun | painter/loop.go:43-58 | a fill at the head is applied, then the rest runs |
| EventLoop.LastUpdate | painter/loop.go:43-58 | a lone UpdateOp swaps the textures and empties the queue |
| EventLoop.PostWhiteGreenUpdate | painter/loop_test.go:58-83 | after WhiteFill, GreenFill and UpdateOp, the texture handed out holds exactly the white and green fills, and the textures are swapped |
| EventLoop.MessageQueue.constructor | painter/loop.go:35 | a new queue is empty |
| EventLoop.MessageQueue.Push | painter/loop.go:121-130 | Push appends the operation at the tail |
| EventLoop.MessageQueue.Pull | painter/loop.go:133-148 | Pull returns the head and removes it |
| EventLoop.MessageQueue.Size | painter/loop.go:150-154 | Size is the number of queued operations |
| EventLoop.MessageQueue.Clear | painter/loop.go:156-160 | Clear empties the queue |
| EventLoop.Receiver.constructor | painter/loop_test.go:16-18 | a new receiver holds no texture |
| EventLoop.Receiver.Update | painter/loop_test.go:20-22 | Update records the texture it is given |
| EventLoop.Loop.Start | painter/loop.go:32-40 | Start: two distinct fresh 800x800 textures, both empty, an empty queue, and no stop request |
| EventLoop.Loop.Post | painter/loop.go:61-65 | Post appends a non-nil operation and drops nil |
| EventLoop.Loop.Size | painter/loop.go:109-111 | the loop's Size is its queue's |
| EventLoop.Loop.EventStep | painter/loop.go:44-56 | one iteration of eventProcess is Step. When ready, the receiver gets the texture just drawn and the two textures are swapped; otherwise both stay |
| EventLoop.Loop.EventProcess | painter/loop.go:43-58 | eventProcess is Run; the loop keeps the same two textures, and it has emptied the queue unless it stopped |
| EventLoop.Loop.StopAndWait | painter/loop.go:91-95 | StopAndWait queues the stop request and runs the loop up to it |
| LoopCases.QueueScenario | painter/loop_test.go:128-159 | the queue is empty at first and not empty after a push; the two operations come back in the order pushed, and the queue is empty again |
| LoopCases.PostScenario | painter/loop_test.go:58-87 | the receiver gets a texture with exactly two fills, white then green; StopAndWait then stops the loop with nothing queued |

## Left out

- Concurrency is not modelled: the goroutine started by Start, the queue's mutex, and
  the `blocked` and `stopped` channels (`painter/loop.go:36-39`, `116-117`, `122-142`,
  `95`). The loop runs sequentially. Where Pull would block on an empty queue, the
  model's `EventProcess` returns instead. `Pull` requires a non-empty queue.
- `PostWithTimeout` (`painter/loop.go:68-88`) is left out: it depends on a goroutine
  and a timer.
- Texture allocation through `screen.Screen` is left out. Start makes two fresh
  800x800 textures with empty fill logs, as the test's mock screen does. The release
  and clearing of the textures after the stop (`painter/loop.go:97-106`) is left out
  too.
- The real `Receiver` (the window) is not part of this model. The receiver is the
  test's recording receiver.
- `TestLoop_Post_Multiple` (`painter/loop_test.go:89-126`) is not modelled: it posts
  closures that change the test's own variables. The execution order it checks is
  what `EventLoop.RunAppend` and `EventLoop.RunLeavesSuffix` state.
- The stop request's closure: in the model, the loop step sets `stopReq`. This happens
  after the operation is applied, which is the point where the Go closure would set it.
- `Lang.Parser.Parse` does not model reading through `bufio.Scanner`. It takes the
  script as a sequence of lines, so there is no reader error and no token-size limit.
- `Text.ParseFloat` accepts only decimal literals (an optional sign, digits, an
  optional fraction) and reads them as exact rationals. A magnitude of 2^1024 - 2^970
  or more, which float64 rounds to infinity, is refused as Go's range error. It does not
  model exponents, hexadecimal forms, `inf`/`nan`, underscores or float64 rounding: a
  value in range is kept exact where Go returns the nearest float64, and a tiny value
  that Go rounds to zero keeps its value. For the test scripts the exact value and the
  float64 value truncate to the same pixel.
- Go's 64-bit `int` is modelled as an unbounded integer: coordinates do not overflow.
- The `draw.Src` mode argument of `Fill` is not recorded. The fill log holds only the
  rectangle and the colour.
- The comparison of `lastBgColor` with `OperationFunc(ResetScreen)`
  (`painter/lang/parser.go:52`) is modelled as the test "the background is
  ResetScreen". Go cannot compare two function values, so the model reads the
  evident intent.
- Figures: a Go Move holds pointers and the model holds arena indices. Because of
  this, `EventLoop.Loop.Post` and `Ops.Do` require that the operation refers only to
  existing figures. A Go pointer cannot miss its figure.
- Lang.InterpretFlattens, Lang.SessionCarriesOver and Lang.InterpretKeepsStarted are
  stated for parsers whose background is set or whose fields are all nil. No other
  state is reachable: `initialize` sets a default on an all-nil parser and `reset`
  sets ResetScreen.
- EventLoop.Loop.EventProcess returns once the queue is empty, where the source would
  wait for the next Post.
