/**
 * What a batch returned by the parser draws. Applying the operations of
 * finalResult to the figure arena and a texture fills the background, then the
 * rectangle, moves every figure the pending moves captured by the sum of those
 * moves, and draws each figure of the parser at its new position, in creation order.
 */
module Drawing {
  import opened Wrappers
  import opened Ops
  import opened Lang

  /** Every figure index the moves hold exists in an arena of n figures. */
  predicate MovesIn(moves: seq<Move>, n: nat)
  {
    forall j :: 0 <= j < |moves| ==> WellFormed(OpMove(moves[j]), n)
  }

  /** Every move holds each index at most once. */
  predicate MovesDistinct(moves: seq<Move>)
  {
    forall j :: 0 <= j < |moves| ==> StrictlyIncreasing(moves[j].figures)
  }

  /** The arena after the moves, applied in order. */
  function AfterMoves(figs: seq<Figure>, moves: seq<Move>): (r: seq<Figure>)
    requires MovesIn(moves, |figs|)
    ensures |r| == |figs|
    decreases |moves|
  {
    if moves == [] then figs
    else AfterMoves(MovedFigures(figs, moves[0].figures, moves[0].x, moves[0].y), moves[1..])
  }

  /** The horizontal distance the moves carry figure i: the steps of the moves holding i. */
  function OffsetX(moves: seq<Move>, i: nat): int
    decreases |moves|
  {
    if moves == [] then 0 else (if i in moves[0].figures then moves[0].x else 0) + OffsetX(moves[1..], i)
  }

  /** The vertical distance the moves carry figure i. */
  function OffsetY(moves: seq<Move>, i: nat): int
    decreases |moves|
  {
    if moves == [] then 0 else (if i in moves[0].figures then moves[0].y else 0) + OffsetY(moves[1..], i)
  }

  /** The glyphs of the figures at the given indices, one after the other. */
  function Glyphs(figs: seq<Figure>, ids: seq<nat>): (r: seq<FillRecord>)
    requires forall k :: 0 <= k < |ids| ==> ids[k] < |figs|
    ensures |r| == 2 * |ids|
    ensures forall k {:trigger ids[k]} :: 0 <= k < |ids| ==> r[2 * k..2 * k + 2] == FigureFills(figs[ids[k]])
    decreases |ids|
  {
    if ids == [] then []
    else
      var rest := Glyphs(figs, ids[1..]);
      var r := FigureFills(figs[ids[0]]) + rest;
      assert forall k :: 1 <= k < |ids| ==> r[2 * k..2 * k + 2] == rest[2 * (k - 1)..2 * (k - 1) + 2];
      r
  }

  /** A figure index occurs once in a strictly increasing list, or not at all. */
  lemma {:induction false} CountDistinct(ids: seq<nat>, i: nat)
    requires StrictlyIncreasing(ids)
    ensures multiset(ids)[i] == if i in ids then 1 else 0
    decreases |ids|
  {
    if ids != [] {
      assert ids == [ids[0]] + ids[1..];
      assert StrictlyIncreasing(ids[1..]);
      CountDistinct(ids[1..], i);
      if i == ids[0] {
        assert i !in ids[1..];
      }
    }
  }

  /** A move holding each index once translates exactly the figures it holds. */
  lemma MovedOnce(figs: seq<Figure>, m: Move, i: nat)
    requires WellFormed(OpMove(m), |figs|) && StrictlyIncreasing(m.figures) && i < |figs|
    ensures MovedFigures(figs, m.figures, m.x, m.y)[i]
         == if i in m.figures then Translate(figs[i], m.x, m.y) else figs[i]
  {
    var c := multiset(m.figures)[i];
    assert MovedFigures(figs, m.figures, m.x, m.y)[i] == Shifted(figs[i], m.x, m.y, c);
    CountDistinct(m.figures, i);
    ShiftedOnceOrNot(figs[i], m.x, m.y);
  }

  lemma ShiftedOnceOrNot(f: Figure, dx: int, dy: int)
    ensures Shifted(f, dx, dy, 1) == Translate(f, dx, dy)
    ensures Shifted(f, dx, dy, 0) == f
  {
    assert dx * 1 == dx && dy * 1 == dy;
    assert dx * 0 == 0 && dy * 0 == 0;
  }

  /** After the moves, each figure sits at its position plus its offsets; nothing else changes. */
  lemma {:induction false} AfterMovesAt(figs: seq<Figure>, moves: seq<Move>, i: nat)
    requires MovesIn(moves, |figs|) && MovesDistinct(moves) && i < |figs|
    ensures AfterMoves(figs, moves)[i] == Translate(figs[i], OffsetX(moves, i), OffsetY(moves, i))
    decreases |moves|
  {
    if moves != [] {
      var next := MovedFigures(figs, moves[0].figures, moves[0].x, moves[0].y);
      MovedOnce(figs, moves[0], i);
      assert MovesIn(moves[1..], |next|) by {
        assert forall j :: 0 <= j < |moves| - 1 ==> moves[1..][j] == moves[j + 1];
      }
      assert MovesDistinct(moves[1..]) by {
        assert forall j :: 0 <= j < |moves| - 1 ==> moves[1..][j] == moves[j + 1];
      }
      AfterMovesAt(next, moves[1..], i);
    }
  }

  /** A move holding no figure contributes nothing to any figure's offset. */
  lemma {:induction false} OffsetOfMissing(moves: seq<Move>, i: nat)
    requires forall j :: 0 <= j < |moves| ==> i !in moves[j].figures
    ensures OffsetX(moves, i) == 0 && OffsetY(moves, i) == 0
    decreases |moves|
  {
    if moves != [] {
      assert forall j :: 0 <= j < |moves| - 1 ==> moves[1..][j] == moves[j + 1];
      OffsetOfMissing(moves[1..], i);
    }
  }

  /** The pending moves only translate figures: they draw nothing and are never ready. */
  lemma {:induction false} MoveOpsApply(moves: seq<Move>, bounds: Rect, w: World)
    requires MovesIn(moves, |w.figures|)
    ensures AllWellFormed(MoveOps(moves), |w.figures|)
    ensures ApplyList(MoveOps(moves), bounds, w) == Outcome(false, World(AfterMoves(w.figures, moves), w.fills))
    decreases |moves|
  {
    if moves != [] {
      var next := w.(figures := MovedFigures(w.figures, moves[0].figures, moves[0].x, moves[0].y));
      assert MoveOps(moves)[1..] == MoveOps(moves[1..]);
      assert MovesIn(moves[1..], |next.figures|) by {
        assert forall j :: 0 <= j < |moves| - 1 ==> moves[1..][j] == moves[j + 1];
      }
      MoveOpsApply(moves[1..], bounds, next);
    }
  }

  /** The figure operations draw the glyphs of their figures, in order, and move nothing. */
  lemma {:induction false} FigureOpsApply(ids: seq<nat>, bounds: Rect, w: World)
    requires forall k :: 0 <= k < |ids| ==> ids[k] < |w.figures|
    ensures AllWellFormed(FigureOps(ids), |w.figures|)
    ensures ApplyList(FigureOps(ids), bounds, w) == Outcome(false, w.(fills := w.fills + Glyphs(w.figures, ids)))
    decreases |ids|
  {
    if ids != [] {
      var next := w.(fills := w.fills + FigureFills(w.figures[ids[0]]));
      assert FigureOps(ids)[1..] == FigureOps(ids[1..]);
      FigureOpsApply(ids[1..], bounds, next);
      assert next.fills + Glyphs(w.figures, ids[1..]) == w.fills + Glyphs(w.figures, ids);
    }
  }

  /** The fill the background choice draws, if there is one. */
  function BackgroundFills(p: ParserState, bounds: Rect): seq<FillRecord>
  {
    if p.lastBgColor.Some? then FuncFills(p.lastBgColor.value, bounds) else []
  }

  /** The black rectangle the last bgrect draws, if there is one. */
  function RectFills(p: ParserState): seq<FillRecord>
  {
    if p.lastBgRect.Some? then
      var r := p.lastBgRect.value;
      [FillRecord(MakeRect(r.x1, r.y1, r.x2, r.y2), Black)]
    else []
  }

  /** The moves of a valid parser state hold each figure at most once, and only existing ones. */
  lemma ValidMoves(p: ParserState, n: nat)
    requires StateValid(p, n)
    ensures MovesIn(p.moveOps, n) && MovesDistinct(p.moveOps)
  {
    forall j | 0 <= j < |p.moveOps|
      ensures WellFormed(OpMove(p.moveOps[j]), n) && StrictlyIncreasing(p.moveOps[j].figures)
    {
      var m := p.moveOps[j];
      assert m.figures <= p.figures;
      assert forall k :: 0 <= k < |m.figures| ==> m.figures[k] == p.figures[k];
    }
  }

  /** Running a list in two parts: the first part's outcome, then the second's from it. */
  lemma Then(a: seq<Op>, b: seq<Op>, bounds: Rect, w: World, ra: bool, mid: World, rb: bool, end: World)
    requires AllWellFormed(a, |w.figures|) && AllWellFormed(b, |w.figures|)
    requires ApplyList(a, bounds, w) == Outcome(ra, mid)
    requires |mid.figures| == |w.figures| && ApplyList(b, bounds, mid) == Outcome(rb, end)
    ensures AllWellFormed(a + b, |w.figures|)
    ensures ApplyList(a + b, bounds, w) == Outcome(ra || rb, end)
  {
    assert AllWellFormed(a + b, |w.figures|) by {
      assert forall k :: 0 <= k < |a| ==> (a + b)[k] == a[k];
      assert forall k :: |a| <= k < |a + b| ==> (a + b)[k] == b[k - |a|];
    }
    ApplyListAppend(a, b, bounds, w);
  }

  /** The optional single operations of a batch: the background, the rectangle and update. */
  function BackgroundPart(p: ParserState): seq<Op>
  {
    if p.lastBgColor.Some? then [OpFunc(p.lastBgColor.value)] else []
  }

  function RectPart(p: ParserState): seq<Op>
  {
    if p.lastBgRect.Some? then [OpBgRect(p.lastBgRect.value)] else []
  }

  function UpdatePart(p: ParserState): seq<Op>
  {
    if p.updateOp then [OpUpdate] else []
  }

  lemma FlattenParts(p: ParserState)
    ensures Flatten(p).batch
         == BackgroundPart(p) + RectPart(p) + MoveOps(p.moveOps) + FigureOps(p.figures) + UpdatePart(p)
  {
  }

  lemma BackgroundPartApply(p: ParserState, bounds: Rect, w: World)
    ensures AllWellFormed(BackgroundPart(p), |w.figures|)
    ensures ApplyList(BackgroundPart(p), bounds, w)
         == Outcome(false, w.(fills := w.fills + BackgroundFills(p, bounds)))
  {
    if p.lastBgColor.Some? {
      assert BackgroundPart(p)[1..] == [];
    }
  }

  lemma RectPartApply(p: ParserState, bounds: Rect, w: World)
    ensures AllWellFormed(RectPart(p), |w.figures|)
    ensures ApplyList(RectPart(p), bounds, w) == Outcome(false, w.(fills := w.fills + RectFills(p)))
  {
    if p.lastBgRect.Some? {
      assert RectPart(p)[1..] == [];
    }
  }

  lemma UpdatePartApply(p: ParserState, bounds: Rect, w: World)
    ensures AllWellFormed(UpdatePart(p), |w.figures|)
    ensures ApplyList(UpdatePart(p), bounds, w) == Outcome(p.updateOp, w)
  {
    if p.updateOp {
      assert UpdatePart(p)[1..] == [];
    }
  }

  /**
   * What finalResult's batch does: it is ready exactly when update was given, it
   * applies every pending move to the arena, and it draws the background, then the
   * rectangle, then the glyph of every figure at its position after the moves.
   */
  lemma BatchDraws(p: ParserState, bounds: Rect, w: World)
    requires StateValid(p, |w.figures|)
    ensures AllWellFormed(Flatten(p).batch, |w.figures|)
    ensures MovesIn(p.moveOps, |w.figures|)
    ensures ApplyList(Flatten(p).batch, bounds, w)
         == Outcome(p.updateOp,
                    World(AfterMoves(w.figures, p.moveOps),
                          w.fills + BackgroundFills(p, bounds) + RectFills(p)
                          + Glyphs(AfterMoves(w.figures, p.moveOps), p.figures)))
  {
    var n := |w.figures|;
    ValidMoves(p, n);
    FlattenParts(p);
    var w1 := w.(fills := w.fills + BackgroundFills(p, bounds));
    var w2 := w1.(fills := w1.fills + RectFills(p));
    var moved := AfterMoves(w.figures, p.moveOps);
    var w3 := World(moved, w2.fills);
    var w4 := w3.(fills := w3.fills + Glyphs(moved, p.figures));
    BackgroundPartApply(p, bounds, w);
    RectPartApply(p, bounds, w1);
    RectPartApply(p, bounds, w);
    Then(BackgroundPart(p), RectPart(p), bounds, w, false, w1, false, w2);
    var a := BackgroundPart(p) + RectPart(p);
    MoveOpsApply(p.moveOps, bounds, w2);
    MoveOpsApply(p.moveOps, bounds, w);
    Then(a, MoveOps(p.moveOps), bounds, w, false, w2, false, w3);
    var b := a + MoveOps(p.moveOps);
    FigureOpsApply(p.figures, bounds, w3);
    FigureOpsApply(p.figures, bounds, w);
    Then(b, FigureOps(p.figures), bounds, w, false, w3, false, w4);
    var c := b + FigureOps(p.figures);
    UpdatePartApply(p, bounds, w4);
    UpdatePartApply(p, bounds, w);
    Then(c, UpdatePart(p), bounds, w, false, w4, p.updateOp, w4);
  }

  /**
   * Where each figure of a batch is drawn: the k-th glyph after the rectangle (see
   * BatchDraws) stands at the figure's position translated by the pending moves that
   * captured it, each once.
   */
  lemma FigureDrawnAt(p: ParserState, w: World, k: nat)
    requires StateValid(p, |w.figures|) && k < |p.figures|
    ensures MovesIn(p.moveOps, |w.figures|)
    ensures Glyphs(AfterMoves(w.figures, p.moveOps), p.figures)[2 * k..2 * k + 2]
            == FigureFills(Translate(w.figures[p.figures[k]], OffsetX(p.moveOps, p.figures[k]),
                                     OffsetY(p.moveOps, p.figures[k])))
  {
    ValidMoves(p, |w.figures|);
    GlyphAt(w.figures, p.moveOps, p.figures, k);
  }

  lemma GlyphAt(figs: seq<Figure>, moves: seq<Move>, ids: seq<nat>, k: nat)
    requires MovesIn(moves, |figs|) && MovesDistinct(moves)
    requires (forall t :: 0 <= t < |ids| ==> ids[t] < |figs|) && k < |ids|
    ensures Glyphs(AfterMoves(figs, moves), ids)[2 * k..2 * k + 2]
            == FigureFills(Translate(figs[ids[k]], OffsetX(moves, ids[k]), OffsetY(moves, ids[k])))
  {
    AfterMovesAt(figs, moves, ids[k]);
  }

  /**
   * A figure created after every pending move (so no move captured it) is drawn
   * where it was created.
   */
  lemma LateFigureStays(p: ParserState, w: World, k: nat)
    requires StateValid(p, |w.figures|) && k < |p.figures|
    requires forall j :: 0 <= j < |p.moveOps| ==> |p.moveOps[j].figures| <= k
    ensures MovesIn(p.moveOps, |w.figures|)
    ensures Glyphs(AfterMoves(w.figures, p.moveOps), p.figures)[2 * k..2 * k + 2]
            == FigureFills(w.figures[p.figures[k]])
  {
    FigureDrawnAt(p, w, k);
    forall j | 0 <= j < |p.moveOps|
      ensures p.figures[k] !in p.moveOps[j].figures
    {
      var m := p.moveOps[j];
      assert m.figures <= p.figures;
      forall t | 0 <= t < |m.figures|
        ensures m.figures[t] != p.figures[k]
      {
        assert m.figures[t] == p.figures[t] && t < k;
      }
    }
    OffsetOfMissing(p.moveOps, p.figures[k]);
    assert Translate(w.figures[p.figures[k]], 0, 0) == w.figures[p.figures[k]];
  }

  /** A batch over the first n figures of an arena leaves every later figure in place. */
  lemma EarlierBatchLeavesLater(p: ParserState, n: nat, bounds: Rect, w: World)
    requires StateValid(p, n) && n <= |w.figures|
    ensures AllWellFormed(Flatten(p).batch, |w.figures|)
    ensures forall i :: n <= i < |w.figures|
              ==> ApplyList(Flatten(p).batch, bounds, w).world.figures[i] == w.figures[i]
  {
    FlattenWellFormed(p, n);
    ApplyListLeavesLater(Flatten(p).batch, n, bounds, w);
  }
}
