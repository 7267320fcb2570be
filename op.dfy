/**
 * The drawing operations of the painter (painter/op.go).
 *
 * A texture is modelled the way the loop's test double records it: as a log of
 * `Fill(rect, colour)` calls.  Figures are heap objects in the source and a Move
 * holds pointers to them; here they live in an append-only arena (a sequence of
 * figure records), and an operation refers to a figure by its arena index.
 */
module Ops {

  newtype u8 = x: int | 0 <= x < 0x100
  newtype u16 = x: int | 0 <= x < 0x1_0000

  /** The colour values the painter fills with: color.Gray16 (color.White, color.Black) and color.RGBA. */
  datatype Color = Gray16(y: u16) | RGBA(r: u8, g: u8, b: u8, a: u8)

  const White: Color := Gray16(0xffff)
  const Black: Color := Gray16(0)
  const Green: Color := RGBA(0, 0xff, 0, 0xff)
  /** The colour the script interpreter gives every figure. */
  const Red: Color := RGBA(0xff, 0, 0, 0xff)

  /** An image.Rectangle: Min is (x0, y0), Max is (x1, y1). */
  datatype Rect = Rect(x0: int, y0: int, x1: int, y1: int)

  /** image.Rect: a rectangle with the given corners, swapped where needed so that Min <= Max. */
  function MakeRect(x0: int, y0: int, x1: int, y1: int): (r: Rect)
    ensures r.x0 <= r.x1 && r.y0 <= r.y1
    ensures {r.x0, r.x1} == {x0, x1} && {r.y0, r.y1} == {y0, y1}
  {
    Rect(if x0 <= x1 then x0 else x1, if y0 <= y1 then y0 else y1,
         if x0 <= x1 then x1 else x0, if y0 <= y1 then y1 else y0)
  }

  /** One recorded call of Texture.Fill (always with draw.Src). */
  datatype FillRecord = FillRecord(rect: Rect, color: Color)

  /**
   * The functions wrapped by OperationFunc in the repository: the three whole-texture
   * fills and the closure StopAndWait posts to stop the loop (painter/loop.go:92-94).
   */
  datatype Func = WhiteFill | GreenFill | ResetScreen | StopRequest

  datatype Figure = Figure(x: int, y: int, c: Color)

  datatype BgRectangle = BgRectangle(x1: int, y1: int, x2: int, y2: int)

  /** A Move translates by (x, y) the figures whose arena indices it holds. */
  datatype Move = Move(x: int, y: int, figures: seq<nat>)

  /** The closed set of Operation implementations. */
  datatype Op =
    | OpFunc(f: Func)
    | OpBgRect(rect: BgRectangle)
    | OpFigure(id: nat)
    | OpMove(move: Move)
    | OpUpdate
    | OpList(ops: seq<Op>)

  /** What an operation can change: the figure arena and the texture's fill log. */
  datatype World = World(figures: seq<Figure>, fills: seq<FillRecord>)

  /** The `ready` result of Do together with the world it leaves. */
  datatype Outcome = Outcome(ready: bool, world: World)

  /** Every figure index the operation mentions exists in an arena of n figures. */
  predicate WellFormed(op: Op, n: nat)
  {
    match op
    case OpFigure(id) => id < n
    case OpMove(m) => forall k :: 0 <= k < |m.figures| ==> m.figures[k] < n
    case OpList(ops) => forall k :: 0 <= k < |ops| ==> WellFormed(ops[k], n)
    case _ => true
  }

  predicate AllWellFormed(ops: seq<Op>, n: nat)
  {
    forall k :: 0 <= k < |ops| ==> WellFormed(ops[k], n)
  }

  function FuncColor(f: Func): Color
    requires f != StopRequest
  {
    match f
    case WhiteFill => White
    case GreenFill => Green
    case ResetScreen => Black
  }

  /** The fills a wrapped function records on a texture with the given bounds. */
  function FuncFills(f: Func, bounds: Rect): seq<FillRecord>
  {
    if f == StopRequest then [] else [FillRecord(bounds, FuncColor(f))]
  }

  /** The two bars of the inverted-T glyph Figure.Do draws. */
  function FigureFills(f: Figure): (fs: seq<FillRecord>)
    ensures |fs| == 2 && fs[0].color == f.c && fs[1].color == f.c
    // a 150x70 horizontal bar whose lower edge is the centre row
    ensures fs[0].rect == Rect(f.x - 75, f.y - 70, f.x + 75, f.y)
    // a 60x140 vertical bar centred on (x, y)
    ensures fs[1].rect == Rect(f.x - 30, f.y - 70, f.x + 30, f.y + 70)
  {
    [FillRecord(MakeRect(f.x - 75, f.y, f.x + 75, f.y - 70), f.c),
     FillRecord(MakeRect(f.x - 30, f.y - 70, f.x + 30, f.y + 70), f.c)]
  }

  function Translate(f: Figure, dx: int, dy: int): Figure
  {
    f.(x := f.x + dx, y := f.y + dy)
  }

  /** The figure translated c times by (dx, dy). */
  function Shifted(f: Figure, dx: int, dy: int, c: nat): Figure
  {
    f.(x := f.x + dx * c, y := f.y + dy * c)
  }

  lemma ShiftedStep(f: Figure, dx: int, dy: int, c: nat)
    ensures Shifted(Translate(f, dx, dy), dx, dy, c) == Shifted(f, dx, dy, c + 1)
    ensures Translate(Shifted(f, dx, dy, c), dx, dy) == Shifted(f, dx, dy, c + 1)
  {
    assert dx * (c + 1) == dx * c + dx;
    assert dy * (c + 1) == dy * c + dy;
  }

  /**
   * The arena after translating by (dx, dy) the figure at each index of ids in turn:
   * a figure is moved once for every time its index occurs, and the others are unchanged.
   */
  function MovedFigures(figs: seq<Figure>, ids: seq<nat>, dx: int, dy: int): (r: seq<Figure>)
    requires forall k :: 0 <= k < |ids| ==> ids[k] < |figs|
    ensures |r| == |figs|
    ensures forall i: nat :: i < |figs| ==> r[i] == Shifted(figs[i], dx, dy, multiset(ids)[i])
    decreases |ids|
  {
    if ids == [] then figs
    else
      var figs' := figs[ids[0] := Translate(figs[ids[0]], dx, dy)];
      var r := MovedFigures(figs', ids[1..], dx, dy);
      assert ids == [ids[0]] + ids[1..];
      ShiftedStep(figs[ids[0]], dx, dy, multiset(ids[1..])[ids[0]]);
      assert forall i: nat :: i < |figs| && i != ids[0] ==> multiset(ids)[i] == multiset(ids[1..])[i];
      r
  }

  /** Do: the `ready` result and the new world, for a texture with the given bounds. */
  function Apply(op: Op, bounds: Rect, w: World): (o: Outcome)
    requires WellFormed(op, |w.figures|)
    ensures |o.world.figures| == |w.figures|
    ensures w.fills <= o.world.fills
    decreases op
  {
    match op
    case OpFunc(f) => Outcome(false, w.(fills := w.fills + FuncFills(f, bounds)))
    case OpBgRect(r) =>
      Outcome(false, w.(fills := w.fills + [FillRecord(MakeRect(r.x1, r.y1, r.x2, r.y2), Black)]))
    case OpFigure(id) => Outcome(false, w.(fills := w.fills + FigureFills(w.figures[id])))
    case OpMove(m) => Outcome(false, w.(figures := MovedFigures(w.figures, m.figures, m.x, m.y)))
    case OpUpdate => Outcome(true, w)
    case OpList(ops) => ApplyList(ops, bounds, w)
  }

  /** OperationList.Do: every member in order; ready if any member was. */
  function ApplyList(ops: seq<Op>, bounds: Rect, w: World): (o: Outcome)
    requires AllWellFormed(ops, |w.figures|)
    ensures |o.world.figures| == |w.figures|
    ensures w.fills <= o.world.fills
    decreases ops
  {
    if ops == [] then Outcome(false, w)
    else
      var first := Apply(ops[0], bounds, w);
      var rest := ApplyList(ops[1..], bounds, first.world);
      Outcome(first.ready || rest.ready, rest.world)
  }

  /** The operation asks for the texture to be presented: it is UpdateOp or a list holding one. */
  predicate Presents(op: Op)
  {
    match op
    case OpUpdate => true
    case OpList(ops) => exists k :: 0 <= k < |ops| && Presents(ops[k])
    case _ => false
  }

  /** The number of fills the operation records, counted over its structure. */
  function FillCount(op: Op): nat
  {
    match op
    case OpFunc(f) => if f == StopRequest then 0 else 1
    case OpBgRect(_) => 1
    case OpFigure(_) => 2
    case OpMove(_) => 0
    case OpUpdate => 0
    case OpList(ops) => ListFillCount(ops)
  }

  function ListFillCount(ops: seq<Op>): nat
    decreases ops
  {
    if ops == [] then 0 else FillCount(ops[0]) + ListFillCount(ops[1..])
  }

  lemma {:induction false} ApplyListAppend(a: seq<Op>, b: seq<Op>, bounds: Rect, w: World)
    requires AllWellFormed(a + b, |w.figures|)
    ensures AllWellFormed(a, |w.figures|)
    ensures AllWellFormed(b, |ApplyList(a, bounds, w).world.figures|)
    ensures ApplyList(a + b, bounds, w)
         == var ra := ApplyList(a, bounds, w);
            var rb := ApplyList(b, bounds, ra.world);
            Outcome(ra.ready || rb.ready, rb.world)
    decreases a
  {
    assert forall k :: 0 <= k < |a| ==> (a + b)[k] == a[k];
    assert forall k :: 0 <= k < |b| ==> (a + b)[|a| + k] == b[k];
    if a != [] {
      assert (a + b)[1..] == a[1..] + b;
      assert AllWellFormed(a[1..] + b, |w.figures|);
      ApplyListAppend(a[1..], b, bounds, Apply(a[0], bounds, w).world);
    } else {
      assert a + b == b;
    }
  }

  /** Appending one member to a list: the step OperationList.Do's loop takes. */
  lemma ApplyListSnoc(ops: seq<Op>, op: Op, bounds: Rect, w: World)
    requires AllWellFormed(ops, |w.figures|) && WellFormed(op, |w.figures|)
    ensures AllWellFormed(ops + [op], |w.figures|)
    ensures ApplyList(ops + [op], bounds, w)
         == var ra := ApplyList(ops, bounds, w);
            var rb := Apply(op, bounds, ra.world);
            Outcome(ra.ready || rb.ready, rb.world)
  {
    assert AllWellFormed(ops + [op], |w.figures|) by {
      assert forall k :: 0 <= k < |ops| ==> (ops + [op])[k] == ops[k];
      assert (ops + [op])[|ops|] == op;
    }
    ApplyListAppend(ops, [op], bounds, w);
    var ra := ApplyList(ops, bounds, w);
    assert [op][1..] == [];
    assert ApplyList([op], bounds, ra.world) == Apply(op, bounds, ra.world);
  }

  /** Do reports ready exactly when the operation is, or contains, UpdateOp. */
  lemma {:induction false} ApplyReadyIff(op: Op, bounds: Rect, w: World)
    requires WellFormed(op, |w.figures|)
    ensures Apply(op, bounds, w).ready <==> Presents(op)
    decreases op
  {
    if op.OpList? {
      ApplyListReadyIff(op.ops, bounds, w);
    }
  }

  /** OperationList.Do is ready iff some member presents, wherever that member stands. */
  lemma {:induction false} ApplyListReadyIff(ops: seq<Op>, bounds: Rect, w: World)
    requires AllWellFormed(ops, |w.figures|)
    ensures ApplyList(ops, bounds, w).ready <==> exists k :: 0 <= k < |ops| && Presents(ops[k])
    decreases ops
  {
    if ops != [] {
      var first := Apply(ops[0], bounds, w);
      ApplyReadyIff(ops[0], bounds, w);
      ApplyListReadyIff(ops[1..], bounds, first.world);
      assert forall k :: 1 <= k < |ops| ==> ops[k] == ops[1..][k - 1];
      assert forall k :: 0 <= k < |ops| - 1 ==> ops[1..][k] == ops[k + 1];
    }
  }

  /** Every member of a list is applied, even after one reported ready: the fill counts add up. */
  lemma {:induction false} ApplyFillCount(op: Op, bounds: Rect, w: World)
    requires WellFormed(op, |w.figures|)
    ensures |Apply(op, bounds, w).world.fills| == |w.fills| + FillCount(op)
    decreases op
  {
    if op.OpList? {
      ApplyListFillCount(op.ops, bounds, w);
    }
  }

  lemma {:induction false} ApplyListFillCount(ops: seq<Op>, bounds: Rect, w: World)
    requires AllWellFormed(ops, |w.figures|)
    ensures |ApplyList(ops, bounds, w).world.fills| == |w.fills| + ListFillCount(ops)
    decreases ops
  {
    if ops != [] {
      ApplyFillCount(ops[0], bounds, w);
      ApplyListFillCount(ops[1..], bounds, Apply(ops[0], bounds, w).world);
    }
  }

  /** A member that presents does not stop the members after it from being applied. */
  lemma NoShortCircuit(ops: seq<Op>, k: nat, bounds: Rect, w: World)
    requires AllWellFormed(ops, |w.figures|)
    requires k < |ops| && Presents(ops[k])
    ensures AllWellFormed(ops[k + 1..], |ApplyList(ops[..k + 1], bounds, w).world.figures|)
    ensures ApplyList(ops, bounds, w)
         == Outcome(true, ApplyList(ops[k + 1..], bounds, ApplyList(ops[..k + 1], bounds, w).world).world)
  {
    assert ops == ops[..k + 1] + ops[k + 1..];
    ApplyListAppend(ops[..k + 1], ops[k + 1..], bounds, w);
    assert ops[..k + 1][k] == ops[k];
    ApplyListReadyIff(ops[..k + 1], bounds, w);
  }

  /**
   * An operation that refers only to the first n figures leaves every later figure as
   * it was: a batch never moves figures created after it was built.
   */
  lemma {:induction false} ApplyLeavesLater(op: Op, n: nat, bounds: Rect, w: World)
    requires n <= |w.figures| && WellFormed(op, n)
    ensures WellFormed(op, |w.figures|)
    ensures forall i :: n <= i < |w.figures| ==> Apply(op, bounds, w).world.figures[i] == w.figures[i]
    decreases op
  {
    match op
    case OpMove(m) =>
      forall i | n <= i < |w.figures|
        ensures Apply(op, bounds, w).world.figures[i] == w.figures[i]
      {
        assert i !in multiset(m.figures);
        assert Shifted(w.figures[i], m.x, m.y, 0) == w.figures[i];
      }
    case OpList(ops) =>
      ApplyListLeavesLater(ops, n, bounds, w);
    case _ =>
  }

  lemma {:induction false} ApplyListLeavesLater(ops: seq<Op>, n: nat, bounds: Rect, w: World)
    requires n <= |w.figures| && AllWellFormed(ops, n)
    ensures AllWellFormed(ops, |w.figures|)
    ensures forall i :: n <= i < |w.figures| ==> ApplyList(ops, bounds, w).world.figures[i] == w.figures[i]
    decreases ops
  {
    if ops != [] {
      ApplyLeavesLater(ops[0], n, bounds, w);
      assert AllWellFormed(ops, |w.figures|) by {
        forall k | 0 <= k < |ops|
          ensures WellFormed(ops[k], |w.figures|)
        {
          WellFormedGrows(ops[k], n, |w.figures|);
        }
      }
      var first := Apply(ops[0], bounds, w);
      assert AllWellFormed(ops[1..], n) by {
        assert forall k :: 0 <= k < |ops| - 1 ==> ops[1..][k] == ops[k + 1];
      }
      ApplyListLeavesLater(ops[1..], n, bounds, first.world);
    }
  }

  lemma {:induction false} WellFormedGrows(op: Op, n: nat, m: nat)
    requires n <= m && WellFormed(op, n)
    ensures WellFormed(op, m)
    decreases op
  {
    if op.OpList? {
      forall k | 0 <= k < |op.ops|
        ensures WellFormed(op.ops[k], m)
      {
        WellFormedGrows(op.ops[k], n, m);
      }
    }
  }

  /** screen.Texture as the test double records it: fixed bounds and a log of fills. */
  class Texture {
    const bounds: Rect
    var fills: seq<FillRecord>

    constructor (width: nat, height: nat)
      ensures bounds == Rect(0, 0, width, height) && fills == []
    {
      bounds := Rect(0, 0, width, height);
      fills := [];
    }

    method Fill(r: Rect, c: Color)
      modifies this
      ensures fills == old(fills) + [FillRecord(r, c)]
    {
      fills := fills + [FillRecord(r, c)];
    }
  }

  /** The figure records the script interpreter allocates; indices are never reused. */
  class Arena {
    var figures: seq<Figure>

    constructor ()
      ensures figures == []
    {
      figures := [];
    }
  }

  method WhiteFill(t: Texture)
    modifies t
    ensures t.fills == old(t.fills) + [FillRecord(t.bounds, White)]
  {
    t.Fill(t.bounds, White);
  }

  method GreenFill(t: Texture)
    modifies t
    ensures t.fills == old(t.fills) + [FillRecord(t.bounds, RGBA(0, 0xff, 0, 0xff))]
  {
    t.Fill(t.bounds, Green);
  }

  method ResetScreen(t: Texture)
    modifies t
    ensures t.fills == old(t.fills) + [FillRecord(t.bounds, Black)]
  {
    t.Fill(t.bounds, Black);
  }

  /** OperationFunc.Do: runs the wrapped function once and is never ready. */
  method DoFunc(f: Func, t: Texture) returns (ready: bool)
    modifies t
    ensures !ready
    ensures t.fills == old(t.fills) + FuncFills(f, t.bounds)
  {
    match f {
      case WhiteFill => WhiteFill(t);
      case GreenFill => GreenFill(t);
      case ResetScreen => ResetScreen(t);
      case StopRequest =>
    }
    ready := false;
  }

  /** updateOp.Do: draws nothing and is always ready. */
  method DoUpdate(t: Texture) returns (ready: bool)
    ensures ready
  {
    ready := true;
  }

  /** BgRectangle.Do: one black fill of the rectangle, never ready. */
  method DoBgRect(r: BgRectangle, t: Texture) returns (ready: bool)
    modifies t
    ensures !ready
    ensures t.fills == old(t.fills) + [FillRecord(MakeRect(r.x1, r.y1, r.x2, r.y2), Black)]
  {
    t.Fill(MakeRect(r.x1, r.y1, r.x2, r.y2), Black);
    ready := false;
  }

  /** Figure.Do: the glyph's two bars in the figure's colour at its current position, never ready. */
  method DoFigure(id: nat, t: Texture, arena: Arena) returns (ready: bool)
    requires id < |arena.figures|
    modifies t
    ensures !ready
    ensures t.fills == old(t.fills) + FigureFills(arena.figures[id])
  {
    var f := arena.figures[id];
    t.Fill(MakeRect(f.x - 75, f.y, f.x + 75, f.y - 70), f.c);
    t.Fill(MakeRect(f.x - 30, f.y - 70, f.x + 30, f.y + 70), f.c);
    ready := false;
  }

  /** One step of DoMove: translating the next listed figure counts its index once more. */
  lemma MoveStep(figs: seq<Figure>, cur: seq<Figure>, ids: seq<nat>, i: nat, dx: int, dy: int)
    requires i < |ids| && ids[i] < |figs| && |cur| == |figs|
    requires forall j: nat :: j < |figs| ==> cur[j] == Shifted(figs[j], dx, dy, multiset(ids[..i])[j])
    ensures forall j: nat :: j < |figs| ==>
              cur[ids[i] := Translate(cur[ids[i]], dx, dy)][j] == Shifted(figs[j], dx, dy, multiset(ids[..i + 1])[j])
  {
    ShiftedStep(figs[ids[i]], dx, dy, multiset(ids[..i])[ids[i]]);
    assert ids[..i + 1] == ids[..i] + [ids[i]];
  }

  /** Move.Do: adds (x, y) to every referenced figure in place; draws nothing, never ready. */
  method DoMove(m: Move, arena: Arena) returns (ready: bool)
    requires forall k :: 0 <= k < |m.figures| ==> m.figures[k] < |arena.figures|
    modifies arena
    ensures !ready
    ensures arena.figures == MovedFigures(old(arena.figures), m.figures, m.x, m.y)
    ensures forall i: nat :: i < |arena.figures| && i !in m.figures ==> arena.figures[i] == old(arena.figures[i])
  {
    ghost var figs := arena.figures;
    var i := 0;
    while i < |m.figures|
      invariant 0 <= i <= |m.figures|
      invariant |arena.figures| == |figs|
      invariant forall j: nat :: j < |figs| ==>
                  arena.figures[j] == Shifted(figs[j], m.x, m.y, multiset(m.figures[..i])[j])
    {
      var id := m.figures[i];
      var f := arena.figures[id];
      MoveStep(figs, arena.figures, m.figures, i, m.x, m.y);
      arena.figures := arena.figures[id := f.(x := f.x + m.x, y := f.y + m.y)];
      i := i + 1;
    }
    assert m.figures[..i] == m.figures;
    ready := false;
  }

  /** Operation.Do, dispatched on the kind of operation. */
  method Do(op: Op, t: Texture, arena: Arena) returns (ready: bool)
    requires WellFormed(op, |arena.figures|)
    modifies t, arena
    ensures Outcome(ready, World(arena.figures, t.fills))
         == Apply(op, t.bounds, World(old(arena.figures), old(t.fills)))
    decreases op
  {
    match op
    case OpFunc(f) => ready := DoFunc(f, t);
    case OpBgRect(r) => ready := DoBgRect(r, t);
    case OpFigure(id) => ready := DoFigure(id, t, arena);
    case OpMove(m) => ready := DoMove(m, arena);
    case OpUpdate => ready := DoUpdate(t);
    case OpList(ops) => ready := DoList(ops, t, arena);
  }

  /** OperationList.Do: `ready = o.Do(t) || ready` for each member in order. */
  method DoList(ops: seq<Op>, t: Texture, arena: Arena) returns (ready: bool)
    requires AllWellFormed(ops, |arena.figures|)
    modifies t, arena
    ensures Outcome(ready, World(arena.figures, t.fills))
         == ApplyList(ops, t.bounds, World(old(arena.figures), old(t.fills)))
    decreases ops
  {
    ghost var w := World(arena.figures, t.fills);
    ready := false;
    var i := 0;
    while i < |ops|
      invariant 0 <= i <= |ops|
      invariant |arena.figures| == |w.figures|
      invariant AllWellFormed(ops[..i], |w.figures|)
      invariant Outcome(ready, World(arena.figures, t.fills)) == ApplyList(ops[..i], t.bounds, w)
    {
      assert ops[..i + 1] == ops[..i] + [ops[i]];
      ApplyListSnoc(ops[..i], ops[i], t.bounds, w);
      var r := Do(ops[i], t, arena);
      ready := r || ready;
      i := i + 1;
    }
    assert ops[..i] == ops;
  }
}
