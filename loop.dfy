/**
 * The painter's event loop, run sequentially: a FIFO queue of operations, two
 * 800x800 textures (`next`, being drawn, and `prev`, last handed to the receiver)
 * and the stop request. Each iteration pulls one operation, applies it to `next`,
 * and when the operation reports ready hands `next` to the receiver and swaps the
 * two textures; the loop ends right after the operation that requests the stop.
 */
module EventLoop {
  import opened Wrappers
  import opened Ops

  /** size: the side of both textures of the loop. */
  const TextureSize: nat := 800

  const Bounds: Rect := Rect(0, 0, TextureSize, TextureSize)

  /**
   * The closure StopAndWait posts is an OperationFunc that sets the loop's stopReq;
   * run as part of a list, it sets it too.
   */
  function RequestsStop(op: Op): (stops: bool)
    ensures op == StopOp ==> stops
    ensures stops ==> op == StopOp || op.OpList?
    decreases op
  {
    match op
    case OpFunc(f) => f == StopRequest
    case OpList(ops) => exists k :: 0 <= k < |ops| && RequestsStop(ops[k])
    case _ => false
  }

  /** The operation StopAndWait posts. */
  const StopOp: Op := OpFunc(StopRequest)

  // ---------------------------------------------------------------------------
  // The loop as a value

  /**
   * The queue, the fill logs of `next` and `prev`, the figure arena, whether the
   * receiver has been handed a texture, and the stop request.
   */
  datatype LoopState = LoopState(queue: seq<Op>, next: seq<FillRecord>, prev: seq<FillRecord>,
                                 figures: seq<Figure>, shown: bool, stopReq: bool)

  predicate Runnable(s: LoopState)
  {
    AllWellFormed(s.queue, |s.figures|)
  }

  /** One iteration of eventProcess on a non-empty queue: pull, apply, hand over and swap if ready. */
  function Step(s: LoopState): (t: LoopState)
    requires s.queue != [] && Runnable(s)
    ensures t.queue == s.queue[1..] && |t.figures| == |s.figures| && Runnable(t)
  {
    var op := s.queue[0];
    var o := Apply(op, Bounds, World(s.figures, s.next));
    var stop := s.stopReq || RequestsStop(op);
    assert forall k :: 0 <= k < |s.queue| - 1 ==> s.queue[1..][k] == s.queue[k + 1];
    if o.ready then LoopState(s.queue[1..], s.prev, o.world.fills, o.world.figures, true, stop)
    else LoopState(s.queue[1..], o.world.fills, s.prev, o.world.figures, s.shown, stop)
  }

  /**
   * eventProcess until it stops or would block in Pull: the state after the operation
   * that set stopReq, or after the last queued operation.
   */
  function Run(s: LoopState): (t: LoopState)
    requires Runnable(s)
    ensures |t.queue| <= |s.queue|
    ensures |t.figures| == |s.figures|
    ensures t.queue == [] || t.stopReq
    decreases |s.queue|
  {
    if s.queue == [] then s
    else
      var t := Step(s);
      if t.stopReq then t else Run(t)
  }

  /** The run pulls from the front only: what is left is a suffix of the queue. */
  lemma {:induction false} RunLeavesSuffix(s: LoopState)
    requires Runnable(s)
    ensures Run(s).queue == s.queue[|s.queue| - |Run(s).queue|..]
    decreases |s.queue|
  {
    if s.queue != [] {
      var t := Step(s);
      if !t.stopReq {
        RunLeavesSuffix(t);
        assert s.queue[1..][|t.queue| - |Run(t).queue|..] == s.queue[|s.queue| - |Run(t).queue|..];
      }
    }
  }

  predicate NoStop(ops: seq<Op>)
  {
    forall k :: 0 <= k < |ops| ==> !RequestsStop(ops[k])
  }

  /** Only the first operation of the queue matters to a step. */
  lemma StepHead(s: LoopState, q: seq<Op>)
    requires s.queue != [] && Runnable(s) && AllWellFormed(q, |s.figures|)
    ensures Runnable(s.(queue := [s.queue[0]] + q))
    ensures Step(s.(queue := [s.queue[0]] + q)) == Step(s).(queue := q)
  {
    var s' := s.(queue := [s.queue[0]] + q);
    assert forall k :: 0 <= k < |s'.queue| ==> s'.queue[k] == if k == 0 then s.queue[0] else q[k - 1];
    assert s'.queue[1..] == q;
  }

  /**
   * Draining a queue is draining its front part, then the rest from the state that
   * leaves: every operation is applied once, in the order it was pushed.
   */
  lemma {:induction false} RunAppend(s: LoopState, a: seq<Op>, b: seq<Op>)
    requires Runnable(s) && s.queue == a + b && !s.stopReq && NoStop(a)
    ensures Runnable(s.(queue := a))
    ensures Run(s.(queue := a)).queue == [] && !Run(s.(queue := a)).stopReq
    ensures Runnable(Run(s.(queue := a)).(queue := b))
    ensures Run(s) == Run(Run(s.(queue := a)).(queue := b))
    decreases |a|
  {
    assert forall k :: 0 <= k < |a| ==> (a + b)[k] == a[k];
    assert forall k :: 0 <= k < |b| ==> (a + b)[|a| + k] == b[k];
    if a == [] {
      assert a + b == b;
      assert s.(queue := a).(queue := b) == s;
    } else {
      var sa := s.(queue := a);
      var t := Step(sa);
      assert !RequestsStop(a[0]);
      assert (a + b)[1..] == a[1..] + b;
      assert AllWellFormed(a[1..] + b, |t.figures|);
      StepHead(sa, a[1..] + b);
      assert [a[0]] + (a[1..] + b) == s.queue;
      assert Step(s) == t.(queue := a[1..] + b);
      assert NoStop(a[1..]) by {
        assert forall k :: 0 <= k < |a| - 1 ==> a[1..][k] == a[k + 1];
      }
      RunAppend(t.(queue := a[1..] + b), a[1..], b);
      assert t.(queue := a[1..] + b).(queue := a[1..]) == t;
    }
  }

  /**
   * Without update and stop requests, draining the queue is OperationList.Do of the
   * queue on `next`: nothing is handed over and no texture is swapped.
   */
  lemma {:induction false} RunWithoutUpdates(s: LoopState)
    requires Runnable(s) && !s.stopReq
    requires forall k :: 0 <= k < |s.queue| ==> !Presents(s.queue[k]) && !RequestsStop(s.queue[k])
    ensures Run(s)
         == s.(queue := [],
               next := ApplyList(s.queue, Bounds, World(s.figures, s.next)).world.fills,
               figures := ApplyList(s.queue, Bounds, World(s.figures, s.next)).world.figures)
    decreases |s.queue|
  {
    if s.queue != [] {
      var op := s.queue[0];
      var w := World(s.figures, s.next);
      ApplyReadyIff(op, Bounds, w);
      var t := Step(s);
      assert forall k :: 0 <= k < |s.queue| - 1 ==> s.queue[1..][k] == s.queue[k + 1];
      RunWithoutUpdates(t);
      assert ApplyList(s.queue, Bounds, w) == ApplyList(s.queue[1..], Bounds, Apply(op, Bounds, w).world);
    }
  }

  /**
   * StopAndWait's promise: with the stop request queued behind other operations, the
   * loop applies all of them first, then stops with the request consumed, leaving the
   * textures as the earlier operations left them.
   */
  lemma StopAfterPending(s: LoopState, pre: seq<Op>, post: seq<Op>)
    requires Runnable(s) && s.queue == pre + [StopOp] + post && !s.stopReq && NoStop(pre)
    ensures Runnable(s.(queue := pre))
    ensures Run(s.(queue := pre)).queue == []
    ensures Run(s) == Run(s.(queue := pre)).(queue := post, stopReq := true)
  {
    assert pre + [StopOp] + post == pre + ([StopOp] + post);
    RunAppend(s, pre, [StopOp] + post);
    var u := Run(s.(queue := pre)).(queue := [StopOp] + post);
    assert u.queue[1..] == post;
    var o := Apply(StopOp, Bounds, World(u.figures, u.next));
    assert o == Outcome(false, World(u.figures, u.next));
    assert Run(u) == Step(u);
  }

  /** A whole-texture fill at the head: `next` gets the fill, nothing is handed over. */
  lemma FillStep(s: LoopState, f: Func)
    requires s.queue != [] && Runnable(s) && s.queue[0] == OpFunc(f) && f != StopRequest
    ensures Step(s) == s.(queue := s.queue[1..], next := s.next + [FillRecord(Bounds, FuncColor(f))])
  {
  }

  /** UpdateOp at the head: the receiver gets `next`, and `next` and `prev` change places. */
  lemma UpdateStep(s: LoopState)
    requires s.queue != [] && Runnable(s) && s.queue[0] == OpUpdate
    ensures Step(s) == s.(queue := s.queue[1..], next := s.prev, prev := s.next, shown := true)
  {
  }

  /** A step that leaves no stop request is followed by the rest of the run. */
  lemma RunOn(s: LoopState)
    requires s.queue != [] && Runnable(s) && !Step(s).stopReq
    ensures Run(s) == Run(Step(s))
  {
  }

  /** A whole-texture fill at the head, then the rest of the run. */
  lemma FillThenRun(s: LoopState, f: Func)
    requires s.queue != [] && Runnable(s) && s.queue[0] == OpFunc(f) && f != StopRequest && !s.stopReq
    ensures Runnable(s.(queue := s.queue[1..], next := s.next + [FillRecord(Bounds, FuncColor(f))]))
    ensures Run(s) == Run(s.(queue := s.queue[1..], next := s.next + [FillRecord(Bounds, FuncColor(f))]))
  {
    FillStep(s, f);
    RunOn(s);
  }

  /** UpdateOp as the last queued operation: the receiver gets `next`, then the loop waits. */
  lemma LastUpdate(s: LoopState)
    requires s.queue == [OpUpdate] && !s.stopReq
    ensures Runnable(s)
    ensures Run(s) == s.(queue := [], next := s.prev, prev := s.next, shown := true)
  {
    UpdateStep(s);
    assert Step(s).queue == [];
  }

  /**
   * The loop test: WhiteFill, GreenFill and UpdateOp posted to a started loop hand the
   * receiver a texture holding exactly the two fills, in order, and the loop then waits.
   */
  lemma PostWhiteGreenUpdate(s: LoopState)
    requires s.queue == [OpFunc(WhiteFill), OpFunc(GreenFill), OpUpdate]
    requires s.next == [] && !s.stopReq
    ensures Run(s) == s.(queue := [], next := s.prev,
                         prev := [FillRecord(Bounds, White), FillRecord(Bounds, Green)], shown := true)
  {
    var fills := [FillRecord(Bounds, White), FillRecord(Bounds, Green)];
    assert Runnable(s);
    FillThenRun(s, WhiteFill);
    var s1 := s.(queue := [OpFunc(GreenFill), OpUpdate], next := [FillRecord(Bounds, White)]);
    assert s.queue[1..] == s1.queue && [] + [FillRecord(Bounds, White)] == s1.next;
    FillThenRun(s1, GreenFill);
    var t := s.(queue := [OpUpdate], next := fills);
    assert s1.queue[1..] == t.queue && s1.next + [FillRecord(Bounds, Green)] == fills;
    LastUpdate(t);
  }

  // ---------------------------------------------------------------------------
  // The objects

  /** messageQueue: the operations posted and not yet pulled, oldest first. */
  class MessageQueue {
    var queue: seq<Op>

    constructor ()
      ensures queue == []
    {
      queue := [];
    }

    /** Push: appends at the tail. */
    method Push(op: Op)
      modifies this
      ensures queue == old(queue) + [op]
    {
      queue := queue + [op];
    }

    /** Pull: takes the head off a non-empty queue (the source blocks until one is pushed). */
    method Pull() returns (op: Op)
      requires queue != []
      modifies this
      ensures [op] + queue == old(queue)
    {
      op := queue[0];
      queue := queue[1..];
    }

    method Size() returns (n: nat)
      ensures n == |queue|
    {
      n := |queue|;
    }

    method Clear()
      modifies this
      ensures queue == []
    {
      queue := [];
    }
  }

  /** The receiver of the loop's tests: it keeps the last texture it was handed. */
  class Receiver {
    var lastTexture: Texture?

    constructor ()
      ensures lastTexture == null
    {
      lastTexture := null;
    }

    method Update(t: Texture)
      modifies this
      ensures lastTexture == t
    {
      lastTexture := t;
    }
  }

  class Loop {
    const receiver: Receiver
    var next: Texture
    var prev: Texture
    var stopReq: bool
    const msgQueue: MessageQueue
    /** The figures the queued operations refer to, shared with the script parser. */
    const heap: Arena
    /** Whether the loop has handed the receiver a texture. */
    ghost var shown: bool

    /**
     * The two textures are distinct and 800x800, the texture the receiver holds is
     * `prev` (it is not drawn on until it comes back as `next`), and the queued
     * operations refer to existing figures.
     */
    ghost predicate Valid()
      reads this, receiver, msgQueue, heap
    {
      && next != prev
      && next.bounds == Bounds && prev.bounds == Bounds
      && (shown ==> receiver.lastTexture == prev)
      && AllWellFormed(msgQueue.queue, |heap.figures|)
    }

    ghost function State(): LoopState
      reads this, next, prev, msgQueue, heap
    {
      LoopState(msgQueue.queue, next.fills, prev.fills, heap.figures, shown, stopReq)
    }

    /** Start: two fresh textures and an empty queue. */
    constructor Start(receiver: Receiver, heap: Arena)
      ensures Valid() && fresh(next) && fresh(prev) && fresh(msgQueue)
      ensures this.receiver == receiver && this.heap == heap
      ensures State() == LoopState([], [], [], heap.figures, false, false)
    {
      this.receiver := receiver;
      this.heap := heap;
      next := new Texture(TextureSize, TextureSize);
      prev := new Texture(TextureSize, TextureSize);
      msgQueue := new MessageQueue();
      stopReq := false;
      shown := false;
    }

    /** Post: queues the operation; a nil operation is dropped. */
    method Post(op: Option<Op>)
      requires Valid() && (op.Some? ==> WellFormed(op.value, |heap.figures|))
      modifies msgQueue
      ensures Valid()
      ensures msgQueue.queue == old(msgQueue.queue) + (if op.Some? then [op.value] else [])
    {
      if op.Some? {
        assert forall k :: 0 <= k < |msgQueue.queue| ==> (msgQueue.queue + [op.value])[k] == msgQueue.queue[k];
        msgQueue.Push(op.value);
      }
    }

    method Size() returns (n: nat)
      ensures n == |msgQueue.queue|
    {
      n := msgQueue.Size();
    }

    /**
     * One iteration of eventProcess: the operation at the head is applied to `next`;
     * if it reports ready, the receiver gets `next` and the textures are swapped.
     */
    method EventStep() returns (ready: bool)
      requires Valid() && msgQueue.queue != []
      modifies this, next, prev, msgQueue, receiver, heap
      ensures Valid()
      ensures State() == Step(old(State()))
      ensures ready == Presents(old(msgQueue.queue[0]))
      ensures ready ==> receiver.lastTexture == old(next) && next == old(prev) && prev == old(next)
      ensures !ready ==> next == old(next) && prev == old(prev)
    {
      ghost var s := State();
      var op := msgQueue.Pull();
      assert msgQueue.queue == s.queue[1..];
      assert AllWellFormed(msgQueue.queue, |heap.figures|) by {
        assert forall k :: 0 <= k < |s.queue| - 1 ==> s.queue[1..][k] == s.queue[k + 1];
      }
      assert op == s.queue[0] && WellFormed(op, |heap.figures|);
      ready := Do(op, next, heap);
      ApplyReadyIff(op, Bounds, World(s.figures, s.next));
      if ready {
        receiver.Update(next);
        next, prev := prev, next;
        shown := true;
      }
      if RequestsStop(op) {
        stopReq := true;
      }
    }

    /**
     * eventProcess: steps until one sets stopReq (stopped is then true) or the queue
     * runs dry, where the source blocks in Pull until the next Post.
     */
    method EventProcess() returns (stopped: bool)
      requires Valid()
      modifies this, next, prev, msgQueue, receiver, heap
      ensures Valid()
      ensures State() == Run(old(State()))
      ensures stopped ==> stopReq
      ensures !stopped ==> msgQueue.queue == []
      ensures {next, prev} == {old(next), old(prev)}
    {
      stopped := false;
      while !stopped && msgQueue.queue != []
        invariant Valid()
        invariant {next, prev} == {old(next), old(prev)}
        invariant stopped ==> stopReq
        invariant if stopped then State() == Run(old(State())) else Run(State()) == Run(old(State()))
        decreases |msgQueue.queue|, if stopped then 0 else 1
      {
        var _ := EventStep();
        stopped := stopReq;
      }
    }

    /**
     * StopAndWait: posts the stop request and waits for the loop to reach it; every
     * operation posted before it has then been applied.
     */
    method StopAndWait()
      requires Valid()
      modifies this, next, prev, msgQueue, receiver, heap
      ensures Valid()
      ensures State() == Run(old(State()).(queue := old(msgQueue.queue) + [StopOp]))
    {
      Post(Some(StopOp));
      var _ := EventProcess();
    }
  }
}
