/**
 * The event loop's test scenarios (painter/loop_test.go), run on the objects: the
 * message queue on its own, and a started loop given three operations.
 */
module LoopCases {
  import opened Wrappers
  import opened Ops
  import opened EventLoop

  /**
   * The queue test: empty at first, not empty after a push, and the two operations
   * come back in the order they were pushed, leaving it empty (empty is Size() == 0).
   */
  method QueueScenario() returns (emptyAtFirst: bool, emptyAfterPush: bool, first: Op, second: Op, emptyAtEnd: bool)
    ensures emptyAtFirst && !emptyAfterPush && emptyAtEnd
    ensures first == OpFunc(WhiteFill) && second == OpFunc(GreenFill)
  {
    var mq := new MessageQueue();
    var n := mq.Size();
    emptyAtFirst := n == 0;
    mq.Push(OpFunc(WhiteFill));
    n := mq.Size();
    emptyAfterPush := n == 0;
    mq.Push(OpFunc(GreenFill));
    assert mq.queue == [OpFunc(WhiteFill), OpFunc(GreenFill)];
    first := mq.Pull();
    assert ([first] + mq.queue)[0] == first && ([first] + mq.queue)[1..] == mq.queue;
    assert mq.queue == [OpFunc(GreenFill)];
    second := mq.Pull();
    assert ([second] + mq.queue)[0] == second && ([second] + mq.queue)[1..] == mq.queue;
    n := mq.Size();
    emptyAtEnd := n == 0;
  }

  /**
   * The loop test: after WhiteFill, GreenFill and UpdateOp are posted and processed,
   * the receiver holds a texture with exactly those two fills; StopAndWait then stops
   * the loop with nothing left queued.
   */
  method PostScenario() returns (received: seq<FillRecord>, stopped: bool, left: nat)
    ensures received == [FillRecord(Bounds, White), FillRecord(Bounds, Green)]
    ensures stopped && left == 0
  {
    var receiver := new Receiver();
    var heap := new Arena();
    var l := StartAndPost(receiver, heap);
    ghost var s := l.State();
    var _ := l.EventProcess();
    PostWhiteGreenUpdate(s);
    var t := receiver.lastTexture;
    received := t.fills;
    ghost var u := l.State();
    assert u.queue == [];
    l.StopAndWait();
    StopAfterPending(u.(queue := [StopOp]), [], []);
    assert u.(queue := [StopOp]).(queue := []) == u;
    stopped := l.stopReq;
    left := l.Size();
  }

  /** A loop started with an empty arena, given WhiteFill, GreenFill and UpdateOp. */
  method StartAndPost(receiver: Receiver, heap: Arena) returns (l: Loop)
    requires heap.figures == []
    ensures fresh(l) && fresh(l.next) && fresh(l.prev) && fresh(l.msgQueue)
    ensures l.Valid() && l.receiver == receiver && l.heap == heap
    ensures l.State().queue == [OpFunc(WhiteFill), OpFunc(GreenFill), OpUpdate]
    ensures l.State().next == [] && !l.State().stopReq
  {
    l := new Loop.Start(receiver, heap);
    l.Post(Some(OpFunc(WhiteFill)));
    l.Post(Some(OpFunc(GreenFill)));
    l.Post(Some(OpUpdate));
  }
}
