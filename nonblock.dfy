/** CondQueue[T] (nonblock.go) as a class whose methods update its fields in
    place. Each method is one step of the state machine in QueueSpec, taken
    while the lock is held. */
module Nonblock {
  import opened QueueSpec

  class CondQueue<T> {
    /** Set once by Close and never cleared. */
    var closed: bool
    /** The pending values, head first (the `List[T]` of the source). */
    var buffers: seq<T>

    /** The abstract state the methods are specified against. */
    function State(): Queue<T>
      reads this
    {
      Queue(buffers, closed)
    }

    /** NewCondQueue: an empty, open queue. */
    constructor ()
      ensures buffers == [] && !closed
      ensures State() == Init()
    {
      closed := false;
      buffers := [];
    }

    /** Appends at the tail, or drops the value silently once closed. */
    method Push(value: T)
      modifies this
      ensures State() == QueueSpec.Push(old(State()), value)
      ensures closed == old(closed)
      ensures old(closed) ==> buffers == old(buffers)
      ensures !old(closed) ==> buffers == old(buffers) + [value]
    {
      if closed {
        return;
      }
      buffers := buffers + [value];
    }

    /** Removes and returns the head. An empty queue reports not-ok when it
        is closed or the first `noblock` value is true; otherwise the call
        would wait, which this step reports as WouldBlock. */
    method Pop(noblock: seq<bool>) returns (r: PopResult<T>)
      modifies this
      ensures QueueSpec.Pop(old(State()), Unblock(noblock)) == PopStep(r, State())
      ensures closed == old(closed)
      ensures old(buffers) != [] ==> r == Got(old(buffers)[0]) && buffers == old(buffers)[1..]
      ensures old(buffers) == [] ==> buffers == []
      ensures old(buffers) == [] && (closed || Unblock(noblock)) ==> r == NotOk
      ensures old(buffers) == [] && !closed && !Unblock(noblock) ==> r == WouldBlock
    {
      var unblock := |noblock| > 0 && noblock[0];
      if |buffers| == 0 {
        if closed || unblock {
          return NotOk;
        }
        return WouldBlock;
      }
      r := Got(buffers[0]);
      buffers := buffers[1..];
    }

    /** Marks the queue closed; the buffered values stay. */
    method Close()
      modifies this
      ensures State() == QueueSpec.Close(old(State()))
      ensures closed && buffers == old(buffers)
    {
      closed := true;
    }

    /** Calls `fn` on each buffered value, head to tail, and stops after the
        first call that answers true. `visited` lists the arguments of those
        calls in order. Nothing is removed. */
    method ForEach(fn: T -> bool) returns (visited: seq<T>)
      ensures visited == Visited(buffers, fn)
      ensures visited == buffers[..|visited|]
      ensures forall i :: 0 <= i < |visited| - 1 ==> !fn(visited[i])
      ensures |visited| < |buffers| ==> visited != [] && fn(visited[|visited| - 1])
      ensures (forall i :: 0 <= i < |buffers| ==> !fn(buffers[i])) ==> visited == buffers
    {
      visited := [];
      var i := 0;
      while i < |buffers|
        invariant 0 <= i <= |buffers|
        invariant visited == buffers[..i]
        invariant forall k :: 0 <= k < i ==> !fn(buffers[k])
      {
        visited := visited + [buffers[i]];
        if fn(buffers[i]) {
          VisitedStopsAt(buffers, fn, i);
          return;
        }
        i := i + 1;
      }
      VisitedAll(buffers, fn);
    }

    /** Reports whether Close has been called. */
    method IsClose() returns (c: bool)
      ensures c == closed
    {
      c := closed;
    }
  }
}
