# CondQueue: a verified sequential model

`CondQueue[T]` (package `condqueue`, file `nonblock.go`) is an unbounded FIFO
queue guarded by a `sync.Cond`. Producers call `Push`, which never blocks and
silently drops the value once the queue is closed. Consumers call `Pop`,
which blocks by default and, with `Pop(true)`, does not block. `Close` is a
one-way switch after which the buffered values are drained and then every
`Pop` reports `ok = false`. `ForEach` walks the buffer without removing
anything, and `IsClose` reads the flag.

The lock and the condition variable only serialise access to two fields,
`buffers` and `closed`. This model sets them aside and treats every method
as one atomic step of a two-state machine (open and closed) over a FIFO
buffer.

- `queue_spec.dfy`, module `QueueSpec`: the state machine on values. It has
  the abstract state `Queue(elems, closed)`, the step functions `Push`,
  `Pop` and `Close`, the reference definition `Visited` of what `ForEach`
  hands to its callback, and `Run`, which executes a trace of operations and
  records what was accepted, what was delivered and what each `Pop` reported.
  The lemmas about traces state the queue's guarantees: FIFO order, no
  element lost or duplicated, drop after close, drain then end, and that
  `closed` never reverts.
- `nonblock.dfy`, module `Nonblock`: `CondQueue<T>` as a class whose fields
  `closed: bool` and `buffers: seq<T>` are updated in place. Each
  state-changing method is specified against the step function of
  `QueueSpec` and also states its new state outright. `ForEach` is specified
  against the reference definition `Visited`, and `IsClose` states its
  result directly.
- `nonblock_test.dfy`, module `NonblockTest`: the sequential tail of
  `TestQueue` stated against the class and proved.

Modelling decisions:

- `Pop` returns a `PopResult`. `Got(v)` is Go's `(v, true)`. `NotOk` is
  `(zero value, false)`; a generic Dafny `T` has no zero value to return.
  `WouldBlock` is a blocking call on an empty, open queue that reaches
  `cond.Wait()` (nonblock.go:40). It changes nothing. The source's
  `for n.buffers.Len() == 0` loop re-checks the same condition after each
  wake-up, so a retry of the step stands for it. `WakeOnPush` and
  `WakeOnClose` state what the retry returns after the `Signal` of `Push` and
  the `Broadcast` of `Close`.
- The variadic `noblock ...bool` is kept as a `seq<bool>`. Non-blocking mode
  is `|noblock| > 0 && noblock[0]`, as at nonblock.go:32.
- `ForEach`'s callback is a pure `T -> bool`. The method returns `visited`,
  the arguments of the callback calls in order. The Go method returns
  nothing, so this is the observable trace of the calls. The method has no
  `modifies` clause, so it provably leaves `buffers` and `closed` unchanged.
- `List[T]` is not part of this model. Its `PushBack`, `Front`, `Remove` and
  `Len` are the `seq` operations `+ [v]`, `[0]`, `[1..]` and `|.|`.

## Model

| member | source | states |
|---|---|---|
| `Nonblock.CondQueue.constructor` | nonblock.go:13-18 | a new queue has no buffered values and is open |
| `Nonblock.CondQueue.Push` | nonblock.go:20-29 | on a closed queue, contents and flag are unchanged; on an open queue the value is appended at the tail and nothing else changes |
| `Nonblock.CondQueue.Pop` | nonblock.go:31-45 | a non-empty queue yields its old head and keeps the old tail, in either mode; an empty queue reports not-ok exactly when it is closed or the first `noblock` value is true, and otherwise the call would wait; nothing changes unless a value is removed; `closed` is unchanged |
| `Nonblock.CondQueue.Close` | nonblock.go:47-52 | the flag is set and the contents are kept |
| `Nonblock.CondQueue.ForEach` | nonblock.go:54-62 | the callback sees a prefix of the buffer, head to tail, on which it is false except at its last element; it stops short of the end only after a true answer; it sees everything when it is always false; it equals the reference `Visited`; nothing is modified |
| `Nonblock.CondQueue.IsClose` | nonblock.go:64-69 | returns the current flag and changes nothing |
| `QueueSpec.Init` | nonblock.go:13-18 | the abstract state of a new queue, empty and open; `Nonblock.CondQueue.constructor` states it outright and ties itself to it |
| `QueueSpec.Unblock` | nonblock.go:32 | non-blocking mode exactly when the variadic argument has a first value and it is true; `Nonblock.CondQueue.Pop` is specified through it |
| `QueueSpec.Push` | nonblock.go:20-29 | the closed flag is unchanged; a closed queue is returned as it was; on an open queue the old contents are kept as a prefix and the value sits at the new tail, one element longer |
| `QueueSpec.Close` | nonblock.go:47-52 | the result is closed and holds the same contents |
| `QueueSpec.Visited` | nonblock.go:57-61 | the reference definition of what the ForEach loop hands to its callback: head to tail, up to and including the first true answer; never longer than the buffer; `VisitedIsStopPrefix`, `VisitedStopsAt` and `VisitedAll` characterise it |
| `QueueSpec.Pop` | nonblock.go:31-45 | a value is returned exactly when the buffer is non-empty, and the returned head followed by the new buffer is the old buffer; not-ok exactly when empty and closed or non-blocking; would-wait exactly when empty, open and blocking; otherwise the state is unchanged; the flag is never changed |
| `QueueSpec.VisitedStopsAt` | nonblock.go:57-61 | when the callback is first true at index j, the elements visited are exactly the first j + 1 |
| `QueueSpec.VisitedAll` | nonblock.go:57-61 | when the callback is never true, every element is visited |
| `QueueSpec.VisitedIsStopPrefix` | nonblock.go:54-62 | what is visited is a prefix of the buffer, false on all but its last element, and shorter than the buffer only when its last element answered true |
| `QueueSpec.ClosedIffCloseCalled` | nonblock.go:47-52 | after any trace the queue is closed exactly when it was closed at the start or Close was called, so no operation reopens it |
| `QueueSpec.NoLossNoDuplication` | nonblock.go:20-45 | along any trace, the values delivered, followed by the values still buffered, equal the values buffered at the start followed by the values accepted by Push |
| `QueueSpec.DropAfterClose` | nonblock.go:20-29 | from a closed queue no Push is accepted, the queue stays closed, and what gets delivered plus what remains is exactly what was buffered at the time of closing |
| `QueueSpec.ClosedNeverBlocks` | nonblock.go:36-40 | once closed, no Pop waits; once closed and empty, every Pop reports not-ok and the state never changes |
| `QueueSpec.PushesAppend` | nonblock.go:20-29 | pushes on an open queue append all their values at the tail, in order, and accept all of them |
| `QueueSpec.PopsDrain` | nonblock.go:31-45 | as many pops as there are buffered values return them head first, in either mode, and leave an empty queue with the same flag |
| `QueueSpec.FifoOrder` | nonblock.go:20-45 | N pushes on a new queue followed by N pops return the pushed values in push order |
| `QueueSpec.FifoDrain` | nonblock_test.go:48-63 | pushes, then Close, then one more blocking pop than there were pushes: the pushed values in order, then not-ok |
| `QueueSpec.WakeOnPush` | nonblock.go:36-43 | a blocking Pop that would wait returns the pushed value after a Push, leaving the queue as it was before the Push |
| `QueueSpec.WakeOnClose` | nonblock.go:47-51 | a blocking Pop that would wait reports not-ok after Close and changes nothing |
| `QueueSpec.CloseIdempotent` | nonblock.go:47-52 | Close keeps the contents, sets the flag, and a second Close changes nothing |
| `NonblockTest.PushCloseDrain` | nonblock_test.go:48-70 | on a new queue: pushing 0..9, closing and popping ten times yields 0..9 in order; an eleventh pop reports not-ok; ten pushes after that are dropped, so the ForEach that follows sees nothing |

## Left out

- The mutex, `cond.L.Lock`/`Unlock` and their `defer`, `Signal` (nonblock.go:28), `Broadcast` (nonblock.go:51) and the suspension inside `Wait`: they serialise the steps and wake waiters. The model treats each method as one atomic step and models a wait as the `WouldBlock` outcome.
- Linearizability under concurrent callers, freedom from lost wake-ups, and which consumer gets which value: these are concurrency properties a sequential model cannot state.
- The internals of `List[T]` (`New`, `PushBack`, `Remove`, `Front`, `Next`): that file is not part of this model, and the buffer is a `seq`.
- Side effects of the `ForEach` callback (the logging at nonblock_test.go:67-70), and the deadlock that calling back into the queue from the callback would cause: the callback is a pure function.
- The goroutine part of `TestQueue` (nonblock_test.go:9-46), including the timer-based wake-up, and the benchmarks (nonblock_test.go:73-149): they depend on timing and the scheduler. `PushCloseDrain` starts from a new queue, which is the state the test's queue is in at line 48.
- The zero value Go returns with `ok = false`: it is the `NotOk` outcome, which carries no value.
