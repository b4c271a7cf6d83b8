/**
  A buffered Go channel of `int` (`make(chan int, 10)`), seen through the two
  non-blocking operations the demo uses: a `select` that sends with a
  `default` branch, and a `select` that receives with a `default` branch.
  The buffer is a FIFO sequence, oldest value first.
 */
module Channels {

  /** Buffer size of both channels. */
  const Capacity: nat := 10

  /** A channel: its buffered values, oldest first, and whether it was closed. */
  datatype Chan = Chan(buf: seq<int>, closed: bool)

  /** The channel invariant the Go runtime keeps: never more than `Capacity` values buffered. */
  predicate Valid(c: Chan) {
    |c.buf| <= Capacity
  }

  /** What a receive case of a `select` sees: ready with `(value, ok)` and the
      channel afterwards, or not ready (the `default` branch runs). */
  datatype Recv = Ready(value: int, ok: bool, rest: Chan) | Blocked

  /** `select { case ch <- v: default: }` on an open channel: the value is
      appended when there is room and dropped otherwise; the flag says which. */
  function TrySend(c: Chan, v: int): (r: (Chan, bool))
    requires !c.closed
    ensures r.1 <==> |c.buf| < Capacity
    ensures r.1 ==> r.0.buf == c.buf + [v] && !r.0.closed
    ensures !r.1 ==> r.0 == c
    ensures Valid(c) ==> Valid(r.0)
  {
    if |c.buf| < Capacity then (Chan(c.buf + [v], false), true) else (c, false)
  }

  /** A receive case `v, ok := <-ch` of a `select` with a `default` branch:
      a buffered value is delivered with `ok == true`; a closed and drained
      channel is ready with the zero value and `ok == false`; an open empty
      channel is not ready. */
  function TryRecv(c: Chan): (r: Recv)
    ensures r.Blocked? <==> c.buf == [] && !c.closed
    ensures r.Ready? && r.ok ==> c.buf == [r.value] + r.rest.buf && r.rest.closed == c.closed
    ensures r.Ready? && !r.ok ==> c.closed && c.buf == [] && r.rest == c && r.value == 0
  {
    if c.buf != [] then Ready(c.buf[0], true, Chan(c.buf[1..], c.closed))
    else if c.closed then Ready(0, false, c)
    else Blocked
  }

  /** FIFO: on a non-empty channel with room, sending and then receiving
      gives the same value and the same channel as receiving and then sending. */
  lemma SendRecvCommute(c: Chan, v: int)
    requires !c.closed && c.buf != [] && |c.buf| < Capacity
    ensures TryRecv(TrySend(c, v).0) == Ready(c.buf[0], true, TrySend(TryRecv(c).rest, v).0)
  {
  }

  /** A value sent into an empty channel is the next one received. */
  lemma SendToEmptyThenRecv(v: int)
    ensures TryRecv(TrySend(Chan([], false), v).0) == Ready(v, true, Chan([], false))
  {
  }
}
