/** The queue between threads. Each method holds the lock throughout, so it is one atomic step. */
module Channels {
  import opened Seqs

  class CopyChannel<T> {
    var buffer: seq<T>
    var closed: bool

    constructor ()
      ensures buffer == [] && !closed
    {
      buffer, closed := [], false;
    }

    /** False stands for the exception that `send` throws, and for the failure that `try_send` returns. */
    method Send(value: T) returns (sent: bool)
      modifies this
      ensures sent == !old(closed) && closed == old(closed)
      ensures buffer == if sent then old(buffer) + [value] else old(buffer)
    {
      if closed { return false; }
      buffer := buffer + [value];
      return true;
    }

    /** What a receive does once its wait is over, by arrival, closing or timeout. */
    method Recv() returns (r: Option<T>)
      modifies this`buffer
      ensures old(buffer) == (if r.Some? then [r.value] else []) + buffer
      ensures r.None? <==> old(buffer) == []
    {
      if buffer == [] { return None; }
      r := Some(buffer[0]);
      buffer := buffer[1..];
    }

    /** Everything queued is appended to `into` in arrival order. */
    method SwapOutAll(into: seq<T>) returns (out: seq<T>)
      modifies this`buffer
      ensures out == into + old(buffer) && buffer == []
    {
      out := into;
      while buffer != []
        invariant out + buffer == into + old(buffer)
        decreases |buffer|
      {
        out := out + [buffer[0]];
        buffer := buffer[1..];
      }
    }

    method Close()
      modifies this`closed
      ensures closed
    {
      closed := true;
    }
  }
}
