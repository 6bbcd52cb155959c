/** The client side of an event stream. */
module SseWriter {
  /** A client that takes `capacity` more frames and then fails for good. */
  class Connection<E> {
    var log: seq<E>
    var capacity: nat

    constructor (capacity: nat)
      ensures log == [] && this.capacity == capacity
    {
      log, this.capacity := [], capacity;
    }

    method WriteHeaders() returns (ok: bool)
      ensures ok <==> capacity > 0
    {
      ok := capacity > 0;
    }

    method WriteEvent(e: E) returns (ok: bool)
      modifies this
      ensures ok <==> old(capacity) > 0
      ensures ok ==> log == old(log) + [e] && capacity == old(capacity) - 1
      ensures !ok ==> log == old(log) && capacity == 0
    {
      ok := capacity > 0;
      if ok {
        log, capacity := log + [e], capacity - 1;
      }
    }
  }
}
