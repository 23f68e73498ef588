/** The queue that carries new effect orders from the control side to the
    audio block (`dspOrderFifo`). Its lock-free ring lives in the processor's
    header; here it is a sequential first-in first-out queue of orders. */
module OrderChannel {
  import opened DspChain

  class OrderFifo {
    /** The orders pushed and not yet pulled, oldest first. */
    var pending: seq<Order>

    constructor ()
      ensures pending == []
    {
      pending := [];
    }

    /** The control side queues a new order behind the pending ones. */
    method Push(o: Order)
      modifies this
      ensures pending == old(pending) + [o]
    {
      pending := pending + [o];
    }

    /** `pull(dest)`: when an order is pending, removes the oldest one and
        writes it to the destination; otherwise fails and leaves both the
        queue and the destination as they were. */
    method Pull(dest: Order) returns (ok: bool, result: Order)
      modifies this
      ensures ok <==> old(pending) != []
      ensures ok ==> result == old(pending)[0] && pending == old(pending)[1..]
      ensures !ok ==> result == dest && pending == old(pending)
    {
      if pending == [] {
        ok, result := false, dest;
      } else {
        ok, result := true, pending[0];
        pending := pending[1..];
      }
    }
  }
}
