/** The command channel between the input loop and its consumer: the bounded
    multi-producer queue of capacity 1 made by `mpsc::channel(1)` in
    src/cli.rs, with one producer (the input loop) and one consumer. */
module Channel {
  import opened Command

  /** What the consumer gets from one receive. */
  datatype RecvResult =
    | Got(event: CliEvent)  // the oldest accepted event not yet received
    | Empty                 // nothing is queued yet: a real receive would wait
    | Closed                // nothing is queued and the sender is gone

  class EventChannel {
    /** Accepted and not yet received: at most one event (the capacity). */
    var pending: seq<CliEvent>
    /** Events the consumer has received, in the order it received them. */
    var received: seq<CliEvent>
    var receiverOpen: bool
    var senderOpen: bool
    /** Every event the producer tried to send, accepted or not. */
    ghost var Attempts: seq<CliEvent>

    ghost predicate Valid()
      reads this
    {
      |pending| <= 1
    }

    /** Everything the channel accepted, oldest first. */
    ghost function History(): seq<CliEvent>
      reads this
    {
      received + pending
    }

    constructor ()
      ensures Valid() && receiverOpen && senderOpen
      ensures pending == [] && received == [] && Attempts == []
    {
      pending, received := [], [];
      receiverOpen, senderOpen := true, true;
      Attempts := [];
    }

    /** Sends `e`; fails, leaving the queue alone, when the receiver is gone.
        When the one slot is taken, the producer waits until the consumer has
        received the pending event, which it does before `e` is queued. */
    method Send(e: CliEvent) returns (failed: bool)
      requires Valid() && senderOpen
      modifies this
      ensures Valid() && senderOpen && receiverOpen == old(receiverOpen)
      ensures Attempts == old(Attempts) + [e]
      ensures failed <==> !old(receiverOpen)
      ensures failed ==> pending == old(pending) && received == old(received)
      ensures !failed ==> History() == old(History()) + [e] && pending == [e]
    {
      Attempts := Attempts + [e];
      if !receiverOpen {
        return true;
      }
      if pending != [] {
        received := received + pending;
      }
      pending := [e];
      failed := false;
    }

    /** The consumer's receive: events come out in the order they were accepted. */
    method Recv() returns (r: RecvResult)
      requires Valid() && receiverOpen
      modifies this
      ensures Valid() && History() == old(History())
      ensures receiverOpen && senderOpen == old(senderOpen) && Attempts == old(Attempts)
      ensures old(pending) != [] ==>
                r == Got(old(History())[|old(received)|]) && received == old(received) + [r.event]
      ensures old(pending) == [] ==>
                r == (if senderOpen then Empty else Closed) && received == old(received)
    {
      if pending == [] {
        r := if senderOpen then Empty else Closed;
      } else {
        r := Got(pending[0]);
        received := received + pending;
        pending := [];
      }
    }

    /** The consumer goes away; every later send fails. */
    method DropReceiver()
      modifies this
      ensures !receiverOpen
      ensures pending == old(pending) && received == old(received)
      ensures senderOpen == old(senderOpen) && Attempts == old(Attempts)
    {
      receiverOpen := false;
    }

    /** The producer goes away; the consumer then sees `Closed` after the queue. */
    method DropSender()
      modifies this
      ensures !senderOpen
      ensures pending == old(pending) && received == old(received)
      ensures receiverOpen == old(receiverOpen) && Attempts == old(Attempts)
    {
      senderOpen := false;
    }
  }
}
