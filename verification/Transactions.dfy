/**
 A transaction (`TypeDBTransactionImpl.ts`) as the caller of its stream object: opening, committing and rolling back.
 Each method is one stretch up to, or from, an `await`.
 */
module Transactions {
  import opened Protocol
  import opened Sequences
  import opened Transport
  import opened StreamObjects
  import D = Dispatch

  /** An unbatched request leaves on the wire everything issued so far, itself last. */
  lemma UnbatchedFlushes(events: seq<Event>, id: RequestId, op: Operation)
    requires Run(events).Some? && Closes(events) == [] && Run(events + [Single(id, op, false)]).Some?
    ensures D.Run(Run(events + [Single(id, op, false)]).value.actions).Some?
    ensures Flatten(D.Run(Run(events + [Single(id, op, false)]).value.actions).value.written) ==
              D.Calls(Run(events).value.actions) + [Request(id, Unary(op))]
  {
    var after := events + [Single(id, op, false)];
    assert after[..|events|] == events && Front(after) == events;
    CommitBarrier(after, |events|, id, op);
    RunKeeps(events);
    SendsNow(Run(events).value, id, op);
    D.RunSnoc(Run(events).value.actions, D.DispatchNow(Request(id, Unary(op))));
  }

  /** A `close` changes no outcome that is already there. */
  lemma CloseKeepsOutcome(events: seq<Event>, id: RequestId, cause: Option<CloseError>)
    requires Run(events).Some? && id in Run(events).value.responses && !Due(events, id).Pending?
    ensures Due(events + [Close(cause)], id) == Due(events, id)
  {
    RunStep(events, Close(cause));
  }

  class Transaction {
    const bidirectionalStream: BidirectionalStream

    ghost predicate Valid()
      reads bidirectionalStream, bidirectionalStream.dispatcher, bidirectionalStream.responseCollector
      reads bidirectionalStream.responsePartCollector, bidirectionalStream.Footprint()
    {
      bidirectionalStream.Valid()
    }

    /** The messages on the wire. */
    ghost function Wire(): seq<Request>
      requires Valid()
      reads bidirectionalStream, bidirectionalStream.dispatcher, bidirectionalStream.responseCollector
      reads bidirectionalStream.responsePartCollector, bidirectionalStream.Footprint()
    {
      Flatten(D.Contents(bidirectionalStream.dispatcher.stream.accepted))
    }

    /** `open` up to its first `await`, on a connection that yields this stream. */
    constructor (transmitter: D.RequestTransmitter, stream: D.TransactionStream)
      requires transmitter.Valid() && stream.accepted == [] && stream.refused == [] && !stream.ended
      modifies transmitter`dispatchers
      ensures Valid() && bidirectionalStream.events == [] && fresh(bidirectionalStream.Footprint() - {stream})
      ensures bidirectionalStream.dispatcher.transmitter == transmitter
    {
      bidirectionalStream := new BidirectionalStream(transmitter, stream);
    }

    /** The rest of `open`: the open request is on the wire at once, and nothing else is. */
    method SendOpen(id: RequestId) returns (promise: Option<nat>)
      requires Valid() && bidirectionalStream.events == []
      modifies bidirectionalStream.Footprint()
      ensures Valid() && bidirectionalStream.events == [Single(id, OpenTransaction, false)]
      ensures fresh(bidirectionalStream.Footprint() - old(bidirectionalStream.Footprint()))
      ensures Wire() == [Request(id, Unary(OpenTransaction))]
    {
      promise := bidirectionalStream.Single(id, OpenTransaction, false);
      assert [] + bidirectionalStream.events == bidirectionalStream.events;
      UnbatchedFlushes([], id, OpenTransaction);
    }

    /**
     `commit` and `rollback` up to the `await`: on an open transaction the wire now holds every request issued on it,
     this one last; on a closed one the call is refused and nothing is sent.
     */
    method SendNow(id: RequestId, op: Operation) returns (promise: Option<nat>)
      requires Valid() && Enabled(bidirectionalStream.state, Single(id, op, false))
      modifies bidirectionalStream.Footprint()
      ensures bidirectionalStream.Took(Single(id, op, false)) && (promise.Some? <==> old(bidirectionalStream.isOpen))
      ensures promise.Some? ==> Wire() == old(D.Calls(bidirectionalStream.state.actions)) + [Request(id, Unary(op))]
    {
      ghost var before := bidirectionalStream.events;
      RunKeeps(before);
      promise := bidirectionalStream.Single(id, op, false);
      if promise.Some? { UnbatchedFlushes(before, id, op); }
    }

    /** The `finally` of `commit`: whatever came of it, the stream is closed, and what came of it stays. */
    method FinishCommit(id: RequestId) returns (r: Outcome)
      requires Valid() && id in bidirectionalStream.responseCollector.queues
      requires !Due(bidirectionalStream.events, id).Pending?
      modifies bidirectionalStream.Footprint(), bidirectionalStream.dispatcher.transmitter`dispatchers
      ensures bidirectionalStream.Took(Close(None)) && !bidirectionalStream.isOpen
      ensures r == Due(old(bidirectionalStream.events), id) == Due(bidirectionalStream.events, id)
    {
      r := bidirectionalStream.OutcomeNow(id);
      CloseKeepsOutcome(bidirectionalStream.events, id, None);
      bidirectionalStream.Close(None);
    }
  }

  /** Both stretches of `open`. */
  method OpenNew(transmitter: D.RequestTransmitter, stream: D.TransactionStream, id: RequestId)
    returns (tx: Transaction, ghost owned: set<object>)
    requires transmitter.Valid() && stream.accepted == [] && stream.refused == [] && !stream.ended
    modifies transmitter`dispatchers, stream
    ensures tx.Valid() && tx.bidirectionalStream.events == [Single(id, OpenTransaction, false)]
    ensures tx.Wire() == [Request(id, Unary(OpenTransaction))]
    ensures fresh(owned) && owned == tx.bidirectionalStream.Footprint() - {stream}
  {
    tx := new Transaction(transmitter, stream);
    ghost var before := tx.bidirectionalStream.Footprint();
    label Connected:
    var promise := tx.SendOpen(id);
    owned := tx.bidirectionalStream.Footprint() - {stream};
    forall o | o in owned ensures fresh(o) {
      if o !in before {
        assert o in tx.bidirectionalStream.Footprint() - before;
        assert !old@Connected(allocated(o));
      }
    }
  }
}
