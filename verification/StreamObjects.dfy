/**
 The mutable objects of the transport (`BidirectionalStream.ts`, `ResponsePartIterator.ts`). Each method takes one
 step of `Transport` and records it, and the object is valid only while its fields are what the recorded steps lead
 to. So every property of runs holds of the objects; the last section says so of the ones callers rely on.
 */
module StreamObjects {
  import opened Protocol
  import opened Sequences
  import opened Queues
  import opened Transport
  import D = Dispatch

  /** The fields are what a state of `Transport` says, and the dispatcher is where the recorded steps lead. */
  ghost predicate Match(t: Transport, isOpen: bool, error: Option<CloseError>, iters: map<RequestId, PartIterator>,
                        d: D.Dispatcher, responses: Views<Payload>, parts: Views<Part>)
  {
    && t.isOpen == isOpen && t.error == error && t.iters == iters
    && t.responses == responses && t.parts == parts
    && D.Run(t.actions) == Some(d)
  }

  /** An action of the dispatcher that is possible leads on from where its recorded steps lead. */
  lemma ActionLeads(actions: seq<D.Action>, d: D.Dispatcher, a: D.Action)
    requires D.Run(actions) == Some(d) && D.Enabled(d, a)
    ensures D.Run(actions + [a]) == Some(D.Step(d, a))
  {
    D.RunSnoc(actions, a);
  }

  lemma SingleFits(events: seq<Event>, t: Transport, d: D.Dispatcher, id: RequestId, op: Operation, batch: bool)
    returns (t': Transport)
    requires Run(events) == Some(t) && Enabled(t, Event.Single(id, op, batch)) && D.Run(t.actions) == Some(d)
    ensures Run(events + [Event.Single(id, op, batch)]) == Some(t')
    ensures if t.isOpen
            then Match(t', t.isOpen, t.error, t.iters, D.Step(d, SendAction(Request(id, Unary(op)), batch)),
                       TakeFrom(Register(t.responses, id), id), t.parts)
            else Match(t', t.isOpen, t.error, t.iters, d, t.responses, t.parts)
  {
    t' := Step(t, Event.Single(id, op, batch));
    RunStep(events, Event.Single(id, op, batch));
    ActionLeads(t.actions, d, SendAction(Request(id, Unary(op)), batch));
  }

  lemma StreamFits(events: seq<Event>, t: Transport, d: D.Dispatcher, id: RequestId, code: int)
    returns (t': Transport)
    requires Run(events) == Some(t) && Enabled(t, OpenStream(id, code)) && D.Run(t.actions) == Some(d)
    ensures Run(events + [OpenStream(id, code)]) == Some(t')
    ensures if t.isOpen
            then Match(t', t.isOpen, t.error, t.iters[id := PartIterator(Resting, [], 0)],
                       D.Step(d, SendAction(Request(id, Query(code)), true)), t.responses, Register(t.parts, id))
            else Match(t', t.isOpen, t.error, t.iters, d, t.responses, t.parts)
  {
    t' := Step(t, OpenStream(id, code));
    RunStep(events, OpenStream(id, code));
    ActionLeads(t.actions, d, SendAction(Request(id, Query(code)), true));
  }

  lemma PullFits(events: seq<Event>, t: Transport, id: RequestId) returns (t': Transport)
    requires Run(events) == Some(t) && Enabled(t, Pull(id))
    ensures Run(events + [Pull(id)]) == Some(t')
    ensures t' == t.(iters := t.iters[id := t.iters[id].(phase := Waiting)], parts := TakeFrom(t.parts, id))
  {
    t' := Step(t, Pull(id));
    RunStep(events, Pull(id));
  }

  lemma ContinueFits(events: seq<Event>, t: Transport, d: D.Dispatcher, id: RequestId) returns (t': Transport)
    requires Run(events) == Some(t) && Enabled(t, Resume(id)) && D.Run(t.actions) == Some(d)
    requires Awaited(t, id) == Value(ContinueMarker)
    ensures Run(events + [Resume(id)]) == Some(t')
    ensures Match(t', t.isOpen, t.error, t.iters, D.Step(d, SendAction(Request(id, StreamRequest), true)),
                  t.responses, TakeFrom(t.parts, id))
  {
    t' := Step(t, Resume(id));
    RunStep(events, Resume(id));
    ActionLeads(t.actions, d, SendAction(Request(id, StreamRequest), true));
  }

  lemma DeliverFits(events: seq<Event>, t: Transport, d: D.Dispatcher, id: RequestId) returns (t': Transport)
    requires Run(events) == Some(t) && Enabled(t, Resume(id)) && D.Run(t.actions) == Some(d)
    requires Awaited(t, id) != Value(ContinueMarker)
    ensures Run(events + [Resume(id)]) == Some(t')
    ensures Match(t', t.isOpen, t.error, t.iters[id := React(t.iters[id], Awaited(t, id))], d, t.responses, t.parts)
  {
    t' := Step(t, Resume(id));
    RunStep(events, Resume(id));
  }

  lemma IterateFits(events: seq<Event>, t: Transport, id: RequestId) returns (t': Transport)
    requires Run(events) == Some(t) && Enabled(t, Event.Iterate(id))
    ensures Run(events + [Event.Iterate(id)]) == Some(t')
    ensures t' == t.(iters := t.iters[id := t.iters[id].(phase := Resting)])
  {
    t' := Step(t, Event.Iterate(id));
    RunStep(events, Event.Iterate(id));
  }

  /** An element joins the queue of its id, if there is one. */
  function Reaches<T>(v: Views<T>, id: RequestId, value: T): Views<T> {
    if id in v then AddTo(v, id, Value(value)) else v
  }

  lemma ReceiveFits(events: seq<Event>, t: Transport, d: D.Dispatcher, msg: ServerMessage) returns (t': Transport)
    requires Run(events) == Some(t) && D.Run(t.actions) == Some(d)
    ensures Run(events + [Receive(msg)]) == Some(t')
    ensures Match(t', t.isOpen, t.error, t.iters, d,
                  if t.isOpen && msg.Response? then Reaches(t.responses, msg.id, msg.payload) else t.responses,
                  if t.isOpen && msg.ResponsePart? then Reaches(t.parts, msg.id, msg.part) else t.parts)
  {
    t' := Step(t, Receive(msg));
    RunStep(events, Receive(msg));
  }

  lemma ActionFits(events: seq<Event>, t: Transport, d: D.Dispatcher, e: Event, a: D.Action) returns (t': Transport)
    requires Run(events) == Some(t) && D.Run(t.actions) == Some(d) && D.Enabled(d, a)
    requires (e.Fire? && a == D.Fire(e.timer)) || (e.Tick? && a == D.Tick(e.millis))
    ensures Run(events + [e]) == Some(t')
    ensures Match(t', t.isOpen, t.error, t.iters, D.Step(d, a), t.responses, t.parts)
  {
    ActionLeads(t.actions, d, a);
    t' := Step(t, e);
    RunStep(events, e);
  }

  lemma CloseFits(events: seq<Event>, t: Transport, d: D.Dispatcher, cause: Option<CloseError>) returns (t': Transport)
    requires Run(events) == Some(t) && D.Run(t.actions) == Some(d)
    ensures Run(events + [Event.Close(cause)]) == Some(t')
    ensures Match(t', false, cause, t.iters, D.Step(d, D.End), Poison(t.responses, cause), Poison(t.parts, cause))
  {
    ActionLeads(t.actions, d, D.End);
    t' := Step(t, Event.Close(cause));
    RunStep(events, Event.Close(cause));
  }

  /**
   `generators` holds the suspended `next` of each stream. `events` are the steps taken so far and `state` is the
   state of `Transport` they lead to; they have no counterpart in the source.
   */
  class BidirectionalStream {
    const dispatcher: D.BatchDispatcher
    const responseCollector: ResponseCollector<Payload>
    const responsePartCollector: ResponseCollector<Part>
    var isOpen: bool
    var error: Option<CloseError>
    var generators: map<RequestId, PartIterator>

    ghost var events: seq<Event>
    ghost var state: Transport

    /** Everything the stream may change, except the transmitter's set. */
    ghost function Footprint(): set<object>
      reads dispatcher, responseCollector, responsePartCollector
    {
      {this} + dispatcher.Repr + responseCollector.Repr + responsePartCollector.Repr
    }

    /** Each part is well formed, and they share nothing. */
    ghost predicate Owned()
      reads dispatcher, dispatcher.Repr, responseCollector, responseCollector.Repr
      reads responsePartCollector, responsePartCollector.Repr
    {
      && this !in dispatcher.Repr && this !in responseCollector.Repr && this !in responsePartCollector.Repr
      && dispatcher.Repr !! responseCollector.Repr && dispatcher.Repr !! responsePartCollector.Repr
      && responseCollector.Repr !! responsePartCollector.Repr
      && dispatcher.transmitter !in responseCollector.Repr && dispatcher.transmitter !in responsePartCollector.Repr
      && dispatcher.Valid() && responseCollector.Valid() && responsePartCollector.Valid()
    }

    ghost predicate Is(t: Transport)
      reads this, dispatcher, responseCollector, responsePartCollector
    {
      Match(t, isOpen, error, generators, dispatcher.view, responseCollector.view, responsePartCollector.view)
    }

    ghost predicate Valid()
      reads this, dispatcher, responseCollector, responsePartCollector, Footprint()
    {
      Owned() && Run(events) == Some(state) && Is(state)
    }

    /** The object took the step of this event, on its own objects and new ones only. */
    twostate predicate Took(e: Event)
      reads this, dispatcher, responseCollector, responsePartCollector, Footprint()
    {
      Valid() && fresh(Footprint() - old(Footprint())) && events == old(events) + [e]
    }

    /** The constructor and `open` on a connection that yields this stream. */
    constructor (transmitter: D.RequestTransmitter, stream: D.TransactionStream)
      requires transmitter.Valid() && stream.accepted == [] && stream.refused == [] && !stream.ended
      modifies transmitter`dispatchers
      ensures Valid() && events == [] && fresh(Footprint() - {stream})
      ensures dispatcher.stream == stream && dispatcher.transmitter == transmitter
      ensures transmitter.Valid() && transmitter.dispatchers == old(transmitter.dispatchers) + {dispatcher}
    {
      var d := transmitter.Dispatcher(stream);
      var c := new ResponseCollector<Payload>();
      var p := new ResponseCollector<Part>();
      dispatcher, responseCollector, responsePartCollector := d, c, p;
      isOpen, error, generators := true, None, map[];
      events, state := [], Opened;
    }

    /** Records a step that the fields have taken. */
    ghost method Record(e: Event, next: Transport)
      requires Owned() && Run(events + [e]) == Some(next) && Is(next)
      modifies this`events, this`state
      ensures Valid() && events == old(events) + [e]
    {
      events, state := events + [e], next;
    }

    method Send(req: Request, batch: bool)
      requires Owned()
      modifies dispatcher.Repr
      ensures Owned() && fresh(Footprint() - old(Footprint()))
      ensures dispatcher.view == D.Step(old(dispatcher.view), SendAction(req, batch))
    {
      dispatcher.Send(req, batch);
    }

    method RegisterResponses(id: RequestId)
      requires Owned()
      modifies responseCollector
      ensures Owned() && fresh(Footprint() - old(Footprint())) && id in responseCollector.queues
      ensures responseCollector.view == Register(old(responseCollector.view), id)
    {
      var queue := responseCollector.Queue(id);
    }

    method RegisterParts(id: RequestId)
      requires Owned()
      modifies responsePartCollector
      ensures Owned() && fresh(Footprint() - old(Footprint()))
      ensures responsePartCollector.view == Register(old(responsePartCollector.view), id)
    {
      var queue := responsePartCollector.Queue(id);
    }

    method TakeResponse(id: RequestId) returns (promise: nat)
      requires Owned() && id in responseCollector.queues
      modifies responseCollector.Repr
      ensures Owned() && Footprint() == old(Footprint())
      ensures responseCollector.view == TakeFrom(old(responseCollector.view), id)
      ensures promise == old(responseCollector.view[id].taken)
    {
      promise := responseCollector.TakeIn(id);
    }

    method TakePart(id: RequestId) returns (promise: nat)
      requires Owned() && id in responsePartCollector.queues
      modifies responsePartCollector.Repr
      ensures Owned() && Footprint() == old(Footprint())
      ensures responsePartCollector.view == TakeFrom(old(responsePartCollector.view), id)
      ensures promise == old(responsePartCollector.view[id].taken)
    {
      promise := responsePartCollector.TakeIn(id);
    }

    /** `single`: register the queue, dispatch, claim the first element. */
    method SendSingle(id: RequestId, op: Operation, batch: bool) returns (promise: nat)
      requires Owned()
      modifies Footprint()
      ensures Owned() && fresh(Footprint() - old(Footprint())) && promise == 0
      ensures unchanged(this`isOpen, this`error, this`generators, this`events, this`state)
      ensures dispatcher.view == D.Step(old(dispatcher.view), SendAction(Request(id, Unary(op)), batch))
      ensures responseCollector.view == TakeFrom(Register(old(responseCollector.view), id), id)
      ensures responsePartCollector.view == old(responsePartCollector.view)
    {
      RegisterResponses(id);
      Send(Request(id, Unary(op)), batch);
      promise := TakeResponse(id);
    }

    /** `rpcExecute` and `single` up to the `await`: the promise of the first element, unless refused. */
    method Single(id: RequestId, op: Operation, batch: bool) returns (promise: Option<nat>)
      requires Valid() && Enabled(state, Event.Single(id, op, batch))
      modifies Footprint()
      ensures Took(Event.Single(id, op, batch))
      ensures promise == if old(isOpen) then Some(0) else None
    {
      promise := None;
      ghost var next := SingleFits(events, state, dispatcher.view, id, op, batch);
      if isOpen {
        var p := SendSingle(id, op, batch);
        promise := Some(p);
      }
      Record(Event.Single(id, op, batch), next);
    }

    /** `stream`: register the queue, build the iterator, dispatch. */
    method SendQuery(id: RequestId, code: int)
      requires Owned()
      modifies Footprint()
      ensures Owned() && fresh(Footprint() - old(Footprint()))
      ensures unchanged(this`isOpen, this`error, this`events, this`state)
      ensures generators == old(generators)[id := PartIterator(Resting, [], 0)]
      ensures dispatcher.view == D.Step(old(dispatcher.view), SendAction(Request(id, Query(code)), true))
      ensures responseCollector.view == old(responseCollector.view)
      ensures responsePartCollector.view == Register(old(responsePartCollector.view), id)
    {
      RegisterParts(id);
      Send(Request(id, Query(code)), true);
      generators := generators[id := PartIterator(Resting, [], 0)];
    }

    /** `rpcStream` and `stream`. */
    method Stream(id: RequestId, code: int)
      requires Valid() && Enabled(state, OpenStream(id, code))
      modifies Footprint()
      ensures Took(OpenStream(id, code))
    {
      ghost var next := StreamFits(events, state, dispatcher.view, id, code);
      if isOpen { SendQuery(id, code); }
      Record(OpenStream(id, code), next);
    }

    /** `next` up to its `await`: claim the next element of the queue. */
    method Next(id: RequestId) returns (promise: nat)
      requires Valid() && Enabled(state, Pull(id))
      modifies Footprint()
      ensures Took(Pull(id)) && promise == old(state.parts[id].taken)
    {
      ghost var next := PullFits(events, state, id);
      promise := Claim(id);
      Record(Pull(id), next);
    }

    method Claim(id: RequestId) returns (promise: nat)
      requires Owned() && id in generators && id in responsePartCollector.queues
      modifies this`generators, responsePartCollector.Repr
      ensures Owned() && Footprint() == old(Footprint())
      ensures generators == old(generators)[id := old(generators)[id].(phase := Waiting)]
      ensures responsePartCollector.view == TakeFrom(old(responsePartCollector.view), id)
      ensures promise == old(responsePartCollector.view[id].taken)
    {
      generators := generators[id := generators[id].(phase := Waiting)];
      promise := TakePart(id);
    }

    /** On a continuation marker: ask for the next batch, and claim the next element. */
    method Continue(id: RequestId, ghost next: Transport) returns (promise: nat)
      requires Owned() && id in responsePartCollector.queues && Run(events + [Resume(id)]) == Some(next)
      requires Match(next, isOpen, error, generators,
                     D.Step(dispatcher.view, SendAction(Request(id, StreamRequest), true)),
                     responseCollector.view, TakeFrom(responsePartCollector.view, id))
      modifies Footprint()
      ensures Took(Resume(id)) && promise == old(responsePartCollector.view[id].taken)
    {
      Send(Request(id, StreamRequest), true);
      promise := TakePart(id);
      Record(Resume(id), next);
    }

    /** On anything else: yield it, stop or throw. */
    method Deliver(id: RequestId, element: Element<Part>, ghost next: Transport)
      requires Owned() && id in generators && Run(events + [Resume(id)]) == Some(next)
      requires Match(next, isOpen, error, generators[id := React(generators[id], element)], dispatcher.view,
                     responseCollector.view, responsePartCollector.view)
      modifies this`generators, this`events, this`state
      ensures Took(Resume(id)) && Footprint() == old(Footprint())
    {
      generators := generators[id := React(generators[id], element)];
      Record(Resume(id), next);
    }

    /** What a promise was settled with. */
    function Settled(id: RequestId, promise: nat): (element: Element<Part>)
      requires Valid() && Enabled(state, Resume(id)) && promise == state.parts[id].taken - 1
      reads this, dispatcher, responseCollector, responsePartCollector, Footprint()
      ensures element == Awaited(state, id)
    {
      responsePartCollector.queues[id].settled[promise]
    }

    /**
     `next` from its `await` on, and the generator around it. `promise` is the one it claimed and waits on; another
     one is claimed exactly after a continuation marker.
     */
    method NextResumed(id: RequestId, promise: nat) returns (more: Option<nat>)
      requires Valid() && Enabled(state, Resume(id)) && promise == state.parts[id].taken - 1
      modifies Footprint()
      ensures Took(Resume(id))
      ensures more == if old(Awaited(state, id)) == Value(ContinueMarker) then Some(promise + 1) else None
    {
      more := None;
      var element := Settled(id, promise);
      if element.Value? && element.value.ContinueMarker? {
        ghost var next := ContinueFits(events, state, dispatcher.view, id);
        var p := Continue(id, next);
        more := Some(p);
      } else {
        ghost var next := DeliverFits(events, state, dispatcher.view, id);
        Deliver(id, element, next);
      }
    }

    /** A new iteration of a stream whose last one is over. */
    method Iterate(id: RequestId)
      requires Valid() && Enabled(state, Event.Iterate(id))
      modifies this
      ensures Took(Event.Iterate(id))
    {
      ghost var next := IterateFits(events, state, id);
      generators := generators[id := generators[id].(phase := Resting)];
      Record(Event.Iterate(id), next);
    }

    method CollectRes(id: RequestId, payload: Payload)
      requires Owned()
      modifies responseCollector.Repr
      ensures Owned() && Footprint() == old(Footprint())
      ensures responseCollector.view == Reaches(old(responseCollector.view), id, payload)
    {
      var known := responseCollector.PutIn(id, payload);
    }

    method CollectResPart(id: RequestId, part: Part)
      requires Owned()
      modifies responsePartCollector.Repr
      ensures Owned() && Footprint() == old(Footprint())
      ensures responsePartCollector.view == Reaches(old(responsePartCollector.view), id, part)
    {
      var known := responsePartCollector.PutIn(id, part);
    }

    /** The `data` handler, `collectRes` and `collectResPart`. */
    method OnData(msg: ServerMessage)
      requires Valid()
      modifies Footprint()
      ensures Took(Receive(msg))
    {
      ghost var next := ReceiveFits(events, state, dispatcher.view, msg);
      if isOpen {
        match msg {
          case Response(id, payload) => CollectRes(id, payload);
          case ResponsePart(id, part) => CollectResPart(id, part);
          case Neither =>
        }
      }
      Record(Receive(msg), next);
    }

    method FireTimer(i: nat)
      requires Owned() && i < |dispatcher.timers| && dispatcher.timers[i] <= dispatcher.now
      modifies dispatcher.Repr
      ensures Owned() && fresh(Footprint() - old(Footprint()))
      ensures dispatcher.view == D.Step(old(dispatcher.view), D.Fire(i))
    {
      dispatcher.OnTimer(i);
    }

    /** The timer of the dispatcher fires. */
    method OnTimer(i: nat)
      requires Valid() && i < |dispatcher.timers| && dispatcher.timers[i] <= dispatcher.now
      modifies Footprint()
      ensures Took(Fire(i))
    {
      ghost var next := ActionFits(events, state, dispatcher.view, Fire(i), D.Fire(i));
      FireTimer(i);
      Record(Fire(i), next);
    }

    /** Time passes, up to the next deadline. */
    method Elapse(millis: nat)
      requires Valid() && forall i :: 0 <= i < |dispatcher.timers| ==> dispatcher.now + millis <= dispatcher.timers[i]
      modifies Footprint()
      ensures Took(Tick(millis))
    {
      ghost var next := ActionFits(events, state, dispatcher.view, Tick(millis), D.Tick(millis));
      dispatcher.Elapse(millis);
      Record(Tick(millis), next);
    }

    method PoisonResponses(cause: Option<CloseError>)
      requires Owned()
      modifies responseCollector.Repr
      ensures Owned() && Footprint() == old(Footprint())
      ensures responseCollector.view == Poison(old(responseCollector.view), cause)
    {
      responseCollector.Close(cause);
    }

    method PoisonParts(cause: Option<CloseError>)
      requires Owned()
      modifies responsePartCollector.Repr
      ensures Owned() && Footprint() == old(Footprint())
      ensures responsePartCollector.view == Poison(old(responsePartCollector.view), cause)
    {
      responsePartCollector.Close(cause);
    }

    method EndDispatcher()
      requires Owned()
      modifies dispatcher`view, dispatcher.stream`ended, dispatcher.transmitter`dispatchers
      ensures Owned() && dispatcher.view == D.Step(old(dispatcher.view), D.End)
      ensures dispatcher.transmitter.dispatchers == old(dispatcher.transmitter.dispatchers) - {dispatcher}
    {
      dispatcher.Close();
    }

    method ShutDown(cause: Option<CloseError>)
      requires Owned()
      modifies this`isOpen, this`error, responseCollector.Repr, responsePartCollector.Repr
      modifies dispatcher`view, dispatcher.stream`ended, dispatcher.transmitter`dispatchers
      ensures Owned() && Footprint() == old(Footprint())
      ensures !isOpen && error == cause && dispatcher.view == D.Step(old(dispatcher.view), D.End)
      ensures responseCollector.view == Poison(old(responseCollector.view), cause)
      ensures responsePartCollector.view == Poison(old(responsePartCollector.view), cause)
      ensures dispatcher.transmitter.dispatchers == old(dispatcher.transmitter.dispatchers) - {dispatcher}
    {
      isOpen, error := false, cause;
      PoisonResponses(cause);
      PoisonParts(cause);
      EndDispatcher();
    }

    /** `close`, up to the callbacks. */
    method Close(cause: Option<CloseError>)
      requires Valid()
      modifies Footprint(), dispatcher.transmitter`dispatchers
      ensures Took(Event.Close(cause)) && !isOpen
      ensures dispatcher.transmitter.dispatchers == old(dispatcher.transmitter.dispatchers) - {dispatcher}
    {
      ghost var next := CloseFits(events, state, dispatcher.view, cause);
      ShutDown(cause);
      Record(Event.Close(cause), next);
    }

    // --- What runs promise, of the objects ---------------------------------------------------

    /** Each queue object holds exactly the messages of its kind and id heard while open, then the closing marks. */
    lemma QueuesAreExact(id: RequestId)
      requires Valid()
      ensures id in responseCollector.queues ==>
                responseCollector.queues[id].added == History(ResponsesTo(Heard(events), id), Closes(events))
      ensures id in responsePartCollector.queues ==>
                responsePartCollector.queues[id].added == History(PartsTo(Heard(events), id), Closes(events))
    {
      Demultiplexing(events, id);
    }

    /** The messages in the gRPC stream are the requests issued, in order, except those still in the buffer. */
    lemma MessagesInOrder()
      requires Valid()
      ensures Flatten(D.Contents(dispatcher.stream.accepted)) <= D.Calls(state.actions)
      ensures isOpen ==> Flatten(D.Contents(dispatcher.stream.accepted)) + dispatcher.bufferedRequests.items ==
                           D.Calls(state.actions)
    {
      RunKeeps(events);
      D.WrittenInOrderAndOnTime(state.actions);
    }

    /** What the promise of a `single` call holds: its own first response, the first `close`'s error, or nothing yet. */
    function OutcomeNow(id: RequestId): (r: Outcome)
      requires Valid() && id in responseCollector.queues
      reads this, dispatcher, responseCollector, responsePartCollector, Footprint()
      ensures r == Due(events, id)
      ensures r.Rejected? ==> !isOpen
    {
      SingleOutcome(events, id);
      var settled := responseCollector.queues[id].settled;
      if 0 !in settled then Pending else
      match settled[0]
      case Value(payload) => Returned(payload)
      case Done(cause) => Rejected(ErrorOf(cause))
    }
  }
}
