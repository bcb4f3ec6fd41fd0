/**
 The transaction transport as a state machine (`BidirectionalStream.ts`, `ResponsePartIterator.ts`,
 `TypeDBTransactionImpl.ts`). JavaScript runs a handler without interruption up to its next `await`, so
 each such stretch is one step. Nothing is assumed here about what the server sends.
 */
module Transport {
  import opened Protocol
  import opened Sequences
  import opened Queues
  import D = Dispatch

  /** Where an answer stream's generator stands: not asked, waiting on its queue, or over. */
  datatype Phase = Resting | Waiting | Finished | Failed(error: DriverError)

  /** `failures` counts the generators of this stream that ended on a closing mark. */
  datatype PartIterator = PartIterator(phase: Phase, yielded: seq<Payload>, failures: nat)

  /**
   The dispatcher is held as the steps it has taken; `Dispatch.Run` turns them into its state. `received` and
   `closes` record the messages heard while open and the arguments of every `close`. `faults` are the
   messages whose handler threw, `rejected` the calls refused because the transaction was closed.
   */
  datatype Transport = Transport(
    isOpen: bool,
    error: Option<CloseError>,
    actions: seq<D.Action>,
    responses: Views<Payload>,
    parts: Views<Part>,
    iters: map<RequestId, PartIterator>,
    rejected: seq<DriverError>,
    faults: seq<ServerMessage>,
    received: seq<ServerMessage>,
    closes: seq<Option<CloseError>>)

  /** The state `open` leaves behind. */
  const Opened := Transport(true, None, [], map[], map[], map[], [], [], [], [])

  datatype Event =
    | Single(id: RequestId, op: Operation, batch: bool)
    | OpenStream(id: RequestId, code: int)
    | Pull(id: RequestId)
    | Resume(id: RequestId)
    | Iterate(id: RequestId)
    | Receive(msg: ServerMessage)
    | Fire(timer: nat)
    | Tick(millis: nat)
    | Close(error: Option<CloseError>)

  predicate Mentions(msgs: seq<ServerMessage>, id: RequestId) {
    exists i :: 0 <= i < |msgs| && !msgs[i].Neither? && msgs[i].id == id
  }

  /** What `uuid.v4` is trusted for: an id that no request and no message has used. */
  predicate Unused(t: Transport, id: RequestId) {
    id !in t.responses && id !in t.parts && !Mentions(t.received, id)
  }

  predicate Enabled(t: Transport, e: Event) {
    match e
    case Single(id, _, _) => Unused(t, id)
    case OpenStream(id, _) => Unused(t, id)
    case Pull(id) => id in t.iters && id in t.parts && t.iters[id].phase.Resting?
    case Resume(id) =>
      && id in t.iters && id in t.parts && t.iters[id].phase.Waiting?
      && 0 < t.parts[id].taken <= |t.parts[id].added|
    case Iterate(id) => id in t.iters && (t.iters[id].phase.Finished? || t.iters[id].phase.Failed?)
    case Fire(i) => D.Run(t.actions + [D.Fire(i)]).Some?
    case Tick(ms) => D.Run(t.actions + [D.Tick(ms)]).Some?
    case _ => true
  }

  /** `throwTransactionClosed`: an absent or empty error is not reported. */
  function ClosedError(error: Option<CloseError>): DriverError {
    if Falsy(error) then TransactionClosed else TransactionClosedWithErrors(error.value)
  }

  function Do(t: Transport, a: D.Action): Transport {
    t.(actions := t.actions + [a])
  }

  function SendAction(req: Request, batch: bool): D.Action {
    if batch then D.DispatchLater(req) else D.DispatchNow(req)
  }

  function Send(t: Transport, req: Request, batch: bool): Transport {
    Do(t, SendAction(req, batch))
  }

  /** `rpcExecute` and `single`: register the queue, dispatch, and claim the first element. */
  function CallSingle(t: Transport, id: RequestId, op: Operation, batch: bool): Transport {
    if !t.isOpen then t.(rejected := t.rejected + [ClosedError(t.error)]) else
    var sent := Send(t.(responses := Register(t.responses, id)), Request(id, Unary(op)), batch);
    sent.(responses := TakeFrom(sent.responses, id))
  }

  /** `rpcStream` and `stream`: register the queue, build the iterator, dispatch. */
  function CallStream(t: Transport, id: RequestId, code: int): Transport {
    if !t.isOpen then t.(rejected := t.rejected + [ClosedError(t.error)]) else
    Send(RegisterParts(t, id), Request(id, Query(code)), true)
  }

  function RegisterParts(t: Transport, id: RequestId): Transport {
    t.(parts := Register(t.parts, id), iters := t.iters[id := PartIterator(Resting, [], 0)])
  }

  function SetIter(t: Transport, id: RequestId, it: PartIterator): Transport {
    t.(iters := t.iters[id := it])
  }

  /** What a stream's generator does with a data part or a marker, a closing mark, or a request for more. */
  function React(it: PartIterator, e: Element<Part>): PartIterator {
    if e.Done? then it.(phase := Failed(ErrorOf(e.error)), failures := it.failures + 1)
    else if e.value.Data? then it.(phase := Resting, yielded := it.yielded + [e.value.payload])
    else if e.value.DoneMarker? then it.(phase := Finished)
    else if e.value.ContinueMarker? then it
    else it.(phase := Failed(UnknownStreamState(e.value.code)))
  }

  function Awaited(t: Transport, id: RequestId): Element<Part>
    requires Enabled(t, Resume(id))
  {
    t.parts[id].added[t.parts[id].taken - 1]
  }

  /** `next` from its `await` on: on a continuation marker, ask for the next batch and wait again. */
  function ResumeIter(t: Transport, id: RequestId): Transport
    requires Enabled(t, Resume(id))
  {
    if Awaited(t, id) == Value(ContinueMarker)
    then Send(t.(parts := TakeFrom(t.parts, id)), Request(id, StreamRequest), true)
    else SetIter(t, id, React(t.iters[id], Awaited(t, id)))
  }

  /** The `data` handler: ignore after close, route by kind and id, throw when nobody asked. */
  function Hear(t: Transport, msg: ServerMessage): Transport {
    if !t.isOpen then t else
    var heard := t.(received := t.received + [msg]);
    match msg
    case Response(id, p) =>
      if id in t.responses then heard.(responses := AddTo(t.responses, id, Value(p)))
      else heard.(faults := t.faults + [msg])
    case ResponsePart(id, part) =>
      if id in t.parts then heard.(parts := AddTo(t.parts, id, Value(part)))
      else heard.(faults := t.faults + [msg])
    case Neither => heard.(faults := t.faults + [msg])
  }

  /** `close`, from a caller or from the stream's `error` and `done` handlers; nothing guards it. */
  function Shut(t: Transport, error: Option<CloseError>): Transport {
    Do(t.(isOpen := false, error := error, closes := t.closes + [error],
          responses := Poison(t.responses, error), parts := Poison(t.parts, error)), D.End)
  }

  function Step(t: Transport, e: Event): Transport
    requires Enabled(t, e)
  {
    match e
    case Single(id, op, batch) => CallSingle(t, id, op, batch)
    case OpenStream(id, code) => CallStream(t, id, code)
    case Pull(id) =>
      SetIter(t, id, t.iters[id].(phase := Waiting)).(parts := TakeFrom(t.parts, id))
    case Resume(id) => ResumeIter(t, id)
    case Iterate(id) => SetIter(t, id, t.iters[id].(phase := Resting))
    case Receive(msg) => Hear(t, msg)
    case Fire(i) => Do(t, D.Fire(i))
    case Tick(ms) => Do(t, D.Tick(ms))
    case Close(error) => Shut(t, error)
  }

  function Run(events: seq<Event>): Option<Transport> {
    if events == [] then Some(Opened) else
    match Run(Front(events))
    case None => None
    case Some(t) => if Enabled(t, Last(events)) then Some(Step(t, Last(events))) else None
  }

  // --- What a run says by itself, without the transport's state ----------------------------

  function Closes(events: seq<Event>): seq<Option<CloseError>> {
    if events == [] then [] else
    Closes(Front(events)) + if Last(events).Close? then [Last(events).error] else []
  }

  /** The messages that arrived before the first `close`. */
  function Heard(events: seq<Event>): seq<ServerMessage> {
    if events == [] then [] else
    Heard(Front(events)) + if Last(events).Receive? && Closes(Front(events)) == [] then [Last(events).msg] else []
  }

  function ResponsesTo(msgs: seq<ServerMessage>, id: RequestId): seq<Payload> {
    if msgs == [] then [] else
    ResponsesTo(Front(msgs), id) + if Last(msgs).Response? && Last(msgs).id == id then [Last(msgs).payload] else []
  }

  function PartsTo(msgs: seq<ServerMessage>, id: RequestId): seq<Part> {
    if msgs == [] then [] else
    PartsTo(Front(msgs), id) + if Last(msgs).ResponsePart? && Last(msgs).id == id then [Last(msgs).part] else []
  }

  function Values<T>(s: seq<T>): (r: seq<Element<T>>)
    ensures |r| == |s| && forall i :: 0 <= i < |s| ==> r[i] == Value(s[i])
  {
    seq(|s|, i requires 0 <= i < |s| => Value(s[i]))
  }

  function Marks<T>(closes: seq<Option<CloseError>>): (r: seq<Element<T>>)
    ensures |r| == |closes| && forall i :: 0 <= i < |closes| ==> r[i] == Done(closes[i])
  {
    seq(|closes|, i requires 0 <= i < |closes| => Done(closes[i]))
  }

  /** What a queue must hold: the values that came for it while open, then one mark per `close`. */
  function History<T>(values: seq<T>, closes: seq<Option<CloseError>>): seq<Element<T>> {
    Values(values) + Marks(closes)
  }

  function DataIn(parts: seq<Part>): seq<Payload> {
    if parts == [] then [] else DataIn(Front(parts)) + if Last(parts).Data? then [Last(parts).payload] else []
  }

  // --- What every step keeps ---------------------------------------------------------------

  ghost predicate LifecycleKept(t: Transport) {
    && t.isOpen == (t.closes == [])
    && t.error == (if t.closes == [] then None else Last(t.closes))
  }

  ghost predicate DispatcherKept(t: Transport) {
    && D.Run(t.actions).Some?
    && D.Run(t.actions).value.ended == !t.isOpen
  }

  ghost predicate KeysKept(t: Transport) {
    t.responses.Keys !! t.parts.Keys && t.iters.Keys == t.parts.Keys
  }

  /** A unary call's queue holds exactly what came for it, then the marks; one element was claimed. */
  ghost predicate ResponseKept(t: Transport, id: RequestId) {
    id in t.responses ==> t.responses[id] == Fifo(History(ResponsesTo(t.received, id), t.closes), 1)
  }

  /** A stream's queue holds exactly the parts that came for it, then the marks. */
  ghost predicate PartKept(t: Transport, id: RequestId) {
    id in t.parts ==> t.parts[id].added == History(PartsTo(t.received, id), t.closes)
  }

  ghost predicate QueueKept(t: Transport, id: RequestId) {
    ResponseKept(t, id) && PartKept(t, id)
  }

  ghost predicate QueuesKept(t: Transport) {
    forall id :: QueueKept(t, id)
  }

  /** How many elements of its queue a stream's generators have dealt with. */
  function Handled(t: Transport, id: RequestId): int
    requires id in t.parts && id in t.iters
  {
    t.parts[id].taken - if t.iters[id].phase.Waiting? then 1 else 0
  }

  /** The answer parts among them. */
  function Consumed(t: Transport, id: RequestId): seq<Part>
    requires id in t.parts && id in t.iters
  {
    var all := PartsTo(t.received, id);
    if 0 <= Handled(t, id) <= |all| then all[..Handled(t, id)] else all
  }

  function ContinuationsSent(t: Transport, id: RequestId): nat {
    multiset(D.Calls(t.actions))[Request(id, StreamRequest)]
  }

  /** A stream has yielded the data it consumed and asked for one more batch per continuation marker. */
  ghost predicate IterKept(t: Transport, id: RequestId)
    requires id in t.parts && id in t.iters
  {
    var it, consumed := t.iters[id], Consumed(t, id);
    && 0 <= Handled(t, id) <= |t.parts[id].added|
    && it.yielded == DataIn(consumed)
    && it.failures == Handled(t, id) - |consumed|
    && ContinuationsSent(t, id) == multiset(consumed)[ContinueMarker]
    && (it.phase.Finished? ==> consumed != [] && Last(consumed) == DoneMarker)
    && (it.phase.Failed? ==> FailedFor(t, it.phase.error, it.failures, consumed))
  }

  /** A stream fails on an unknown marker, or with the error of the `close` whose mark it took. */
  ghost predicate FailedFor(t: Transport, error: DriverError, failures: nat, consumed: seq<Part>) {
    if failures == 0
    then consumed != [] && Last(consumed).UnknownMarker? && error == UnknownStreamState(Last(consumed).code)
    else failures <= |t.closes| && Reports(error, t.closes[failures - 1])
  }

  ghost predicate ItersKept(t: Transport) {
    t.iters.Keys == t.parts.Keys && forall id :: id in t.parts ==> IterKept(t, id)
  }

  ghost predicate Asked(reqs: seq<Request>, id: RequestId) {
    exists code :: Request(id, Query(code)) in reqs
  }

  /** Whoever sent a request registered its queue first, and every stream's queue has its request. */
  ghost predicate RequestsKept(t: Transport) {
    && (forall r :: r in D.Calls(t.actions) ==> if r.body.Unary? then r.id in t.responses else r.id in t.parts)
    && (forall id :: id in t.parts ==> Asked(D.Calls(t.actions), id))
  }

  ghost predicate Kept(t: Transport) {
    && LifecycleKept(t) && DispatcherKept(t) && KeysKept(t) && QueuesKept(t) && ItersKept(t) && RequestsKept(t)
  }

  lemma StepKeepsLifecycle(t: Transport, e: Event)
    requires LifecycleKept(t) && DispatcherKept(t) && Enabled(t, e)
    ensures LifecycleKept(Step(t, e)) && DispatcherKept(Step(t, e))
  {
    match e
    case Resume(id) => D.RunSnoc(t.actions, D.DispatchLater(Request(id, StreamRequest)));
    case Single(id, op, batch) =>
      var req := Request(id, Unary(op));
      D.RunSnoc(t.actions, SendAction(req, batch));
    case OpenStream(id, code) => D.RunSnoc(t.actions, D.DispatchLater(Request(id, Query(code))));
    case Fire(i) => D.RunSnoc(t.actions, D.Fire(i));
    case Tick(ms) => D.RunSnoc(t.actions, D.Tick(ms));
    case Close(error) => D.RunSnoc(t.actions, D.End);
    case _ =>
  }

  lemma {:induction false} UnmentionedIsSilent(msgs: seq<ServerMessage>, id: RequestId)
    requires !Mentions(msgs, id)
    ensures ResponsesTo(msgs, id) == [] && PartsTo(msgs, id) == []
  {
    if msgs != [] {
      assert forall i :: 0 <= i < |Front(msgs)| ==> Front(msgs)[i] == msgs[i];
      UnmentionedIsSilent(Front(msgs), id);
    }
  }

  lemma MessageSnoc(msgs: seq<ServerMessage>, msg: ServerMessage, id: RequestId)
    ensures ResponsesTo(msgs + [msg], id) ==
              ResponsesTo(msgs, id) + if msg.Response? && msg.id == id then [msg.payload] else []
    ensures PartsTo(msgs + [msg], id) ==
              PartsTo(msgs, id) + if msg.ResponsePart? && msg.id == id then [msg.part] else []
  {
    assert Front(msgs + [msg]) == msgs;
  }

  lemma ValuesSnoc<T>(values: seq<T>, v: T)
    ensures History(values + [v], []) == History(values, []) + [Value(v)]
  {
  }

  lemma HearKeepsResponse(t: Transport, msg: ServerMessage, id: RequestId)
    requires t.isOpen && t.closes == [] && ResponseKept(t, id) && id in t.responses
    ensures ResponseKept(Hear(t, msg), id)
  {
    var before, t' := ResponsesTo(t.received, id), Hear(t, msg);
    MessageSnoc(t.received, msg, id);
    assert t'.received == t.received + [msg] && t'.closes == [];
    if msg.Response? && msg.id == id {
      ValuesSnoc(before, msg.payload);
      assert ResponsesTo(t'.received, id) == before + [msg.payload];
      assert t'.responses[id] == Add(t.responses[id], Value(msg.payload));
    } else {
      assert ResponsesTo(t'.received, id) == before;
      assert t'.responses[id] == t.responses[id];
    }
  }

  lemma HearKeepsPart(t: Transport, msg: ServerMessage, id: RequestId)
    requires t.isOpen && t.closes == [] && PartKept(t, id) && id in t.parts
    ensures PartKept(Hear(t, msg), id)
  {
    var before, t' := PartsTo(t.received, id), Hear(t, msg);
    MessageSnoc(t.received, msg, id);
    assert t'.received == t.received + [msg] && t'.closes == [];
    if msg.ResponsePart? && msg.id == id {
      ValuesSnoc(before, msg.part);
      assert PartsTo(t'.received, id) == before + [msg.part];
      assert t'.parts[id] == Add(t.parts[id], Value(msg.part));
    } else {
      assert PartsTo(t'.received, id) == before;
      assert t'.parts[id] == t.parts[id];
    }
  }

  lemma HearKeepsQueue(t: Transport, msg: ServerMessage, id: RequestId)
    requires LifecycleKept(t) && QueueKept(t, id)
    ensures QueueKept(Hear(t, msg), id)
  {
    if t.isOpen {
      if id in t.responses { HearKeepsResponse(t, msg, id); }
      if id in t.parts { HearKeepsPart(t, msg, id); }
    }
  }

  lemma ShutKeepsQueue(t: Transport, error: Option<CloseError>, id: RequestId)
    requires QueueKept(t, id)
    ensures QueueKept(Shut(t, error), id)
  {
  }

  lemma CallKeepsQueue(t: Transport, e: Event, id: RequestId)
    requires LifecycleKept(t) && QueueKept(t, id) && Enabled(t, e) && (e.Single? || e.OpenStream?)
    ensures QueueKept(Step(t, e), id)
  {
    if id == e.id { UnmentionedIsSilent(t.received, id); }
  }

  lemma StepKeepsQueue(t: Transport, e: Event, id: RequestId)
    requires LifecycleKept(t) && QueueKept(t, id) && Enabled(t, e)
    ensures QueueKept(Step(t, e), id)
  {
    if e.Receive? { HearKeepsQueue(t, e.msg, id); }
    else if e.Close? { ShutKeepsQueue(t, e.error, id); }
    else if e.Single? || e.OpenStream? { CallKeepsQueue(t, e, id); }
  }

  // --- Iterators ---------------------------------------------------------------------------

  /** Nothing an iterator depends on has changed, except that its queue may have grown at the end. */
  ghost predicate IterUntouched(t: Transport, t': Transport, id: RequestId) {
    && id in t.parts && id in t.iters && id in t'.parts && id in t'.iters
    && t'.iters[id] == t.iters[id] && t'.parts[id].taken == t.parts[id].taken
    && t.parts[id].added <= t'.parts[id].added && t.closes <= t'.closes
    && Consumed(t', id) == Consumed(t, id)
    && ContinuationsSent(t', id) == ContinuationsSent(t, id)
  }

  lemma UntouchedIterKept(t: Transport, t': Transport, id: RequestId)
    requires IterUntouched(t, t', id) && IterKept(t, id)
    ensures IterKept(t', id)
  {
  }

  lemma HearLeavesIter(t: Transport, msg: ServerMessage, id: RequestId)
    requires LifecycleKept(t) && QueueKept(t, id) && id in t.parts && id in t.iters && IterKept(t, id)
    ensures IterUntouched(t, Hear(t, msg), id)
  {
    MessageSnoc(t.received, msg, id);
  }

  lemma DataSnoc(parts: seq<Part>, part: Part)
    ensures DataIn(parts + [part]) == DataIn(parts) + if part.Data? then [part.payload] else []
    ensures multiset(parts + [part])[ContinueMarker] ==
              multiset(parts)[ContinueMarker] + if part.ContinueMarker? then 1 else 0
  {
    assert Front(parts + [part]) == parts;
  }

  lemma SendCounts(t: Transport, req: Request, batch: bool, id: RequestId)
    requires D.Run(t.actions).Some?
    ensures ContinuationsSent(Send(t, req, batch), id) ==
              ContinuationsSent(t, id) + if req == Request(id, StreamRequest) then 1 else 0
  {
    D.RunSnoc(t.actions, SendAction(req, batch));
  }

  /** The element a generator waits for: the next part that came for this id, or the next closing mark. */
  lemma AwaitedElement(t: Transport, id: RequestId)
    requires PartKept(t, id) && Enabled(t, Resume(id)) && IterKept(t, id)
    ensures 0 <= Handled(t, id) < |t.parts[id].added| && Awaited(t, id) == t.parts[id].added[Handled(t, id)]
    ensures var all := PartsTo(t.received, id);
            if Handled(t, id) < |all|
            then Awaited(t, id) == Value(all[Handled(t, id)]) && t.iters[id].failures == 0
            else t.iters[id].failures == Handled(t, id) - |all| < |t.closes| &&
                 Awaited(t, id) == Done(t.closes[t.iters[id].failures])
  {
  }

  lemma ResumeHandles(t: Transport, id: RequestId)
    requires Enabled(t, Resume(id))
    ensures var t' := ResumeIter(t, id);
            && id in t'.parts && id in t'.iters && t'.received == t.received && t'.closes == t.closes
            && Handled(t', id) == Handled(t, id) + 1 && t'.parts[id].added == t.parts[id].added
  {
  }

  /** One more element handled, and one more part consumed if it was one. */
  lemma ResumeConsumes(t: Transport, id: RequestId)
    requires PartKept(t, id) && Enabled(t, Resume(id)) && IterKept(t, id)
    ensures id in ResumeIter(t, id).parts && id in ResumeIter(t, id).iters
    ensures Handled(ResumeIter(t, id), id) == Handled(t, id) + 1
    ensures match Awaited(t, id)
            case Value(part) => Consumed(ResumeIter(t, id), id) == Consumed(t, id) + [part] && t.iters[id].failures == 0
            case Done(error) => Consumed(ResumeIter(t, id), id) == Consumed(t, id) &&
                                t.iters[id].failures < |t.closes| && error == t.closes[t.iters[id].failures]
  {
    AwaitedElement(t, id);
    ResumeHandles(t, id);
    var all, h := PartsTo(t.received, id), Handled(t, id);
    if h < |all| { assert all[..h + 1] == all[..h] + [all[h]]; }
  }

  lemma ContinueKeepsIter(t: Transport, id: RequestId)
    requires LifecycleKept(t) && DispatcherKept(t) && QueueKept(t, id) && Enabled(t, Resume(id)) && IterKept(t, id)
    requires Awaited(t, id) == Value(ContinueMarker)
    ensures id in ResumeIter(t, id).parts && id in ResumeIter(t, id).iters && IterKept(ResumeIter(t, id), id)
  {
    ResumeConsumes(t, id);
    SendCounts(t, Request(id, StreamRequest), true, id);
    DataSnoc(Consumed(t, id), ContinueMarker);
  }

  lemma PartKeepsIter(t: Transport, id: RequestId, part: Part)
    requires PartKept(t, id) && Enabled(t, Resume(id)) && IterKept(t, id)
    requires Awaited(t, id) == Value(part) && part != ContinueMarker
    ensures id in ResumeIter(t, id).parts && id in ResumeIter(t, id).iters && IterKept(ResumeIter(t, id), id)
  {
    AwaitedElement(t, id);
    ResumeConsumes(t, id);
    ResumeHandles(t, id);
    DataSnoc(Consumed(t, id), part);
    assert Last(Consumed(t, id) + [part]) == part;
    assert ResumeIter(t, id).actions == t.actions;
  }

  lemma MarkKeepsIter(t: Transport, id: RequestId, error: Option<CloseError>)
    requires PartKept(t, id) && Enabled(t, Resume(id)) && IterKept(t, id) && Awaited(t, id) == Done(error)
    ensures id in ResumeIter(t, id).parts && id in ResumeIter(t, id).iters && IterKept(ResumeIter(t, id), id)
  {
    ResumeConsumes(t, id);
    ResumeHandles(t, id);
    var t', failures := ResumeIter(t, id), t.iters[id].failures + 1;
    assert t'.iters[id] == PartIterator(Failed(ErrorOf(error)), t.iters[id].yielded, failures);
    assert t'.actions == t.actions && t'.closes == t.closes;
    assert Consumed(t', id) == Consumed(t, id) && ContinuationsSent(t', id) == ContinuationsSent(t, id);
    assert 0 <= Handled(t', id) <= |t'.parts[id].added| by { AwaitedElement(t, id); }
    assert FailedFor(t', ErrorOf(error), failures, Consumed(t', id));
  }

  lemma ResumeKeepsIter(t: Transport, id: RequestId)
    requires LifecycleKept(t) && DispatcherKept(t) && QueueKept(t, id) && Enabled(t, Resume(id)) && IterKept(t, id)
    ensures id in ResumeIter(t, id).parts && id in ResumeIter(t, id).iters && IterKept(ResumeIter(t, id), id)
  {
    if Awaited(t, id) == Value(ContinueMarker) {
      ContinueKeepsIter(t, id);
    } else {
      match Awaited(t, id)
      case Value(part) => PartKeepsIter(t, id, part);
      case Done(error) => MarkKeepsIter(t, id, error);
    }
  }

  lemma SingleLeavesIter(t: Transport, e: Event, id: RequestId)
    requires Enabled(t, e) && e.Single? && id in t.parts && id in t.iters && DispatcherKept(t)
    ensures IterUntouched(t, Step(t, e), id)
  {
    SendCounts(t, Request(e.id, Unary(e.op)), e.batch, id);
  }

  lemma StreamKeepsIter(t: Transport, e: Event, id: RequestId)
    requires Enabled(t, e) && e.OpenStream? && DispatcherKept(t) && RequestsKept(t) && KeysKept(t)
    requires id in t.parts ==> id in t.iters && IterKept(t, id)
    requires id in Step(t, e).parts && id in Step(t, e).iters
    ensures IterKept(Step(t, e), id)
  {
    SendCounts(t, Request(e.id, Query(e.code)), true, id);
    if id in t.parts {
      UntouchedIterKept(t, Step(t, e), id);
    } else {
      UnmentionedIsSilent(t.received, id);
      assert Request(id, StreamRequest) !in D.Calls(t.actions);
    }
  }

  lemma CloseLeavesIter(t: Transport, error: Option<CloseError>, id: RequestId)
    requires id in t.parts && id in t.iters && DispatcherKept(t)
    ensures IterUntouched(t, Shut(t, error), id)
  {
    D.RunSnoc(t.actions, D.End);
  }

  lemma ResumeLeavesOthers(t: Transport, other: RequestId, id: RequestId)
    requires Enabled(t, Resume(other)) && other != id && id in t.parts && id in t.iters && DispatcherKept(t)
    ensures IterUntouched(t, ResumeIter(t, other), id)
  {
    SendCounts(t, Request(other, StreamRequest), true, id);
  }

  lemma TimeLeavesIter(t: Transport, a: D.Action, id: RequestId)
    requires D.Run(t.actions).Some? && (a.Fire? || a.Tick?) && id in t.parts && id in t.iters
    ensures IterUntouched(t, Do(t, a), id)
  {
    D.RunSnoc(t.actions, a);
  }

  lemma StepKeepsKeys(t: Transport, e: Event)
    requires KeysKept(t) && Enabled(t, e)
    ensures KeysKept(Step(t, e))
    ensures t.parts.Keys <= Step(t, e).parts.Keys && t.responses.Keys <= Step(t, e).responses.Keys
  {
  }

  /** Steps of other requests, of the clock, of the server and of `close` leave an iterator as it is. */
  lemma StepLeavesIter(t: Transport, e: Event, id: RequestId)
    requires LifecycleKept(t) && DispatcherKept(t) && QueueKept(t, id) && Enabled(t, e)
    requires id in t.parts && id in t.iters && IterKept(t, id)
    requires e.Single? || (e.Resume? && e.id != id) || e.Receive? || e.Fire? || e.Tick? || e.Close?
    ensures IterUntouched(t, Step(t, e), id)
  {
    match e
    case Single(_, _, _) => SingleLeavesIter(t, e, id);
    case Resume(other) => ResumeLeavesOthers(t, other, id);
    case Receive(msg) => HearLeavesIter(t, msg, id);
    case Fire(i) => TimeLeavesIter(t, D.Fire(i), id);
    case Tick(ms) => TimeLeavesIter(t, D.Tick(ms), id);
    case Close(error) => CloseLeavesIter(t, error, id);
  }

  lemma PullKeepsIter(t: Transport, other: RequestId, id: RequestId)
    requires Enabled(t, Pull(other)) && id in t.parts && id in t.iters && IterKept(t, id)
    ensures IterKept(Step(t, Pull(other)), id)
  {
    assert Handled(Step(t, Pull(other)), id) == Handled(t, id);
  }

  lemma IterateKeepsIter(t: Transport, other: RequestId, id: RequestId)
    requires Enabled(t, Iterate(other)) && id in t.parts && id in t.iters && IterKept(t, id)
    ensures IterKept(Step(t, Iterate(other)), id)
  {
    assert Handled(Step(t, Iterate(other)), id) == Handled(t, id);
  }

  lemma StepKeepsIter(t: Transport, e: Event, id: RequestId)
    requires LifecycleKept(t) && DispatcherKept(t) && KeysKept(t) && QueueKept(t, id) && RequestsKept(t)
    requires Enabled(t, e)
    requires id in t.parts ==> id in t.iters && IterKept(t, id)
    requires id in Step(t, e).parts && id in Step(t, e).iters
    ensures IterKept(Step(t, e), id)
  {
    if e.OpenStream? {
      StreamKeepsIter(t, e, id);
    } else if e.Resume? && e.id == id {
      ResumeKeepsIter(t, id);
    } else if e.Pull? {
      PullKeepsIter(t, e.id, id);
    } else if e.Iterate? {
      IterateKeepsIter(t, e.id, id);
    } else {
      StepLeavesIter(t, e, id);
      UntouchedIterKept(t, Step(t, e), id);
    }
  }

  lemma SendKeepsRequests(t: Transport, t': Transport, req: Request, batch: bool)
    requires RequestsKept(t) && D.Run(t.actions).Some?
    requires t'.actions == Send(t, req, batch).actions
    requires t.parts.Keys <= t'.parts.Keys && t.responses.Keys <= t'.responses.Keys
    requires t'.parts.Keys <= t.parts.Keys + if req.body.Query? then {req.id} else {}
    requires if req.body.Unary? then req.id in t'.responses else req.id in t'.parts
    ensures RequestsKept(t')
  {
    D.RunSnoc(t.actions, SendAction(req, batch));
    assert D.Calls(t'.actions) == D.Calls(t.actions) + [req];
    forall id | id in t'.parts ensures Asked(D.Calls(t'.actions), id) {
      if id in t.parts {
        var code :| Request(id, Query(code)) in D.Calls(t.actions);
        assert Request(id, Query(code)) in D.Calls(t'.actions);
      } else {
        assert Request(id, Query(req.body.code)) in D.Calls(t'.actions);
      }
    }
  }

  lemma QuietKeepsRequests(t: Transport, t': Transport, a: D.Action)
    requires RequestsKept(t) && D.Run(t.actions).Some? && !a.DispatchLater? && !a.DispatchNow?
    requires t'.actions == t.actions + [a] && t'.parts.Keys == t.parts.Keys && t'.responses.Keys == t.responses.Keys
    ensures RequestsKept(t')
  {
    D.RunSnoc(t.actions, a);
  }

  lemma StepKeepsRequests(t: Transport, e: Event)
    requires KeysKept(t) && DispatcherKept(t) && RequestsKept(t) && Enabled(t, e)
    ensures RequestsKept(Step(t, e))
  {
    var t' := Step(t, e);
    if t'.actions == t.actions {
    } else {
      match e
      case Single(id, op, batch) => SendKeepsRequests(t, t', Request(id, Unary(op)), batch);
      case OpenStream(id, code) => SendKeepsRequests(t, t', Request(id, Query(code)), true);
      case Resume(id) => SendKeepsRequests(t, t', Request(id, StreamRequest), true);
      case Fire(i) => QuietKeepsRequests(t, t', D.Fire(i));
      case Tick(ms) => QuietKeepsRequests(t, t', D.Tick(ms));
      case Close(_) => QuietKeepsRequests(t, t', D.End);
    }
  }

  lemma StepKeeps(t: Transport, e: Event)
    requires Kept(t) && Enabled(t, e)
    ensures Kept(Step(t, e))
  {
    var t' := Step(t, e);
    StepKeepsLifecycle(t, e);
    StepKeepsKeys(t, e);
    StepKeepsRequests(t, e);
    forall id ensures QueueKept(t', id) { StepKeepsQueue(t, e, id); }
    forall id | id in t'.parts ensures IterKept(t', id) { StepKeepsIter(t, e, id); }
  }

  lemma StepRecords(t: Transport, e: Event)
    requires Enabled(t, e)
    ensures Step(t, e).received == t.received + if e.Receive? && t.isOpen then [e.msg] else []
    ensures Step(t, e).closes == t.closes + if e.Close? then [e.error] else []
  {
  }

  /** Every reachable state, with the run's own account of what was heard and closed. */
  lemma {:induction false} RunKeeps(events: seq<Event>)
    requires Run(events).Some?
    ensures Kept(Run(events).value)
    ensures Run(events).value.received == Heard(events)
    ensures Run(events).value.closes == Closes(events)
  {
    if events != [] {
      RunKeeps(Front(events));
      StepKeeps(Run(Front(events)).value, Last(events));
      StepRecords(Run(Front(events)).value, Last(events));
    }
  }

  // --- What callers can rely on ------------------------------------------------------------

  /** What a `single` call's promise holds: the first element of its queue, once there is one. */
  datatype Outcome = Pending | Returned(payload: Payload) | Rejected(error: DriverError)

  function OutcomeOf(q: Fifo<Element<Payload>>): Outcome {
    if q.added == [] then Pending else
    match q.added[0]
    case Value(p) => Returned(p)
    case Done(error) => Rejected(ErrorOf(error))
  }

  /** What a call is due by the run's own record: its first response, else the error of the first `close`. */
  function Due(events: seq<Event>, id: RequestId): Outcome {
    if ResponsesTo(Heard(events), id) != [] then Returned(ResponsesTo(Heard(events), id)[0])
    else if Closes(events) == [] then Pending
    else
      match Closes(events)[0]
      case None => Rejected(TransactionClosed)
      case Some(cause) => Rejected(StreamFailed(cause))
  }

  /** Demultiplexing is exact for every interleaving and every server. */
  lemma Demultiplexing(events: seq<Event>, id: RequestId)
    requires Run(events).Some?
    ensures var t := Run(events).value;
            && (id in t.responses ==> t.responses[id].added == History(ResponsesTo(Heard(events), id), Closes(events)))
            && (id in t.parts ==> t.parts[id].added == History(PartsTo(Heard(events), id), Closes(events)))
  {
    RunKeeps(events);
    assert QueueKept(Run(events).value, id);
  }

  /**
   A call returns its own first response if that came before the first `close`, and otherwise fails with the
   error of the first `close`, however often `close` is called. It is left pending only while the stream is open.
   */
  lemma SingleOutcome(events: seq<Event>, id: RequestId)
    requires Run(events).Some? && id in Run(events).value.responses
    ensures OutcomeOf(Run(events).value.responses[id]) == Due(events, id)
    ensures OutcomeOf(Run(events).value.responses[id]).Rejected? ==> !Run(events).value.isOpen
  {
    RunKeeps(events);
    assert QueueKept(Run(events).value, id);
  }

  /** A refused call, by contrast, is told about the last `close`: an error can be hidden by a later plain one. */
  lemma RefusalNamesLastClose(events: seq<Event>, call: Event)
    requires Run(events).Some? && Enabled(Run(events).value, call) && (call.Single? || call.OpenStream?)
    ensures var t, t' := Run(events).value, Step(Run(events).value, call);
            && (Closes(events) != [] ==> && |t'.rejected| == |t.rejected| + 1 && t' == t.(rejected := t'.rejected)
                                         && Front(t'.rejected) == t.rejected
                                         && Refuses(Last(t'.rejected), Last(Closes(events))))
            && (Closes(events) == [] ==> t'.rejected == t.rejected && call.id in t'.responses.Keys + t'.parts.Keys)
  {
    RunKeeps(events);
  }

  // --- The rest of the state, by the run's own record --------------------------------------

  function UnaryIds(events: seq<Event>): set<RequestId> {
    if events == [] then {} else
    UnaryIds(Front(events)) + if Last(events).Single? && Closes(Front(events)) == [] then {Last(events).id} else {}
  }

  function StreamIds(events: seq<Event>): set<RequestId> {
    if events == [] then {} else
    StreamIds(Front(events)) + if Last(events).OpenStream? && Closes(Front(events)) == [] then {Last(events).id} else {}
  }

  /** Someone had asked for this message when it came. */
  predicate Awaiting(events: seq<Event>, msg: ServerMessage) {
    match msg
    case Response(id, _) => id in UnaryIds(events)
    case ResponsePart(id, _) => id in StreamIds(events)
    case Neither => false
  }

  /** The messages heard that nobody had asked for. */
  function Unasked(events: seq<Event>): seq<ServerMessage> {
    if events == [] then [] else
    var before, e := Front(events), Last(events);
    Unasked(before) + if e.Receive? && Closes(before) == [] && !Awaiting(before, e.msg) then [e.msg] else []
  }

  /** For every call made after a `close`, the cause of the last `close` before it. */
  function Refusals(events: seq<Event>): seq<Option<CloseError>> {
    if events == [] then [] else
    var before, e := Front(events), Last(events);
    Refusals(before) + if (e.Single? || e.OpenStream?) && Closes(before) != [] then [Last(Closes(before))] else []
  }

  /** What one event has the dispatcher do, apart from asking for a further batch. */
  function Order(e: Event, isOpen: bool): seq<D.Action> {
    match e
    case Single(id, op, true) => if isOpen then [D.DispatchLater(Request(id, Unary(op)))] else []
    case Single(id, op, false) => if isOpen then [D.DispatchNow(Request(id, Unary(op)))] else []
    case OpenStream(id, code) => if isOpen then [D.DispatchLater(Request(id, Query(code)))] else []
    case Fire(i) => [D.Fire(i)]
    case Tick(ms) => [D.Tick(ms)]
    case Close(_) => [D.End]
    case _ => []
  }

  function Orders(events: seq<Event>): seq<D.Action> {
    if events == [] then [] else Orders(Front(events)) + Order(Last(events), Closes(Front(events)) == [])
  }

  predicate AsksForMore(a: D.Action) {
    a.DispatchLater? && a.req.body.StreamRequest?
  }

  function WithoutAsking(actions: seq<D.Action>): seq<D.Action> {
    if actions == [] then [] else
    WithoutAsking(Front(actions)) + if AsksForMore(Last(actions)) then [] else [Last(actions)]
  }

  lemma WithoutAskingSnoc(actions: seq<D.Action>, a: D.Action)
    ensures WithoutAsking(actions + [a]) == WithoutAsking(actions) + if AsksForMore(a) then [] else [a]
  {
    assert Front(actions + [a]) == actions;
  }

  /** The queues and the faults of a state are those of a run. */
  ghost predicate QueuesRecorded(t: Transport, events: seq<Event>) {
    t.responses.Keys == UnaryIds(events) && t.parts.Keys == StreamIds(events) && t.faults == Unasked(events)
  }

  /** So are the refusals. */
  ghost predicate RefusalsRecorded(t: Transport, events: seq<Event>) {
    && |t.rejected| == |Refusals(events)|
    && (forall i :: 0 <= i < |t.rejected| ==> Refuses(t.rejected[i], Refusals(events)[i]))
  }

  lemma RecordSnoc(events: seq<Event>, e: Event)
    ensures UnaryIds(events + [e]) == UnaryIds(events) + if e.Single? && Closes(events) == [] then {e.id} else {}
    ensures StreamIds(events + [e]) == StreamIds(events) + if e.OpenStream? && Closes(events) == [] then {e.id} else {}
    ensures Unasked(events + [e]) ==
              Unasked(events) + if e.Receive? && Closes(events) == [] && !Awaiting(events, e.msg) then [e.msg] else []
    ensures Orders(events + [e]) == Orders(events) + Order(e, Closes(events) == [])
  {
    assert Front(events + [e]) == events && Last(events + [e]) == e;
  }

  lemma StepRegisters(t: Transport, e: Event)
    requires Enabled(t, e)
    ensures Step(t, e).responses.Keys == t.responses.Keys + if e.Single? && t.isOpen then {e.id} else {}
    ensures Step(t, e).parts.Keys == t.parts.Keys + if e.OpenStream? && t.isOpen then {e.id} else {}
  {
  }

  lemma StepFaults(events: seq<Event>, t: Transport, e: Event)
    requires QueuesRecorded(t, events) && Enabled(t, e)
    ensures Step(t, e).faults == t.faults + if e.Receive? && t.isOpen && !Awaiting(events, e.msg) then [e.msg] else []
  {
  }

  lemma StepQueuesRecorded(events: seq<Event>, t: Transport, e: Event)
    requires QueuesRecorded(t, events) && t.isOpen == (Closes(events) == []) && Enabled(t, e)
    ensures QueuesRecorded(Step(t, e), events + [e])
  {
    RecordSnoc(events, e);
    StepRegisters(t, e);
    StepFaults(events, t, e);
  }

  lemma StepRejects(t: Transport, e: Event)
    requires Enabled(t, e)
    ensures if (e.Single? || e.OpenStream?) && !t.isOpen
            then |Step(t, e).rejected| == |t.rejected| + 1 && Front(Step(t, e).rejected) == t.rejected &&
                 Refuses(Last(Step(t, e).rejected), t.error)
            else Step(t, e).rejected == t.rejected
  {
  }

  lemma StepRefusalsRecorded(events: seq<Event>, t: Transport, e: Event)
    requires RefusalsRecorded(t, events) && t.isOpen == (Closes(events) == []) && Enabled(t, e)
    requires Closes(events) != [] ==> t.error == Last(Closes(events))
    ensures RefusalsRecorded(Step(t, e), events + [e])
  {
    assert Front(events + [e]) == events && Last(events + [e]) == e;
    StepRejects(t, e);
    var told, told' := t.rejected, Step(t, e).rejected;
    assert forall i :: 0 <= i < |told| ==> told'[i] == told[i];
  }

  lemma StepActs(t: Transport, e: Event)
    requires Enabled(t, e)
    ensures || Step(t, e).actions == t.actions + Order(e, t.isOpen)
            || (e.Resume? && Step(t, e).actions == t.actions + [D.DispatchLater(Request(e.id, StreamRequest))])
  {
  }

  lemma WithoutAskingOrder(actions: seq<D.Action>, e: Event, isOpen: bool)
    ensures WithoutAsking(actions + Order(e, isOpen)) == WithoutAsking(actions) + Order(e, isOpen)
  {
    var order := Order(e, isOpen);
    if order == [] {
      assert actions + order == actions;
    } else {
      assert order == [order[0]] && !AsksForMore(order[0]);
      WithoutAskingSnoc(actions, order[0]);
    }
  }

  lemma StepOrdered(events: seq<Event>, t: Transport, t': Transport, e: Event)
    requires WithoutAsking(t.actions) == Orders(events) && t.isOpen == (Closes(events) == [])
    requires || t'.actions == t.actions + Order(e, t.isOpen)
             || (e.Resume? && t'.actions == t.actions + [D.DispatchLater(Request(e.id, StreamRequest))])
    ensures WithoutAsking(t'.actions) == Orders(events + [e])
  {
    RecordSnoc(events, e);
    if t'.actions == t.actions + Order(e, t.isOpen) {
      WithoutAskingOrder(t.actions, e, t.isOpen);
    } else {
      WithoutAskingSnoc(t.actions, D.DispatchLater(Request(e.id, StreamRequest)));
    }
  }

  /**
   Everything else a run leaves behind, by its own record: who has a queue, which messages were faults, what every
   refused call was told, and what the dispatcher was made to do, when and in which way.
   */
  lemma {:induction false} RunIsRecorded(events: seq<Event>)
    requires Run(events).Some?
    ensures QueuesRecorded(Run(events).value, events) && RefusalsRecorded(Run(events).value, events)
    ensures WithoutAsking(Run(events).value.actions) == Orders(events)
  {
    if events != [] {
      var before, e := Front(events), Last(events);
      assert events == before + [e];
      RunIsRecorded(before);
      RunKeeps(before);
      var t := Run(before).value;
      StepQueuesRecorded(before, t, e);
      StepRefusalsRecorded(before, t, e);
      StepActs(t, e);
      StepOrdered(before, t, Step(t, e), e);
    }
  }

  // --- One step of an answer stream --------------------------------------------------------

  /** What a generator must do with the part it takes. */
  ghost predicate DealtWith(part: Part, t: Transport, t': Transport, id: RequestId)
    requires id in t.iters && id in t'.iters
  {
    var it, it' := t.iters[id], t'.iters[id];
    match part
    case Data(p) => it' == PartIterator(Resting, it.yielded + [p], it.failures) && t'.actions == t.actions
    case DoneMarker => it' == PartIterator(Finished, it.yielded, it.failures) && t'.actions == t.actions
    case ContinueMarker => it' == it && t'.actions == t.actions + [D.DispatchLater(Request(id, StreamRequest))]
    case UnknownMarker(code) =>
      it' == PartIterator(Failed(UnknownStreamState(code)), it.yielded, it.failures) && t'.actions == t.actions
  }

  /** What a generator must do when no part is left: fail, its n-th failure reporting the n-th `close`. */
  ghost predicate Fails(closes: seq<Option<CloseError>>, t: Transport, t': Transport, id: RequestId)
    requires id in t.iters && id in t'.iters
  {
    var it, it' := t.iters[id], t'.iters[id];
    && it'.phase.Failed? && it'.failures == it.failures + 1 <= |closes|
    && Reports(it'.phase.error, closes[it.failures])
    && it'.yielded == it.yielded && t'.actions == t.actions
  }

  lemma ResumeDoes(t: Transport, id: RequestId)
    requires PartKept(t, id) && Enabled(t, Resume(id)) && IterKept(t, id)
    ensures id in ResumeIter(t, id).iters && 0 <= Handled(t, id)
    ensures var all := PartsTo(t.received, id);
            if Handled(t, id) < |all| then DealtWith(all[Handled(t, id)], t, ResumeIter(t, id), id)
            else Fails(t.closes, t, ResumeIter(t, id), id)
  {
    AwaitedElement(t, id);
    ReactsTo(t, id, Awaited(t, id));
  }

  lemma ReactsTo(t: Transport, id: RequestId, e: Element<Part>)
    requires Enabled(t, Resume(id)) && e == Awaited(t, id)
    ensures id in ResumeIter(t, id).iters
    ensures match e
            case Value(part) => DealtWith(part, t, ResumeIter(t, id), id)
            case Done(cause) => t.iters[id].failures < |t.closes| && cause == t.closes[t.iters[id].failures] ==>
                                  Fails(t.closes, t, ResumeIter(t, id), id)
  {
  }

  /** Whatever a generator does, no other stream is touched. */
  lemma ResumeIsLocal(t: Transport, id: RequestId, other: RequestId)
    requires Enabled(t, Resume(id)) && other in t.iters && other != id
    ensures other in ResumeIter(t, id).iters && ResumeIter(t, id).iters[other] == t.iters[other]
  {
  }

  /**
   In every run a generator that goes on takes the next part that came for its stream and deals with it as above;
   when none is left it fails, and the n-th failure reports the n-th `close`.
   */
  lemma NextDoes(events: seq<Event>, id: RequestId)
    requires Run(events).Some? && Enabled(Run(events).value, Resume(id))
    ensures var t, t', all := Run(events).value, Step(Run(events).value, Resume(id)), PartsTo(Heard(events), id);
            && id in t'.iters && 0 <= Handled(t, id)
            && (if Handled(t, id) < |all| then DealtWith(all[Handled(t, id)], t, t', id)
                else Fails(Closes(events), t, t', id))
  {
    RunKeeps(events);
    var t := Run(events).value;
    assert QueueKept(t, id) && IterKept(t, id);
    ResumeDoes(t, id);
  }

  lemma {:induction false} PrefixRuns(events: seq<Event>, k: nat)
    requires Run(events).Some? && k <= |events|
    ensures Run(events[..k]).Some?
    ensures Run(events[..k]).value.actions <= Run(events).value.actions
    ensures Closes(events[..k]) <= Closes(events) && Heard(events[..k]) <= Heard(events)
    ensures Closes(events[..k]) != [] ==> Heard(events) == Heard(events[..k])
  {
    if k == |events| {
      assert events[..k] == events;
    } else {
      PrefixRuns(Front(events), k);
      assert Front(events)[..k] == events[..k];
      ActionsGrow(Run(Front(events)).value, Last(events));
    }
  }

  lemma ActionsGrow(t: Transport, e: Event)
    requires Enabled(t, e)
    ensures t.actions <= Step(t, e).actions
  {
  }

  lemma {:induction false} ResponsesPrefix(a: seq<ServerMessage>, b: seq<ServerMessage>, id: RequestId)
    requires a <= b
    ensures ResponsesTo(a, id) <= ResponsesTo(b, id)
  {
    if a != b { ResponsesPrefix(a, Front(b), id); }
  }

  /** Once a call has returned or failed, nothing that happens later can change how. */
  lemma OutcomeIsFinal(events: seq<Event>, k: nat, id: RequestId)
    requires Run(events).Some? && k <= |events| && Run(events[..k]).Some?
    requires id in Run(events[..k]).value.responses && id in Run(events).value.responses
    requires !OutcomeOf(Run(events[..k]).value.responses[id]).Pending?
    ensures OutcomeOf(Run(events).value.responses[id]) == OutcomeOf(Run(events[..k]).value.responses[id])
  {
    PrefixRuns(events, k);
    SingleOutcome(events[..k], id);
    SingleOutcome(events, id);
    ResponsesPrefix(Heard(events[..k]), Heard(events), id);
  }

  lemma {:induction false} QueuesStay(events: seq<Event>, k: nat)
    requires Run(events).Some? && k <= |events| && Run(events[..k]).Some?
    ensures Run(events[..k]).value.responses.Keys <= Run(events).value.responses.Keys
  {
    if k == |events| {
      assert events[..k] == events;
    } else {
      assert Front(events)[..k] == events[..k];
      QueuesStay(Front(events), k);
      RunKeeps(Front(events));
      StepKeepsKeys(Run(Front(events)).value, Last(events));
    }
  }

  /** The call of event number `k` failed: it was refused, or the promise it got was rejected. */
  ghost predicate CallFailed(events: seq<Event>, k: nat) {
    && Run(events).Some? && k < |events| && events[k].Single?
    && (events[k].id in Run(events).value.responses ==> OutcomeOf(Run(events).value.responses[events[k].id]).Rejected?)
  }

  /** The opening call can fail on a stream that is there: the connection is lost before the response. */
  lemma OpenCanFail(cause: Option<CloseError>)
    ensures CallFailed([Single(0, OpenTransaction, false)] + [Close(cause)], 0)
  {
    var e := Single(0, OpenTransaction, false);
    RunStep([], e);
    assert [] + [e] == [e];
    RunStep([e], Close(cause));
    SingleOutcome([e] + [Close(cause)], 0);
  }

  /** A failed call, the opening one too, never leaves an open stream behind. */
  lemma FailureMeansClosed(events: seq<Event>, k: nat)
    requires CallFailed(events, k)
    ensures !Run(events).value.isOpen
  {
    var id := events[k].id;
    RunKeeps(events);
    if id in Run(events).value.responses {
      SingleOutcome(events, id);
    } else {
      StepInRun(events, k);
      QueuesStay(events, k + 1);
      PrefixRuns(events, k + 1);
      RunKeeps(events[..k]);
      PrefixRuns(events, k);
      if Run(events[..k]).value.isOpen { SingleRegisters(Run(events[..k]).value, events[k]); }
    }
  }

  lemma SingleRegisters(t: Transport, call: Event)
    requires Enabled(t, call) && call.Single? && t.isOpen
    ensures call.id in Step(t, call).responses
  {
  }

  /** After a `close` the stream never reopens, no message is delivered and nothing more reaches the wire. */
  lemma ClosedForGood(events: seq<Event>, k: nat)
    requires Run(events).Some? && k <= |events| && Closes(events[..k]) != []
    ensures Run(events[..k]).Some?
    ensures var before, after := Run(events[..k]).value, Run(events).value;
            && !before.isOpen && !after.isOpen && after.received == before.received
            && D.Run(before.actions).Some? && D.Run(after.actions).Some?
            && D.Run(after.actions).value.written == D.Run(before.actions).value.written
  {
    PrefixRuns(events, k);
    RunKeeps(events[..k]);
    RunKeeps(events);
    var before, after := Run(events[..k]).value, Run(events).value;
    D.PrefixRuns(after.actions, |before.actions|);
    assert after.actions[..|before.actions|] == before.actions;
  }

  /**
   The commit barrier. A commit, rollback or open request goes out unbatched: the moment it is issued the wire
   holds every request issued before it on this transaction, then this one, and that stays a prefix for good.
   */
  lemma CommitBarrier(events: seq<Event>, k: nat, id: RequestId, op: Operation)
    requires Run(events).Some? && k < |events| && events[k] == Single(id, op, false) && Closes(events[..k]) == []
    ensures Run(events[..k]).Some? && D.Run(Run(events).value.actions).Some?
    ensures D.Calls(Run(events[..k]).value.actions) + [Request(id, Unary(op))]
              <= Flatten(D.Run(Run(events).value.actions).value.written)
              <= D.Calls(Run(events).value.actions)
  {
    UnbatchedAction(events, k, id, op);
    RunKeeps(events[..k]);
    RunKeeps(events);
    D.CommitBarrier(Run(events[..k]).value.actions, Request(id, Unary(op)), Run(events).value.actions);
  }

  /** One step inside a run. */
  lemma StepInRun(events: seq<Event>, k: nat)
    requires Run(events).Some? && k < |events|
    ensures Run(events[..k]).Some? && Enabled(Run(events[..k]).value, events[k])
    ensures Run(events[..k + 1]) == Some(Step(Run(events[..k]).value, events[k]))
  {
    PrefixRuns(events, k + 1);
    assert Front(events[..k + 1]) == events[..k];
  }

  lemma SendsNow(t: Transport, id: RequestId, op: Operation)
    requires t.isOpen && Unused(t, id)
    ensures CallSingle(t, id, op, false).actions == t.actions + [D.DispatchNow(Request(id, Unary(op)))]
  {
  }

  lemma UnbatchedAction(events: seq<Event>, k: nat, id: RequestId, op: Operation)
    requires Run(events).Some? && k < |events| && events[k] == Single(id, op, false) && Closes(events[..k]) == []
    ensures Run(events[..k]).Some?
    ensures Run(events[..k]).value.actions + [D.DispatchNow(Request(id, Unary(op)))] <= Run(events).value.actions
  {
    StepInRun(events, k);
    RunKeeps(events[..k]);
    SendsNow(Run(events[..k]).value, id, op);
    PrefixRuns(events, k + 1);
  }

  /**
   After a `close` a generator waiting on its stream is stuck exactly when as many generators of that stream
   have already failed on a closing mark as there were calls of `close`: each call leaves one mark per queue.
   */
  lemma StuckAfterClose(events: seq<Event>, id: RequestId)
    requires Run(events).Some? && Closes(events) != []
    requires id in Run(events).value.iters && Run(events).value.iters[id].phase.Waiting?
    ensures !Enabled(Run(events).value, Resume(id)) <==> Run(events).value.iters[id].failures == |Closes(events)|
  {
    RunKeeps(events);
    var t := Run(events).value;
    assert IterKept(t, id) && QueueKept(t, id);
  }

  lemma RunStep(events: seq<Event>, e: Event)
    requires Run(events).Some? && Enabled(Run(events).value, e)
    ensures Run(events + [e]) == Some(Step(Run(events).value, e))
    ensures Closes(events + [e]) == Closes(events) + if e.Close? then [e.error] else []
    ensures !e.Receive? ==> Heard(events + [e]) == Heard(events)
  {
    assert Front(events + [e]) == events;
  }

  /** A stream whose iteration is caught by a plain `close`. */
  const Caught := [OpenStream(0, 0)] + [Close(None)] + [Pull(0)]

  lemma IterationWaits()
    ensures Run(Caught).Some? && Closes(Caught) == [None] && Heard(Caught) == []
    ensures Run(Caught).value.iters == map[0 := PartIterator(Waiting, [], 0)] && 0 in Run(Caught).value.parts
  {
    var e1 := [OpenStream(0, 0)];
    assert [] + e1 == e1;
    RunStep([], OpenStream(0, 0));
    RunStep(e1, Close(None));
    RunStep(e1 + [Close(None)], Pull(0));
  }

  lemma IterationFails()
    ensures var events := Caught + [Resume(0)];
            && Run(events).Some? && Closes(events) == [None] && 0 in Run(events).value.parts
            && Run(events).value.iters == map[0 := PartIterator(Failed(TransactionClosed), [], 1)]
  {
    IterationWaits();
    StuckAfterClose(Caught, 0);
    Demultiplexing(Caught, 0);
    RunStep(Caught, Resume(0));
    assert Run(Caught).value.parts[0].added == History([], [None]);
  }

  /** So a stream that is iterated a second time after failing can wait forever on a closed transaction. */
  lemma SecondIterationHangs()
    ensures var events := Caught + [Resume(0)] + [Iterate(0)] + [Pull(0)];
            && Run(events).Some? && Closes(events) != [] && 0 in Run(events).value.iters
            && Run(events).value.iters[0].phase.Waiting? && !Enabled(Run(events).value, Resume(0))
  {
    IterationFails();
    var failed := Caught + [Resume(0)];
    RunStep(failed, Iterate(0));
    RunStep(failed + [Iterate(0)], Pull(0));
    StuckAfterClose(failed + [Iterate(0)] + [Pull(0)], 0);
  }

  /** While nobody iterates a stream twice, nobody waits forever on a closed transaction. */
  lemma FirstIterationNeverHangs(events: seq<Event>, id: RequestId)
    requires Run(events).Some? && Closes(events) != [] && Iterate(id) !in events
    requires id in Run(events).value.iters && Run(events).value.iters[id].phase.Waiting?
    ensures Enabled(Run(events).value, Resume(id))
  {
    StuckAfterClose(events, id);
    FirstIterationFailsLast(events, id);
  }

  lemma {:induction false} FirstIterationFailsLast(events: seq<Event>, id: RequestId)
    requires Run(events).Some? && Iterate(id) !in events && id in Run(events).value.iters
    ensures Run(events).value.iters[id].failures > 0 ==> Run(events).value.iters[id].phase.Failed?
  {
    if events != [] {
      var t := Run(Front(events)).value;
      if id in t.iters { FirstIterationFailsLast(Front(events), id); }
      assert Last(events) != Iterate(id);
    }
  }
}
