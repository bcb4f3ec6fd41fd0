/**
 The transport joined to a server that keeps its side of the protocol. The server reads the requests on the
 wire. It answers a unary request at most once. It answers a query with a list of batches of its own choosing,
 a continuation marker after every batch but the last and a done marker after that, and passes a continuation
 marker only once it has read a stream request for it. Its messages arrive in order, at any later time.
 */
module Network {
  import opened Protocol
  import opened Sequences
  import opened Queues
  import opened Transport
  import D = Dispatch

  /** `wire` is what the server can read: the requests the stream has accepted, in order. */
  datatype Network = Network(transport: Transport, wire: seq<Request>, sent: seq<ServerMessage>, arrived: nat)

  datatype Move =
    | Client(event: Event)
    | Serve(msg: ServerMessage)
    | Arrive

  /** The batches the server answers each query with. */
  type Answers = RequestId -> seq<seq<Payload>>

  function Datas(batch: seq<Payload>): (r: seq<Part>)
    ensures |r| == |batch| && forall i :: 0 <= i < |r| ==> r[i] == Data(batch[i])
  {
    seq(|batch|, i requires 0 <= i < |batch| => Data(batch[i]))
  }

  /** All parts of one answer, in order. */
  function Script(batches: seq<seq<Payload>>): seq<Part> {
    if batches == [] then [DoneMarker]
    else if |batches| == 1 then Datas(batches[0]) + [DoneMarker]
    else Datas(batches[0]) + [ContinueMarker] + Script(batches[1..])
  }

  /** What the answer means: the data of all batches in order. */
  function Answer(batches: seq<seq<Payload>>): seq<Payload> {
    if batches == [] then [] else batches[0] + Answer(batches[1..])
  }

  function Accepted(t: Transport): seq<Request> {
    match D.Run(t.actions)
    case None => []
    case Some(d) => Flatten(d.written)
  }

  ghost predicate AskedOnce(reqs: seq<Request>, id: RequestId) {
    exists op :: Request(id, Unary(op)) in reqs
  }

  ghost predicate ServerMay(n: Network, answers: Answers, msg: ServerMessage) {
    match msg
    case Response(id, _) => AskedOnce(n.wire, id) && ResponsesTo(n.sent, id) == []
    case ResponsePart(id, part) =>
      var script, position := Script(answers(id)), |PartsTo(n.sent, id)|;
      && Asked(n.wire, id)
      && position < |script| && part == script[position]
      && multiset(script[..position])[ContinueMarker] <= multiset(n.wire)[Request(id, StreamRequest)]
    case Neither => false
  }

  ghost predicate MoveEnabled(n: Network, answers: Answers, m: Move) {
    match m
    case Client(e) => !e.Receive? && Enabled(n.transport, e)
    case Serve(msg) => ServerMay(n, answers, msg)
    case Arrive => n.arrived < |n.sent|
  }

  function Next(n: Network, m: Move): Network
    requires m.Client? ==> Enabled(n.transport, m.event)
    requires m.Arrive? ==> n.arrived < |n.sent|
  {
    match m
    case Client(e) => n.(transport := Step(n.transport, e), wire := Accepted(Step(n.transport, e)))
    case Serve(msg) => n.(sent := n.sent + [msg])
    case Arrive => n.(transport := Hear(n.transport, n.sent[n.arrived]), arrived := n.arrived + 1)
  }

  ghost function Play(moves: seq<Move>, answers: Answers): Option<Network> {
    if moves == [] then Some(Network(Opened, [], [], 0)) else
    match Play(Front(moves), answers)
    case None => None
    case Some(n) => if MoveEnabled(n, answers, Last(moves)) then Some(Next(n, Last(moves))) else None
  }

  // --- What every move keeps ---------------------------------------------------------------

  /** The server stays on script for this id, and what the driver heard is what was sent. */
  ghost predicate OnScript(n: Network, answers: Answers, id: RequestId) {
    && PartsTo(n.sent, id) <= Script(answers(id))
    && PartsTo(n.transport.received, id) <= PartsTo(n.sent, id)
    && |ResponsesTo(n.sent, id)| <= 1
    && Licensed(PartsTo(n.sent, id), n.wire, id)
  }

  /** Everything sent was asked for; only a final continuation marker may still be without its stream request. */
  ghost predicate Licensed(parts: seq<Part>, wire: seq<Request>, id: RequestId) {
    parts != [] ==>
      && Asked(wire, id)
      && multiset(Front(parts))[ContinueMarker] <= multiset(wire)[Request(id, StreamRequest)]
  }

  /** Every message sent has a queue waiting for it, and none was turned away. */
  ghost predicate Expected(n: Network) {
    && n.transport.faults == []
    && n.arrived <= |n.sent|
    && (n.transport.isOpen ==> n.transport.received == n.sent[..n.arrived])
    && forall i :: 0 <= i < |n.sent| ==>
         match n.sent[i]
         case Response(id, _) => id in n.transport.responses
         case ResponsePart(id, _) => id in n.transport.parts
         case Neither => false
  }

  ghost predicate NetKept(n: Network, answers: Answers) {
    Kept(n.transport) && n.wire == Accepted(n.transport) && Expected(n) && forall id :: OnScript(n, answers, id)
  }

  lemma WireGrows(t: Transport, e: Event)
    requires Kept(t) && Enabled(t, e)
    ensures Kept(Step(t, e))
    ensures Accepted(t) <= Accepted(Step(t, e))
  {
    StepKeeps(t, e);
    ActionsGrow(t, e);
    var t' := Step(t, e);
    D.PrefixRuns(t'.actions, |t.actions|);
    assert t'.actions[..|t.actions|] == t.actions;
    D.FlattenPrefix(D.Run(t.actions).value.written, D.Run(t'.actions).value.written);
  }

  /** Everything on the wire was issued, so its queue exists. */
  lemma WireIsIssued(n: Network)
    requires Kept(n.transport) && n.wire == Accepted(n.transport)
    ensures n.wire <= D.Calls(n.transport.actions)
  {
    D.WrittenInOrderAndOnTime(n.transport.actions);
  }

  lemma PrefixCounts<T>(a: seq<T>, b: seq<T>, x: T)
    requires a <= b
    ensures multiset(a)[x] <= multiset(b)[x]
    ensures x in a ==> x in b
  {
    assert b == a + b[|a|..];
  }

  lemma LicensedLonger(parts: seq<Part>, wire: seq<Request>, wire': seq<Request>, id: RequestId)
    requires Licensed(parts, wire, id) && wire <= wire'
    ensures Licensed(parts, wire', id)
  {
    PrefixCounts(wire, wire', Request(id, StreamRequest));
    if Asked(wire, id) {
      var code :| Request(id, Query(code)) in wire;
      PrefixCounts(wire, wire', Request(id, Query(code)));
    }
  }

  lemma ClientKeepsScript(n: Network, answers: Answers, n': Network, id: RequestId)
    requires OnScript(n, answers, id) && n.wire <= n'.wire && n'.sent == n.sent
    requires n'.transport.received == n.transport.received
    ensures OnScript(n', answers, id)
  {
    LicensedLonger(PartsTo(n.sent, id), n.wire, n'.wire, id);
  }

  lemma ClientKeepsFaults(t: Transport, e: Event)
    requires KeysKept(t) && Enabled(t, e) && !e.Receive?
    ensures Step(t, e).faults == t.faults && Step(t, e).received == t.received
    ensures Step(t, e).isOpen ==> t.isOpen
  {
  }

  lemma ClientKeepsExpected(n: Network, e: Event)
    requires Kept(n.transport) && Expected(n) && Enabled(n.transport, e) && !e.Receive?
    ensures Expected(Next(n, Client(e)))
  {
    ClientKeepsFaults(n.transport, e);
    StepKeepsKeys(n.transport, e);
  }

  lemma PartFitsScript(parts: seq<Part>, script: seq<Part>, wire: seq<Request>, id: RequestId)
    requires parts <= script && |parts| < |script| && Asked(wire, id)
    requires multiset(script[..|parts|])[ContinueMarker] <= multiset(wire)[Request(id, StreamRequest)]
    ensures parts + [script[|parts|]] <= script && Licensed(parts + [script[|parts|]], wire, id)
  {
    assert Front(parts + [script[|parts|]]) == parts == script[..|parts|];
  }

  lemma ServeKeepsScript(n: Network, answers: Answers, msg: ServerMessage, id: RequestId)
    requires OnScript(n, answers, id) && ServerMay(n, answers, msg)
    ensures OnScript(n.(sent := n.sent + [msg]), answers, id)
  {
    MessageSnoc(n.sent, msg, id);
    var parts, parts' := PartsTo(n.sent, id), PartsTo(n.sent + [msg], id);
    if msg.ResponsePart? && msg.id == id {
      PartFitsScript(parts, Script(answers(id)), n.wire, id);
      assert parts <= parts';
    } else {
      assert parts' == parts;
    }
    assert Licensed(parts', n.wire, id);
  }

  lemma ServeKeepsExpected(n: Network, answers: Answers, msg: ServerMessage)
    requires RequestsKept(n.transport) && n.wire <= D.Calls(n.transport.actions) && Expected(n)
    requires ServerMay(n, answers, msg)
    ensures Expected(n.(sent := n.sent + [msg]))
  {
    match msg
    case Response(id, _) =>
      var op :| Request(id, Unary(op)) in n.wire;
      PrefixCounts(n.wire, D.Calls(n.transport.actions), Request(id, Unary(op)));
    case ResponsePart(id, _) =>
      var code :| Request(id, Query(code)) in n.wire;
      PrefixCounts(n.wire, D.Calls(n.transport.actions), Request(id, Query(code)));
  }

  lemma {:induction false} PartsPrefix(a: seq<ServerMessage>, b: seq<ServerMessage>, id: RequestId)
    requires a <= b
    ensures PartsTo(a, id) <= PartsTo(b, id)
  {
    if a != b { PartsPrefix(a, Front(b), id); }
  }

  lemma ArriveKeepsExpected(n: Network)
    requires Expected(n) && n.arrived < |n.sent|
    ensures Expected(Next(n, Arrive))
  {
    if n.transport.isOpen {
      assert n.sent[..n.arrived] + [n.sent[n.arrived]] == n.sent[..n.arrived + 1];
    }
  }

  lemma ArriveKeepsScript(n: Network, n': Network, answers: Answers, id: RequestId)
    requires OnScript(n, answers, id) && n'.sent == n.sent && n'.wire == n.wire
    requires n'.transport.received == n.transport.received || n'.transport.received <= n.sent
    ensures OnScript(n', answers, id)
  {
    if n'.transport.received <= n.sent { PartsPrefix(n'.transport.received, n.sent, id); }
  }

  lemma MoveKeeps(n: Network, answers: Answers, m: Move)
    requires NetKept(n, answers) && MoveEnabled(n, answers, m)
    ensures NetKept(Next(n, m), answers)
  {
    var n' := Next(n, m);
    match m
    case Client(e) =>
      StepKeeps(n.transport, e);
      ClientKeepsExpected(n, e);
      WireGrows(n.transport, e);
      ClientKeepsFaults(n.transport, e);
      forall id ensures OnScript(n', answers, id) { ClientKeepsScript(n, answers, n', id); }
    case Serve(msg) =>
      WireIsIssued(n);
      ServeKeepsExpected(n, answers, msg);
      forall id ensures OnScript(n', answers, id) { ServeKeepsScript(n, answers, msg, id); }
    case Arrive =>
      StepKeeps(n.transport, Receive(n.sent[n.arrived]));
      ArriveKeepsExpected(n);
      forall id ensures OnScript(n', answers, id) { ArriveKeepsScript(n, n', answers, id); }
  }

  lemma {:induction false} PlayKeeps(moves: seq<Move>, answers: Answers)
    requires Play(moves, answers).Some?
    ensures NetKept(Play(moves, answers).value, answers)
  {
    if moves == [] {
      RunKeeps([]);
      assert Accepted(Opened) == [];
    } else {
      PlayKeeps(Front(moves), answers);
      MoveKeeps(Play(Front(moves), answers).value, answers, Last(moves));
    }
  }

  // --- What a script says ------------------------------------------------------------------

  lemma {:induction false} DataConcat(a: seq<Part>, b: seq<Part>)
    ensures DataIn(a + b) == DataIn(a) + DataIn(b)
  {
    if b == [] {
      assert a + b == a;
    } else {
      assert Front(a + b) == a + Front(b);
      DataConcat(a, Front(b));
    }
  }

  lemma {:induction false} DatasMeaning(batch: seq<Payload>)
    ensures DataIn(Datas(batch)) == batch
  {
    if batch != [] {
      assert Front(Datas(batch)) == Datas(Front(batch));
      DatasMeaning(Front(batch));
      assert batch == Front(batch) + [Last(batch)];
    }
  }

  lemma BatchData(batch: seq<Payload>, marker: Part, tail: seq<Part>)
    requires !marker.Data?
    ensures DataIn(Datas(batch) + [marker] + tail) == batch + DataIn(tail)
  {
    DatasMeaning(batch);
    DataSnoc(Datas(batch), marker);
    DataConcat(Datas(batch) + [marker], tail);
  }

  lemma {:induction false} ScriptData(batches: seq<seq<Payload>>)
    ensures DataIn(Script(batches)) == Answer(batches)
  {
    if |batches| <= 1 {
      var batch := if batches == [] then [] else batches[0];
      BatchData(batch, DoneMarker, []);
      assert Datas(batch) + [DoneMarker] + [] == Script(batches);
      assert Answer(batches) == batch + [];
    } else {
      BatchData(batches[0], ContinueMarker, Script(batches[1..]));
      ScriptData(batches[1..]);
    }
  }

  /** Its only done marker is its last part, and it has no part of an unknown kind. */
  ghost predicate EndsOnce(script: seq<Part>) {
    && script != [] && Last(script).DoneMarker?
    && forall i :: 0 <= i < |script| - 1 ==> !script[i].DoneMarker? && !script[i].UnknownMarker?
  }

  lemma EndsOnceAfter(head: seq<Part>, script: seq<Part>)
    requires EndsOnce(script) && forall i :: 0 <= i < |head| ==> !head[i].DoneMarker? && !head[i].UnknownMarker?
    ensures EndsOnce(head + script)
  {
    assert Last(head + script) == Last(script);
  }

  lemma {:induction false} ScriptEnds(batches: seq<seq<Payload>>)
    ensures EndsOnce(Script(batches))
  {
    if |batches| == 1 {
      EndsOnceAfter(Datas(batches[0]), [DoneMarker]);
    } else if |batches| > 1 {
      ScriptEnds(batches[1..]);
      EndsOnceAfter(Datas(batches[0]) + [ContinueMarker], Script(batches[1..]));
    }
  }

  lemma DataPrefix(a: seq<Part>, b: seq<Part>)
    requires a <= b
    ensures DataIn(a) <= DataIn(b)
  {
    DataConcat(a, b[|a|..]);
    assert b == a + b[|a|..];
  }

  lemma DoneMeansWhole(prefix: seq<Part>, batches: seq<seq<Payload>>)
    requires prefix <= Script(batches)
    ensures DoneMarker in prefix <==> prefix == Script(batches)
    ensures forall i :: 0 <= i < |prefix| ==> !prefix[i].UnknownMarker?
  {
    ScriptEnds(batches);
    var script := Script(batches);
    if prefix == script {
      assert Last(prefix) in prefix;
    } else {
      assert forall i :: 0 <= i < |prefix| ==> prefix[i] == script[i] && !prefix[i].DoneMarker?;
    }
  }

  // --- The driver's side of the bargain ----------------------------------------------------

  /** A server that only answers what it read is never told that nobody asked. */
  lemma NoUnknownRequestId(moves: seq<Move>, answers: Answers)
    requires Play(moves, answers).Some?
    ensures Play(moves, answers).value.transport.faults == []
  {
    PlayKeeps(moves, answers);
  }

  /** The continuation markers of this stream that the server has gone past. */
  function Answered(n: Network, id: RequestId): nat {
    if PartsTo(n.sent, id) == [] then 0 else multiset(Front(PartsTo(n.sent, id)))[ContinueMarker]
  }

  lemma AtMostOneAhead(consumed: seq<Part>, sent: seq<Part>)
    requires consumed <= sent
    ensures multiset(consumed)[ContinueMarker] <= 1 + if sent == [] then 0 else multiset(Front(sent))[ContinueMarker]
  {
    if sent != [] {
      DataSnoc(Front(sent), Last(sent));
      assert sent == Front(sent) + [Last(sent)];
      PrefixCounts(consumed, sent, ContinueMarker);
    }
  }

  lemma ConsumedMeaning(consumed: seq<Part>, batches: seq<seq<Payload>>)
    requires consumed <= Script(batches)
    ensures DataIn(consumed) <= Answer(batches)
    ensures consumed != [] && Last(consumed) == DoneMarker ==> DataIn(consumed) == Answer(batches)
    ensures consumed != [] ==> !Last(consumed).UnknownMarker?
  {
    ScriptData(batches);
    DataPrefix(consumed, Script(batches));
    DoneMeansWhole(consumed, batches);
  }

  /** The contract of one answer stream, in one state. */
  ghost predicate Exact(n: Network, answers: Answers, id: RequestId) {
    var t := n.transport;
    && id in t.parts && id in t.iters
    && Consumed(t, id) <= Script(answers(id))
    && t.iters[id].yielded == DataIn(Consumed(t, id)) <= Answer(answers(id))
    && (t.iters[id].phase.Finished? ==> t.iters[id].yielded == Answer(answers(id)))
    && ContinuationsSent(t, id) == multiset(Consumed(t, id))[ContinueMarker] <= Answered(n, id) + 1
    && (t.iters[id].phase.Failed? ==> ErrorOfSomeClose(t.iters[id].phase.error, t.closes))
  }

  ghost predicate ErrorOfSomeClose(error: DriverError, closes: seq<Option<CloseError>>) {
    exists i :: 0 <= i < |closes| && Reports(error, closes[i])
  }

  lemma FailsByClose(t: Transport, error: DriverError, failures: nat, consumed: seq<Part>, batches: seq<seq<Payload>>)
    requires FailedFor(t, error, failures, consumed) && consumed <= Script(batches)
    ensures ErrorOfSomeClose(error, t.closes)
  {
    ConsumedMeaning(consumed, batches);
    assert failures > 0 && Reports(error, t.closes[failures - 1]);
  }

  lemma ExactState(n: Network, answers: Answers, id: RequestId)
    requires id in n.transport.parts && id in n.transport.iters && IterKept(n.transport, id) && OnScript(n, answers, id)
    ensures Exact(n, answers, id)
  {
    var t, it, consumed := n.transport, n.transport.iters[id], Consumed(n.transport, id);
    assert consumed <= PartsTo(n.sent, id) <= Script(answers(id));
    ConsumedMeaning(consumed, answers(id));
    AtMostOneAhead(consumed, PartsTo(n.sent, id));
    if it.phase.Failed? { FailsByClose(t, it.phase.error, it.failures, consumed, answers(id)); }
  }

  /**
   For every answer, every way of cutting it into batches and every interleaving with everything else on the
   transaction: a stream has yielded a prefix of its answer in order, all of it once it finishes; it has sent
   one stream request per continuation marker it consumed, at most one of them unanswered; and it fails only
   when the transaction was closed, with the error of a `close`.
   */
  lemma StreamIsExact(moves: seq<Move>, answers: Answers, id: RequestId)
    requires Play(moves, answers).Some? && id in Play(moves, answers).value.transport.iters
    ensures Exact(Play(moves, answers).value, answers, id)
  {
    PlayKeeps(moves, answers);
    var n := Play(moves, answers).value;
    assert OnScript(n, answers, id);
    ExactState(n, answers, id);
  }

  // --- Progress ----------------------------------------------------------------------------

  /** A request of this stream has not reached the wire yet. */
  ghost predicate Unflushed(n: Network, id: RequestId) {
    !Asked(n.wire, id) || multiset(n.wire)[Request(id, StreamRequest)] < ContinuationsSent(n.transport, id)
  }

  ghost predicate Undelivered(n: Network, id: RequestId) {
    exists i :: n.arrived <= i < |n.sent| && n.sent[i].ResponsePart? && n.sent[i].id == id
  }

  /** Something the stream is waiting for can still happen without its caller doing anything. */
  ghost predicate CanProgress(n: Network, answers: Answers, id: RequestId) {
    || Enabled(n.transport, Resume(id))
    || Undelivered(n, id)
    || Unflushed(n, id)
    || exists part :: ServerMay(n, answers, ResponsePart(id, part))
  }

  lemma {:induction false} UndeliveredParts(msgs: seq<ServerMessage>, k: nat, id: RequestId)
    requires k <= |msgs|
    ensures PartsTo(msgs[..k], id) == PartsTo(msgs, id) <==>
              !exists i :: k <= i < |msgs| && msgs[i].ResponsePart? && msgs[i].id == id
    ensures PartsTo(msgs[..k], id) <= PartsTo(msgs, id)
  {
    if k == |msgs| {
      assert msgs[..k] == msgs;
    } else {
      assert Front(msgs)[..k] == msgs[..k];
      UndeliveredParts(Front(msgs), k, id);
      if Last(msgs).ResponsePart? && Last(msgs).id == id {
        assert msgs[|msgs| - 1] == Last(msgs);
      } else {
        assert forall i :: k <= i < |msgs| - 1 ==> Front(msgs)[i] == msgs[i];
      }
    }
  }

  /** A request that has not reached the wire of an open stream has a timer that will flush it. */
  lemma UnflushedHasTimer(moves: seq<Move>, answers: Answers, id: RequestId)
    requires Play(moves, answers).Some?
    requires var n := Play(moves, answers).value; n.transport.isOpen && id in n.transport.parts && Unflushed(n, id)
    ensures D.Run(Play(moves, answers).value.transport.actions).Some?
    ensures |D.Run(Play(moves, answers).value.transport.actions).value.timers| == 1
  {
    PlayKeeps(moves, answers);
    var n := Play(moves, answers).value;
    D.WrittenInOrderAndOnTime(n.transport.actions);
    D.RunKeeps(n.transport.actions);
    var d := D.Run(n.transport.actions).value;
    assert d.buffer != [];
  }

  /**
   No deadlock, exactly: while the transaction is open, a waiting stream can still make progress if and only if
   it has not consumed its done marker. (One that has is being iterated a second time.)
   */
  lemma WaitingStreamProgresses(moves: seq<Move>, answers: Answers, id: RequestId)
    requires Play(moves, answers).Some?
    requires var t := Play(moves, answers).value.transport;
             t.isOpen && id in t.iters && id in t.parts && t.iters[id].phase.Waiting?
    ensures var n := Play(moves, answers).value;
            CanProgress(n, answers, id) <==> DoneMarker !in Consumed(n.transport, id)
  {
    PlayKeeps(moves, answers);
    var n := Play(moves, answers).value;
    assert IterKept(n.transport, id) && QueueKept(n.transport, id) && OnScript(n, answers, id);
    ProgressState(n, answers, id);
  }

  lemma ProgressState(n: Network, answers: Answers, id: RequestId)
    requires LifecycleKept(n.transport) && n.transport.isOpen && Expected(n) && PartKept(n.transport, id)
    requires OnScript(n, answers, id)
    requires id in n.transport.parts && id in n.transport.iters && IterKept(n.transport, id)
    requires n.transport.iters[id].phase.Waiting?
    ensures CanProgress(n, answers, id) <==> DoneMarker !in Consumed(n.transport, id)
  {
    var t, consumed := n.transport, Consumed(n.transport, id);
    UndeliveredParts(n.sent, n.arrived, id);
    assert consumed <= PartsTo(t.received, id) <= PartsTo(n.sent, id) <= Script(answers(id));
    DoneMeansWhole(consumed, answers(id));
    NothingLeft(t, id);
    if DoneMarker in consumed {
      DoneIsFinal(n, answers, id);
    } else if !Enabled(t, Resume(id)) && !Undelivered(n, id) {
      StuckMeansDone(n, answers, id);
    }
  }

  /** A waiting stream that can take nothing has consumed all that came for it. */
  lemma NothingLeft(t: Transport, id: RequestId)
    requires LifecycleKept(t) && t.isOpen && PartKept(t, id) && id in t.parts && id in t.iters
    requires IterKept(t, id) && t.iters[id].phase.Waiting?
    ensures !Enabled(t, Resume(id)) <==> Consumed(t, id) == PartsTo(t.received, id)
  {
  }

  lemma DoneIsFinal(n: Network, answers: Answers, id: RequestId)
    requires Licensed(PartsTo(n.sent, id), n.wire, id) && PartsTo(n.sent, id) == Script(answers(id))
    requires !Enabled(n.transport, Resume(id)) && !Undelivered(n, id)
    requires ContinuationsSent(n.transport, id) == multiset(PartsTo(n.sent, id))[ContinueMarker]
    ensures !CanProgress(n, answers, id)
  {
    DoneEndsIt(PartsTo(n.sent, id), answers(id));
    assert !Unflushed(n, id);
    forall part ensures !ServerMay(n, answers, ResponsePart(id, part)) {}
  }

  lemma DoneEndsIt(sent: seq<Part>, batches: seq<seq<Payload>>)
    requires sent == Script(batches)
    ensures sent != [] && multiset(Front(sent))[ContinueMarker] == multiset(sent)[ContinueMarker]
  {
    ScriptEnds(batches);
    assert Last(sent).DoneMarker?;
    DataSnoc(Front(sent), Last(sent));
    assert sent == Front(sent) + [Last(sent)];
  }

  lemma StuckMeansDone(n: Network, answers: Answers, id: RequestId)
    requires PartsTo(n.sent, id) <= Script(answers(id)) && PartsTo(n.sent, id) != Script(answers(id))
    requires ContinuationsSent(n.transport, id) == multiset(PartsTo(n.sent, id))[ContinueMarker]
    ensures CanProgress(n, answers, id)
  {
    var sent, script := PartsTo(n.sent, id), Script(answers(id));
    if !Unflushed(n, id) {
      assert script[..|sent|] == sent;
      assert ServerMay(n, answers, ResponsePart(id, script[|sent|]));
    }
  }
}
