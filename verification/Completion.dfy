/**
 Every answer can arrive. From any reachable state of an open transaction, a stream that has not consumed its done
 marker can be brought to its end by time, the server, the channel and its own caller alone.
 */
module Completion {
  import opened Protocol
  import opened Sequences
  import opened Transport
  import opened Network
  import D = Dispatch

  /** The network after these moves, from this state on. */
  ghost function PlayFrom(n: Network, moves: seq<Move>, answers: Answers): Option<Network> {
    if moves == [] then Some(n) else
    match PlayFrom(n, Front(moves), answers)
    case None => None
    case Some(m) => if MoveEnabled(m, answers, Last(moves)) then Some(Next(m, Last(moves))) else None
  }

  lemma {:induction false} PlayOn(before: seq<Move>, after: seq<Move>, answers: Answers)
    requires Play(before, answers).Some?
    ensures Play(before + after, answers) == PlayFrom(Play(before, answers).value, after, answers)
  {
    if after == [] {
      assert before + after == before;
    } else {
      assert Front(before + after) == before + Front(after) && Last(before + after) == Last(after);
      PlayOn(before, Front(after), answers);
    }
  }

  lemma {:induction false} PlayFromOn(n: Network, before: seq<Move>, after: seq<Move>, answers: Answers)
    requires PlayFrom(n, before, answers).Some?
    ensures PlayFrom(n, before + after, answers) == PlayFrom(PlayFrom(n, before, answers).value, after, answers)
  {
    if after == [] {
      assert before + after == before;
    } else {
      assert Front(before + after) == before + Front(after) && Last(before + after) == Last(after);
      PlayFromOn(n, before, Front(after), answers);
    }
  }

  /** Moves that neither close the transaction nor call anything on it, except to go on with this stream. */
  predicate OnlyGoesOn(moves: seq<Move>, id: RequestId) {
    forall i :: 0 <= i < |moves| ==> GoesOn(moves[i], id)
  }

  predicate GoesOn(m: Move, id: RequestId) {
    m.Client? ==> m.event == Pull(id) || m.event == Resume(id) || m.event.Fire? || m.event.Tick?
  }

  /** These moves lead from `n` to `n'`. */
  ghost predicate Leads(n: Network, moves: seq<Move>, n': Network, answers: Answers, id: RequestId) {
    OnlyGoesOn(moves, id) && PlayFrom(n, moves, answers) == Some(n')
  }

  lemma OneMove(n: Network, m: Move, answers: Answers, id: RequestId)
    requires MoveEnabled(n, answers, m) && GoesOn(m, id)
    ensures Leads(n, [m], Next(n, m), answers, id)
  {
    assert Front([m]) == [];
  }

  lemma LeadsOn(n: Network, a: seq<Move>, n1: Network, b: seq<Move>, n2: Network, answers: Answers, id: RequestId)
    requires Leads(n, a, n1, answers, id) && Leads(n1, b, n2, answers, id)
    ensures Leads(n, a + b, n2, answers, id)
  {
    PlayFromOn(n, a, b, answers);
  }

  /** The stream is under way on an open transaction. */
  ghost predicate UnderWay(n: Network, answers: Answers, id: RequestId) {
    NetKept(n, answers) && n.transport.isOpen && id in n.transport.parts && id in n.transport.iters
  }

  /** It has consumed the same parts in both states, and its generator waits in the second. */
  ghost predicate StillThere(n: Network, n': Network, answers: Answers, id: RequestId) {
    && UnderWay(n, answers, id) && UnderWay(n', answers, id)
    && Consumed(n'.transport, id) == Consumed(n.transport, id)
    && n'.transport.iters[id].phase.Waiting?
  }

  // --- The generator asks ------------------------------------------------------------------

  lemma PullLeavesConsumed(t: Transport, id: RequestId)
    requires Enabled(t, Pull(id))
    ensures var t' := Step(t, Pull(id));
            && id in t'.parts && id in t'.iters && t'.isOpen == t.isOpen && t'.iters[id].phase.Waiting?
            && Consumed(t', id) == Consumed(t, id)
  {
  }

  lemma Asks(n: Network, answers: Answers, id: RequestId) returns (moves: seq<Move>, n': Network)
    requires UnderWay(n, answers, id)
    requires n.transport.iters[id].phase.Resting? || n.transport.iters[id].phase.Waiting?
    ensures Leads(n, moves, n', answers, id) && StillThere(n, n', answers, id)
  {
    if n.transport.iters[id].phase.Waiting? {
      moves, n' := [], n;
    } else {
      moves, n' := [Client(Pull(id))], Next(n, Client(Pull(id)));
      OneMove(n, Client(Pull(id)), answers, id);
      MoveKeeps(n, answers, Client(Pull(id)));
      PullLeavesConsumed(n.transport, id);
    }
  }

  // --- The dispatcher flushes --------------------------------------------------------------

  /** A step of the dispatcher alone. */
  lemma TimeMoves(n: Network, d: D.Dispatcher, e: Event, a: D.Action, answers: Answers, id: RequestId)
    requires UnderWay(n, answers, id) && n.transport.iters[id].phase.Waiting?
    requires (e.Fire? && a == D.Fire(e.timer)) || (e.Tick? && a == D.Tick(e.millis))
    requires D.Run(n.transport.actions) == Some(d) && D.Enabled(d, a)
    ensures Enabled(n.transport, e)
    ensures Leads(n, [Client(e)], Next(n, Client(e)), answers, id) && StillThere(n, Next(n, Client(e)), answers, id)
    ensures D.Run(Next(n, Client(e)).transport.actions) == Some(D.Step(d, a))
  {
    D.RunSnoc(n.transport.actions, a);
    OneMove(n, Client(e), answers, id);
    MoveKeeps(n, answers, Client(e));
    TimeLeavesIter(n.transport, a, id);
  }

  ghost predicate AllFlushed(n: Network) {
    n.wire == D.Calls(n.transport.actions)
  }

  lemma EmptyBufferIsFlushed(n: Network)
    requires DispatcherKept(n.transport) && n.transport.isOpen && n.wire == Accepted(n.transport)
    requires D.Run(n.transport.actions).value.buffer == []
    ensures AllFlushed(n)
  {
    D.WrittenInOrderAndOnTime(n.transport.actions);
    var d := D.Run(n.transport.actions).value;
    assert Flatten(d.written) + [] == Flatten(d.written);
  }

  /** A non-empty buffer has one timer, and time can pass up to its deadline. */
  lemma TimerComesDue(d: D.Dispatcher) returns (ms: nat, d': D.Dispatcher)
    requires D.TimerKept(d) && d.buffer != []
    ensures D.Enabled(d, D.Tick(ms)) && d' == D.Step(d, D.Tick(ms))
    ensures d'.buffer != [] && |d'.timers| == 1 && d'.timers[0] == d'.now
  {
    ms := d.timers[0] - d.now;
    d' := d.(now := d.now + ms);
  }

  lemma WaitsForTimer(n: Network, d: D.Dispatcher, answers: Answers, id: RequestId)
    returns (moves: seq<Move>, n': Network, d': D.Dispatcher)
    requires UnderWay(n, answers, id) && n.transport.iters[id].phase.Waiting?
    requires D.Run(n.transport.actions) == Some(d) && D.TimerKept(d) && d.buffer != []
    ensures Leads(n, moves, n', answers, id) && StillThere(n, n', answers, id)
    ensures D.Run(n'.transport.actions) == Some(d') && d'.buffer != [] && |d'.timers| == 1 && d'.timers[0] == d'.now
  {
    var ms;
    ms, d' := TimerComesDue(d);
    TimeMoves(n, d, Tick(ms), D.Tick(ms), answers, id);
    moves, n' := [Client(Tick(ms))], Next(n, Client(Tick(ms)));
  }

  lemma TimerFires(n: Network, d: D.Dispatcher, answers: Answers, id: RequestId) returns (moves: seq<Move>, n': Network)
    requires UnderWay(n, answers, id) && n.transport.iters[id].phase.Waiting?
    requires D.Run(n.transport.actions) == Some(d) && d.buffer != [] && |d.timers| == 1 && d.timers[0] == d.now
    ensures Leads(n, moves, n', answers, id) && StillThere(n, n', answers, id) && AllFlushed(n')
  {
    TimeMoves(n, d, Fire(0), D.Fire(0), answers, id);
    moves, n' := [Client(Fire(0))], Next(n, Client(Fire(0)));
    assert D.Step(d, D.Fire(0)).buffer == [];
    EmptyBufferIsFlushed(n');
  }

  lemma Flushes(n: Network, answers: Answers, id: RequestId) returns (moves: seq<Move>, n': Network)
    requires UnderWay(n, answers, id) && n.transport.iters[id].phase.Waiting?
    ensures Leads(n, moves, n', answers, id) && StillThere(n, n', answers, id) && AllFlushed(n')
  {
    if D.Run(n.transport.actions).value.buffer == [] {
      moves, n' := [], n;
      EmptyBufferIsFlushed(n);
    } else {
      D.RunKeeps(n.transport.actions);
      var first, n1, d := WaitsForTimer(n, D.Run(n.transport.actions).value, answers, id);
      var second;
      second, n' := TimerFires(n1, d, answers, id);
      moves := first + second;
      LeadsOn(n, first, n1, second, n', answers, id);
    }
  }

  // --- The server answers ------------------------------------------------------------------

  lemma FlushedIsRead(t: Transport, wire: seq<Request>, id: RequestId)
    requires RequestsKept(t) && wire == D.Calls(t.actions) && id in t.parts
    ensures Asked(wire, id) && multiset(wire)[Request(id, StreamRequest)] == ContinuationsSent(t, id)
  {
  }

  lemma NextPart(n: Network, answers: Answers, id: RequestId, sent: seq<Part>)
    requires sent == PartsTo(n.sent, id) && sent <= Script(answers(id)) && DoneMarker !in sent && Asked(n.wire, id)
    requires multiset(sent)[ContinueMarker] <= multiset(n.wire)[Request(id, StreamRequest)]
    ensures |sent| < |Script(answers(id))| && ServerMay(n, answers, ResponsePart(id, Script(answers(id))[|sent|]))
  {
    DoneMeansWhole(sent, answers(id));
    assert Script(answers(id))[..|sent|] == sent;
  }

  /** A stream that has consumed all that was sent, with all its requests on the wire, has a next part coming. */
  lemma ServerGoesOn(n: Network, answers: Answers, id: RequestId)
    requires UnderWay(n, answers, id) && AllFlushed(n)
    requires Consumed(n.transport, id) == PartsTo(n.sent, id) && DoneMarker !in Consumed(n.transport, id)
    ensures |PartsTo(n.sent, id)| < |Script(answers(id))|
    ensures ServerMay(n, answers, ResponsePart(id, Script(answers(id))[|PartsTo(n.sent, id)|]))
  {
    assert OnScript(n, answers, id) && IterKept(n.transport, id);
    FlushedIsRead(n.transport, n.wire, id);
    NextPart(n, answers, id, PartsTo(n.sent, id));
  }

  lemma Serves(n: Network, answers: Answers, id: RequestId) returns (moves: seq<Move>, n': Network)
    requires UnderWay(n, answers, id) && n.transport.iters[id].phase.Waiting? && AllFlushed(n)
    requires DoneMarker !in Consumed(n.transport, id)
    ensures Leads(n, moves, n', answers, id) && StillThere(n, n', answers, id)
    ensures Consumed(n'.transport, id) != PartsTo(n'.sent, id)
  {
    if Consumed(n.transport, id) != PartsTo(n.sent, id) {
      moves, n' := [], n;
    } else {
      ServerGoesOn(n, answers, id);
      var msg := ResponsePart(id, Script(answers(id))[|PartsTo(n.sent, id)|]);
      moves, n' := [Serve(msg)], Next(n, Serve(msg));
      OneMove(n, Serve(msg), answers, id);
      MoveKeeps(n, answers, Serve(msg));
      MessageSnoc(n.sent, msg, id);
    }
  }

  // --- The channel delivers ----------------------------------------------------------------

  lemma {:induction false} Delivers(n: Network, answers: Answers, id: RequestId) returns (moves: seq<Move>, n': Network)
    requires UnderWay(n, answers, id) && n.transport.iters[id].phase.Waiting?
    ensures Leads(n, moves, n', answers, id) && StillThere(n, n', answers, id)
    ensures n'.sent == n.sent && n'.arrived == |n'.sent|
    decreases |n.sent| - n.arrived
  {
    if n.arrived == |n.sent| {
      moves, n' := [], n;
    } else {
      var n1 := Next(n, Arrive);
      OneMove(n, Arrive, answers, id);
      MoveKeeps(n, answers, Arrive);
      HearLeavesIter(n.transport, n.sent[n.arrived], id);
      moves, n' := Delivers(n1, answers, id);
      LeadsOn(n, [Arrive], n1, moves, n', answers, id);
      moves := [Arrive] + moves;
    }
  }

  // --- The generator goes on ---------------------------------------------------------------

  /** The channel is empty and the stream behind: it can take the next part of its script. */
  lemma TakesOne(n: Network, answers: Answers, id: RequestId) returns (n': Network)
    requires UnderWay(n, answers, id) && n.transport.iters[id].phase.Waiting? && n.arrived == |n.sent|
    requires Consumed(n.transport, id) != PartsTo(n.sent, id)
    ensures Leads(n, [Client(Resume(id))], n', answers, id) && UnderWay(n', answers, id)
    ensures Consumed(n.transport, id) < Consumed(n'.transport, id)
    ensures Last(Consumed(n'.transport, id)).DoneMarker? ==> n'.transport.iters[id].phase.Finished?
    ensures !Last(Consumed(n'.transport, id)).DoneMarker? ==>
              n'.transport.iters[id].phase.Resting? || n'.transport.iters[id].phase.Waiting?
  {
    var t := n.transport;
    assert OnScript(n, answers, id) && IterKept(t, id) && QueueKept(t, id);
    AllHeard(n);
    NothingLeft(t, id);
    n' := Next(n, Client(Resume(id)));
    OneMove(n, Client(Resume(id)), answers, id);
    MoveKeeps(n, answers, Client(Resume(id)));
    ResumeTakes(n, answers, id);
  }

  lemma AllHeard(n: Network)
    requires Expected(n) && n.transport.isOpen && n.arrived == |n.sent|
    ensures n.transport.received == n.sent
  {
  }

  lemma ResumeTakes(n: Network, answers: Answers, id: RequestId)
    requires LifecycleKept(n.transport) && n.transport.isOpen && PartKept(n.transport, id)
    requires Enabled(n.transport, Resume(id))
    requires IterKept(n.transport, id) && OnScript(n, answers, id)
    ensures var t, t' := n.transport, ResumeIter(n.transport, id);
            && t'.isOpen && id in t'.parts && id in t'.iters && Consumed(t, id) < Consumed(t', id)
            && (Last(Consumed(t', id)).DoneMarker? ==> t'.iters[id].phase.Finished?)
            && (!Last(Consumed(t', id)).DoneMarker? ==> t'.iters[id].phase.Resting? || t'.iters[id].phase.Waiting?)
  {
    var t := n.transport;
    ResumeConsumes(t, id);
    AwaitedElement(t, id);
    var all := PartsTo(t.received, id);
    DoneMeansWhole(all, answers(id));
  }

  // --- To the end --------------------------------------------------------------------------

  /** The stream is under way and not at its end. */
  ghost predicate Going(n: Network, answers: Answers, id: RequestId) {
    && UnderWay(n, answers, id) && DoneMarker !in Consumed(n.transport, id)
    && (n.transport.iters[id].phase.Resting? || n.transport.iters[id].phase.Waiting?)
  }

  /** Whatever it is waiting for, it can be brought to take one more part. */
  lemma Advances(n: Network, answers: Answers, id: RequestId) returns (moves: seq<Move>, n': Network)
    requires Going(n, answers, id)
    ensures Leads(n, moves, n', answers, id) && UnderWay(n', answers, id)
    ensures Consumed(n.transport, id) < Consumed(n'.transport, id)
    ensures Last(Consumed(n'.transport, id)).DoneMarker? ==> n'.transport.iters[id].phase.Finished?
    ensures !Last(Consumed(n'.transport, id)).DoneMarker? ==>
              n'.transport.iters[id].phase.Resting? || n'.transport.iters[id].phase.Waiting?
  {
    var a, n1 := Asks(n, answers, id);
    var b, n2 := Flushes(n1, answers, id);
    LeadsOn(n, a, n1, b, n2, answers, id);
    var c, n3 := Serves(n2, answers, id);
    LeadsOn(n, a + b, n2, c, n3, answers, id);
    var d, n4 := Delivers(n3, answers, id);
    LeadsOn(n, a + b + c, n3, d, n4, answers, id);
    n' := TakesOne(n4, answers, id);
    moves := a + b + c + d + [Client(Resume(id))];
    LeadsOn(n, a + b + c + d, n4, [Client(Resume(id))], n', answers, id);
  }

  lemma ConsumedIsScript(n: Network, answers: Answers, id: RequestId)
    requires UnderWay(n, answers, id)
    ensures Consumed(n.transport, id) <= Script(answers(id))
    ensures DoneMarker in Consumed(n.transport, id) <==> Consumed(n.transport, id) == Script(answers(id))
    ensures DoneMarker in Consumed(n.transport, id) ==> Last(Consumed(n.transport, id)).DoneMarker?
  {
    assert OnScript(n, answers, id);
    DoneMeansWhole(Consumed(n.transport, id), answers(id));
    ScriptEnds(answers(id));
  }

  lemma {:induction false} Completes(n: Network, answers: Answers, id: RequestId)
    returns (moves: seq<Move>, n': Network)
    requires Going(n, answers, id)
    ensures Leads(n, moves, n', answers, id) && UnderWay(n', answers, id) && n'.transport.iters[id].phase.Finished?
    decreases |Script(answers(id))| - |Consumed(n.transport, id)|
  {
    var first, n1 := Advances(n, answers, id);
    ConsumedIsScript(n, answers, id);
    ConsumedIsScript(n1, answers, id);
    if n1.transport.iters[id].phase.Finished? {
      moves, n' := first, n1;
    } else {
      var second;
      second, n' := Completes(n1, answers, id);
      moves := first + second;
      LeadsOn(n, first, n1, second, n', answers, id);
    }
  }

  /** A stream of an open transaction that has not consumed its done marker is neither finished nor failed. */
  lemma NotOverYet(n: Network, answers: Answers, id: RequestId)
    requires UnderWay(n, answers, id) && DoneMarker !in Consumed(n.transport, id)
    ensures Going(n, answers, id)
  {
    assert OnScript(n, answers, id) && IterKept(n.transport, id);
    var t := n.transport;
    DoneMeansWhole(Consumed(t, id), answers(id));
    assert t.iters[id].phase.Failed? ==> FailedFor(t, t.iters[id].phase.error, t.iters[id].failures, Consumed(t, id));
  }

  /**
   No stream is lost: in every reachable state of an open transaction, whatever is buffered, on the wire or in the
   channel, a stream that has not consumed its done marker has a continuation without `close` and without further
   calls after which it has finished and yielded its whole answer.
   */
  lemma StreamCompletes(moves: seq<Move>, answers: Answers, id: RequestId) returns (more: seq<Move>)
    requires Play(moves, answers).Some?
    requires var t := Play(moves, answers).value.transport;
             t.isOpen && id in t.iters && id in t.parts && DoneMarker !in Consumed(t, id)
    ensures OnlyGoesOn(more, id) && Play(moves + more, answers).Some?
    ensures var t := Play(moves + more, answers).value.transport;
            id in t.iters && t.iters[id].phase.Finished? && t.iters[id].yielded == Answer(answers(id))
  {
    PlayKeeps(moves, answers);
    var n := Play(moves, answers).value;
    NotOverYet(n, answers, id);
    var n';
    more, n' := Completes(n, answers, id);
    PlayOn(moves, more, answers);
    StreamIsExact(moves + more, answers, id);
  }
}
