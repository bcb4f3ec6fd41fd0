/**
 The batching dispatcher of a transaction (`RequestTransmitter.ts`).

 Requests are collected in a buffer. `dispatch` leaves them there for a timer to flush,
 `dispatchNow` flushes at once. One flush hands the whole buffer to the stream as one message.
 The first half of this module is the dispatcher as a state machine over every interleaving
 of calls, timer fires and the passing of time; the second half is the mutable object, proved
 to take exactly those steps.
 */
module Dispatch {
  import opened Protocol
  import opened Sequences

  const BATCH_WINDOW_SMALL_MILLIS: nat := 1
  const BATCH_WINDOW_LARGE_MILLIS: nat := 3

  /**
   `timers` holds the deadlines of the pending `setTimeout` calls. `written` are the messages the
   open stream accepted, `lost` those handed to it after `end`. The last three fields record the
   run: every request in call order, when it was dispatched, and when it left the buffer.
   */
  datatype Dispatcher = Dispatcher(
    buffer: seq<Request>,
    isRunning: bool,
    timers: seq<nat>,
    now: nat,
    ended: bool,
    written: seq<seq<Request>>,
    lost: seq<seq<Request>>,
    issued: seq<Request>,
    issuedAt: seq<nat>,
    flushedAt: seq<nat>)

  const FreshDispatcher := Dispatcher([], false, [], 0, false, [], [], [], [], [])

  datatype Action =
    | DispatchLater(req: Request)
    | DispatchNow(req: Request)
    | Fire(timer: nat)
    | Tick(millis: nat)
    | End

  /** A timer fires no earlier than its deadline, and time does not pass a pending deadline. */
  predicate Enabled(d: Dispatcher, a: Action) {
    match a
    case Fire(i) => i < |d.timers| && d.timers[i] <= d.now
    case Tick(ms) => forall i :: 0 <= i < |d.timers| ==> d.now + ms <= d.timers[i]
    case _ => true
  }

  function Push(d: Dispatcher, req: Request): Dispatcher {
    d.(buffer := d.buffer + [req], issued := d.issued + [req], issuedAt := d.issuedAt + [d.now])
  }

  function Stamps(n: nat, now: nat): (r: seq<nat>)
    ensures |r| == n && forall i :: 0 <= i < n ==> r[i] == now
  {
    seq(n, _ => now)
  }

  /** `sendNow`: one message holding the whole buffer, which is then replaced by an empty one. */
  function SendNow(d: Dispatcher): Dispatcher {
    var stamped := d.(flushedAt := d.flushedAt + Stamps(|d.buffer|, d.now), buffer := []);
    if d.ended then stamped.(lost := d.lost + [d.buffer]) else stamped.(written := d.written + [d.buffer])
  }

  function SetSchedule(d: Dispatcher, first: bool): Dispatcher {
    d.(timers := d.timers + [d.now + if first then BATCH_WINDOW_SMALL_MILLIS else BATCH_WINDOW_LARGE_MILLIS])
  }

  function SendScheduledBatch(d: Dispatcher): Dispatcher {
    if d.isRunning then d else SetSchedule(d.(isRunning := true), true)
  }

  function FireTimer(d: Dispatcher, i: nat): Dispatcher
    requires i < |d.timers|
  {
    var popped := d.(timers := d.timers[..i] + d.timers[i + 1..]);
    if |d.buffer| > 0 then SetSchedule(SendNow(popped), false) else popped.(isRunning := false)
  }

  function Step(d: Dispatcher, a: Action): Dispatcher
    requires Enabled(d, a)
  {
    match a
    case DispatchLater(req) => SendScheduledBatch(Push(d, req))
    case DispatchNow(req) => SendNow(Push(d, req))
    case Fire(i) => FireTimer(d, i)
    case Tick(ms) => d.(now := d.now + ms)
    case End => d.(ended := true)
  }

  /** The dispatcher after a whole run, or `None` when some action of it could not happen. */
  function Run(actions: seq<Action>): Option<Dispatcher> {
    if actions == [] then Some(FreshDispatcher) else
    match Run(Front(actions))
    case None => None
    case Some(d) => if Enabled(d, Last(actions)) then Some(Step(d, Last(actions))) else None
  }

  /** The requests of a run, in the order in which the driver dispatched them. */
  function Calls(actions: seq<Action>): seq<Request> {
    if actions == [] then [] else
    match Last(actions)
    case DispatchLater(req) => Calls(Front(actions)) + [req]
    case DispatchNow(req) => Calls(Front(actions)) + [req]
    case _ => Calls(Front(actions))
  }

  lemma RunSnoc(actions: seq<Action>, a: Action)
    requires Run(actions).Some?
    ensures Run(actions + [a]) == if Enabled(Run(actions).value, a) then Some(Step(Run(actions).value, a)) else None
    ensures Calls(actions + [a]) ==
              if a.DispatchLater? || a.DispatchNow? then Calls(actions) + [a.req] else Calls(actions)
  {
    assert Front(actions + [a]) == actions;
  }

  // --- What every step keeps ---------------------------------------------------------------

  /** Nothing is lost, duplicated or reordered between the calls and the messages. */
  ghost predicate OrderKept(d: Dispatcher) {
    && Flatten(d.written) + Flatten(d.lost) + d.buffer == d.issued
    && (!d.ended ==> d.lost == [])
    && (forall i :: 0 <= i < |d.written| ==> d.written[i] != [])
    && (forall i :: 0 <= i < |d.lost| ==> d.lost[i] != [])
  }

  /** At most one timer, pending exactly while `isRunning`, and always one behind a non-empty buffer. */
  ghost predicate TimerKept(d: Dispatcher) {
    && |d.timers| == (if d.isRunning then 1 else 0)
    && (d.buffer != [] ==> d.isRunning)
    && (d.isRunning ==> d.now <= d.timers[0] <= d.now + BATCH_WINDOW_LARGE_MILLIS)
  }

  /** Every request leaves the buffer within the large window of its dispatch. */
  ghost predicate DelayKept(d: Dispatcher) {
    && |d.issuedAt| == |d.issued|
    && |d.flushedAt| + |d.buffer| == |d.issued|
    && (forall i :: 0 <= i < |d.issuedAt| ==> d.issuedAt[i] <= d.now)
    && (forall i :: 0 <= i < |d.flushedAt| ==>
          d.issuedAt[i] <= d.flushedAt[i] <= d.issuedAt[i] + BATCH_WINDOW_LARGE_MILLIS)
    && (forall i :: |d.flushedAt| <= i < |d.issuedAt| ==>
          d.isRunning && |d.timers| > 0 && d.timers[0] <= d.issuedAt[i] + BATCH_WINDOW_LARGE_MILLIS)
  }

  ghost predicate Kept(d: Dispatcher) {
    OrderKept(d) && TimerKept(d) && DelayKept(d)
  }

  lemma AppendsToLast<T>(a: seq<seq<T>>, b: seq<seq<T>>, x: seq<T>)
    ensures Flatten(a) + Flatten(b + [x]) == Flatten(a) + Flatten(b) + x
  {
    FlattenSnoc(b, x);
  }

  lemma AppendsToOnly<T>(a: seq<seq<T>>, x: seq<T>)
    ensures Flatten(a + [x]) + Flatten([]) + [] == Flatten(a) + Flatten([]) + x
  {
    FlattenSnoc(a, x);
    assert Flatten<T>([]) == [];
  }

  lemma SendNowKeepsOrder(d: Dispatcher)
    requires OrderKept(d) && d.buffer != []
    ensures OrderKept(SendNow(d))
  {
    if d.ended { AppendsToLast(d.written, d.lost, d.buffer); } else { AppendsToOnly(d.written, d.buffer); }
  }

  lemma StepKeepsOrder(d: Dispatcher, a: Action)
    requires OrderKept(d) && Enabled(d, a)
    ensures OrderKept(Step(d, a))
  {
    match a
    case DispatchNow(req) =>
      assert OrderKept(Push(d, req));
      SendNowKeepsOrder(Push(d, req));
    case DispatchLater(req) =>
      assert OrderKept(Push(d, req));
    case Fire(i) =>
      if |d.buffer| > 0 { SendNowKeepsOrder(d.(timers := d.timers[..i] + d.timers[i + 1..])); }
    case _ =>
  }

  lemma StepKeepsTimers(d: Dispatcher, a: Action)
    requires TimerKept(d) && DelayKept(d) && Enabled(d, a)
    ensures TimerKept(Step(d, a)) && DelayKept(Step(d, a))
  {
  }

  /** The dispatcher at the end of every run, with an independent account of what was dispatched. */
  lemma {:induction false} RunKeeps(actions: seq<Action>)
    requires Run(actions).Some?
    ensures Kept(Run(actions).value)
    ensures Run(actions).value.issued == Calls(actions)
  {
    if actions != [] {
      RunKeeps(Front(actions));
      var d := Run(Front(actions)).value;
      StepKeepsOrder(d, Last(actions));
      StepKeepsTimers(d, Last(actions));
    }
  }

  /** What the kept properties mean for a caller who issued `calls`. */
  ghost predicate InOrderAndOnTime(d: Dispatcher, calls: seq<Request>) {
    && Flatten(d.written) <= calls
    && (!d.ended ==> Flatten(d.written) + d.buffer == calls)
    && (forall i :: 0 <= i < |d.written| ==> d.written[i] != [])
    && |d.flushedAt| <= |d.issuedAt| == |calls|
    && (forall i :: 0 <= i < |d.flushedAt| ==> d.flushedAt[i] <= d.issuedAt[i] + 3)
    && (forall i :: |d.flushedAt| <= i < |calls| ==> d.now <= d.issuedAt[i] + 3)
  }

  lemma KeptMeansInOrder(d: Dispatcher)
    requires Kept(d)
    ensures InOrderAndOnTime(d, d.issued)
  {
    assert d.issued == Flatten(d.written) + (Flatten(d.lost) + d.buffer);
    if !d.ended { assert Flatten(d.written) + Flatten(d.lost) == Flatten(d.written); }
  }

  /**
   The guarantee to callers, over every interleaving: the stream has accepted a prefix of the calls in
   call order, in non-empty messages, and until the stream is ended whatever is missing is in the buffer,
   where no request stays longer than three milliseconds.
   */
  lemma WrittenInOrderAndOnTime(actions: seq<Action>)
    requires Run(actions).Some?
    ensures InOrderAndOnTime(Run(actions).value, Calls(actions))
  {
    RunKeeps(actions);
    KeptMeansInOrder(Run(actions).value);
  }

  /** A run that can happen can also stop anywhere. */
  lemma {:induction false} PrefixRuns(actions: seq<Action>, k: nat)
    requires Run(actions).Some? && k <= |actions|
    ensures Run(actions[..k]).Some?
    ensures Run(actions[..k]).value.written <= Run(actions).value.written
    ensures Run(actions[..k]).value.ended ==> Run(actions).value.written == Run(actions[..k]).value.written
    ensures Run(actions[..k]).value.ended ==> Run(actions).value.ended
  {
    if k == |actions| {
      assert actions[..k] == actions;
    } else {
      PrefixRuns(Front(actions), k);
      assert Front(actions)[..k] == actions[..k];
    }
  }

  lemma {:induction false} FlattenPrefix<T>(a: seq<seq<T>>, b: seq<seq<T>>)
    requires a <= b
    ensures Flatten(a) <= Flatten(b)
  {
    if a != b { FlattenPrefix(a, Front(b)); }
  }

  /** Model time by the run's own record. */
  function Clock(actions: seq<Action>): nat {
    if actions == [] then 0 else Clock(Front(actions)) + if Last(actions).Tick? then Last(actions).millis else 0
  }

  lemma {:induction false} ClockIsNow(actions: seq<Action>)
    requires Run(actions).Some?
    ensures Run(actions).value.now == Clock(actions)
  {
    if actions != [] { ClockIsNow(Front(actions)); }
  }

  lemma {:induction false} CallsPrefix(actions: seq<Action>, k: nat)
    requires Run(actions).Some? && k <= |actions| && Run(actions[..k]).Some?
    ensures Calls(actions[..k]) <= Calls(actions)
    ensures Run(actions[..k]).value.issuedAt <= Run(actions).value.issuedAt
  {
    if k == |actions| {
      assert actions[..k] == actions;
    } else {
      assert Front(actions)[..k] == actions[..k];
      CallsPrefix(Front(actions), k);
    }
  }

  predicate IsCall(a: Action) {
    a.DispatchLater? || a.DispatchNow?
  }

  lemma CallMade(before: seq<Action>, a: Action)
    requires Run(before).Some? && IsCall(a)
    ensures Run(before + [a]).Some? && Calls(before + [a]) == Calls(before) + [a.req]
    ensures |Run(before).value.issuedAt| == |Calls(before)|
    ensures Run(before + [a]).value.issuedAt == Run(before).value.issuedAt + [Clock(before)]
  {
    RunKeeps(before);
    ClockIsNow(before);
    RunSnoc(before, a);
  }

  /** The call made by action number `k`, and when. */
  lemma CallAt(actions: seq<Action>, k: nat)
    requires Run(actions).Some? && k < |actions| && IsCall(actions[k])
    ensures Calls(actions[..k]) + [actions[k].req] <= Calls(actions)
    ensures |Calls(actions[..k])| < |Run(actions).value.issuedAt|
    ensures Run(actions).value.issuedAt[|Calls(actions[..k])|] == Clock(actions[..k])
  {
    PrefixRuns(actions, k);
    assert actions[..k + 1] == actions[..k] + [actions[k]];
    CallMade(actions[..k], actions[k]);
    CallsPrefix(actions, k + 1);
  }

  /** A request that has waited longer than the large window is not in the buffer any more. */
  lemma OldIsWritten(d: Dispatcher, calls: seq<Request>, n: nat)
    requires InOrderAndOnTime(d, calls) && |d.flushedAt| + |d.buffer| == |calls| && !d.ended
    requires n < |calls| && d.issuedAt[n] + 3 < d.now
    ensures n < |Flatten(d.written)| && Flatten(d.written) <= calls
  {
    assert |Flatten(d.written)| == |d.flushedAt|;
  }

  /**
   The delay bound by the run's own clock: once more than three milliseconds have passed since a request was
   dispatched, it is on the wire, behind exactly the requests dispatched before it.
   */
  lemma OnTheWireInTime(actions: seq<Action>, k: nat)
    requires Run(actions).Some? && !Run(actions).value.ended && k < |actions| && IsCall(actions[k])
    requires Clock(actions) > Clock(actions[..k]) + 3
    ensures Calls(actions[..k]) + [actions[k].req] <= Flatten(Run(actions).value.written)
  {
    CallAt(actions, k);
    ClockIsNow(actions);
    RunKeeps(actions);
    WrittenInOrderAndOnTime(actions);
    OldIsWritten(Run(actions).value, Calls(actions), |Calls(actions[..k])|);
    ShorterPrefix(Calls(actions[..k]) + [actions[k].req], Flatten(Run(actions).value.written), Calls(actions));
  }

  lemma ShorterPrefix<T>(a: seq<T>, b: seq<T>, c: seq<T>)
    requires a <= c && b <= c && |a| <= |b|
    ensures a <= b
  {
  }

  /** A request sent with `dispatchNow` on a live stream empties the buffer, itself last. */
  lemma NowFlushes(before: seq<Action>, req: Request)
    requires Run(before).Some? && !Run(before).value.ended
    ensures Run(before + [DispatchNow(req)]).Some?
    ensures Flatten(Run(before + [DispatchNow(req)]).value.written) == Calls(before) + [req]
  {
    var after := before + [DispatchNow(req)];
    RunSnoc(before, DispatchNow(req));
    WrittenInOrderAndOnTime(after);
    var d := Run(after).value;
    assert d.buffer == [] && !d.ended;
    assert Flatten(d.written) + [] == Flatten(d.written);
  }

  /**
   The commit barrier. A request sent with `dispatchNow` on a live stream is on the wire at once, behind
   every request issued before it and ahead of every one issued later, at the same place in every longer run.
   */
  lemma CommitBarrier(before: seq<Action>, req: Request, run: seq<Action>)
    requires Run(before).Some? && !Run(before).value.ended
    requires before + [DispatchNow(req)] <= run && Run(run).Some?
    ensures Calls(before) + [req] <= Flatten(Run(run).value.written) <= Calls(run)
  {
    var after := before + [DispatchNow(req)];
    NowFlushes(before, req);
    PrefixWritten(after, run);
    WrittenInOrderAndOnTime(run);
  }

  lemma PrefixWritten(prefix: seq<Action>, run: seq<Action>)
    requires prefix <= run && Run(run).Some? && Run(prefix).Some?
    ensures Flatten(Run(prefix).value.written) <= Flatten(Run(run).value.written)
  {
    PrefixRuns(run, |prefix|);
    assert run[..|prefix|] == prefix;
    FlattenPrefix(Run(prefix).value.written, Run(run).value.written);
  }

  // --- Going idle --------------------------------------------------------------------------

  /** How many fires are left before the dispatcher is idle when nothing more is dispatched. */
  function Potential(d: Dispatcher): nat {
    if !d.isRunning then 0 else if d.buffer == [] then 1 else 2
  }

  function Fires(actions: seq<Action>): nat {
    if actions == [] then 0 else Fires(Front(actions)) + if Last(actions).Fire? then 1 else 0
  }

  predicate Quiet(actions: seq<Action>) {
    forall i :: 0 <= i < |actions| ==> !actions[i].DispatchLater? && !actions[i].DispatchNow?
  }

  /**
   Without further dispatches every fire spends one unit of potential, and nothing else does. So there are at
   most two fires, and after the last one the dispatcher is idle with an empty buffer and no timer.
   */
  lemma {:induction false} IdleAfterTwoFires(before: seq<Action>, after: seq<Action>)
    requires Run(before + after).Some? && Quiet(after)
    ensures Run(before).Some?
    ensures Fires(after) + Potential(Run(before + after).value) == Potential(Run(before).value) <= 2
    ensures Fires(after) == Potential(Run(before).value) ==>
              var d := Run(before + after).value;
              !d.isRunning && d.buffer == [] && d.timers == []
  {
    if after == [] {
      assert before + after == before;
    } else {
      assert Front(before + after) == before + Front(after);
      IdleAfterTwoFires(before, Front(after));
      RunKeeps(before + Front(after));
    }
    RunKeeps(before + after);
  }

  function Later(d: Dispatcher, millis: nat): Dispatcher {
    d.(now := d.now + millis)
  }

  predicate Due(d: Dispatcher, i: nat, millis: nat) {
    Enabled(Later(d, millis), Fire(i))
  }

  /** There is one timer, and it fires after exactly `millis` more milliseconds: time can pass no further. */
  ghost predicate FiresAfter(d: Dispatcher, millis: nat) {
    && (forall ms: nat :: Enabled(d, Tick(ms)) <==> ms <= millis)
    && (forall ms: nat, i: nat :: Due(d, i, ms) <==> i == 0 && ms >= millis)
  }

  lemma OneDeadline(d: Dispatcher, millis: nat)
    requires d.timers == [d.now + millis]
    ensures FiresAfter(d, millis)
  {
    assert d.timers[0] == d.now + millis;
    forall ms: nat ensures Enabled(d, Tick(ms)) <==> ms <= millis {
    }
    forall ms: nat, i: nat ensures Due(d, i, ms) <==> i == 0 && ms >= millis {
      assert Later(d, ms).timers == d.timers;
    }
  }

  lemma FireFlushes(d: Dispatcher)
    requires d.timers == [d.now] && d.buffer != [] && !d.ended
    ensures FireTimer(d, 0).timers == [d.now + 3] && FireTimer(d, 0).written == d.written + [d.buffer]
    ensures FireTimer(d, 0).now == d.now
  {
  }

  /**
   A lone request is flushed by the timer after exactly one millisecond, as a message of its own, and the
   timer then stays quiet for exactly three more.
   */
  ghost predicate TwoWindows(idle: Dispatcher, req: Request) {
    var asked := Step(idle, DispatchLater(req));
    && FiresAfter(asked, 1)
    && |asked.timers| > 0
    && var flushed := FireTimer(Later(asked, 1), 0);
       flushed.written == idle.written + [[req]] && FiresAfter(flushed, 3)
  }

  lemma LoneRequest(idle: Dispatcher, req: Request)
    requires TimerKept(idle) && !idle.isRunning && !idle.ended
    ensures TwoWindows(idle, req)
  {
    var asked := Step(idle, DispatchLater(req));
    assert asked.buffer == [req] && asked.timers == [idle.now + 1] && asked.now == idle.now;
    OneDeadline(asked, 1);
    FireFlushes(Later(asked, 1));
    OneDeadline(FireTimer(Later(asked, 1), 0), 3);
  }

  /** The two batching windows hold from every reachable idle state. */
  lemma LoneRequestTiming(actions: seq<Action>, req: Request)
    requires Run(actions).Some? && !Run(actions).value.isRunning && !Run(actions).value.ended
    ensures TwoWindows(Run(actions).value, req)
  {
    RunKeeps(actions);
    LoneRequest(Run(actions).value, req);
  }

  /** What the timers are after an action, in terms of what they were before it. */
  ghost predicate TimersAfter(d: Dispatcher, a: Action, timers: seq<nat>) {
    match a
    case DispatchLater(_) => timers == if d.timers == [] then [d.now + 1] else d.timers
    case Fire(_) => timers == if d.buffer == [] then [] else [d.now + 3]
    case _ => timers == d.timers
  }

  /**
   The timer chain over every run: only a batched request on an idle dispatcher starts it, a fire that flushed goes
   on with it, a fire that found nothing ends it, and nothing else, an immediate request least of all, touches it.
   */
  lemma TimersOnlyBy(actions: seq<Action>, a: Action)
    requires Run(actions).Some? && Enabled(Run(actions).value, a)
    ensures TimersAfter(Run(actions).value, a, Step(Run(actions).value, a).timers)
  {
    RunKeeps(actions);
    StepTimers(Run(actions).value, a);
  }

  lemma StepTimers(d: Dispatcher, a: Action)
    requires TimerKept(d) && Enabled(d, a)
    ensures TimersAfter(d, a, Step(d, a).timers)
  {
  }

  // --- The mutable objects -----------------------------------------------------------------

  /** A JavaScript array of requests: the dispatcher pushes into it and later hands it to the stream by reference. */
  class RequestArray {
    var items: seq<Request>

    constructor ()
      ensures items == []
    {
      items := [];
    }
  }

  ghost function Contents(arrays: seq<RequestArray>): (r: seq<seq<Request>>)
    reads arrays
    ensures |r| == |arrays| && forall i :: 0 <= i < |r| ==> r[i] == arrays[i].items
  {
    seq(|arrays|, i requires 0 <= i < |arrays| reads arrays => arrays[i].items)
  }

  /** The write side of the gRPC stream: the messages it was handed before and after `end`, by reference. */
  class TransactionStream {
    var accepted: seq<RequestArray>
    var refused: seq<RequestArray>
    var ended: bool

    constructor ()
      ensures accepted == [] && refused == [] && !ended
    {
      accepted, refused, ended := [], [], false;
    }
  }

  /** `view` is the dispatcher's state as the steps above compute it; `Valid` ties it to the fields. */
  class BatchDispatcher {
    const transmitter: RequestTransmitter
    const stream: TransactionStream
    var bufferedRequests: RequestArray
    var isRunning: bool
    var timers: seq<nat>
    var now: nat
    ghost var view: Dispatcher
    ghost var Repr: set<object>

    /** The array being filled is never one the stream already holds. */
    ghost predicate Owned()
      reads this, Repr
    {
      && this in Repr && stream in Repr && bufferedRequests in Repr
      && (forall a :: a in stream.accepted ==> a in Repr && a != bufferedRequests)
      && (forall a :: a in stream.refused ==> a in Repr && a != bufferedRequests)
    }

    ghost predicate Valid()
      reads this, Repr
    {
      && Owned()
      && view.buffer == bufferedRequests.items && view.isRunning == isRunning
      && view.timers == timers && view.now == now && view.ended == stream.ended
      && view.written == Contents(stream.accepted) && view.lost == Contents(stream.refused)
    }

    constructor (transmitter: RequestTransmitter, stream: TransactionStream)
      requires stream.accepted == [] && stream.refused == [] && !stream.ended
      ensures Valid() && view == FreshDispatcher
      ensures this.transmitter == transmitter && this.stream == stream && fresh(Repr - {stream})
    {
      this.transmitter := transmitter;
      this.stream := stream;
      bufferedRequests := new RequestArray();
      isRunning, timers, now := false, [], 0;
      view, Repr := FreshDispatcher, {this, stream, bufferedRequests};
    }

    method PushRequest(req: Request)
      requires Valid()
      modifies this`view, bufferedRequests
      ensures Valid() && view == Push(old(view), req)
    {
      bufferedRequests.items := bufferedRequests.items + [req];
      view := Push(view, req);
    }

    /** `sendNow`: hands the array over by reference and goes on with a new one. */
    method SendBuffer()
      requires Valid()
      modifies this`view, this`bufferedRequests, this`Repr, stream
      ensures Valid() && view == SendNow(old(view))
      ensures fresh(bufferedRequests) && old(stream.accepted) <= stream.accepted
      ensures Repr == old(Repr) + {bufferedRequests}
    {
      if stream.ended {
        stream.refused := stream.refused + [bufferedRequests];
      } else {
        stream.accepted := stream.accepted + [bufferedRequests];
      }
      bufferedRequests := new RequestArray();
      view, Repr := SendNow(view), Repr + {bufferedRequests};
    }

    /** `setSchedule`. */
    method Schedule(first: bool)
      requires Valid()
      modifies this`timers, this`view
      ensures Valid() && view == SetSchedule(old(view), first)
    {
      timers := timers + [now + if first then BATCH_WINDOW_SMALL_MILLIS else BATCH_WINDOW_LARGE_MILLIS];
      view := SetSchedule(view, first);
    }

    /** `dispatch`: push, and start the timer chain unless it is running. */
    method Dispatch(req: Request)
      requires Valid()
      modifies this`isRunning, this`timers, this`view, bufferedRequests
      ensures Valid() && view == Step(old(view), DispatchLater(req))
    {
      PushRequest(req);
      if !isRunning {
        isRunning := true;
        view := view.(isRunning := true);
        Schedule(true);
      }
    }

    /** `dispatchNow`: push and flush, leaving the timer chain alone. No message handed over earlier changes. */
    method DispatchAtOnce(req: Request)
      requires Valid()
      modifies this`view, this`bufferedRequests, this`Repr, stream, bufferedRequests
      ensures Valid() && view == Step(old(view), DispatchNow(req))
      ensures fresh(bufferedRequests) && Repr == old(Repr) + {bufferedRequests}
      ensures forall a :: a in old(stream.accepted) ==> a in stream.accepted && a.items == old(a.items)
    {
      PushRequest(req);
      SendBuffer();
    }

    /** Either of the two, as the caller chose. */
    method Send(req: Request, batch: bool)
      requires Valid()
      modifies Repr
      ensures Valid() && fresh(Repr - old(Repr))
      ensures view == Step(old(view), if batch then DispatchLater(req) else DispatchNow(req))
    {
      if batch { Dispatch(req); } else { DispatchAtOnce(req); }
    }

    /** The callback of `setTimeout`. */
    method OnTimer(i: nat)
      requires Valid() && i < |timers| && timers[i] <= now
      modifies this, stream
      ensures Valid() && view == Step(old(view), Fire(i)) && fresh(Repr - old(Repr))
    {
      timers := timers[..i] + timers[i + 1..];
      view := view.(timers := timers);
      if |bufferedRequests.items| > 0 {
        SendBuffer();
        Schedule(false);
      } else {
        isRunning := false;
        view := view.(isRunning := false);
      }
    }

    /** Time passes, up to the next deadline. */
    method Elapse(millis: nat)
      requires Valid() && forall i :: 0 <= i < |timers| ==> now + millis <= timers[i]
      modifies this`now, this`view
      ensures Valid() && view == Step(old(view), Tick(millis))
    {
      now := now + millis;
      view := Step(view, Tick(millis));
    }

    /** `close`: leave the transmitter and end the stream. The buffer is not flushed. */
    method Close()
      modifies transmitter`dispatchers, stream`ended, this`view
      ensures old(Valid()) ==> Valid()
      ensures view == Step(old(view), End) && stream.ended
      ensures transmitter.dispatchers == old(transmitter.dispatchers) - {this}
    {
      transmitter.dispatchers := transmitter.dispatchers - {this};
      stream.ended := true;
      view := Step(view, End);
    }
  }

  class RequestTransmitter {
    var dispatchers: set<BatchDispatcher>
    var isOpen: bool

    constructor ()
      ensures dispatchers == {} && isOpen
    {
      dispatchers, isOpen := {}, true;
    }

    ghost predicate Valid()
      reads this
    {
      forall d :: d in dispatchers ==> d.transmitter == this
    }

    method Dispatcher(stream: TransactionStream) returns (d: BatchDispatcher)
      requires Valid() && stream.accepted == [] && stream.refused == [] && !stream.ended
      modifies this`dispatchers
      ensures Valid() && d.transmitter == this && d.stream == stream
      ensures d.Valid() && d.view == FreshDispatcher && fresh(d.Repr - {stream})
      ensures dispatchers == old(dispatchers) + {d}
    {
      d := new BatchDispatcher(this, stream);
      dispatchers := dispatchers + {d};
    }

    /** `close`: ends the stream of every dispatcher; each of them removes itself while the set is walked. */
    method Close()
      requires Valid()
      modifies this, (set d | d in dispatchers :: d.stream)`ended, dispatchers`view
      ensures !isOpen
      ensures old(isOpen) ==> dispatchers == {} && forall d :: d in old(dispatchers) ==> d.stream.ended
      ensures !old(isOpen) ==> dispatchers == old(dispatchers)
    {
      if isOpen {
        isOpen := false;
        while dispatchers != {}
          invariant Valid() && dispatchers <= old(dispatchers) && !isOpen
          invariant forall d :: d in old(dispatchers) && d !in dispatchers ==> d.stream.ended
          decreases |dispatchers|
        {
          var d :| d in dispatchers;
          d.Close();
        }
      }
    }
  }
}
