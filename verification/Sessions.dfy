/**
 The session lifecycle (`TypeDBSessionImpl.ts`), one operation at a time: opening, handing out transactions,
 reconnecting through the failover layer when a transaction cannot be opened, closing, and the pulse.
 */
module Sessions {
  import opened Protocol
  import opened Sequences
  import opened Failover
  import T = Transport

  type TxId = nat

  /**
   `live` holds every transaction whose stream was opened, and whether that stream still is. `opens` and `closes`
   count the session requests that servers accepted.
   */
  datatype Session = Session(
    isOpen: bool,
    transactions: set<TxId>,
    live: map<TxId, bool>,
    next: TxId,
    opens: nat,
    closes: nat)

  /** The state `open` leaves behind when it succeeds. */
  const Fresh := Session(true, {}, map[], 0, 1, 0)

  /**
   How far an attempt got that failed: the server refused the session, or the stream, or the stream was there and
   the open request failed on it. `events` is then the life of that stream and `call` the position of the request.
   */
  datatype Failure = SessionRefused | StreamRefused | OpenFailed(events: seq<T.Event>, call: nat)

  /** A failed open request is a failed call of a run of the transport. */
  ghost predicate Real(f: Failure) {
    f.OpenFailed? ==> T.CallFailed(f.events, f.call)
  }

  function OpenAt(s: Session): Session {
    s.(isOpen := true, opens := s.opens + 1)
  }

  /** A new transaction whose stream is in this state; it is not in the session's set yet. */
  function NewStream(s: Session, streamIsOpen: bool): Session {
    s.(live := s.live[s.next := streamIsOpen], next := s.next + 1)
  }

  /** `Transaction.open` that failed like this: nothing closes the stream if it was there. */
  function FailTx(s: Session, f: Failure): Session {
    if f.OpenFailed? then NewStream(s, T.Run(f.events).Some? && T.Run(f.events).value.isOpen) else s
  }

  /** `Transaction.close`: end the stream, and leave the session's set. */
  function CloseTx(s: Session, tx: TxId): Session {
    s.(transactions := s.transactions - {tx}, live := if tx in s.live then s.live[tx := false] else s.live)
  }

  /** `closeResources`: close every transaction in the set. */
  function CloseResources(s: Session): Session {
    s.(isOpen := false, transactions := {}, live := map tx | tx in s.live :: s.live[tx] && tx !in s.transactions)
  }

  /** `close`: only an open session is closed; then the server is told, which may fail. */
  function CloseSession(s: Session, accepted: bool): (bool, Session) {
    if !s.isOpen then (true, s) else
    var closed := CloseResources(s);
    (accepted, if accepted then closed.(closes := closed.closes + 1) else closed)
  }

  /** The reconnect task on one server: reopen the session there, then open a transaction. */
  function Attempt(s: Session, outcome: Outcome<int>, f: Failure): Session {
    if outcome.Ok? then NewStream(OpenAt(s), true)
    else if f.SessionRefused? then s
    else FailTx(OpenAt(s), f)
  }

  /**
   The session after the failover layer ran that task once per entry. Execution number n of the oracle, if it
   fails, fails like `failure(n)`; `first` is the number of the first one.
   */
  function Attempts(s: Session, xs: seq<Entry>, first: nat, failure: nat -> Failure): Session {
    if xs == [] then s else
    var before := Attempts(s, Front(xs), first, failure);
    if Last(xs).Executed? then Attempt(before, Last(xs).outcome, failure(first + |xs| - 1)) else before
  }

  lemma AttemptsSnoc(s: Session, xs: seq<Entry>, x: Entry, first: nat, failure: nat -> Failure)
    requires x.Executed?
    ensures Attempts(s, xs + [x], first, failure) ==
              Attempt(Attempts(s, xs, first, failure), x.outcome, failure(first + |xs|))
  {
    assert Front(xs + [x]) == xs;
  }

  /** How the world answers one call of `transaction`; `direct` is how opening it at once fails, if it does. */
  datatype Scene = Scene(
    direct: Option<Failure>,
    closeAccepted: bool,
    world: World,
    replicas: seq<Replica>,
    execs: nat,
    fetches: nat,
    failure: nat -> Failure)

  ghost predicate RealScene(scene: Scene) {
    (scene.direct.Some? ==> Real(scene.direct.value)) && forall n :: Real(scene.failure(n))
  }

  /** The run of the failover layer behind a reconnect. */
  function ReconnectRun(scene: Scene): (Outcome<int>, State) {
    RunFailsafe(scene.world, Start(scene.replicas, scene.execs, scene.fetches))
  }

  /** `transaction`: the new transaction, or `None` when the call throws. */
  function NewTransaction(s: Session, scene: Scene): (Option<TxId>, Session) {
    if !s.isOpen then (None, s)
    else if scene.direct.None? then Hand(NewStream(s, true))
    else
      var (accepted, closed) := CloseSession(FailTx(s, scene.direct.value), scene.closeAccepted);
      if !accepted then (None, closed) else
      var (outcome, run) := ReconnectRun(scene);
      var tried := Attempts(closed, Executions(run.trace), scene.execs, scene.failure);
      if outcome.Ok? && tried.next > 0 then Hand(tried) else (None, tried)
  }

  /** The transaction created last joins the set and is returned. */
  function Hand(s: Session): (Option<TxId>, Session)
    requires s.next > 0
  {
    (Some(s.next - 1), s.(transactions := s.transactions + {s.next - 1}))
  }

  datatype Event =
    | Call(scene: Scene)
    | CloseTransaction(tx: TxId)
    | StreamEnds(tx: TxId)
    | Close(accepted: bool)
    | PulseSaysDead
    | PulseFails

  /** Calls fail only as the transport can. */
  ghost predicate Possible(e: Event) {
    e.Call? ==> RealScene(e.scene)
  }

  function Step(s: Session, e: Event): Session {
    match e
    case Call(scene) => NewTransaction(s, scene).1
    case CloseTransaction(tx) => CloseTx(s, tx)
    case StreamEnds(tx) => if tx in s.live then s.(live := s.live[tx := false]) else s
    case Close(accepted) => CloseSession(s, accepted).1
    case PulseSaysDead => if s.isOpen then CloseResources(s) else s
    case PulseFails => s.(isOpen := false)
  }

  function Run(events: seq<Event>): Session {
    if events == [] then Fresh else Step(Run(Front(events)), Last(events))
  }

  // --- Containment -------------------------------------------------------------------------

  ghost predicate Live(s: Session, tx: TxId) {
    tx in s.live && s.live[tx]
  }

  ghost predicate Numbered(s: Session) {
    forall tx :: tx in s.live || tx in s.transactions ==> tx < s.next
  }

  /** Every open transaction is in the session's set. */
  ghost predicate Contained(s: Session) {
    Numbered(s) && forall tx :: Live(s, tx) ==> tx in s.transactions
  }

  ghost predicate NoneLive(s: Session) {
    forall tx :: !Live(s, tx)
  }

  ghost predicate Emptied(s: Session) {
    s.transactions == {} && NoneLive(s)
  }

  /** The same transactions are open, and in the set, as before. */
  ghost predicate SameOpen(s: Session, s': Session) {
    && Numbered(s') && s'.transactions == s.transactions && s.next <= s'.next && s'.closes == s.closes
    && forall tx :: Live(s', tx) <==> Live(s, tx)
  }

  /** An open request that failed has left a closed stream: no open transaction is left behind. */
  lemma FailedOpenLeavesNothing(s: Session, f: Failure)
    requires Numbered(s) && Real(f)
    ensures SameOpen(s, FailTx(s, f)) && FailTx(s, f).isOpen == s.isOpen && FailTx(s, f).opens == s.opens
    ensures FailTx(s, f).live.Keys == s.live.Keys + if f.OpenFailed? then {s.next} else {}
  {
    if f.OpenFailed? { T.FailureMeansClosed(f.events, f.call); }
  }

  /** How many of `n` failed attempts reopened the session. */
  function Reopened(first: nat, n: nat, failure: nat -> Failure): nat {
    if n == 0 then 0
    else Reopened(first, n - 1, failure) + if failure(first + n - 1).SessionRefused? then 0 else 1
  }

  /** Failed attempts leave sessions open at servers, but no open transaction. */
  lemma {:induction false} FailedAttempts(s: Session, xs: seq<Entry>, first: nat, failure: nat -> Failure)
    requires Numbered(s) && forall n :: Real(failure(n))
    requires forall i :: 0 <= i < |xs| ==> xs[i].Executed? && xs[i].outcome.Err?
    ensures var s' := Attempts(s, xs, first, failure);
            && SameOpen(s, s') && s'.opens == s.opens + Reopened(first, |xs|, failure)
            && s'.isOpen == (s.isOpen || Reopened(first, |xs|, failure) > 0)
  {
    if xs != [] {
      FailedAttempts(s, Front(xs), first, failure);
      var before, f := Attempts(s, Front(xs), first, failure), failure(first + |xs| - 1);
      FailedOpenLeavesNothing(OpenAt(before), f);
    }
  }

  /** `s'` has exactly one more open transaction than `s`, the one created last. */
  ghost predicate OneMore(s: Session, s': Session) {
    && Numbered(s') && s'.transactions == s.transactions && s.next < s'.next && s'.closes == s.closes && s'.isOpen
    && forall tx :: Live(s', tx) <==> Live(s, tx) || tx == s'.next - 1
  }

  /** What the failover layer's one success means here: a failed run adds no open transaction, a good one adds one. */
  lemma AttemptsOpenOne(s: Session, xs: seq<Entry>, outcome: Outcome<int>, first: nat, failure: nat -> Failure)
    requires Numbered(s) && OneSuccess(xs, outcome) && forall n :: Real(failure(n))
    ensures var s' := Attempts(s, xs, first, failure);
            if outcome.Ok?
            then && xs != [] && OneMore(s, s') && s'.opens == s.opens + Reopened(first, |xs| - 1, failure) + 1
            else && SameOpen(s, s') && s'.opens == s.opens + Reopened(first, |xs|, failure)
                 && s'.isOpen == (s.isOpen || Reopened(first, |xs|, failure) > 0)
  {
    if outcome.Ok? {
      assert forall i :: 0 <= i < |Front(xs)| ==> Front(xs)[i] == xs[i];
      FailedAttempts(s, Front(xs), first, failure);
    } else {
      assert xs != [] ==> xs[|xs| - 1] == Last(xs);
      FailedAttempts(s, xs, first, failure);
    }
  }

  lemma ClosingEmpties(s: Session)
    requires Contained(s)
    ensures Emptied(CloseResources(s)) && Contained(CloseResources(s))
  {
  }

  /** What a reconnect leaves when it throws: no transaction, and the sessions its attempts had reopened. */
  ghost predicate GaveUp(s: Session, scene: Scene, s': Session, tries: nat) {
    && Emptied(s') && Contained(s')
    && if !scene.closeAccepted then !s'.isOpen && s'.opens == s.opens && s'.closes == s.closes
       else && s'.closes == s.closes + 1 && s'.opens == s.opens + Reopened(scene.execs, tries, scene.failure)
            && s'.isOpen == (Reopened(scene.execs, tries, scene.failure) > 0)
  }

  /** What it leaves when it succeeds: exactly the new transaction, and the sessions reopened before it. */
  ghost predicate GotThrough(s: Session, scene: Scene, tx: TxId, s': Session, tries: nat) {
    && Contained(s') && s'.isOpen && s'.transactions == {tx} && s.next <= tx
    && (forall other :: Live(s', other) <==> other == tx)
    && 0 < tries <= |scene.replicas| + 10
    && s'.closes == s.closes + 1 && s'.opens == s.opens + 1 + Reopened(scene.execs, tries - 1, scene.failure)
  }

  /** The first half of a reconnect: whatever the direct attempt left is given up and the session is closed. */
  ghost predicate ReadyToReconnect(s: Session, accepted: bool, closed: Session) {
    && Emptied(closed) && Contained(closed) && !closed.isOpen && s.next <= closed.next && closed.opens == s.opens
    && closed.closes == s.closes + if accepted then 1 else 0
  }

  lemma ClosesBeforeReconnecting(s: Session, f: Failure, accepted: bool)
    requires Contained(s) && s.isOpen && Real(f)
    ensures CloseSession(FailTx(s, f), accepted).0 == accepted
    ensures ReadyToReconnect(s, accepted, CloseSession(FailTx(s, f), accepted).1)
  {
    FailedOpenLeavesNothing(s, f);
    ClosingEmpties(FailTx(s, f));
  }

  lemma HandsTheNewOne(s: Session, scene: Scene, closed: Session, tried: Session, tries: nat)
    requires ReadyToReconnect(s, true, closed) && OneMore(closed, tried) && 0 < tries <= |scene.replicas| + 10
    requires tried.opens == closed.opens + Reopened(scene.execs, tries - 1, scene.failure) + 1
    ensures GotThrough(s, scene, tried.next - 1, Hand(tried).1, tries)
  {
    assert Live(tried, tried.next - 1);
  }

  lemma GivesUp(s: Session, scene: Scene, closed: Session, tried: Session, tries: nat)
    requires ReadyToReconnect(s, true, closed) && SameOpen(closed, tried) && scene.closeAccepted
    requires tried.opens == closed.opens + Reopened(scene.execs, tries, scene.failure)
    requires tried.isOpen == (Reopened(scene.execs, tries, scene.failure) > 0)
    ensures GaveUp(s, scene, tried, tries)
  {
  }

  /**
   A reconnect, however many replicas were tried and however far each attempt got: the session afterwards holds
   exactly the new transaction, or none when the call throws. Either way every attempt that reopened the session
   before failing has left one more session open at a server, and then a session whose call threw may be open.
   */
  lemma ReconnectHandsOne(s: Session, scene: Scene)
    requires Contained(s) && s.isOpen && scene.direct.Some? && RealScene(scene)
    ensures var (tx, s') := NewTransaction(s, scene);
            var tries := |Executions(ReconnectRun(scene).1.trace)|;
            && (tx.Some? <==> scene.closeAccepted && ReconnectRun(scene).0.Ok?)
            && (if tx.Some? then GotThrough(s, scene, tx.value, s', tries) else GaveUp(s, scene, s', tries))
  {
    ClosesBeforeReconnecting(s, scene.direct.value, scene.closeAccepted);
    if scene.closeAccepted {
      var closed := CloseSession(FailTx(s, scene.direct.value), true).1;
      FailsafeOneSuccess(scene.world, scene.replicas, scene.execs, scene.fetches);
      var xs := Executions(ReconnectRun(scene).1.trace);
      AttemptsOpenOne(closed, xs, ReconnectRun(scene).0, scene.execs, scene.failure);
      var tried := Attempts(closed, xs, scene.execs, scene.failure);
      if ReconnectRun(scene).0.Ok? {
        HandsTheNewOne(s, scene, closed, tried, |xs|);
      } else {
        GivesUp(s, scene, closed, tried, |xs|);
      }
    }
  }

  // --- What each operation does, in every reachable session --------------------------------

  /** Nothing but transaction `tx` differs. */
  ghost predicate OnlyDiffersIn(s: Session, s': Session, tx: TxId) {
    && s'.isOpen == s.isOpen && s'.opens == s.opens && s'.closes == s.closes
    && forall other :: other != tx ==>
         (other in s'.transactions <==> other in s.transactions) && (Live(s', other) <==> Live(s, other))
  }

  /**
   `transaction` on an open session that gets its transaction at once: a new one, never seen before, open and in
   the set, and nothing else changes. A session that is not open refuses and stays as it is.
   */
  lemma CallHandsNewOne(events: seq<Event>, scene: Scene)
    requires forall i :: 0 <= i < |events| ==> Possible(events[i])
    ensures var s := Run(events);
            var (tx, s') := NewTransaction(s, scene);
            && (s.isOpen && scene.direct.None? ==>
                  && tx.Some? && tx.value !in s.live && tx.value !in s.transactions
                  && Live(s', tx.value) && tx.value in s'.transactions && OnlyDiffersIn(s, s', tx.value))
            && (!s.isOpen ==> tx.None? && s' == s)
  {
    SessionContainment(events);
  }

  /** Closing a transaction ends it and takes it out of the set; a stream that ends by itself stays in the set. */
  lemma TransactionEnds(s: Session, tx: TxId)
    ensures var s' := Step(s, CloseTransaction(tx));
            !Live(s', tx) && tx !in s'.transactions && OnlyDiffersIn(s, s', tx)
    ensures var s' := Step(s, StreamEnds(tx));
            !Live(s', tx) && s'.transactions == s.transactions && OnlyDiffersIn(s, s', tx)
  {
  }

  /**
   `close` and a pulse answered "not alive" empty an open session and leave one that is not open alone; only `close`
   tells the server. A pulse that fails changes nothing but what the session says of itself.
   */
  lemma SessionEnds(events: seq<Event>, accepted: bool)
    requires forall i :: 0 <= i < |events| ==> Possible(events[i])
    ensures var s, s' := Run(events), Step(Run(events), Close(accepted));
            if s.isOpen then && !s'.isOpen && Emptied(s') && s'.opens == s.opens
                             && s'.closes == s.closes + (if accepted then 1 else 0)
            else s' == s
    ensures var s, s' := Run(events), Step(Run(events), PulseSaysDead);
            if s.isOpen then !s'.isOpen && Emptied(s') && s'.opens == s.opens && s'.closes == s.closes else s' == s
    ensures Step(Run(events), PulseFails) == Run(events).(isOpen := false)
  {
    SessionContainment(events);
    ClosingEmpties(Run(events));
  }

  lemma CallKeepsContained(s: Session, scene: Scene)
    requires Contained(s) && RealScene(scene)
    ensures Contained(NewTransaction(s, scene).1)
    ensures !NewTransaction(s, scene).1.isOpen && s.isOpen ==> Emptied(NewTransaction(s, scene).1)
  {
    if s.isOpen && scene.direct.Some? { ReconnectHandsOne(s, scene); }
  }

  lemma StepKeepsContained(s: Session, e: Event)
    requires Contained(s) && Possible(e)
    ensures Contained(Step(s, e))
    ensures !e.PulseFails? && (s.isOpen || Emptied(s)) ==> Step(s, e).isOpen || Emptied(Step(s, e))
  {
    ClosingEmpties(s);
    if e.Call? { CallKeepsContained(s, e.scene); }
  }

  /**
   Containment over every run: an open transaction is always in the session's set; and unless a pulse request
   has failed, a session that is not open holds no transaction and has none open.
   */
  lemma {:induction false} SessionContainment(events: seq<Event>)
    requires forall i :: 0 <= i < |events| ==> Possible(events[i])
    ensures Contained(Run(events))
    ensures (forall i :: 0 <= i < |events| ==> !events[i].PulseFails?) ==> Run(events).isOpen || Emptied(Run(events))
  {
    if events != [] {
      SessionContainment(Front(events));
      StepKeepsContained(Run(Front(events)), Last(events));
    }
  }

  lemma RunSnoc(events: seq<Event>, e: Event)
    ensures Run(events + [e]) == Step(Run(events), e)
  {
    assert Front(events + [e]) == events && Last(events + [e]) == e;
  }

  /** `close` leaves no transaction open exactly when the session said it was open, or there was none to close. */
  lemma CloseIsComplete(events: seq<Event>, accepted: bool)
    requires forall i :: 0 <= i < |events| ==> Possible(events[i])
    ensures NoneLive(Run(events + [Close(accepted)])) <==> Run(events).isOpen || NoneLive(Run(events))
  {
    SessionEnds(events, accepted);
    RunSnoc(events, Close(accepted));
  }

  /** A failed pulse makes the difference: the session calls itself closed and `close` does nothing. */
  lemma FailedPulseStrands(scene: Scene, accepted: bool)
    requires scene.direct.None?
    ensures var s := Run([Call(scene), PulseFails, Close(accepted)]);
            !s.isOpen && s.transactions == {0} && Live(s, 0)
  {
    var e1, e2, e3 := [Call(scene)], [Call(scene), PulseFails], [Call(scene), PulseFails, Close(accepted)];
    assert Front(e1) == [] && Front(e2) == e1 && Front(e3) == e2;
    assert Run(e1) == Session(true, {0}, map[0 := true], 1, 1, 0);
  }
}
