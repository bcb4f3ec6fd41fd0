/**
 The mutable objects of the failover layer and of sessions (`TypeDBDatabaseImpl.ts`, `TypeDBDatabaseManagerImpl.ts`,
 `TypeDBSessionImpl.ts`): the loops, proved to compute the functions of `Failover` and `Sessions` for every server
 behaviour.
 */
module Databases {
  import opened Protocol
  import opened Failover
  import opened FailoverRules
  import S = Sessions
  import T = Transport

  /**
   A database. When the task is the reconnect task of a session, `session` is that session and execution number n,
   if it fails, fails like `failure(n)`.
   */
  class Database {
    const world: World
    const session: SessionObject?
    const failure: nat -> S.Failure
    var replicas: seq<Replica>
    var execs: nat
    var fetches: nat
    ghost var trace: seq<Entry>
    ghost const base: S.Session
    ghost const first: nat

    ghost function View(): State
      reads this
    {
      State(replicas, execs, fetches, trace)
    }

    /** The session is where the executions so far have brought it. */
    ghost predicate Valid()
      reads this, session
    {
      && execs == first + |Executions(trace)|
      && (session != null ==> session.View() == S.Attempts(base, Executions(trace), first, failure))
    }

    constructor (world: World, replicas: seq<Replica>, execs: nat, fetches: nat, session: SessionObject?,
                 failure: nat -> S.Failure)
      ensures this.world == world && this.session == session && this.failure == failure && first == execs
      ensures Valid() && View() == Start(replicas, execs, fetches) && (session != null ==> base == session.View())
    {
      this.world, this.session, this.failure := world, session, failure;
      this.replicas, this.execs, this.fetches, trace := replicas, execs, fetches, [];
      base, first := if session != null then session.View() else S.Fresh, execs;
    }

    /** Records anything but an execution. */
    ghost method Note(e: Entry)
      requires Valid() && !e.Executed?
      modifies this`trace
      ensures Valid() && trace == old(trace) + [e]
    {
      RecordedLast(trace, e);
      assert Executions(trace + [e]) == Executions(trace);
      trace := trace + [e];
    }

    /** `primaryReplica`: filter, then a left fold that keeps the earlier of equal terms. */
    method PrimaryReplica() returns (r: Option<Replica>)
      ensures r == Primary(replicas)
    {
      r := None;
      for i := 0 to |replicas|
        invariant r == Primary(replicas[..i])
      {
        PrimarySnoc(replicas[..i], replicas[i]);
        assert replicas[..i] + [replicas[i]] == replicas[..i + 1];
        if replicas[i].primary && (r.None? || replicas[i].term > r.value.term) { r := Some(replicas[i]); }
      }
      assert replicas[..|replicas|] == replicas;
    }

    method FetchReplicas() returns (r: Outcome<seq<Replica>>)
      requires Valid()
      modifies this`fetches, this`trace
      ensures Valid() && (r, View()) == FetchFrom(world, old(View()), world.servers)
    {
      var left := world.servers;
      while left > 0
        invariant Valid() && FetchFrom(world, View(), left) == FetchFrom(world, old(View()), world.servers)
      {
        r := world.fetch(fetches);
        Note(Asked(r));
        fetches := fetches + 1;
        if r.Ok? || !TryNextServer(r.error) { return; }
        left := left - 1;
      }
      r := Err(Exhausted);
    }

    /** One round: fetch, and adopt the list. */
    method FetchOnce() returns (error: Option<Error>)
      requires Valid()
      modifies this
      ensures Valid() && (error, View()) == FetchRound(world, old(View()))
    {
      Note(FetchBegun);
      var fetched := FetchReplicas();
      if fetched.Err? { return Some(fetched.error); }
      replicas := fetched.value;
      error := None;
    }

    method SeekPrimaryReplica() returns (error: Option<Error>)
      requires Valid()
      modifies this
      ensures Valid() && (error, View()) == Seek(world, old(View()))
    {
      Note(SearchBegun);
      error := SeekLoop();
      Note(SearchEnded(error));
    }

    method SeekLoop() returns (error: Option<Error>)
      requires Valid()
      modifies this
      ensures Valid() && (error, View()) == SeekRounds(world, old(View()), FETCH_REPLICAS_MAX_RETRIES)
    {
      var left := FETCH_REPLICAS_MAX_RETRIES;
      while left > 0
        invariant Valid()
        invariant SeekRounds(world, View(), left) == SeekRounds(world, old(View()), FETCH_REPLICAS_MAX_RETRIES)
      {
        error := FetchOnce();
        if error.Some? { return; }
        var primary := PrimaryReplica();
        if primary.Some? { return; }
        Note(Waited);
        left := left - 1;
      }
      error := Some(Exhausted);
    }

    /** The task at one replica; if it is a reconnect, the session makes its attempt here. */
    method RunTask(at: Replica) returns (r: Outcome<int>)
      requires Valid()
      modifies this`execs, this`trace, session
      ensures Valid() && (r, View()) == Execute(world, old(View()), at)
    {
      r := world.exec(execs);
      if session != null { session.Reconnect(r, failure(execs)); }
      RecordedLast(trace, Executed(at, r));
      S.AttemptsSnoc(base, Executions(trace), Executed(at, r), first, failure);
      trace := trace + [Executed(at, r)];
      execs := execs + 1;
    }

    method RunOnPrimaryReplica() returns (r: Outcome<int>)
      requires Valid()
      modifies this, session
      ensures Valid() && (r, View()) == RunOnPrimary(world, old(View()))
    {
      var primary := PrimaryReplica();
      if primary.None? {
        var error := SeekPrimaryReplica();
        if error.Some? { return Err(error.value); }
      }
      var left := PRIMARY_REPLICA_TASK_MAX_RETRIES;
      while left > 0
        invariant Valid() && PrimaryRounds(world, View(), left) == RunOnPrimary(world, old(View()))
      {
        primary := PrimaryReplica();
        if primary.None? { return Err(Foreign(0)); }
        r := RunTask(primary.value);
        if r.Ok? || !Retryable(r.error) { return; }
        Note(Waited);
        var error := SeekPrimaryReplica();
        if error.Some? { return Err(error.value); }
        left := left - 1;
      }
      r := Err(Exhausted);
    }

    method RunOnAnyReplica() returns (r: Outcome<int>)
      requires Valid()
      modifies this`execs, this`trace, session
      ensures Valid() && (r, View()) == AnyFrom(world, old(View()), 0)
    {
      for i := 0 to |replicas|
        invariant Valid() && AnyFrom(world, View(), i) == AnyFrom(world, old(View()), 0)
      {
        r := RunTask(replicas[i]);
        if r.Ok? || !Is(r.error, UnableToConnect) { return; }
      }
      r := Err(Exhausted);
    }

    method RunFailsafeTask() returns (r: Outcome<int>)
      requires Valid()
      modifies this, session
      ensures Valid() && (r, View()) == RunFailsafe(world, old(View()))
    {
      r := RunOnAnyReplica();
      if r.Err? && Is(r.error, ReplicaNotPrimary) { r := RunOnPrimaryReplica(); }
    }
  }

  // --- The session object ------------------------------------------------------------------

  class SessionObject {
    var isOpen: bool
    var transactions: set<S.TxId>
    var live: map<S.TxId, bool>
    var next: S.TxId
    var opens: nat
    var closes: nat

    ghost function View(): S.Session
      reads this
    {
      S.Session(isOpen, transactions, live, next, opens, closes)
    }

    constructor ()
      ensures View() == S.Fresh
    {
      isOpen, transactions, live, next, opens, closes := true, {}, map[], 0, 1, 0;
    }

    /** `Transaction.close` and `closed`. */
    method CloseOne(tx: S.TxId)
      modifies this
      ensures View() == S.CloseTx(old(View()), tx)
    {
      if tx in live { live := live[tx := false]; }
      transactions := transactions - {tx};
    }

    /** `closeResources`: each transaction removes itself from the set while it is walked. */
    method CloseAll()
      modifies this
      ensures View() == S.CloseResources(old(View()))
    {
      isOpen := false;
      while transactions != {}
        invariant transactions <= old(transactions) && !isOpen
        invariant next == old(next) && opens == old(opens) && closes == old(closes)
        invariant live == map tx | tx in old(live) :: old(live)[tx] && (tx in old(transactions) ==> tx in transactions)
        decreases |transactions|
      {
        var tx :| tx in transactions;
        CloseOne(tx);
      }
    }

    method CloseIt(accepted: bool) returns (ok: bool)
      modifies this
      ensures (ok, View()) == S.CloseSession(old(View()), accepted)
    {
      if !isOpen { return true; }
      CloseAll();
      if accepted { closes := closes + 1; }
      ok := accepted;
    }

    /** A transaction that failed to open like this; its stream, if there was one, is as its life left it. */
    method FailToOpen(f: S.Failure)
      modifies this
      ensures View() == S.FailTx(old(View()), f)
    {
      if f.OpenFailed? {
        var streamIsOpen := T.Run(f.events).Some? && T.Run(f.events).value.isOpen;
        live, next := live[next := streamIsOpen], next + 1;
      }
    }

    /** The reconnect task at one server: reopen the session there, then open a transaction. */
    method Reconnect(outcome: Outcome<int>, f: S.Failure)
      modifies this
      ensures View() == S.Attempt(old(View()), outcome, f)
    {
      if outcome.Err? && f.SessionRefused? { return; }
      isOpen, opens := true, opens + 1;
      if outcome.Ok? {
        live, next := live[next := true], next + 1;
      } else {
        FailToOpen(f);
      }
    }

    /** `transaction`: at once, or through the failover layer, which runs the reconnect task. */
    method NewTransactionFor(scene: S.Scene) returns (tx: Option<S.TxId>)
      modifies this
      ensures (tx, View()) == S.NewTransaction(old(View()), scene)
    {
      if !isOpen { return None; }
      if scene.direct.None? {
        live, next := live[next := true], next + 1;
      } else {
        FailToOpen(scene.direct.value);
        var accepted := CloseIt(scene.closeAccepted);
        if !accepted { return None; }
        var database := new Database(scene.world, scene.replicas, scene.execs, scene.fetches, this, scene.failure);
        var outcome := database.RunFailsafeTask();
        if outcome.Err? || next == 0 { return None; }
      }
      transactions := transactions + {next - 1};
      tx := Some(next - 1);
    }
  }

  // --- The database manager ----------------------------------------------------------------

  datatype Failure = Failure(server: nat, error: Error)

  datatype ManagerResult = Answer(value: int) | Propagated(error: Error) | AllNodesFailed(failures: seq<Failure>)

  /** What server number `i` answered. */
  function Tried(w: World, execs: nat, i: nat): Outcome<int> {
    w.exec(execs + i)
  }

  /** The outcome that ends the manager's loop: a success, or a refusal that names the server a secondary. */
  predicate Decisive(o: Outcome<int>) {
    o.Ok? || o == Err(DriverError(Some(ReplicaNotPrimary)))
  }

  ghost predicate NoneDecides(w: World, execs: nat, n: nat) {
    forall i: nat :: i < n ==> !Decisive(Tried(w, execs, i))
  }

  /** The outcome of a primary run, as the manager passes it on. */
  ghost predicate PassedOn(r: ManagerResult, outcome: Outcome<int>) {
    match outcome
    case Ok(v) => r == Answer(v)
    case Err(e) => r == Propagated(e)
  }

  /** A run of the task at primaries, from this list on, that follows the rules and comes to this. */
  ghost predicate RunComesTo(w: World, rs: seq<Replica>, execs: nat, fetches: nat, trace: seq<Entry>,
                             outcome: Outcome<int>, r: ManagerResult)
  {
    PrimaryRules(Setting(w, rs, execs, fetches, 0), [], trace, outcome) && PassedOn(r, outcome)
  }

  /** After a refusal the list is fetched; if that fails so does the call, else the task is run at the primary. */
  ghost predicate FetchedComesTo(w: World, execs: nat, fetched: Outcome<seq<Replica>>, end: nat, r: ManagerResult) {
    match fetched
    case Err(e) => r == Propagated(e)
    case Ok(rs) => exists trace, outcome :: RunComesTo(w, rs, execs, end, trace, outcome, r)
  }

  ghost predicate HandedOverTo(w: World, execs: nat, fetches: nat, r: ManagerResult) {
    exists fetched, end ::
      FirstAnswer(w, fetches, w.servers, fetched, end) && FetchedComesTo(w, execs, fetched, end, r)
  }

  ghost predicate DecidedAt(w: World, execs: nat, fetches: nat, r: ManagerResult, k: nat) {
    && k < w.servers && Decisive(Tried(w, execs, k)) && NoneDecides(w, execs, k)
    && match Tried(w, execs, k)
       case Ok(v) => r == Answer(v)
       case Err(_) => HandedOverTo(w, execs + k + 1, fetches, r)
  }

  /** Every server's failure once, in order. */
  ghost predicate ListsAll(w: World, execs: nat, failures: seq<Failure>) {
    forall i :: 0 <= i < |failures| ==> failures[i].server == i && Tried(w, execs, i) == Err(failures[i].error)
  }

  /** The manager's `runFailsafe` in one sentence: the first decisive server decides, or all failures are listed. */
  ghost predicate FirstDecides(w: World, execs: nat, fetches: nat, r: ManagerResult) {
    || (exists k: nat :: DecidedAt(w, execs, fetches, r, k))
    || (&& NoneDecides(w, execs, w.servers) && r.AllNodesFailed?
        && |r.failures| == w.servers && ListsAll(w, execs, r.failures))
  }

  // --- That sentence leaves no choice ------------------------------------------------------

  lemma FetchedIsUnique(w: World, execs: nat, fetched: Outcome<seq<Replica>>, end: nat, r: ManagerResult,
                        r': ManagerResult)
    requires FetchedComesTo(w, execs, fetched, end, r) && FetchedComesTo(w, execs, fetched, end, r')
    ensures r == r'
  {
    if fetched.Ok? {
      var trace, outcome :| RunComesTo(w, fetched.value, execs, end, trace, outcome, r);
      var trace', outcome' :| RunComesTo(w, fetched.value, execs, end, trace', outcome', r');
      RulesDetermine(Setting(w, fetched.value, execs, end, 0), [], trace, outcome, trace', outcome');
    }
  }

  lemma HandOverIsUnique(w: World, execs: nat, fetches: nat, r: ManagerResult, r': ManagerResult)
    requires HandedOverTo(w, execs, fetches, r) && HandedOverTo(w, execs, fetches, r')
    ensures r == r'
  {
    var fetched, end :| FirstAnswer(w, fetches, w.servers, fetched, end) && FetchedComesTo(w, execs, fetched, end, r);
    var fetched', end' :|
      FirstAnswer(w, fetches, w.servers, fetched', end') && FetchedComesTo(w, execs, fetched', end', r');
    FirstAnswerIsUnique(w, fetches, w.servers, fetched, end, fetched', end');
    FetchedIsUnique(w, execs, fetched, end, r, r');
  }

  lemma FirstIsUnique(w: World, execs: nat, k: nat, k': nat)
    requires Decisive(Tried(w, execs, k)) && NoneDecides(w, execs, k)
    requires Decisive(Tried(w, execs, k')) && NoneDecides(w, execs, k')
    ensures k == k'
  {
  }

  lemma DecidedIsUnique(w: World, execs: nat, fetches: nat, r: ManagerResult, k: nat, r': ManagerResult, k': nat)
    requires DecidedAt(w, execs, fetches, r, k) && DecidedAt(w, execs, fetches, r', k')
    ensures r == r'
  {
    FirstIsUnique(w, execs, k, k');
    SameDecision(w, execs, fetches, r, r', k);
  }

  lemma SameDecision(w: World, execs: nat, fetches: nat, r: ManagerResult, r': ManagerResult, k: nat)
    requires DecidedAt(w, execs, fetches, r, k) && DecidedAt(w, execs, fetches, r', k)
    ensures r == r'
  {
    if Tried(w, execs, k).Err? { HandOverIsUnique(w, execs + k + 1, fetches, r, r'); }
  }

  lemma ListIsUnique(w: World, execs: nat, a: seq<Failure>, b: seq<Failure>)
    requires |a| == |b| && ListsAll(w, execs, a) && ListsAll(w, execs, b)
    ensures a == b
  {
    assert forall i :: 0 <= i < |a| ==> a[i] == b[i];
  }

  lemma DecisionIsUnique(w: World, execs: nat, fetches: nat, r: ManagerResult, r': ManagerResult)
    requires FirstDecides(w, execs, fetches, r) && FirstDecides(w, execs, fetches, r')
    ensures r == r'
  {
    if k: nat :| DecidedAt(w, execs, fetches, r, k) {
      if k': nat :| DecidedAt(w, execs, fetches, r', k') {
        DecidedIsUnique(w, execs, fetches, r, k, r', k');
      }
    } else {
      ListIsUnique(w, execs, r.failures, r'.failures);
    }
  }

  /** `TypeDBDatabaseImpl.get`, and then `runOnPrimaryReplica` on what it returns. */
  method HandOverToPrimary(w: World, execs: nat, fetches: nat) returns (r: ManagerResult)
    ensures HandedOverTo(w, execs, fetches, r)
  {
    FetchFindsFirst(w, Start([], execs, fetches), w.servers);
    var finder := new Database(w, [], execs, fetches, null, n => S.SessionRefused);
    var fetched := finder.FetchReplicas();
    ghost var end := finder.fetches;
    if fetched.Err? {
      r := Propagated(fetched.error);
      assert FetchedComesTo(w, execs, fetched, end, r);
      return;
    }
    PrimaryRunFollowsRules(w, fetched.value, execs, end);
    var database := new Database(w, fetched.value, execs, finder.fetches, null, n => S.SessionRefused);
    var outcome := database.RunOnPrimaryReplica();
    r := match outcome case Ok(v) => Answer(v) case Err(e) => Propagated(e);
    assert RunComesTo(w, fetched.value, execs, end, database.trace, outcome, r);
    assert FetchedComesTo(w, execs, fetched, end, r);
  }

  /** `runFailsafe` of the manager: ask the servers in order, collecting the errors. */
  method ManagerRunFailsafe(w: World, execs: nat, fetches: nat) returns (r: ManagerResult)
    ensures FirstDecides(w, execs, fetches, r)
  {
    var failures: seq<Failure> := [];
    for i := 0 to w.servers
      invariant NoneDecides(w, execs, i)
      invariant |failures| == i && ListsAll(w, execs, failures)
    {
      var outcome := w.exec(execs + i);
      assert outcome == Tried(w, execs, i);
      if outcome.Ok? {
        r := Answer(outcome.value);
        assert DecidedAt(w, execs, fetches, r, i);
        return;
      }
      if Is(outcome.error, ReplicaNotPrimary) {
        r := HandOverToPrimary(w, execs + i + 1, fetches);
        assert DecidedAt(w, execs, fetches, r, i);
        return;
      }
      failures := failures + [Failure(i, outcome.error)];
    }
    r := AllNodesFailed(failures);
  }
}
