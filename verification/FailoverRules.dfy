/**
 Failover told the other way round (`TypeDBDatabaseImpl.ts`): not as nested retry loops but as one rule that says,
 from the history of a call alone, what happens next. The loops are proved to follow the rule to its end, and the
 rule leaves no choice, so it fixes the trace and the outcome of every call.
 */
module FailoverRules {
  import opened Protocol
  import opened Sequences
  import opened Failover

  datatype Verdict = Do(entry: Entry) | Stop(outcome: Outcome<int>) | HandOver

  // --- Reading a history -------------------------------------------------------------------

  /** How many requests for the replica list were made. */
  function Asks(trace: seq<Entry>): nat {
    if trace == [] then 0 else Asks(Front(trace)) + if Last(trace).Asked? then 1 else 0
  }

  /** How many of them in the round under way. */
  function AsksNow(trace: seq<Entry>): nat {
    if trace == [] || Last(trace).FetchBegun? then 0 else AsksNow(Front(trace)) + if Last(trace).Asked? then 1 else 0
  }

  /** How many rounds the search under way has begun. */
  function RoundsNow(trace: seq<Entry>): nat {
    if trace == [] || Last(trace).SearchBegun? then 0
    else RoundsNow(Front(trace)) + if Last(trace).FetchBegun? then 1 else 0
  }

  /** A search has begun and not ended. */
  predicate Searching(trace: seq<Entry>) {
    trace != [] && !Last(trace).SearchEnded? && (Last(trace).SearchBegun? || Searching(Front(trace)))
  }

  lemma ReadSnoc(trace: seq<Entry>, e: Entry)
    ensures Asks(trace + [e]) == Asks(trace) + if e.Asked? then 1 else 0
    ensures AsksNow(trace + [e]) == if e.FetchBegun? then 0 else AsksNow(trace) + if e.Asked? then 1 else 0
    ensures RoundsNow(trace + [e]) == if e.SearchBegun? then 0 else RoundsNow(trace) + if e.FetchBegun? then 1 else 0
    ensures Searching(trace + [e]) == (!e.SearchEnded? && (e.SearchBegun? || Searching(trace)))
    ensures Executions(trace + [e]) == Executions(trace) + if e.Executed? then [e] else []
  {
    assert Front(trace + [e]) == trace && Last(trace + [e]) == e;
  }

  // --- The rule of `runOnPrimaryReplica` ---------------------------------------------------

  /**
   A call: the servers, the list at the start, how far the oracle had been read, and how many executions had
   already been made elsewhere when the primary was turned to.
   */
  datatype Setting = Setting(w: World, initial: seq<Replica>, execs: nat, fetches: nat, from: nat)

  /** The next execution is at the primary of the list in force. */
  function AtThePrimary(c: Setting, trace: seq<Entry>): Verdict {
    match Primary(Current(c.initial, trace))
    case Some(at) => Do(Executed(at, c.w.exec(c.execs + |Executions(trace)|)))
    case None => Stop(Err(Foreign(0)))
  }

  /** The next server is asked, as long as there is one this round has not asked. */
  function AskNext(c: Setting, trace: seq<Entry>): Verdict {
    if AsksNow(trace) < c.w.servers then Do(Asked(c.w.fetch(c.fetches + Asks(trace))))
    else Do(SearchEnded(Some(DriverError(None))))
  }

  /** What follows what, once the primary has been turned to. */
  function PrimaryNext(c: Setting, trace: seq<Entry>): Verdict {
    if |trace| <= c.from then
      if Primary(Current(c.initial, trace)).Some? then AtThePrimary(c, trace) else Do(SearchBegun)
    else
      match Last(trace)
      case Executed(_, Ok(v)) => Stop(Ok(v))
      case Executed(_, Err(e)) =>
        if e == DriverError(Some(UnableToConnect)) || e == DriverError(Some(ReplicaNotPrimary)) then Do(Waited)
        else Stop(Err(e))
      case Waited =>
        if !Searching(trace) then Do(SearchBegun)
        else if RoundsNow(trace) < 10 then Do(FetchBegun)
        else Do(SearchEnded(Some(DriverError(None))))
      case SearchBegun => Do(FetchBegun)
      case FetchBegun => AskNext(c, trace)
      case Asked(Err(e)) => if PassOver(Err(e)) then AskNext(c, trace) else Do(SearchEnded(Some(e)))
      case Asked(Ok(rs)) => if Primary(rs).Some? then Do(SearchEnded(None)) else Do(Waited)
      case SearchEnded(Some(e)) => Stop(Err(e))
      case SearchEnded(None) =>
        if |Executions(trace)| < c.from + 10 then AtThePrimary(c, trace) else Stop(Err(DriverError(None)))
  }

  /** From `a` on, every entry of `b` is the one the rule asks for. */
  ghost predicate Follows(c: Setting, a: seq<Entry>, b: seq<Entry>) {
    c.from <= |a| && a <= b && forall i :: |a| <= i < |b| ==> PrimaryNext(c, b[..i]) == Do(b[i])
  }

  /** A whole call: the history follows the rule, and the rule ends it with this outcome. */
  ghost predicate PrimaryRules(c: Setting, before: seq<Entry>, trace: seq<Entry>, outcome: Outcome<int>) {
    Follows(c, before, trace) && PrimaryNext(c, trace) == Stop(outcome)
  }

  lemma FollowsOn(c: Setting, x: seq<Entry>, y: seq<Entry>, z: seq<Entry>)
    requires Follows(c, x, y) && Follows(c, y, z)
    ensures Follows(c, x, z)
  {
    forall i | |x| <= i < |z| ensures PrimaryNext(c, z[..i]) == Do(z[i]) {
      if i < |y| { assert z[..i] == y[..i] && z[i] == y[i]; }
    }
  }

  lemma FollowsOne(c: Setting, trace: seq<Entry>, e: Entry)
    requires c.from <= |trace| && PrimaryNext(c, trace) == Do(e)
    ensures Follows(c, trace, trace + [e])
  {
    assert (trace + [e])[..|trace|] == trace;
  }

  lemma FollowsSelf(c: Setting, trace: seq<Entry>)
    requires c.from <= |trace|
    ensures Follows(c, trace, trace)
  {
  }

  // --- The rule leaves no choice -----------------------------------------------------------

  lemma SameEntry(a: seq<Entry>, b: seq<Entry>, n: nat, next: Verdict)
    requires 0 < n <= |a| && n <= |b| && a[..n - 1] == b[..n - 1] && next == Do(a[n - 1]) == Do(b[n - 1])
    ensures a[..n] == b[..n]
  {
    assert a[..n] == a[..n - 1] + [a[n - 1]] && b[..n] == b[..n - 1] + [b[n - 1]];
  }

  lemma {:induction false} SamePrefix(c: Setting, before: seq<Entry>, a: seq<Entry>, b: seq<Entry>, n: nat)
    requires Follows(c, before, a) && Follows(c, before, b) && |before| <= n <= |a| && n <= |b|
    ensures a[..n] == b[..n]
  {
    if n == |before| {
      assert a[..n] == before == b[..n];
    } else {
      SamePrefix(c, before, a, b, n - 1);
      SameEntry(a, b, n, PrimaryNext(c, a[..n - 1]));
    }
  }

  lemma NotShorter(c: Setting, before: seq<Entry>, a: seq<Entry>, o: Outcome<int>, b: seq<Entry>)
    requires PrimaryRules(c, before, a, o) && Follows(c, before, b)
    ensures |b| <= |a|
  {
    if |a| <= |b| {
      SamePrefix(c, before, a, b, |a|);
      assert a[..|a|] == a;
    }
  }

  /** Two calls that follow the rule from the same point are the same call. */
  lemma RulesDetermine(c: Setting, before: seq<Entry>, a: seq<Entry>, o: Outcome<int>, b: seq<Entry>, o': Outcome<int>)
    requires PrimaryRules(c, before, a, o) && PrimaryRules(c, before, b, o')
    ensures a == b && o == o'
  {
    NotShorter(c, before, a, o, b);
    NotShorter(c, before, b, o', a);
    SamePrefix(c, before, a, b, |a|);
    assert a[..|a|] == a && b[..|b|] == b;
  }

  // --- The loops follow the rule -----------------------------------------------------------

  /** The state of the loops and the history agree on how far the oracle has been read. */
  ghost predicate Linked(c: Setting, s: State) {
    && c.from <= |s.trace|
    && s.execs == c.execs + |Executions(s.trace)|
    && s.fetches == c.fetches + Asks(s.trace)
  }

  /** Nothing was executed, and the same search is in the same round. */
  ghost predicate SameRound(a: seq<Entry>, b: seq<Entry>) {
    Executions(b) == Executions(a) && Searching(b) == Searching(a) && RoundsNow(b) == RoundsNow(a)
  }

  /** The rule asks the next server. */
  ghost predicate Asking(c: Setting, trace: seq<Entry>) {
    && |trace| > c.from
    && (Last(trace).FetchBegun? || (Last(trace).Asked? && PassOver(Last(trace).result)))
  }

  lemma AskingAsks(c: Setting, trace: seq<Entry>)
    requires Asking(c, trace)
    ensures PrimaryNext(c, trace) == AskNext(c, trace)
  {
  }

  lemma AskFollows(c: Setting, s: State)
    requires Linked(c, s) && Asking(c, s.trace) && AsksNow(s.trace) < c.w.servers
    ensures var s1 := AskOne(c.w, s);
            && Follows(c, s.trace, s1.trace) && Linked(c, s1) && SameRound(s.trace, s1.trace)
            && AsksNow(s1.trace) == AsksNow(s.trace) + 1 && |s1.trace| > c.from
            && Last(s1.trace) == Asked(c.w.fetch(s.fetches))
  {
    AskingAsks(c, s.trace);
    FollowsOne(c, s.trace, Asked(c.w.fetch(s.fetches)));
    ReadSnoc(s.trace, Asked(c.w.fetch(s.fetches)));
  }

  /** How a round ends: at an answer that is not passed over, or with no server left. */
  ghost predicate RoundEnds(c: Setting, trace: seq<Entry>, r: Outcome<seq<Replica>>) {
    && |trace| > c.from
    && match r
       case Ok(rs) => Last(trace) == Asked(Ok(rs))
       case Err(e) => PrimaryNext(c, trace) == Do(SearchEnded(Some(e)))
  }

  lemma AnswerEndsRound(c: Setting, trace: seq<Entry>, r: Outcome<seq<Replica>>)
    requires |trace| > c.from && Last(trace) == Asked(r) && !PassOver(r)
    ensures RoundEnds(c, trace, r)
  {
  }

  lemma NoServerEndsRound(c: Setting, trace: seq<Entry>)
    requires Asking(c, trace) && AsksNow(trace) == c.w.servers
    ensures RoundEnds(c, trace, Err(DriverError(None)))
  {
    AskingAsks(c, trace);
  }

  ghost predicate Fetches(c: Setting, s: State, r: Outcome<seq<Replica>>, s': State) {
    Follows(c, s.trace, s'.trace) && Linked(c, s') && SameRound(s.trace, s'.trace) && RoundEnds(c, s'.trace, r)
  }

  lemma FetchesOn(c: Setting, s: State, s1: State, r: Outcome<seq<Replica>>, s': State)
    requires Follows(c, s.trace, s1.trace) && SameRound(s.trace, s1.trace) && Fetches(c, s1, r, s')
    ensures Fetches(c, s, r, s')
  {
    FollowsOn(c, s.trace, s1.trace, s'.trace);
  }

  lemma FetchStep(w: World, s: State, left: nat)
    requires left > 0
    ensures FetchFrom(w, s, left) ==
              if PassOver(w.fetch(s.fetches)) then FetchFrom(w, AskOne(w, s), left - 1)
              else (w.fetch(s.fetches), AskOne(w, s))
  {
  }

  lemma {:induction false} FetchFollows(c: Setting, s: State, left: nat)
    requires Linked(c, s) && Asking(c, s.trace) && AsksNow(s.trace) + left == c.w.servers
    ensures Fetches(c, s, FetchFrom(c.w, s, left).0, FetchFrom(c.w, s, left).1)
    decreases left, 1
  {
    if left == 0 {
      FollowsSelf(c, s.trace);
      NoServerEndsRound(c, s.trace);
    } else {
      FetchStep(c.w, s, left);
      AskFollows(c, s);
      FetchGoesOn(c, s, AskOne(c.w, s), c.w.fetch(s.fetches), left);
    }
  }

  lemma {:induction false} FetchGoesOn(c: Setting, s: State, s1: State, r: Outcome<seq<Replica>>, left: nat)
    requires left > 0 && Follows(c, s.trace, s1.trace) && Linked(c, s1) && SameRound(s.trace, s1.trace)
    requires |s1.trace| > c.from && Last(s1.trace) == Asked(r) && AsksNow(s1.trace) + (left - 1) == c.w.servers
    ensures if PassOver(r) then Fetches(c, s, FetchFrom(c.w, s1, left - 1).0, FetchFrom(c.w, s1, left - 1).1)
            else Fetches(c, s, r, s1)
    decreases left, 0
  {
    if PassOver(r) {
      FetchFollows(c, s1, left - 1);
      FetchesOn(c, s, s1, FetchFrom(c.w, s1, left - 1).0, FetchFrom(c.w, s1, left - 1).1);
    } else {
      AnswerEndsRound(c, s1.trace, r);
    }
  }

  // --- Searches ----------------------------------------------------------------------------

  lemma BeginsRound(c: Setting, s: State)
    requires Linked(c, s) && PrimaryNext(c, s.trace) == Do(FetchBegun)
    ensures var s0 := Record(s, FetchBegun);
            && Follows(c, s.trace, s0.trace) && Linked(c, s0) && Asking(c, s0.trace) && AsksNow(s0.trace) == 0
            && Executions(s0.trace) == Executions(s.trace) && Searching(s0.trace) == Searching(s.trace)
            && RoundsNow(s0.trace) == RoundsNow(s.trace) + 1
  {
    FollowsOne(c, s.trace, FetchBegun);
    ReadSnoc(s.trace, FetchBegun);
  }

  /** One round: it ends with a list that is adopted, or the search fails. */
  ghost predicate RoundDone(c: Setting, s: State, error: Option<Error>, s': State) {
    && Follows(c, s.trace, s'.trace) && Linked(c, s') && |s'.trace| > c.from
    && Executions(s'.trace) == Executions(s.trace) && Searching(s'.trace) == Searching(s.trace)
    && RoundsNow(s'.trace) == RoundsNow(s.trace) + 1
    && (error.Some? ==> PrimaryNext(c, s'.trace) == Do(SearchEnded(error)))
    && (error.None? ==> Last(s'.trace) == Asked(Ok(s'.replicas)))
  }

  lemma RoundFollows(c: Setting, s: State)
    requires Linked(c, s) && PrimaryNext(c, s.trace) == Do(FetchBegun)
    ensures RoundDone(c, s, FetchRound(c.w, s).0, FetchRound(c.w, s).1)
  {
    BeginsRound(c, s);
    var s0 := Record(s, FetchBegun);
    FetchFollows(c, s0, c.w.servers);
    FollowsOn(c, s.trace, s0.trace, FetchFrom(c.w, s0, c.w.servers).1.trace);
  }

  /** A search up to its end, which the rule asks for next. */
  ghost predicate SearchReady(c: Setting, s: State, error: Option<Error>, s': State) {
    && Follows(c, s.trace, s'.trace) && Linked(c, s') && Executions(s'.trace) == Executions(s.trace)
    && PrimaryNext(c, s'.trace) == Do(SearchEnded(error))
    && (error.None? ==> Last(s'.trace) == Asked(Ok(s'.replicas)) && Primary(s'.replicas).Some?)
  }

  lemma FoundEnds(c: Setting, s: State, s': State)
    requires RoundDone(c, s, None, s') && Primary(s'.replicas).Some?
    ensures SearchReady(c, s, None, s')
  {
  }

  /** Without a primary there is a wait, and then another round or, after ten, the end. */
  lemma WaitsOn(c: Setting, s: State, s': State, left: nat)
    requires RoundDone(c, s, None, s') && Primary(s'.replicas).None? && Searching(s.trace)
    requires 0 < left && RoundsNow(s.trace) + left == 10
    ensures var s2 := Record(s', Waited);
            && Follows(c, s.trace, s2.trace) && Linked(c, s2) && Executions(s2.trace) == Executions(s.trace)
            && Searching(s2.trace) && RoundsNow(s2.trace) + (left - 1) == 10
            && PrimaryNext(c, s2.trace) == Do(if left > 1 then FetchBegun else SearchEnded(Some(DriverError(None))))
  {
    FollowsOne(c, s'.trace, Waited);
    ReadSnoc(s'.trace, Waited);
    FollowsOn(c, s.trace, s'.trace, s'.trace + [Waited]);
  }

  lemma SearchReadyOn(c: Setting, s: State, s1: State, error: Option<Error>, s': State)
    requires Follows(c, s.trace, s1.trace) && Executions(s1.trace) == Executions(s.trace)
    requires SearchReady(c, s1, error, s')
    ensures SearchReady(c, s, error, s')
  {
    FollowsOn(c, s.trace, s1.trace, s'.trace);
  }

  lemma {:induction false} RoundsFollow(c: Setting, s: State, left: nat)
    requires Linked(c, s) && Searching(s.trace) && RoundsNow(s.trace) + left == 10
    requires PrimaryNext(c, s.trace) == Do(if left > 0 then FetchBegun else SearchEnded(Some(DriverError(None))))
    ensures SearchReady(c, s, SeekRounds(c.w, s, left).0, SeekRounds(c.w, s, left).1)
    decreases left
  {
    if left == 0 {
      FollowsSelf(c, s.trace);
    } else {
      RoundFollows(c, s);
      var error, s1 := FetchRound(c.w, s).0, FetchRound(c.w, s).1;
      if error.None? && Primary(s1.replicas).Some? {
        FoundEnds(c, s, s1);
      } else if error.None? {
        WaitsOn(c, s, s1, left);
        var s2 := Record(s1, Waited);
        RoundsFollow(c, s2, left - 1);
        SearchReadyOn(c, s, s2, SeekRounds(c.w, s2, left - 1).0, SeekRounds(c.w, s2, left - 1).1);
      }
    }
  }

  /** A whole search. */
  ghost predicate SearchFollows(c: Setting, s: State, error: Option<Error>, s': State) {
    && Follows(c, s.trace, s'.trace) && Linked(c, s') && Executions(s'.trace) == Executions(s.trace)
    && |s'.trace| > c.from && Last(s'.trace) == SearchEnded(error)
    && (error.None? ==> s'.replicas == Current(c.initial, s'.trace) && Primary(s'.replicas).Some?)
  }

  lemma EndKeepsList(initial: seq<Replica>, trace: seq<Entry>, rs: seq<Replica>, error: Option<Error>)
    requires trace != [] && Last(trace) == Asked(Ok(rs))
    ensures Current(initial, trace + [SearchEnded(error)]) == rs
  {
    assert Front(trace + [SearchEnded(error)]) == trace;
  }

  lemma EndsSearch(c: Setting, s: State, error: Option<Error>, s1: State)
    requires SearchReady(c, s, error, s1)
    ensures SearchFollows(c, s, error, Record(s1, SearchEnded(error)))
  {
    FollowsOne(c, s1.trace, SearchEnded(error));
    ReadSnoc(s1.trace, SearchEnded(error));
    FollowsOn(c, s.trace, s1.trace, s1.trace + [SearchEnded(error)]);
    if error.None? { EndKeepsList(c.initial, s1.trace, s1.replicas, error); }
  }

  lemma BeginsSearch(c: Setting, s: State)
    requires Linked(c, s) && PrimaryNext(c, s.trace) == Do(SearchBegun)
    ensures var s0 := Record(s, SearchBegun);
            && Follows(c, s.trace, s0.trace) && Linked(c, s0) && Executions(s0.trace) == Executions(s.trace)
            && Searching(s0.trace) && RoundsNow(s0.trace) == 0 && PrimaryNext(c, s0.trace) == Do(FetchBegun)
  {
    FollowsOne(c, s.trace, SearchBegun);
    ReadSnoc(s.trace, SearchBegun);
  }

  lemma SeekFollows(c: Setting, s: State)
    requires Linked(c, s) && PrimaryNext(c, s.trace) == Do(SearchBegun)
    ensures SearchFollows(c, s, Seek(c.w, s).0, Seek(c.w, s).1)
  {
    BeginsSearch(c, s);
    var s0 := Record(s, SearchBegun);
    RoundsFollow(c, s0, 10);
    SearchReadyOn(c, s, s0, SeekRounds(c.w, s0, 10).0, SeekRounds(c.w, s0, 10).1);
    EndsSearch(c, s, SeekRounds(c.w, s0, 10).0, SeekRounds(c.w, s0, 10).1);
  }

  // --- The task ----------------------------------------------------------------------------

  lemma ExecutionFollows(c: Setting, s: State)
    requires Linked(c, s) && s.replicas == Current(c.initial, s.trace) && Primary(s.replicas).Some?
    requires PrimaryNext(c, s.trace) == AtThePrimary(c, s.trace)
    ensures var s1 := Execute(c.w, s, Primary(s.replicas).value).1;
            && Follows(c, s.trace, s1.trace) && Linked(c, s1) && |s1.trace| > c.from
            && Last(s1.trace) == Executed(Primary(s.replicas).value, c.w.exec(s.execs))
            && |Executions(s1.trace)| == |Executions(s.trace)| + 1
  {
    var x := Executed(Primary(s.replicas).value, c.w.exec(s.execs));
    FollowsOne(c, s.trace, x);
    ReadSnoc(s.trace, x);
  }

  /** After an execution that is not retried the rule stops. */
  lemma ExecutionStops(c: Setting, trace: seq<Entry>, at: Replica, outcome: Outcome<int>)
    requires |trace| > c.from && Last(trace) == Executed(at, outcome) && (outcome.Ok? || !Retryable(outcome.error))
    ensures PrimaryNext(c, trace) == Stop(outcome)
  {
  }

  /** No search is under way where an execution is allowed. */
  ghost predicate Idle(trace: seq<Entry>) {
    !Searching(trace)
  }

  /** After one that is, there is a wait and then a search. */
  lemma ExecutionRetried(c: Setting, s1: State, at: Replica, outcome: Outcome<int>)
    requires Linked(c, s1) && |s1.trace| > c.from && Last(s1.trace) == Executed(at, outcome)
    requires outcome.Err? && Retryable(outcome.error) && Idle(s1.trace)
    ensures var s2 := Record(s1, Waited);
            && Follows(c, s1.trace, s2.trace) && Linked(c, s2) && Executions(s2.trace) == Executions(s1.trace)
            && PrimaryNext(c, s2.trace) == Do(SearchBegun)
  {
    FollowsOne(c, s1.trace, Waited);
    ReadSnoc(s1.trace, Waited);
  }

  /** Where the loop stands with `left` rounds to go, and what the rule says there. */
  ghost predicate AtTurn(c: Setting, s: State, left: nat) {
    && Linked(c, s) && Idle(s.trace) && s.replicas == Current(c.initial, s.trace) && Primary(s.replicas).Some?
    && |Executions(s.trace)| + left == c.from + 10
    && PrimaryNext(c, s.trace) == if left > 0 then AtThePrimary(c, s.trace) else Stop(Err(DriverError(None)))
  }

  lemma FoundIsTurn(c: Setting, s: State, s3: State, left: nat)
    requires SearchFollows(c, s, None, s3) && |Executions(s.trace)| + left == c.from + 10
    ensures AtTurn(c, s3, left)
  {
    assert s3.trace == Front(s3.trace) + [Last(s3.trace)];
    ReadSnoc(Front(s3.trace), Last(s3.trace));
  }

  ghost predicate CallFollows(c: Setting, s: State, outcome: Outcome<int>, s': State) {
    Follows(c, s.trace, s'.trace) && PrimaryNext(c, s'.trace) == Stop(outcome)
  }

  lemma CallFollowsOn(c: Setting, s: State, s1: State, outcome: Outcome<int>, s': State)
    requires Follows(c, s.trace, s1.trace) && CallFollows(c, s1, outcome, s')
    ensures CallFollows(c, s, outcome, s')
  {
    FollowsOn(c, s.trace, s1.trace, s'.trace);
  }

  lemma FailedSearchStops(c: Setting, s: State, error: Error, s': State)
    requires SearchFollows(c, s, Some(error), s')
    ensures CallFollows(c, s, Err(error), s')
  {
  }

  lemma ExecutionLeavesIdle(trace: seq<Entry>, e: Entry)
    requires Idle(trace) && e.Executed?
    ensures Idle(trace + [e])
  {
    ReadSnoc(trace, e);
  }

  lemma {:induction false} LoopFollows(c: Setting, s: State, left: nat)
    requires AtTurn(c, s, left)
    ensures CallFollows(c, s, PrimaryRounds(c.w, s, left).0, PrimaryRounds(c.w, s, left).1)
    decreases left, 1
  {
    if left == 0 {
      FollowsSelf(c, s.trace);
    } else {
      ExecutionFollows(c, s);
      var at, outcome := Primary(s.replicas).value, c.w.exec(s.execs);
      var s1 := Execute(c.w, s, at).1;
      if outcome.Ok? || !Retryable(outcome.error) {
        ExecutionStops(c, s1.trace, at, outcome);
      } else {
        ExecutionLeavesIdle(s.trace, Executed(at, outcome));
        ExecutionRetried(c, s1, at, outcome);
        var s2 := Record(s1, Waited);
        FollowsOn(c, s.trace, s1.trace, s2.trace);
        RetryFollows(c, s, s2, left);
      }
    }
  }

  lemma {:induction false} RetryFollows(c: Setting, s: State, s2: State, left: nat)
    requires left > 0 && Follows(c, s.trace, s2.trace) && Linked(c, s2) && PrimaryNext(c, s2.trace) == Do(SearchBegun)
    requires |Executions(s2.trace)| + (left - 1) == c.from + 10
    ensures var error, s3 := Seek(c.w, s2).0, Seek(c.w, s2).1;
            if error.Some? then CallFollows(c, s, Err(error.value), s3)
            else CallFollows(c, s, PrimaryRounds(c.w, s3, left - 1).0, PrimaryRounds(c.w, s3, left - 1).1)
    decreases left, 0
  {
    SeekFollows(c, s2);
    var error, s3 := Seek(c.w, s2).0, Seek(c.w, s2).1;
    if error.Some? {
      FailedSearchStops(c, s2, error.value, s3);
      CallFollowsOn(c, s, s2, Err(error.value), s3);
    } else {
      FoundIsTurn(c, s2, s3, left - 1);
      LoopFollows(c, s3, left - 1);
      CallFollowsOn(c, s2, s3, PrimaryRounds(c.w, s3, left - 1).0, PrimaryRounds(c.w, s3, left - 1).1);
      CallFollowsOn(c, s, s2, PrimaryRounds(c.w, s3, left - 1).0, PrimaryRounds(c.w, s3, left - 1).1);
    }
  }

  /** Where `runOnPrimaryReplica` begins: with nothing but executions behind it. */
  ghost predicate AtStart(c: Setting, s: State) {
    && Linked(c, s) && Idle(s.trace) && s.replicas == Current(c.initial, s.trace)
    && |s.trace| == |Executions(s.trace)| == c.from
  }

  lemma PrimaryCallFollows(c: Setting, s: State)
    requires AtStart(c, s)
    ensures CallFollows(c, s, RunOnPrimary(c.w, s).0, RunOnPrimary(c.w, s).1)
  {
    if Primary(s.replicas).Some? {
      LoopFollows(c, s, 10);
    } else {
      FollowsSelf(c, s.trace);
      FirstSearchFollows(c, s);
    }
  }

  lemma FirstSearchFollows(c: Setting, s: State)
    requires AtStart(c, s) && Primary(s.replicas).None?
    ensures var error, s1 := Seek(c.w, s).0, Seek(c.w, s).1;
            if error.Some? then CallFollows(c, s, Err(error.value), s1)
            else CallFollows(c, s, PrimaryRounds(c.w, s1, 10).0, PrimaryRounds(c.w, s1, 10).1)
  {
    SeekFollows(c, s);
    var error, s1 := Seek(c.w, s).0, Seek(c.w, s).1;
    if error.Some? {
      FailedSearchStops(c, s, error.value, s1);
    } else {
      FoundIsTurn(c, s, s1, 10);
      LoopFollows(c, s1, 10);
      CallFollowsOn(c, s, s1, PrimaryRounds(c.w, s1, 10).0, PrimaryRounds(c.w, s1, 10).1);
    }
  }

  /** `runOnPrimaryReplica` by itself: its trace and outcome are those of the rule. */
  lemma PrimaryRunFollowsRules(w: World, rs: seq<Replica>, execs: nat, fetches: nat)
    ensures var (outcome, s') := RunOnPrimary(w, Start(rs, execs, fetches));
            PrimaryRules(Setting(w, rs, execs, fetches, 0), [], s'.trace, outcome)
  {
    PrimaryCallFollows(Setting(w, rs, execs, fetches, 0), Start(rs, execs, fetches));
  }

  // --- The rule of `runOnAnyReplica` and `runFailsafe` -------------------------------------

  /** The task could not reach its replica. */
  predicate Unreachable(e: Entry) {
    e.Executed? && e.outcome == Err(DriverError(Some(UnableToConnect)))
  }

  /** What follows what while the replicas are tried in list order. */
  function ListNext(w: World, rs: seq<Replica>, execs: nat, trace: seq<Entry>): Verdict {
    if trace == [] || Unreachable(Last(trace)) then
      if |trace| < |rs| then Do(Executed(rs[|trace|], w.exec(execs + |trace|))) else Stop(Err(DriverError(None)))
    else
      match Last(trace)
      case Executed(_, Ok(v)) => Stop(Ok(v))
      case Executed(_, Err(e)) => if e == DriverError(Some(ReplicaNotPrimary)) then HandOver else Stop(Err(e))
      case _ => Stop(Err(Foreign(0)))
  }

  ghost predicate InOrder(w: World, rs: seq<Replica>, execs: nat, trace: seq<Entry>, k: nat) {
    k <= |trace| && forall i :: 0 <= i < k ==> ListNext(w, rs, execs, trace[..i]) == Do(trace[i])
  }

  /**
   A whole call of `runFailsafe`: the replicas in list order until the rule stops the call or hands it over at `k`,
   and then the rule of the primary.
   */
  ghost predicate FailsafeRules(w: World, rs: seq<Replica>, execs: nat, fetches: nat, trace: seq<Entry>,
                                outcome: Outcome<int>, k: nat)
  {
    && InOrder(w, rs, execs, trace, k)
    && match ListNext(w, rs, execs, trace[..k])
       case Do(_) => false
       case Stop(o) => k == |trace| && o == outcome
       case HandOver => PrimaryRules(Setting(w, rs, execs, fetches, k), trace[..k], trace, outcome)
  }

  lemma InOrderOne(w: World, rs: seq<Replica>, execs: nat, trace: seq<Entry>, e: Entry)
    requires InOrder(w, rs, execs, trace, |trace|) && ListNext(w, rs, execs, trace) == Do(e)
    ensures InOrder(w, rs, execs, trace + [e], |trace| + 1)
  {
    var longer := trace + [e];
    forall i | 0 <= i < |longer| ensures ListNext(w, rs, execs, longer[..i]) == Do(longer[i]) {
      if i < |trace| { assert longer[..i] == trace[..i]; } else { assert longer[..i] == trace; }
    }
  }

  /** Where `runOnAnyReplica` stands before replica number `i`. */
  ghost predicate AtReplica(w: World, rs: seq<Replica>, execs: nat, s: State, i: nat) {
    && |s.trace| == i <= |rs| && s.replicas == rs && s.execs == execs + i && OnlyExecutions(s.trace)
    && InOrder(w, rs, execs, s.trace, i) && (s.trace == [] || Unreachable(Last(s.trace)))
  }

  /** Where it ends: the rule stops with its outcome, or hands over when that is a refusal. */
  ghost predicate ListDone(w: World, rs: seq<Replica>, execs: nat, outcome: Outcome<int>, s: State) {
    && s.replicas == rs && s.execs == execs + |s.trace| && OnlyExecutions(s.trace)
    && InOrder(w, rs, execs, s.trace, |s.trace|)
    && ListNext(w, rs, execs, s.trace) ==
         if outcome.Err? && Is(outcome.error, ReplicaNotPrimary) then HandOver else Stop(outcome)
  }

  lemma ReplicaTried(w: World, rs: seq<Replica>, execs: nat, s: State, i: nat)
    requires AtReplica(w, rs, execs, s, i) && i < |rs|
    ensures var outcome, s1 := w.exec(execs + i), Execute(w, s, rs[i]).1;
            && s1.fetches == s.fetches
            && if outcome.Err? && Is(outcome.error, UnableToConnect) then AtReplica(w, rs, execs, s1, i + 1)
               else ListDone(w, rs, execs, outcome, s1)
  {
    InOrderOne(w, rs, execs, s.trace, Executed(rs[i], w.exec(execs + i)));
  }

  lemma {:induction false} AnyFollows(w: World, rs: seq<Replica>, execs: nat, s: State, i: nat)
    requires AtReplica(w, rs, execs, s, i)
    ensures ListDone(w, rs, execs, AnyFrom(w, s, i).0, AnyFrom(w, s, i).1)
    ensures AnyFrom(w, s, i).1.fetches == s.fetches
    decreases |rs| - i
  {
    if i < |rs| {
      ReplicaTried(w, rs, execs, s, i);
      var s1 := Execute(w, s, rs[i]).1;
      if w.exec(execs + i).Err? && Is(w.exec(execs + i).error, UnableToConnect) {
        AnyFollows(w, rs, execs, s1, i + 1);
      }
    }
  }

  lemma {:induction false} ExecutionsAskNothing(trace: seq<Entry>)
    requires OnlyExecutions(trace)
    ensures Asks(trace) == 0 && Idle(trace)
  {
    if trace != [] {
      assert Last(trace) in trace;
      ExecutionsAskNothing(Front(trace));
    }
  }

  lemma HandsOverAtStart(w: World, rs: seq<Replica>, execs: nat, fetches: nat, outcome: Outcome<int>, s: State)
    requires ListDone(w, rs, execs, outcome, s) && s.fetches == fetches
    ensures AtStart(Setting(w, rs, execs, fetches, |s.trace|), s)
  {
    ExecutionsAskNothing(s.trace);
    AllAreExecutions(s.trace);
    ExecutionsKeepList(rs, s.trace);
  }

  lemma RulesAfterHandOver(w: World, rs: seq<Replica>, execs: nat, fetches: nat, s1: State, outcome: Outcome<int>,
                           s': State)
    requires InOrder(w, rs, execs, s1.trace, |s1.trace|) && ListNext(w, rs, execs, s1.trace) == HandOver
    requires CallFollows(Setting(w, rs, execs, fetches, |s1.trace|), s1, outcome, s')
    ensures FailsafeRules(w, rs, execs, fetches, s'.trace, outcome, |s1.trace|)
  {
    var k := |s1.trace|;
    assert s'.trace[..k] == s1.trace;
    forall i | 0 <= i < k ensures ListNext(w, rs, execs, s'.trace[..i]) == Do(s'.trace[i]) {
      assert s'.trace[..i] == s1.trace[..i] && s'.trace[i] == s1.trace[i];
    }
  }

  /** `runFailsafe`: for every server behaviour its trace and outcome are those of the rules. */
  lemma FailsafeFollowsRules(w: World, rs: seq<Replica>, execs: nat, fetches: nat) returns (k: nat)
    ensures var (outcome, s') := RunFailsafe(w, Start(rs, execs, fetches));
            FailsafeRules(w, rs, execs, fetches, s'.trace, outcome, k)
  {
    var s := Start(rs, execs, fetches);
    AnyFollows(w, rs, execs, s, 0);
    var any, s1 := AnyFrom(w, s, 0).0, AnyFrom(w, s, 0).1;
    k := |s1.trace|;
    if any.Err? && Is(any.error, ReplicaNotPrimary) {
      HandsOverAtStart(w, rs, execs, fetches, any, s1);
      PrimaryCallFollows(Setting(w, rs, execs, fetches, k), s1);
      RulesAfterHandOver(w, rs, execs, fetches, s1, RunOnPrimary(w, s1).0, RunOnPrimary(w, s1).1);
    } else {
      assert s1.trace[..k] == s1.trace;
    }
  }

  // --- Those rules leave no choice either --------------------------------------------------

  lemma {:induction false} SameOrder(w: World, rs: seq<Replica>, execs: nat, a: seq<Entry>, b: seq<Entry>, n: nat)
    requires InOrder(w, rs, execs, a, n) && InOrder(w, rs, execs, b, n)
    ensures a[..n] == b[..n]
  {
    if n > 0 {
      SameOrder(w, rs, execs, a, b, n - 1);
      SameEntry(a, b, n, ListNext(w, rs, execs, a[..n - 1]));
    }
  }

  lemma SameHandOver(w: World, rs: seq<Replica>, execs: nat, a: seq<Entry>, k: nat, b: seq<Entry>, k': nat)
    requires InOrder(w, rs, execs, a, k) && !ListNext(w, rs, execs, a[..k]).Do? && InOrder(w, rs, execs, b, k')
    ensures k' <= k
  {
    if k < k' { SameOrder(w, rs, execs, a, b, k); }
  }

  /** Two calls that follow the rules are the same call. */
  lemma FailsafeRulesDetermine(w: World, rs: seq<Replica>, execs: nat, fetches: nat, a: seq<Entry>, o: Outcome<int>,
                               k: nat, b: seq<Entry>, o': Outcome<int>, k': nat)
    requires FailsafeRules(w, rs, execs, fetches, a, o, k) && FailsafeRules(w, rs, execs, fetches, b, o', k')
    ensures a == b && o == o' && k == k'
  {
    SameHandOver(w, rs, execs, a, k, b, k');
    SameHandOver(w, rs, execs, b, k', a, k);
    SameOrder(w, rs, execs, a, b, k);
    if ListNext(w, rs, execs, a[..k]).HandOver? {
      RulesDetermine(Setting(w, rs, execs, fetches, k), a[..k], a, o, b, o');
    } else {
      assert a[..k] == a && b[..k] == b;
    }
  }

  // --- How calls end -----------------------------------------------------------------------

  /** The ways a call that turned to the primary ends. */
  ghost predicate PrimaryEnding(from: nat, trace: seq<Entry>, outcome: Outcome<int>) {
    && |trace| > from
    && match Last(trace)
       case Executed(_, o) =>
         o == outcome && o != Err(DriverError(Some(UnableToConnect))) && o != Err(DriverError(Some(ReplicaNotPrimary)))
       case SearchEnded(Some(e)) => outcome == Err(e)
       case SearchEnded(None) => outcome == Err(DriverError(None)) && |Executions(trace)| >= from + 10
       case _ => false
  }

  /** The ways a call ends that did not. */
  ghost predicate ListEnding(rs: seq<Replica>, trace: seq<Entry>, outcome: Outcome<int>) {
    if trace == [] || Unreachable(Last(trace)) then |trace| >= |rs| && outcome == Err(DriverError(None))
    else Last(trace).Executed? && outcome == Last(trace).outcome != Err(DriverError(Some(ReplicaNotPrimary)))
  }

  lemma FoundBefore(c: Setting, trace: seq<Entry>)
    requires PrimaryNext(c, trace) == Do(SearchEnded(None))
    ensures trace != [] && Last(trace).Asked? && Last(trace).result.Ok? && Primary(Last(trace).result.value).Some?
  {
  }

  lemma FoundLeavesPrimary(c: Setting, trace: seq<Entry>)
    requires PrimaryNext(c, trace) == Do(SearchEnded(None))
    ensures Primary(Current(c.initial, trace + [SearchEnded(None)])).Some?
  {
    FoundBefore(c, trace);
    EndKeepsList(c.initial, trace, Last(trace).result.value, None);
  }

  lemma FollowedLast(c: Setting, before: seq<Entry>, trace: seq<Entry>)
    requires Follows(c, before, trace) && |before| < |trace|
    ensures PrimaryNext(c, Front(trace)) == Do(Last(trace))
  {
    assert trace[..|trace| - 1] == Front(trace);
  }

  /** A search that succeeded left a list with a primary. */
  lemma SuccessHasPrimary(c: Setting, trace: seq<Entry>)
    requires trace != [] && Last(trace) == SearchEnded(None) && PrimaryNext(c, Front(trace)) == Do(SearchEnded(None))
    ensures Primary(Current(c.initial, trace)).Some?
  {
    FoundLeavesPrimary(c, Front(trace));
    FrontLast(trace);
  }

  lemma StopMeans(c: Setting, trace: seq<Entry>, outcome: Outcome<int>)
    requires |trace| > c.from && PrimaryNext(c, trace) == Stop(outcome)
    requires Last(trace) == SearchEnded(None) ==> Primary(Current(c.initial, trace)).Some?
    ensures PrimaryEnding(c.from, trace, outcome)
  {
  }

  lemma PrimaryEnds(c: Setting, before: seq<Entry>, trace: seq<Entry>, outcome: Outcome<int>)
    requires PrimaryRules(c, before, trace, outcome) && |before| == c.from
    ensures PrimaryEnding(c.from, trace, outcome)
  {
    StartGoesOn(c, before);
    FollowedLast(c, before, trace);
    if Last(trace) == SearchEnded(None) { SuccessHasPrimary(c, trace); }
    StopMeans(c, trace, outcome);
  }

  lemma StartGoesOn(c: Setting, before: seq<Entry>)
    requires |before| == c.from
    ensures !PrimaryNext(c, before).Stop?
  {
  }

  lemma LastOfList(w: World, rs: seq<Replica>, execs: nat, trace: seq<Entry>, k: nat)
    requires InOrder(w, rs, execs, trace, k) && k > 0
    ensures trace[..k] != [] && Last(trace[..k]) == trace[k - 1] && trace[k - 1].Executed?
  {
    assert ListNext(w, rs, execs, trace[..k - 1]) == Do(trace[k - 1]);
  }

  /**
   Every way a call of `runFailsafe` can end. Unless some replica refused as a secondary, it ends with the outcome of
   the first replica that was reached, or by giving up after the last one. A refusal always turns it to the primary,
   where it ends with the first outcome that is not retried, with the error of a search, or after ten executions.
   */
  lemma FailsafeEnds(w: World, rs: seq<Replica>, execs: nat, fetches: nat, trace: seq<Entry>, outcome: Outcome<int>,
                     k: nat)
    requires FailsafeRules(w, rs, execs, fetches, trace, outcome, k)
    ensures if k == |trace| then ListEnding(rs, trace, outcome)
            else k > 0 && Refused(trace[k - 1]) && PrimaryEnding(k, trace, outcome)
  {
    if k > 0 { LastOfList(w, rs, execs, trace, k); }
    if ListNext(w, rs, execs, trace[..k]).HandOver? {
      PrimaryEnds(Setting(w, rs, execs, fetches, k), trace[..k], trace, outcome);
    } else {
      assert trace[..k] == trace;
    }
  }
}
