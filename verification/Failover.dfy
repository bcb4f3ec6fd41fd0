/**
 Replica failover (`TypeDBDatabaseImpl.ts`). Servers are an arbitrary oracle: the n-th execution of the task
 and the n-th request for the replica list have any outcome. A trace records what the driver did.
 */
module Failover {
  import opened Protocol
  import opened Sequences

  const PRIMARY_REPLICA_TASK_MAX_RETRIES: nat := 10
  const FETCH_REPLICAS_MAX_RETRIES: nat := 10

  datatype Template = UnableToConnect | ReplicaNotPrimary | DatabaseDoesNotExist | OtherTemplate(code: int)

  /**
   An error of the driver, with the message template it was built from if any, or any other exception.
   `ErrorMessage.message()` yields a plain text, so the errors the failover code raises itself carry none.
   */
  datatype Error = DriverError(template: Option<Template>) | Foreign(code: int)

  const Exhausted := DriverError(None)

  predicate Is(e: Error, template: Template) {
    e.DriverError? && e.template == Some(template)
  }

  predicate Retryable(e: Error) {
    Is(e, UnableToConnect) || Is(e, ReplicaNotPrimary)
  }

  datatype Outcome<+T> = Ok(value: T) | Err(error: Error)

  datatype Replica = Replica(server: string, term: int, primary: bool)

  datatype World = World(servers: nat, exec: nat -> Outcome<int>, fetch: nat -> Outcome<seq<Replica>>)

  datatype Entry =
    | Executed(at: Replica, outcome: Outcome<int>)
    | SearchBegun
    | SearchEnded(error: Option<Error>)
    | FetchBegun
    | Asked(result: Outcome<seq<Replica>>)
    | Waited

  /** The database object, and how far the oracle has been read. */
  datatype State = State(replicas: seq<Replica>, execs: nat, fetches: nat, trace: seq<Entry>)

  function Record(s: State, e: Entry): State {
    s.(trace := s.trace + [e])
  }

  // --- primaryReplica ----------------------------------------------------------------------

  function Primaries(rs: seq<Replica>): seq<Replica> {
    if rs == [] then [] else Primaries(Front(rs)) + if Last(rs).primary then [Last(rs)] else []
  }

  function Latest(rs: seq<Replica>): Replica
    requires rs != []
  {
    if |rs| == 1 then rs[0] else
    var current := Latest(Front(rs));
    if Last(rs).term > current.term then Last(rs) else current
  }

  function Primary(rs: seq<Replica>): Option<Replica> {
    if Primaries(rs) == [] then None else Some(Latest(Primaries(rs)))
  }

  /** The first replica, among those that call themselves primary, with the greatest term. */
  ghost predicate FirstLatestPrimary(rs: seq<Replica>, i: nat) {
    && i < |rs| && rs[i].primary
    && (forall j :: 0 <= j < |rs| && rs[j].primary ==> rs[j].term <= rs[i].term)
    && (forall j :: 0 <= j < i && rs[j].primary ==> rs[j].term < rs[i].term)
  }

  lemma PrimarySnoc(rs: seq<Replica>, r: Replica)
    ensures Primary(rs + [r]) ==
              if r.primary && (Primary(rs).None? || r.term > Primary(rs).value.term) then Some(r) else Primary(rs)
  {
    assert Front(rs + [r]) == rs && Last(rs + [r]) == r;
    if r.primary {
      assert Front(Primaries(rs) + [r]) == Primaries(rs) && Last(Primaries(rs) + [r]) == r;
    } else {
      assert Primaries(rs + [r]) == Primaries(rs);
    }
  }

  lemma FirstLatestSnoc(rs: seq<Replica>, r: Replica, i: nat)
    requires FirstLatestPrimary(rs, i)
    ensures FirstLatestPrimary(rs + [r], if r.primary && r.term > rs[i].term then |rs| else i)
  {
  }

  lemma {:induction false} PrimaryIsFirstLatest(rs: seq<Replica>)
    ensures Primary(rs).None? <==> forall j :: 0 <= j < |rs| ==> !rs[j].primary
    ensures Primary(rs).Some? ==> exists i: nat :: FirstLatestPrimary(rs, i) && Primary(rs) == Some(rs[i])
  {
    if rs != [] {
      var front, r := Front(rs), Last(rs);
      assert rs == front + [r];
      PrimaryIsFirstLatest(front);
      PrimarySnoc(front, r);
      if Primary(front).Some? {
        var i: nat :| FirstLatestPrimary(front, i) && Primary(front) == Some(front[i]);
        FirstLatestSnoc(front, r, i);
        assert rs[i] == front[i] && rs[|front|] == r;
      } else if r.primary {
        assert FirstLatestPrimary(rs, |front|);
      }
    }
  }

  // --- The operations ----------------------------------------------------------------------

  predicate TryNextServer(e: Error) {
    Is(e, DatabaseDoesNotExist) || Is(e, UnableToConnect)
  }

  /** `fetchReplicas` with `left` servers still to ask. */
  function FetchFrom(w: World, s: State, left: nat): (Outcome<seq<Replica>>, State)
    decreases left
  {
    if left == 0 then (Err(Exhausted), s) else
    var asked := Record(s, Asked(w.fetch(s.fetches))).(fetches := s.fetches + 1);
    match w.fetch(s.fetches)
    case Ok(rs) => (Ok(rs), asked)
    case Err(e) => if TryNextServer(e) then FetchFrom(w, asked, left - 1) else (Err(e), asked)
  }

  /** One round of `seekPrimaryReplica`: fetch, and adopt the list. */
  function FetchRound(w: World, s: State): (Option<Error>, State) {
    var (result, s1) := FetchFrom(w, Record(s, FetchBegun), w.servers);
    match result
    case Err(e) => (Some(e), s1)
    case Ok(rs) => (None, s1.(replicas := rs))
  }

  /** `seekPrimaryReplica` with `left` rounds to go. */
  function SeekRounds(w: World, s: State, left: nat): (Option<Error>, State)
    decreases left
  {
    if left == 0 then (Some(Exhausted), s) else
    var (error, s1) := FetchRound(w, s);
    if error.Some? then (error, s1)
    else if Primary(s1.replicas).Some? then (None, s1)
    else SeekRounds(w, Record(s1, Waited), left - 1)
  }

  function Seek(w: World, s: State): (Option<Error>, State) {
    var (error, s1) := SeekRounds(w, Record(s, SearchBegun), FETCH_REPLICAS_MAX_RETRIES);
    (error, Record(s1, SearchEnded(error)))
  }

  function Execute(w: World, s: State, at: Replica): (Outcome<int>, State) {
    (w.exec(s.execs), Record(s, Executed(at, w.exec(s.execs))).(execs := s.execs + 1))
  }

  /** The loop of `runOnPrimaryReplica`; without a primary the property access throws a foreign error. */
  function PrimaryRounds(w: World, s: State, left: nat): (Outcome<int>, State)
    decreases left
  {
    if left == 0 then (Err(Exhausted), s) else
    if Primary(s.replicas).None? then (Err(Foreign(0)), s) else
    var (outcome, s1) := Execute(w, s, Primary(s.replicas).value);
    if outcome.Ok? || !Retryable(outcome.error) then (outcome, s1) else
    var (error, s2) := Seek(w, Record(s1, Waited));
    if error.Some? then (Err(error.value), s2) else PrimaryRounds(w, s2, left - 1)
  }

  function RunOnPrimary(w: World, s: State): (Outcome<int>, State) {
    if Primary(s.replicas).Some? then PrimaryRounds(w, s, PRIMARY_REPLICA_TASK_MAX_RETRIES) else
    var (error, s1) := Seek(w, s);
    if error.Some? then (Err(error.value), s1) else PrimaryRounds(w, s1, PRIMARY_REPLICA_TASK_MAX_RETRIES)
  }

  /** `runOnAnyReplica` from replica number `i` on. */
  function AnyFrom(w: World, s: State, i: nat): (Outcome<int>, State)
    requires i <= |s.replicas|
    decreases |s.replicas| - i
  {
    if i == |s.replicas| then (Err(Exhausted), s) else
    var (outcome, s1) := Execute(w, s, s.replicas[i]);
    if outcome.Err? && Is(outcome.error, UnableToConnect) then AnyFrom(w, s1, i + 1) else (outcome, s1)
  }

  function RunFailsafe(w: World, s: State): (Outcome<int>, State) {
    var (outcome, s1) := AnyFrom(w, s, 0);
    if outcome.Err? && Is(outcome.error, ReplicaNotPrimary) then RunOnPrimary(w, s1) else (outcome, s1)
  }

  // --- Reading a trace ---------------------------------------------------------------------

  /** The list of replicas in force after a trace: the last one fetched, or the one at the start. */
  function Current(initial: seq<Replica>, trace: seq<Entry>): seq<Replica> {
    if trace == [] then initial
    else if Last(trace).Asked? && Last(trace).result.Ok? then Last(trace).result.value
    else Current(initial, Front(trace))
  }

  function Executions(trace: seq<Entry>): seq<Entry> {
    if trace == [] then [] else Executions(Front(trace)) + if Last(trace).Executed? then [Last(trace)] else []
  }

  lemma RecordedLast(trace: seq<Entry>, e: Entry)
    ensures Executions(trace + [e]) == Executions(trace) + if e.Executed? then [e] else []
  {
    assert Front(trace + [e]) == trace;
  }

  function Count(trace: seq<Entry>, e: Entry): nat {
    multiset(trace)[e]
  }

  /** The task ran `at` the primary of the list then in force. */
  ghost predicate AtPrimary(initial: seq<Replica>, trace: seq<Entry>, i: nat)
    requires i < |trace|
  {
    trace[i].Executed? ==> Primary(Current(initial, trace[..i])) == Some(trace[i].at)
  }

  /** `s'` continues `s`; its list is the one in force, and each task run since was at the primary. */
  ghost predicate Continues(initial: seq<Replica>, s: State, s': State) {
    && s.trace <= s'.trace
    && s'.replicas == Current(initial, s'.trace)
    && forall i :: |s.trace| <= i < |s'.trace| ==> AtPrimary(initial, s'.trace, i)
  }

  /** At most so many searches, fetch rounds and waits were added. */
  ghost predicate Within(s: State, s': State, searches: nat, rounds: nat, waits: nat) {
    && Count(s'.trace, SearchBegun) <= Count(s.trace, SearchBegun) + searches
    && Count(s'.trace, FetchBegun) <= Count(s.trace, FetchBegun) + rounds
    && Count(s'.trace, Waited) <= Count(s.trace, Waited) + waits
  }

  lemma RecordContinues(initial: seq<Replica>, s: State, e: Entry)
    requires s.replicas == Current(initial, s.trace)
    requires e.Executed? ==> Primary(s.replicas) == Some(e.at)
    ensures var s' := Record(s, e).(replicas := if e.Asked? && e.result.Ok? then e.result.value else s.replicas);
            Continues(initial, s, s') && Executions(s'.trace) == Executions(s.trace) + if e.Executed? then [e] else []
    ensures forall x :: Count(s.trace + [e], x) == Count(s.trace, x) + if x == e then 1 else 0
  {
    var t := s.trace + [e];
    assert Front(t) == s.trace && Last(t) == e && t[..|s.trace|] == s.trace;
  }

  lemma ContinuesTransitive(initial: seq<Replica>, a: State, b: State, c: State)
    requires Continues(initial, a, b) && Continues(initial, b, c)
    ensures Continues(initial, a, c)
  {
    forall i | |a.trace| <= i < |c.trace| ensures AtPrimary(initial, c.trace, i) {
      if i < |b.trace| {
        assert AtPrimary(initial, b.trace, i);
        assert b.trace[..i] == c.trace[..i];
      }
    }
  }

  /** `s'` continues `s` without running the task. */
  ghost predicate Searches(initial: seq<Replica>, s: State, s': State) {
    Continues(initial, s, s') && Executions(s'.trace) == Executions(s.trace) && s'.execs == s.execs
  }

  lemma SearchesTransitive(initial: seq<Replica>, a: State, b: State, c: State)
    requires Searches(initial, a, b) && Searches(initial, b, c)
    ensures Searches(initial, a, c)
  {
    ContinuesTransitive(initial, a, b, c);
  }

  /** What the n-th request for the replica list gets. */
  function Listed(w: World, n: nat): Outcome<seq<Replica>> {
    w.fetch(n)
  }

  /** A server to pass over: it does not know the database or cannot be reached. */
  predicate PassOver(result: Outcome<seq<Replica>>) {
    result == Err(DriverError(Some(DatabaseDoesNotExist))) || result == Err(DriverError(Some(UnableToConnect)))
  }

  ghost predicate AllPassedOver(w: World, from: nat, end: nat) {
    forall n: nat :: from <= n < end ==> PassOver(Listed(w, n))
  }

  /** `fetchReplicas` answers as the first server that is not passed over, and fails after all when there is none. */
  ghost predicate FirstAnswer(w: World, from: nat, left: nat, r: Outcome<seq<Replica>>, end: nat) {
    || (r == Err(DriverError(None)) && end == from + left && AllPassedOver(w, from, end))
    || (&& from < end <= from + left && r == Listed(w, end - 1)
        && !PassOver(Listed(w, end - 1)) && AllPassedOver(w, from, end - 1))
  }

  /** The state after asking one more server. */
  function AskOne(w: World, s: State): State {
    Record(s, Asked(w.fetch(s.fetches))).(fetches := s.fetches + 1)
  }

  lemma {:induction false} FetchFindsFirst(w: World, s: State, left: nat)
    ensures FirstAnswer(w, s.fetches, left, FetchFrom(w, s, left).0, FetchFrom(w, s, left).1.fetches)
    decreases left
  {
    if left > 0 && PassOver(Listed(w, s.fetches)) {
      FetchFindsFirst(w, AskOne(w, s), left - 1);
    }
  }

  /** That leaves no choice. */
  lemma FirstAnswerIsUnique(w: World, from: nat, left: nat, r: Outcome<seq<Replica>>, end: nat,
                            r': Outcome<seq<Replica>>, end': nat)
    requires FirstAnswer(w, from, left, r, end) && FirstAnswer(w, from, left, r', end')
    ensures r == r' && end == end'
  {
    var first := if end < end' then end else end';
    if from < first { assert PassOver(Listed(w, first - 1)) == PassOver(w.fetch(first - 1)); }
  }

  /** The state once the list that was fetched, if any, is adopted. */
  function Adopt(s: State, result: Outcome<seq<Replica>>): State {
    if result.Ok? then s.(replicas := result.value) else s
  }

  lemma {:induction false} FetchEffect(initial: seq<Replica>, w: World, s: State, left: nat)
    requires s.replicas == Current(initial, s.trace)
    ensures FetchFrom(w, s, left).1.replicas == s.replicas
    ensures Searches(initial, s, Adopt(FetchFrom(w, s, left).1, FetchFrom(w, s, left).0))
    ensures Within(s, FetchFrom(w, s, left).1, 0, 0, 0)
    decreases left
  {
    if left > 0 {
      var s1, result := AskOne(w, s), w.fetch(s.fetches);
      RecordContinues(initial, s, Asked(result));
      if result.Err? && TryNextServer(result.error) {
        FetchEffect(initial, w, s1, left - 1);
        SearchesTransitive(initial, s, s1, Adopt(FetchFrom(w, s1, left - 1).1, FetchFrom(w, s1, left - 1).0));
      }
    }
  }

  lemma FetchRoundEffect(initial: seq<Replica>, w: World, s: State)
    requires s.replicas == Current(initial, s.trace)
    ensures Searches(initial, s, FetchRound(w, s).1) && Within(s, FetchRound(w, s).1, 0, 1, 0)
  {
    var s0 := Record(s, FetchBegun);
    RecordContinues(initial, s, FetchBegun);
    FetchEffect(initial, w, s0, w.servers);
    SearchesTransitive(initial, s, s0, FetchRound(w, s).1);
  }

  /** A search: no task runs; it stops at a list with a primary, or by throwing. */
  ghost predicate SearchDone(initial: seq<Replica>, s: State, error: Option<Error>, s': State, searches: nat,
                             left: nat) {
    && Searches(initial, s, s') && Within(s, s', searches, left, left)
    && (error.None? ==> left > 0 && Primary(s'.replicas).Some? && Within(s, s', searches, left, left - 1))
  }

  lemma SearchRoundThen(initial: seq<Replica>, s: State, s1: State, error: Option<Error>, s': State, left: nat)
    requires Searches(initial, s, s1) && Within(s, s1, 0, 1, 0) && left > 0
    requires SearchDone(initial, Record(s1, Waited), error, s', 0, left - 1)
    ensures SearchDone(initial, s, error, s', 0, left)
  {
    RecordContinues(initial, s1, Waited);
    SearchesTransitive(initial, s, s1, Record(s1, Waited));
    SearchesTransitive(initial, s, Record(s1, Waited), s');
  }

  lemma {:induction false} SeekRoundsEffect(initial: seq<Replica>, w: World, s: State, left: nat)
    requires s.replicas == Current(initial, s.trace)
    ensures SearchDone(initial, s, SeekRounds(w, s, left).0, SeekRounds(w, s, left).1, 0, left)
    decreases left
  {
    if left > 0 {
      FetchRoundEffect(initial, w, s);
      var error, s1 := FetchRound(w, s).0, FetchRound(w, s).1;
      if error.None? && Primary(s1.replicas).None? {
        var s2 := Record(s1, Waited);
        assert s2.replicas == Current(initial, s2.trace) by { RecordContinues(initial, s1, Waited); }
        SeekRoundsEffect(initial, w, s2, left - 1);
        SearchRoundThen(initial, s, s1, SeekRounds(w, s2, left - 1).0, SeekRounds(w, s2, left - 1).1, left);
      }
    }
  }

  lemma SearchWithBegin(initial: seq<Replica>, s: State, error: Option<Error>, s1: State)
    requires s.replicas == Current(initial, s.trace) && SearchDone(initial, Record(s, SearchBegun), error, s1, 0, 10)
    ensures SearchDone(initial, s, error, s1, 1, 10)
  {
    RecordContinues(initial, s, SearchBegun);
    SearchesTransitive(initial, s, Record(s, SearchBegun), s1);
  }

  lemma SearchWithEnd(initial: seq<Replica>, s: State, error: Option<Error>, s1: State)
    requires SearchDone(initial, s, error, s1, 1, 10)
    ensures SearchDone(initial, s, error, Record(s1, SearchEnded(error)), 1, 10)
  {
    RecordContinues(initial, s1, SearchEnded(error));
    SearchesTransitive(initial, s, s1, Record(s1, SearchEnded(error)));
  }

  lemma SeekEffect(initial: seq<Replica>, w: World, s: State)
    requires s.replicas == Current(initial, s.trace)
    ensures SearchDone(initial, s, Seek(w, s).0, Seek(w, s).1, 1, 10)
  {
    var s0 := Record(s, SearchBegun);
    RecordContinues(initial, s, SearchBegun);
    SeekRoundsEffect(initial, w, s0, 10);
    SearchWithBegin(initial, s, SeekRounds(w, s0, 10).0, SeekRounds(w, s0, 10).1);
    SearchWithEnd(initial, s, SeekRounds(w, s0, 10).0, SeekRounds(w, s0, 10).1);
  }

  // --- How searches end --------------------------------------------------------------------

  /** The waits since the last search began. */
  function Waits(trace: seq<Entry>): nat {
    if trace == [] || Last(trace).SearchBegun? then 0
    else Waits(Front(trace)) + if Last(trace).Waited? then 1 else 0
  }

  /** A search has ended at `i`: after at most 9 waits if it found a primary, at most 10 if it failed. */
  ghost predicate EndedInTime(trace: seq<Entry>, i: nat)
    requires i < |trace|
  {
    trace[i].SearchEnded? ==> Waits(trace[..i]) <= if trace[i].error.None? then 9 else 10
  }

  ghost predicate FailedSearch(e: Entry) {
    e.SearchEnded? && e.error.Some?
  }

  /** From `from` on every search ended in time, and a failed one ended the call, with its error. */
  ghost predicate SearchesEnd(from: nat, trace: seq<Entry>, outcome: Outcome<int>) {
    && (forall i :: from <= i < |trace| ==> EndedInTime(trace, i))
    && (forall i :: from <= i < |trace| && FailedSearch(trace[i]) ==>
          i == |trace| - 1 && outcome == Err(trace[i].error.value))
  }

  /** Nothing but fetching and waiting was added. */
  ghost predicate OnlyLooked(from: nat, trace: seq<Entry>) {
    forall i :: from <= i < |trace| ==> trace[i].FetchBegun? || trace[i].Asked? || trace[i].Waited?
  }

  lemma WaitsSnoc(trace: seq<Entry>, e: Entry)
    ensures Waits(trace + [e]) == if e.SearchBegun? then 0 else Waits(trace) + if e.Waited? then 1 else 0
  {
    assert Front(trace + [e]) == trace;
  }

  lemma LooksOn(before: seq<Entry>, e: Entry, trace: seq<Entry>)
    requires before + [e] <= trace && OnlyLooked(|before| + 1, trace) && e.Asked?
    ensures before <= trace && OnlyLooked(|before|, trace)
  {
    assert trace[|before|] == e;
  }

  lemma {:induction false} FetchLooks(w: World, s: State, left: nat)
    ensures s.trace <= FetchFrom(w, s, left).1.trace && OnlyLooked(|s.trace|, FetchFrom(w, s, left).1.trace)
    ensures Waits(FetchFrom(w, s, left).1.trace) == Waits(s.trace)
    decreases left
  {
    if left > 0 {
      var s1 := AskOne(w, s);
      WaitsSnoc(s.trace, Asked(w.fetch(s.fetches)));
      if PassOver(w.fetch(s.fetches)) {
        FetchLooks(w, s1, left - 1);
        LooksOn(s.trace, Asked(w.fetch(s.fetches)), FetchFrom(w, s1, left - 1).1.trace);
      }
    }
  }

  lemma RoundLooks(w: World, s: State)
    ensures var s' := FetchRound(w, s).1;
            s.trace <= s'.trace && OnlyLooked(|s.trace|, s'.trace) && Waits(s'.trace) == Waits(s.trace)
  {
    WaitsSnoc(s.trace, FetchBegun);
    FetchLooks(w, Record(s, FetchBegun), w.servers);
  }

  lemma {:induction false} RoundsLook(w: World, s: State, left: nat)
    ensures var (error, s') := SeekRounds(w, s, left);
            && s.trace <= s'.trace && OnlyLooked(|s.trace|, s'.trace)
            && Waits(s'.trace) <= Waits(s.trace) + left
            && (error.None? ==> Waits(s'.trace) < Waits(s.trace) + left)
    decreases left
  {
    if left > 0 {
      RoundLooks(w, s);
      var (error, s1) := FetchRound(w, s);
      if error.None? && Primary(s1.replicas).None? {
        WaitsSnoc(s1.trace, Waited);
        RoundsLook(w, Record(s1, Waited), left - 1);
      }
    }
  }

  /** One search: its end is its last entry, and it ended in time. */
  ghost predicate SearchEndsLast(from: nat, trace: seq<Entry>, error: Option<Error>) {
    && from < |trace| && Last(trace) == SearchEnded(error)
    && (forall i :: from <= i < |trace| - 1 ==> !trace[i].SearchEnded?)
    && EndedInTime(trace, |trace| - 1)
  }

  lemma SeekEndsLast(w: World, s: State)
    ensures s.trace <= Seek(w, s).1.trace && SearchEndsLast(|s.trace|, Seek(w, s).1.trace, Seek(w, s).0)
  {
    var s0 := Record(s, SearchBegun);
    WaitsSnoc(s.trace, SearchBegun);
    RoundsLook(w, s0, 10);
    var (error, s1) := SeekRounds(w, s0, 10);
    assert (s1.trace + [SearchEnded(error)])[..|s1.trace|] == s1.trace;
  }

  lemma SearchesEndMore(from: nat, middle: seq<Entry>, error: Option<Error>, trace: seq<Entry>, outcome: Outcome<int>)
    requires SearchEndsLast(from, middle, error) && middle <= trace && SearchesEnd(|middle|, trace, outcome)
    requires error.Some? ==> trace == middle && outcome == Err(error.value)
    ensures SearchesEnd(from, trace, outcome)
  {
    forall i | from <= i < |trace| ensures EndedInTime(trace, i) {
      if i < |middle| { assert trace[i] == middle[i] && trace[..i] == middle[..i]; }
    }
    assert middle[|middle| - 1] == Last(middle);
  }

  lemma SearchesEndAfter(from: nat, middle: nat, trace: seq<Entry>, outcome: Outcome<int>)
    requires from <= middle <= |trace| && SearchesEnd(middle, trace, outcome)
    requires forall i :: from <= i < middle ==> !trace[i].SearchEnded?
    ensures SearchesEnd(from, trace, outcome)
  {
  }

  /** An execution, a wait and a search, and whatever the call did then. */
  lemma RetryEndsSearches(before: seq<Entry>, x: Entry, middle: seq<Entry>, error: Option<Error>, trace: seq<Entry>,
                          outcome: Outcome<int>)
    requires x.Executed? && before + [x] + [Waited] <= middle <= trace
    requires SearchEndsLast(|before| + 2, middle, error) && SearchesEnd(|middle|, trace, outcome)
    requires error.Some? ==> trace == middle && outcome == Err(error.value)
    ensures before <= trace && SearchesEnd(|before|, trace, outcome)
  {
    SearchesEndMore(|before| + 2, middle, error, trace, outcome);
    assert trace[|before|] == x && trace[|before| + 1] == Waited;
    SearchesEndAfter(|before|, |before| + 2, trace, outcome);
  }

  lemma {:induction false} RoundsEndSearches(w: World, s: State, left: nat)
    ensures s.trace <= PrimaryRounds(w, s, left).1.trace
    ensures SearchesEnd(|s.trace|, PrimaryRounds(w, s, left).1.trace, PrimaryRounds(w, s, left).0)
    decreases left
  {
    if left > 0 && Primary(s.replicas).Some? {
      var (outcome, s1) := Execute(w, s, Primary(s.replicas).value);
      if outcome.Err? && Retryable(outcome.error) {
        SearchThenEnds(w, s.trace, Last(s1.trace), Record(s1, Waited), left);
      }
    }
  }

  lemma {:induction false} SearchThenEnds(w: World, before: seq<Entry>, x: Entry, s2: State, left: nat)
    requires left > 0 && x.Executed? && s2.trace == before + [x] + [Waited]
    ensures var error, s3 := Seek(w, s2).0, Seek(w, s2).1;
            if error.Some? then before <= s3.trace && SearchesEnd(|before|, s3.trace, Err(error.value))
            else before <= PrimaryRounds(w, s3, left - 1).1.trace &&
                 SearchesEnd(|before|, PrimaryRounds(w, s3, left - 1).1.trace, PrimaryRounds(w, s3, left - 1).0)
    decreases left, 0
  {
    SeekEndsLast(w, s2);
    var error, s3 := Seek(w, s2).0, Seek(w, s2).1;
    if error.Some? {
      RetryEndsSearches(before, x, s3.trace, error, s3.trace, Err(error.value));
    } else {
      RoundsEndSearches(w, s3, left - 1);
      RetryEndsSearches(before, x, s3.trace, error, PrimaryRounds(w, s3, left - 1).1.trace, PrimaryRounds(w, s3,
                        left - 1).0);
    }
  }

  lemma PrimaryRunEndsSearches(w: World, s: State)
    ensures s.trace <= RunOnPrimary(w, s).1.trace
    ensures SearchesEnd(|s.trace|, RunOnPrimary(w, s).1.trace, RunOnPrimary(w, s).0)
  {
    if Primary(s.replicas).Some? {
      RoundsEndSearches(w, s, 10);
    } else {
      SeekEndsLast(w, s);
      var error, s1 := Seek(w, s).0, Seek(w, s).1;
      if error.None? { RoundsEndSearches(w, s1, 10); }
      SearchesEndMore(|s.trace|, s1.trace, error, RunOnPrimary(w, s).1.trace, RunOnPrimary(w, s).0);
    }
  }

  // --- Running the task --------------------------------------------------------------------

  /** The executions one call added. */
  function New(s: State, s': State): seq<Entry>
    requires Executions(s.trace) <= Executions(s'.trace)
  {
    Executions(s'.trace)[|Executions(s.trace)|..]
  }

  /**
   One success at most: every execution but the last failed in a way that is retried, a value comes back
   exactly when the last one succeeded, and an error that is not retried comes back as it is.
   */
  ghost predicate OneSuccess(xs: seq<Entry>, outcome: Outcome<int>) {
    && (forall i :: 0 <= i < |xs| ==> xs[i].Executed?)
    && (forall i :: 0 <= i < |xs| - 1 ==> xs[i].outcome.Err? && Retryable(xs[i].outcome.error))
    && (outcome.Ok? ==> xs != [] && Last(xs).outcome == outcome)
    && (xs != [] && (Last(xs).outcome.Ok? || !Retryable(Last(xs).outcome.error)) ==> outcome == Last(xs).outcome)
  }

  /** The call ran the task at most `limit` times, once per answer of the oracle. */
  ghost predicate Ran(w: World, s: State, outcome: Outcome<int>, s': State, limit: nat) {
    && Executions(s.trace) <= Executions(s'.trace)
    && OneSuccess(New(s, s'), outcome)
    && |New(s, s')| <= limit
    && s'.execs == s.execs + |New(s, s')|
    && FromOracle(w, s.execs, New(s, s'))
  }

  /** The outcomes are the oracle's, one per execution and in order. */
  ghost predicate FromOracle(w: World, execs: nat, xs: seq<Entry>) {
    forall k :: 0 <= k < |xs| ==> xs[k].Executed? && xs[k].outcome == w.exec(execs + k)
  }

  lemma RanNothing(w: World, s: State, outcome: Outcome<int>, s': State)
    requires Executions(s'.trace) == Executions(s.trace) && s'.execs == s.execs && outcome.Err?
    ensures Ran(w, s, outcome, s', 0)
  {
  }

  lemma RanLonger(w: World, s: State, outcome: Outcome<int>, s': State, limit: nat, more: nat)
    requires Ran(w, s, outcome, s', limit) && limit <= more
    ensures Ran(w, s, outcome, s', more)
  {
  }

  lemma SuffixCons<T>(a: seq<T>, x: T, b: seq<T>, c: seq<T>)
    requires b == a + [x] && b <= c
    ensures a <= c && c[|a|..] == [x] + c[|b|..]
  {
  }

  lemma OneSuccessCons(x: Entry, xs: seq<Entry>, outcome: Outcome<int>)
    requires x.Executed? && x.outcome.Err? && Retryable(x.outcome.error) && OneSuccess(xs, outcome)
    ensures OneSuccess([x] + xs, outcome)
  {
    if xs != [] { assert Last([x] + xs) == Last(xs); }
  }

  /** A first execution followed by a call of which the executions are known. */
  lemma RanThen(w: World, s: State, s1: State, at: Replica, outcome: Outcome<int>, s': State, limit: nat)
    requires Executions(s1.trace) == Executions(s.trace) + [Executed(at, w.exec(s.execs))]
    requires s1.execs == s.execs + 1
    requires w.exec(s.execs).Err? && Retryable(w.exec(s.execs).error)
    requires Ran(w, s1, outcome, s', limit)
    ensures Ran(w, s, outcome, s', limit + 1)
  {
    var x := Executed(at, w.exec(s.execs));
    SuffixCons(Executions(s.trace), x, Executions(s1.trace), Executions(s'.trace));
    OneSuccessCons(x, New(s1, s'), outcome);
    FromOracleCons(w, s.execs, x, New(s1, s'));
  }

  /** A single execution whose outcome is the outcome of the call. */
  lemma RanOnce(w: World, s: State, s1: State, at: Replica)
    requires Executions(s1.trace) == Executions(s.trace) + [Executed(at, w.exec(s.execs))]
    requires s1.execs == s.execs + 1
    ensures Ran(w, s, w.exec(s.execs), s1, 1)
  {
    assert New(s, s1) == [Executed(at, w.exec(s.execs))];
  }

  lemma ExecuteEffect(w: World, s: State, at: Replica)
    ensures var (outcome, s1) := Execute(w, s, at);
            && s1.execs == s.execs + 1 && outcome == w.exec(s.execs) && s1.replicas == s.replicas
            && Executions(s1.trace) == Executions(s.trace) + [Executed(at, w.exec(s.execs))]
  {
    assert Front(s.trace + [Executed(at, w.exec(s.execs))]) == s.trace;
  }

  /** `runOnPrimaryReplica`: where the task ran, how often, and what it cost to find the primary. */
  ghost predicate PrimaryDone(initial: seq<Replica>, w: World, s: State, outcome: Outcome<int>, s': State, left: nat) {
    Continues(initial, s, s') && Within(s, s', left, 10 * left, 10 * left + 1) && Ran(w, s, outcome, s', left)
  }

  lemma PrimaryRoundThen(initial: seq<Replica>, w: World, s: State, s1: State, s2: State, at: Replica,
                         outcome: Outcome<int>, s': State, left: nat)
    requires left > 0 && Continues(initial, s, s1) && Within(s, s1, 0, 0, 1)
    requires Executions(s1.trace) == Executions(s.trace) + [Executed(at, w.exec(s.execs))]
    requires s1.execs == s.execs + 1 && w.exec(s.execs).Err? && Retryable(w.exec(s.execs).error)
    requires SearchDone(initial, s1, None, s2, 1, 10)
    requires PrimaryDone(initial, w, s2, outcome, s', left - 1)
    ensures PrimaryDone(initial, w, s, outcome, s', left)
  {
    ContinuesTransitive(initial, s, s1, s2);
    ContinuesTransitive(initial, s, s2, s');
    assert New(s1, s') == New(s2, s');
    RanThen(w, s, s1, at, outcome, s', left - 1);
  }

  lemma ExecuteAtPrimary(initial: seq<Replica>, w: World, s: State)
    requires s.replicas == Current(initial, s.trace) && Primary(s.replicas).Some?
    ensures var (outcome, s1) := Execute(w, s, Primary(s.replicas).value);
            && Continues(initial, s, s1) && Within(s, s1, 0, 0, 0)
            && Continues(initial, s, Record(s1, Waited)) && Within(s, Record(s1, Waited), 0, 0, 1)
            && Executions(Record(s1, Waited).trace) == Executions(s1.trace)
  {
    var at := Primary(s.replicas).value;
    RecordContinues(initial, s, Executed(at, w.exec(s.execs)));
    var s1 := Execute(w, s, at).1;
    RecordContinues(initial, s1, Waited);
    ContinuesTransitive(initial, s, s1, Record(s1, Waited));
  }

  lemma {:induction false} PrimaryRoundsEffect(initial: seq<Replica>, w: World, s: State, left: nat)
    requires s.replicas == Current(initial, s.trace) && Primary(s.replicas).Some?
    ensures PrimaryDone(initial, w, s, PrimaryRounds(w, s, left).0, PrimaryRounds(w, s, left).1, left)
    decreases left
  {
    if left == 0 {
      RanNothing(w, s, Err(Exhausted), s);
    } else {
      var at := Primary(s.replicas).value;
      ExecuteEffect(w, s, at);
      ExecuteAtPrimary(initial, w, s);
      var (outcome, s1) := Execute(w, s, at);
      RanOnce(w, s, s1, at);
      if outcome.Ok? || !Retryable(outcome.error) {
        RanLonger(w, s, outcome, s1, 1, left);
      } else {
        RetryEffect(initial, w, s, Record(s1, Waited), at, left);
      }
    }
  }

  lemma FailedSearchEnds(initial: seq<Replica>, w: World, s: State, s1: State, at: Replica, error: Error, s2: State,
                         left: nat)
    requires left > 0 && Continues(initial, s, s1) && Within(s, s1, 0, 0, 1)
    requires Executions(s1.trace) == Executions(s.trace) + [Executed(at, w.exec(s.execs))]
    requires s1.execs == s.execs + 1 && w.exec(s.execs).Err? && Retryable(w.exec(s.execs).error)
    requires SearchDone(initial, s1, Some(error), s2, 1, 10)
    ensures PrimaryDone(initial, w, s, Err(error), s2, left)
  {
    ContinuesTransitive(initial, s, s1, s2);
    RanNothing(w, s1, Err(error), s2);
    RanThen(w, s, s1, at, Err(error), s2, 0);
    RanLonger(w, s, Err(error), s2, 1, left);
  }

  lemma RetryEffect(initial: seq<Replica>, w: World, s: State, s1: State, at: Replica, left: nat)
    requires left > 0 && Continues(initial, s, s1) && Within(s, s1, 0, 0, 1)
    requires Executions(s1.trace) == Executions(s.trace) + [Executed(at, w.exec(s.execs))]
    requires s1.execs == s.execs + 1 && w.exec(s.execs).Err? && Retryable(w.exec(s.execs).error)
    ensures var error, s2 := Seek(w, s1).0, Seek(w, s1).1;
            if error.Some? then PrimaryDone(initial, w, s, Err(error.value), s2, left)
            else PrimaryDone(initial, w, s, PrimaryRounds(w, s2, left - 1).0, PrimaryRounds(w, s2, left - 1).1, left)
    decreases left, 2
  {
    SeekEffect(initial, w, s1);
    SearchThen(initial, w, s, s1, at, Seek(w, s1).0, Seek(w, s1).1, left);
  }

  /** The rest of a call after a search that ended like this. */
  lemma SearchThen(initial: seq<Replica>, w: World, s: State, s1: State, at: Replica, error: Option<Error>, s2: State,
                   left: nat)
    requires left > 0 && Continues(initial, s, s1) && Within(s, s1, 0, 0, 1)
    requires Executions(s1.trace) == Executions(s.trace) + [Executed(at, w.exec(s.execs))]
    requires s1.execs == s.execs + 1 && w.exec(s.execs).Err? && Retryable(w.exec(s.execs).error)
    requires SearchDone(initial, s1, error, s2, 1, 10)
    ensures if error.Some? then PrimaryDone(initial, w, s, Err(error.value), s2, left)
            else PrimaryDone(initial, w, s, PrimaryRounds(w, s2, left - 1).0, PrimaryRounds(w, s2, left - 1).1, left)
    decreases left, 1
  {
    if error.Some? {
      FailedSearchEnds(initial, w, s, s1, at, error.value, s2, left);
    } else {
      FoundThen(initial, w, s, s1, at, s2, left);
    }
  }

  lemma FoundThen(initial: seq<Replica>, w: World, s: State, s1: State, at: Replica, s2: State, left: nat)
    requires left > 0 && Continues(initial, s, s1) && Within(s, s1, 0, 0, 1)
    requires Executions(s1.trace) == Executions(s.trace) + [Executed(at, w.exec(s.execs))]
    requires s1.execs == s.execs + 1 && w.exec(s.execs).Err? && Retryable(w.exec(s.execs).error)
    requires SearchDone(initial, s1, None, s2, 1, 10)
    ensures PrimaryDone(initial, w, s, PrimaryRounds(w, s2, left - 1).0, PrimaryRounds(w, s2, left - 1).1, left)
    decreases left, 0
  {
    PrimaryRoundsEffect(initial, w, s2, left - 1);
    PrimaryRoundThen(initial, w, s, s1, s2, at, PrimaryRounds(w, s2, left - 1).0, PrimaryRounds(w, s2, left - 1).1,
                     left);
  }

  ghost predicate PrimaryRunDone(initial: seq<Replica>, w: World, s: State, outcome: Outcome<int>, s': State) {
    Continues(initial, s, s') && Within(s, s', 11, 110, 110) && Ran(w, s, outcome, s', 10)
  }

  lemma SearchThenRounds(initial: seq<Replica>, w: World, s: State, s1: State, outcome: Outcome<int>, s': State)
    requires SearchDone(initial, s, None, s1, 1, 10) && PrimaryDone(initial, w, s1, outcome, s', 10)
    ensures PrimaryRunDone(initial, w, s, outcome, s')
  {
    ContinuesTransitive(initial, s, s1, s');
    assert New(s, s') == New(s1, s');
  }

  lemma SearchFailed(initial: seq<Replica>, w: World, s: State, error: Error, s1: State)
    requires SearchDone(initial, s, Some(error), s1, 1, 10)
    ensures PrimaryRunDone(initial, w, s, Err(error), s1)
  {
    RanNothing(w, s, Err(error), s1);
    RanLonger(w, s, Err(error), s1, 0, 10);
  }

  lemma RunOnPrimaryEffect(initial: seq<Replica>, w: World, s: State)
    requires s.replicas == Current(initial, s.trace)
    ensures PrimaryRunDone(initial, w, s, RunOnPrimary(w, s).0, RunOnPrimary(w, s).1)
  {
    if Primary(s.replicas).Some? {
      PrimaryRoundsEffect(initial, w, s, 10);
    } else {
      SeekEffect(initial, w, s);
      var (error, s1) := Seek(w, s);
      if error.Some? {
        SearchFailed(initial, w, s, error.value, s1);
      } else {
        PrimaryRoundsEffect(initial, w, s1, 10);
        SearchThenRounds(initial, w, s, s1, RunOnPrimary(w, s).0, RunOnPrimary(w, s).1);
      }
    }
  }

  /** At most so many searches, fetch rounds and waits in all. */
  ghost predicate Bounded(trace: seq<Entry>) {
    Count(trace, SearchBegun) <= 11 && Count(trace, FetchBegun) <= 110 && Count(trace, Waited) <= 110
  }

  function Start(rs: seq<Replica>, execs: nat, fetches: nat): State {
    State(rs, execs, fetches, [])
  }

  /**
   `runOnPrimaryReplica`, for every server behaviour: at most 10 executions, 11 searches, 110 fetch rounds and
   110 waits; every execution is at the first replica with the greatest term among those that call themselves
   primary in the list then in force; one success at most. A search that finds a primary waits at most 9 times, and
   one that fails ends the call with its error.
   */
  lemma PrimaryRunIsBounded(w: World, rs: seq<Replica>, execs: nat, fetches: nat)
    ensures var (outcome, s') := RunOnPrimary(w, Start(rs, execs, fetches));
            && OneSuccess(Executions(s'.trace), outcome) && |Executions(s'.trace)| <= 10
            && Bounded(s'.trace) && SearchesEnd(0, s'.trace, outcome)
            && forall i :: 0 <= i < |s'.trace| && s'.trace[i].Executed? ==>
                 RunsAtLatest(Current(rs, s'.trace[..i]), s'.trace[i].at)
  {
    var s := Start(rs, execs, fetches);
    RunOnPrimaryEffect(rs, w, s);
    PrimaryRunEndsSearches(w, s);
    var s' := RunOnPrimary(w, s).1;
    assert New(s, s') == Executions(s'.trace);
    forall i | 0 <= i < |s'.trace| && s'.trace[i].Executed?
      ensures RunsAtLatest(Current(rs, s'.trace[..i]), s'.trace[i].at)
    {
      assert AtPrimary(rs, s'.trace, i);
      PrimaryIsFirstLatest(Current(rs, s'.trace[..i]));
    }
  }

  ghost predicate RunsAtLatest(rs: seq<Replica>, at: Replica) {
    exists i: nat :: FirstLatestPrimary(rs, i) && rs[i] == at
  }

  /** These executions are at the replicas from number `i` on, each but the last unable to connect. */
  ghost predicate InListOrder(rs: seq<Replica>, i: nat, xs: seq<Entry>) {
    && i + |xs| <= |rs|
    && (forall k :: 0 <= k < |xs| ==> xs[k].Executed? && xs[k].at == rs[i + k])
    && (forall k :: 0 <= k < |xs| - 1 ==> xs[k].outcome.Err? && Is(xs[k].outcome.error, UnableToConnect))
  }

  /** `runOnAnyReplica` made exactly these executions, and did nothing else. */
  ghost predicate AnyDone(w: World, s: State, i: nat, outcome: Outcome<int>, s': State, xs: seq<Entry>) {
    && s' == s.(trace := s.trace + xs, execs := s.execs + |xs|)
    && InListOrder(s.replicas, i, xs) && OneSuccess(xs, outcome) && FromOracle(w, s.execs, xs)
    && (outcome == Err(Exhausted) || (xs != [] && outcome == Last(xs).outcome))
  }

  lemma InListOrderCons(rs: seq<Replica>, i: nat, x: Entry, xs: seq<Entry>)
    requires i < |rs| && x.Executed? && x.at == rs[i] && x.outcome.Err? && Is(x.outcome.error, UnableToConnect)
    requires InListOrder(rs, i + 1, xs)
    ensures InListOrder(rs, i, [x] + xs)
  {
    forall k | 0 <= k < |[x] + xs| ensures ([x] + xs)[k].Executed? && ([x] + xs)[k].at == rs[i + k] {
      if k > 0 { assert xs[k - 1].at == rs[i + 1 + (k - 1)]; }
    }
  }

  lemma FromOracleCons(w: World, execs: nat, x: Entry, xs: seq<Entry>)
    requires x.Executed? && x.outcome == w.exec(execs) && FromOracle(w, execs + 1, xs)
    ensures FromOracle(w, execs, [x] + xs)
  {
    forall k | 0 < k < |[x] + xs| ensures ([x] + xs)[k].Executed? && ([x] + xs)[k].outcome == w.exec(execs + k) {
      assert xs[k - 1].outcome == w.exec(execs + 1 + (k - 1));
    }
  }

  lemma AnyThen(w: World, s: State, i: nat, s1: State, outcome: Outcome<int>, s': State, xs: seq<Entry>)
    requires i < |s.replicas| && s1 == Execute(w, s, s.replicas[i]).1
    requires w.exec(s.execs).Err? && Is(w.exec(s.execs).error, UnableToConnect)
    requires AnyDone(w, s1, i + 1, outcome, s', xs)
    ensures AnyDone(w, s, i, outcome, s', [Executed(s.replicas[i], w.exec(s.execs))] + xs)
  {
    var x := Executed(s.replicas[i], w.exec(s.execs));
    assert s.trace + [x] + xs == s.trace + ([x] + xs);
    OneSuccessCons(x, xs, outcome);
    InListOrderCons(s.replicas, i, x, xs);
    FromOracleCons(w, s.execs, x, xs);
    if xs != [] { assert Last([x] + xs) == Last(xs); }
  }

  lemma {:induction false} AnyFromEffect(w: World, s: State, i: nat) returns (xs: seq<Entry>)
    requires i <= |s.replicas|
    ensures AnyDone(w, s, i, AnyFrom(w, s, i).0, AnyFrom(w, s, i).1, xs)
    decreases |s.replicas| - i
  {
    xs := [];
    if i < |s.replicas| {
      var (outcome, s1) := Execute(w, s, s.replicas[i]);
      if outcome.Err? && Is(outcome.error, UnableToConnect) {
        xs := AnyFromEffect(w, s1, i + 1);
        AnyThen(w, s, i, s1, AnyFrom(w, s, i).0, AnyFrom(w, s, i).1, xs);
      }
      xs := [Executed(s.replicas[i], outcome)] + xs;
    }
  }

  lemma OneSuccessConcat(xs: seq<Entry>, ys: seq<Entry>, outcome: Outcome<int>)
    requires forall i :: 0 <= i < |xs| ==> xs[i].Executed? && xs[i].outcome.Err? && Retryable(xs[i].outcome.error)
    requires OneSuccess(ys, outcome)
    ensures OneSuccess(xs + ys, outcome)
  {
    if ys != [] { assert Last(xs + ys) == Last(ys); }
  }

  ghost predicate OnlyExecutions(trace: seq<Entry>) {
    forall e :: e in trace ==> e.Executed?
  }

  lemma {:induction false} ExecutionsKeepList(rs: seq<Replica>, trace: seq<Entry>)
    requires OnlyExecutions(trace)
    ensures Current(rs, trace) == rs
  {
    if trace != [] {
      assert Last(trace) in trace;
      ExecutionsKeepList(rs, Front(trace));
    }
  }

  lemma {:induction false} AllAreExecutions(trace: seq<Entry>)
    requires OnlyExecutions(trace)
    ensures Executions(trace) == trace
  {
    if trace != [] {
      AllAreExecutions(Front(trace));
      assert trace == Front(trace) + [Last(trace)];
      assert Last(trace) in trace;
    }
  }

  ghost predicate Refused(e: Entry) {
    e.Executed? && e.outcome.Err? && Is(e.outcome.error, ReplicaNotPrimary)
  }

  /**
   The first `k` entries are executions at the replicas in list order. If anything follows, the last of them was
   refused by a secondary, and from then on executions are at the primary.
   */
  ghost predicate HandedOver(rs: seq<Replica>, trace: seq<Entry>, k: nat) {
    && k <= |trace| && InListOrder(rs, 0, trace[..k])
    && (k == |trace| || (k > 0 && Refused(trace[k - 1])))
    && (forall i :: k <= i < |trace| ==> AtPrimary(rs, trace, i))
  }

  /** What `runFailsafe` guarantees of one call on a fresh trace. */
  ghost predicate FailsafeDone(w: World, rs: seq<Replica>, execs: nat, outcome: Outcome<int>, trace: seq<Entry>) {
    FailsafeRan(w, rs, execs, outcome, trace) && Bounded(trace) && SearchesEnd(0, trace, outcome)
  }

  ghost predicate FailsafeRan(w: World, rs: seq<Replica>, execs: nat, outcome: Outcome<int>, trace: seq<Entry>) {
    && OneSuccess(Executions(trace), outcome) && |Executions(trace)| <= |rs| + 10
    && FromOracle(w, execs, Executions(trace))
    && exists k: nat :: HandedOver(rs, trace, k)
  }

  lemma FromOracleConcat(w: World, execs: nat, xs: seq<Entry>, ys: seq<Entry>)
    requires FromOracle(w, execs, xs) && FromOracle(w, execs + |xs|, ys)
    ensures FromOracle(w, execs, xs + ys)
  {
    forall i | |xs| <= i < |xs + ys| ensures (xs + ys)[i].Executed? && (xs + ys)[i].outcome == w.exec(execs + i) {
      assert ys[i - |xs|].outcome == w.exec(execs + |xs| + (i - |xs|));
    }
  }

  lemma HandsOverOnce(w: World, rs: seq<Replica>, execs: nat, xs: seq<Entry>, ys: seq<Entry>, outcome: Outcome<int>)
    requires InListOrder(rs, 0, xs) && FromOracle(w, execs, xs) && FromOracle(w, execs + |xs|, ys)
    requires xs != [] && Last(xs).outcome.Err? && Retryable(Last(xs).outcome.error) && OneSuccess(ys, outcome)
    ensures OneSuccess(xs + ys, outcome) && FromOracle(w, execs, xs + ys)
  {
    forall i | 0 <= i < |xs| ensures xs[i].outcome.Err? && Retryable(xs[i].outcome.error) {
      if i == |xs| - 1 { assert xs[i] == Last(xs); }
    }
    OneSuccessConcat(xs, ys, outcome);
    FromOracleConcat(w, execs, xs, ys);
  }

  lemma FailsafeHandsOver(w: World, rs: seq<Replica>, execs: nat, xs: seq<Entry>, ys: seq<Entry>,
                          outcome: Outcome<int>, trace: seq<Entry>)
    requires InListOrder(rs, 0, xs) && FromOracle(w, execs, xs) && FromOracle(w, execs + |xs|, ys)
    requires xs != [] && Last(xs).outcome.Err? && Retryable(Last(xs).outcome.error)
    requires OneSuccess(ys, outcome) && |ys| <= 10
    requires Executions(trace) == xs + ys && HandedOver(rs, trace, |xs|)
    ensures FailsafeRan(w, rs, execs, outcome, trace)
  {
    HandsOverOnce(w, rs, execs, xs, ys, outcome);
    FailsafeAdds(w, rs, execs, outcome, trace, xs, ys);
  }

  lemma RanAfter(w: World, s1: State, xs: seq<Entry>, outcome: Outcome<int>, s': State)
    requires Executions(s1.trace) == xs && Ran(w, s1, outcome, s', 10)
    ensures Executions(s'.trace) == xs + New(s1, s') && OneSuccess(New(s1, s'), outcome)
    ensures |New(s1, s')| <= 10 && FromOracle(w, s1.execs, New(s1, s'))
  {
    PrefixSuffix(xs, Executions(s'.trace));
  }

  lemma FailsafeAdds(w: World, rs: seq<Replica>, execs: nat, outcome: Outcome<int>, trace: seq<Entry>, xs: seq<Entry>,
                     ys: seq<Entry>)
    requires Executions(trace) == xs + ys && |xs| <= |rs| && |ys| <= 10
    requires OneSuccess(xs + ys, outcome) && FromOracle(w, execs, xs + ys) && HandedOver(rs, trace, |xs|)
    ensures FailsafeRan(w, rs, execs, outcome, trace)
  {
  }

  lemma PrefixSuffix<T>(a: seq<T>, b: seq<T>)
    requires a <= b
    ensures b == a + b[|a|..]
  {
  }

  lemma HandsOverAt(rs: seq<Replica>, s1: State, s': State)
    requires InListOrder(rs, 0, s1.trace) && Continues(rs, s1, s') && s1.trace != [] && Refused(Last(s1.trace))
    ensures HandedOver(rs, s'.trace, |s1.trace|)
  {
    assert s'.trace[..|s1.trace|] == s1.trace;
  }

  lemma PrimaryTakesOver(w: World, rs: seq<Replica>, execs: nat, s1: State, xs: seq<Entry>, outcome: Outcome<int>,
                         s': State)
    requires Executions(s1.trace) == xs && s1.execs == execs + |xs|
    requires InListOrder(rs, 0, xs) && FromOracle(w, execs, xs)
    requires xs != [] && Last(xs).outcome.Err? && Retryable(Last(xs).outcome.error)
    requires HandedOver(rs, s'.trace, |xs|) && Ran(w, s1, outcome, s', 10)
    ensures FailsafeRan(w, rs, execs, outcome, s'.trace)
  {
    RanAfter(w, s1, xs, outcome, s');
    FailsafeHandsOver(w, rs, execs, xs, New(s1, s'), outcome, s'.trace);
  }

  /** Executions alone make no search. */
  lemma NoSearchYet(xs: seq<Entry>)
    requires OnlyExecutions(xs)
    ensures Count(xs, SearchBegun) == 0 && Count(xs, FetchBegun) == 0 && Count(xs, Waited) == 0
    ensures forall i :: 0 <= i < |xs| ==> !xs[i].SearchEnded?
  {
    assert SearchBegun !in xs && FetchBegun !in xs && Waited !in xs;
    assert forall i :: 0 <= i < |xs| ==> xs[i] in xs;
  }

  lemma BoundedFrom(w: World, s1: State, outcome: Outcome<int>, s': State)
    requires OnlyExecutions(s1.trace) && s1.trace <= s'.trace && Within(s1, s', 11, 110, 110)
    requires SearchesEnd(|s1.trace|, s'.trace, outcome)
    ensures Bounded(s'.trace) && SearchesEnd(0, s'.trace, outcome)
  {
    NoSearchYet(s1.trace);
    SearchesEndAfter(0, |s1.trace|, s'.trace, outcome);
  }

  /**
   `runFailsafe`, for every server behaviour: one success at most over the whole call, at most one execution per
   replica and ten more, and the bounds above on searching; a refusal by a secondary, and nothing else, hands over to
   the primary, and then every execution is at one.
   */
  lemma FailsafeOneSuccess(w: World, rs: seq<Replica>, execs: nat, fetches: nat)
    ensures var (outcome, s') := RunFailsafe(w, Start(rs, execs, fetches));
            FailsafeDone(w, rs, execs, outcome, s'.trace)
  {
    var s := Start(rs, execs, fetches);
    var xs := AnyFromEffect(w, s, 0);
    var (any, s1) := AnyFrom(w, s, 0);
    assert s1.trace == xs;
    AnyFacts(w, rs, execs, xs, any);
    if any.Err? && Is(any.error, ReplicaNotPrimary) {
      RunOnPrimaryEffect(rs, w, s1);
      HandsOverAt(rs, s1, RunOnPrimary(w, s1).1);
      PrimaryTakesOver(w, rs, execs, s1, xs, RunOnPrimary(w, s1).0, RunOnPrimary(w, s1).1);
      PrimaryRunEndsSearches(w, s1);
      BoundedFrom(w, s1, RunOnPrimary(w, s1).0, RunOnPrimary(w, s1).1);
    }
  }

  lemma AnyRan(w: World, rs: seq<Replica>, execs: nat, xs: seq<Entry>, outcome: Outcome<int>)
    requires InListOrder(rs, 0, xs) && OneSuccess(xs, outcome) && FromOracle(w, execs, xs) && Executions(xs) == xs
    ensures FailsafeRan(w, rs, execs, outcome, xs)
  {
    assert xs[..|xs|] == xs;
    assert HandedOver(rs, xs, |xs|);
  }

  lemma OrderedAreExecutions(rs: seq<Replica>, xs: seq<Entry>)
    requires InListOrder(rs, 0, xs)
    ensures OnlyExecutions(xs)
  {
  }

  lemma OnlyExecutionsBounded(xs: seq<Entry>, outcome: Outcome<int>)
    requires OnlyExecutions(xs)
    ensures Bounded(xs) && SearchesEnd(0, xs, outcome)
  {
    NoSearchYet(xs);
  }

  /** `runOnAnyReplica` on a fresh trace, by itself. */
  lemma AnyFacts(w: World, rs: seq<Replica>, execs: nat, xs: seq<Entry>, outcome: Outcome<int>)
    requires InListOrder(rs, 0, xs) && OneSuccess(xs, outcome) && FromOracle(w, execs, xs)
    ensures OnlyExecutions(xs) && Current(rs, xs) == rs && Executions(xs) == xs
    ensures FailsafeDone(w, rs, execs, outcome, xs)
  {
    OrderedAreExecutions(rs, xs);
    ExecutionsKeepList(rs, xs);
    AllAreExecutions(xs);
    AnyRan(w, rs, execs, xs, outcome);
    OnlyExecutionsBounded(xs, outcome);
  }
}
