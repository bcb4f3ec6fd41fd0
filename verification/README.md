# TypeDB drivers: a verified model of the transport, failover and printing logic

Most TypeDB drivers forward to a native library. The Node.js driver implements the transaction protocol and the
replica failover itself. This project models that code, and three self-contained algorithms of the Java, C++ and C
drivers, in Dafny, and proves what each promises for all inputs, all server behaviours and all interleavings.

| file | models |
|---|---|
| `Protocol.dfy` | requests, answers, stream parts and errors |
| `Dispatch.dfy` | the batching dispatcher: a state machine over calls, timer fires and the clock, and the mutable objects that take its steps |
| `Queues.dfy` | the blocking queue and the collector of response queues, as objects |
| `Transport.dfy` | one transaction: calls, answer streams, server messages, `close`, in any order |
| `StreamObjects.dfy`, `Transactions.dfy` | the mutable stream object and the transaction that drives it; every method takes a step of `Transport` |
| `Network.dfy` | `Transport` joined to a server that keeps its side of the protocol and to a channel that delays messages |
| `Completion.dfy` | that every answer stream can be brought to its end |
| `Failover.dfy`, `Sessions.dfy` | replica failover and the session lifecycle as functions over an oracle |
| `FailoverRules.dfy` | failover once more, as a rule that says from the history of a call what happens next; the loops follow it, and it leaves no choice |
| `Databases.dfy` | the retry loops, the database manager and the session object, proved to compute those functions |
| `Json.dfy`, `JsonText.dfy`, `JsonRoundTrip.dfy`, `JsonExact.dfy` | the JSON printer, a reader for RFC 8259 (sections 2 to 7), and exactly when one undoes the other |
| `JsonLayout.dfy` | the layout of printed trees, line by line |
| `Leapfrog.dfy` | set intersection tests |
| `NativeIterators.dfy` | chained native iterators over the C error flag |

JavaScript runs a handler without interruption up to its next `await`, so each such stretch is one step, and a run is
any sequence of steps that can happen. Main results are stated about a run's own record (`Calls`, `Clock`, `Heard`,
`Closes`, `Executions`), not about the state the code keeps. A mutable class carries the state its steps lead to as a
ghost value, and its validity ties that value to the real fields. The stream object also carries the run itself, so
the theorems about runs hold of the objects.

## What the proofs brought out

- After a close, a caller waiting on a stream is stuck exactly when as many iterations of that stream have already
  failed on a closing mark as `close` was called: each call leaves one mark per queue. A stream that is iterated
  again after failing can therefore hang (`Transport.SecondIterationHangs`); a first iteration never does.
- A pending call fails with the error of the first `close`, a refused call is told about the last one. A later `close`
  without an error, such as the one `commit` makes, hides an earlier error from refused calls.
- The errors the failover code raises when it gives up are built from `ErrorMessage.message()`, which is a plain text
  (`nodejs/common/errors/ErrorMessage.ts:63`). They carry no template, so no enclosing layer retries on them.
- The session calls itself closed after a failed pulse, and `close` then does nothing (`Sessions.FailedPulseStrands`).
- Each reconnect attempt that reopens the session and then fails leaves one more session open at a server. If the
  whole reconnect fails, the session whose call threw says it is open exactly when some attempt had reopened it.
- The printer does not escape, so printing and reading back agree exactly on trees without quotes, backslashes and
  control characters (`JsonExact.RoundTripIffClean`). A quote makes the text unreadable; a backslash can make it
  readable as another tree.
- A native error flag left set by someone else is thrown by the next call of `next`, which then loses the item it had
  already taken.

## Assumptions

- `uuid.v4` returns an id that no request and no message has used. A request carries the id it was given.
- A timer fires at its deadline: model time does not pass a pending deadline. Time moves by explicit steps.
- Callbacks given by the user do not throw, and sessions and databases run one operation at a time.
- The outcome of each task, fetch and session request is an arbitrary oracle. Iteration order over servers is fixed.
- In `Network` the server answers only what it has read, answers a unary request at most once, and sends a stream's
  parts in order, waiting at each continuation marker for a stream request. `Transport` assumes nothing of it.
- In `Sessions` an open request that fails is a failed call of some run of `Transport`.

## Model

| member | source | states |
|---|---|---|
| `Dispatch.WrittenInOrderAndOnTime` | nodejs/stream/RequestTransmitter.ts:26-78 | over every interleaving the stream has accepted a prefix of the calls in call order, in non-empty messages; before the stream ends the rest is the buffer |
| `Dispatch.OnTheWireInTime` | nodejs/stream/RequestTransmitter.ts:26-78 | by the run's own clock: once more than 3 ms have passed since a request was dispatched it is on the wire, behind exactly the requests dispatched before it |
| `Dispatch.CommitBarrier` | nodejs/stream/RequestTransmitter.ts:46-60 | in every longer run an immediate request stays behind all earlier calls and ahead of all later ones |
| `Dispatch.IdleAfterTwoFires` | nodejs/stream/RequestTransmitter.ts:62-78 | without further dispatches at most two fires remain, after which there is no timer and no buffered request |
| `Dispatch.LoneRequestTiming` | nodejs/stream/RequestTransmitter.ts:26-27 | from every reachable idle state a lone request leaves after exactly 1 ms as its own message, and the next fire comes exactly 3 ms later |
| `Dispatch.TimersOnlyBy` | nodejs/stream/RequestTransmitter.ts:41-78 | over every run only a batched request on an idle dispatcher starts the timer, a fire that flushed restarts it, one that found nothing ends it, and nothing else touches it |
| `Dispatch.RunKeeps` | nodejs/stream/RequestTransmitter.ts:41-78 | order, timer and delay invariants hold at the end of every run, and what was issued is what was called |
| `Dispatch.PrefixRuns` | nodejs/stream/RequestTransmitter.ts:51-60 | messages once written stay, and nothing is written after the stream ended |
| `Dispatch.BatchDispatcher.constructor` | nodejs/stream/RequestTransmitter.ts:34-39 | a new dispatcher is the fresh state, on objects of its own and the given stream |
| `Dispatch.BatchDispatcher.Dispatch` | nodejs/stream/RequestTransmitter.ts:41-44 | takes the batched step on the very array it is filling |
| `Dispatch.BatchDispatcher.DispatchAtOnce` | nodejs/stream/RequestTransmitter.ts:46-49 | takes the immediate step; no message already handed over by reference changes |
| `Dispatch.BatchDispatcher.SendBuffer` | nodejs/stream/RequestTransmitter.ts:56-60 | hands the array over and goes on with a fresh one, so later pushes cannot reach it |
| `Dispatch.BatchDispatcher.Schedule` | nodejs/stream/RequestTransmitter.ts:68-70 | adds one deadline, small window first, large afterwards |
| `Dispatch.BatchDispatcher.OnTimer` | nodejs/stream/RequestTransmitter.ts:70-77 | takes the fire step: flush and reschedule, or stop |
| `Dispatch.BatchDispatcher.Close` | nodejs/stream/RequestTransmitter.ts:51-54 | ends the stream and leaves the transmitter, without flushing |
| `Dispatch.RequestTransmitter.Dispatcher` | nodejs/stream/RequestTransmitter.ts:98-102 | adds exactly the new dispatcher to the set; it is fresh with the array it fills |
| `Dispatch.RequestTransmitter.Close` | nodejs/stream/RequestTransmitter.ts:91-96 | ends the stream of every dispatcher although each leaves the set while it is walked, and touches nothing else of them; a second call does nothing |
| `Queues.BlockingQueue.AddPromise` | nodejs/common/util/BlockingQueue.ts:41-45 | the new promise and its resolver join both lists at the same number |
| `Queues.BlockingQueue.Put` | nodejs/common/util/BlockingQueue.ts:30-34 | the n-th element settles promise number n |
| `Queues.BlockingQueue.Claim` | nodejs/common/util/BlockingQueue.ts:36-39 | the n-th taker gets promise number n, settled exactly when the n-th element was added, and with it |
| `Queues.ResponseCollector.Queue` | nodejs/stream/ResponseCollector.ts:32-36 | a new queue object under this id, shared with nobody; what the other queues hold stays |
| `Queues.ResponseCollector.PutIn` | nodejs/stream/BidirectionalStream.ts:123-135 | the element joins what the queue object of its id holds and reaches no other; an unknown id changes nothing and is reported |
| `Queues.ResponseCollector.TakeIn` | nodejs/stream/ResponseCollector.ts:63-64 | the n-th taker of an id gets promise n of its queue, which holds the n-th element put there |
| `Queues.ResponseCollector.Close` | nodejs/stream/ResponseCollector.ts:46-48 | the walk leaves exactly one closing mark in every queue object |
| `Transport.Demultiplexing` | nodejs/stream/BidirectionalStream.ts:103-135 | for every run and every server, the queue of an id holds exactly the messages of its kind with that id received while open, in order, then one mark per close |
| `Transport.SingleOutcome` | nodejs/stream/BidirectionalStream.ts:66-73 | a call returns its first response if it came before the first close; else it fails with that close's cause, or as a closed transaction when there was none; it is pending only while open |
| `Transport.RunIsRecorded` | nodejs/stream/BidirectionalStream.ts:59-135 | by the run's own record: who has a queue, which messages were faults (exactly those nobody had asked for), what every refused call was told, and everything the dispatcher was made to do, batched or at once |
| `Transport.NextDoes` | nodejs/stream/ResponsePartIterator.ts:49-62 | in every run a generator takes the next part that came for its stream: data is yielded, a done marker ends it, a continuation marker costs one batched stream request, an unknown marker fails it with its code; with no part left the n-th failure reports the n-th close |
| `Transport.OutcomeIsFinal` | nodejs/stream/ResponseCollector.ts:63-81 | once a call has returned or failed, no longer run changes how |
| `Transport.FailureMeansClosed` | nodejs/connection/TypeDBTransactionImpl.ts:54-63 | a call that was refused or rejected, the opening one too, never leaves an open stream |
| `Transport.RefusalNamesLastClose` | nodejs/connection/TypeDBTransactionImpl.ts:112-128 | a call is refused exactly after a close, changes nothing else, and is told of the last one |
| `Transport.ClosedForGood` | nodejs/stream/BidirectionalStream.ts:88-107 | after a close the stream never reopens, no message is delivered and nothing more is written |
| `Transport.CommitBarrier` | nodejs/connection/TypeDBTransactionImpl.ts:74-86 | a commit, rollback or open request is on the wire at once, behind every request issued earlier on the transaction, in every longer run |
| `Transport.StuckAfterClose` | nodejs/stream/ResponseCollector.ts:46-81 | after a close a waiting generator is stuck if and only if as many iterations of its stream have failed on a mark as there were closes |
| `Transport.SecondIterationHangs` | nodejs/stream/ResponsePartIterator.ts:41-47 | a run in which a stream iterated a second time waits forever on a closed transaction |
| `Transport.FirstIterationNeverHangs` | nodejs/stream/ResponsePartIterator.ts:41-47 | without a second iteration nobody waits forever on a closed transaction |
| `Transport.StepKeepsIter` | nodejs/stream/ResponsePartIterator.ts:41-62 | after every step a stream has yielded the data it consumed, sent one stream request per marker consumed, and its n-th failure reports the n-th close |
| `Transport.RunKeeps` | nodejs/stream/BidirectionalStream.ts:59-135 | lifecycle, queue, iterator and request invariants hold after every run, with the run's own record of messages and closes |
| `Network.StreamIsExact` | nodejs/stream/ResponsePartIterator.ts:41-62 | for every answer, batching and interleaving: a prefix of the answer in order, all of it when finished; one stream request per marker consumed, at most one unanswered; failure only by a close |
| `Network.NoUnknownRequestId` | nodejs/stream/BidirectionalStream.ts:123-135 | a server that answers only what it read never triggers an unknown request id or a missing response |
| `Network.WaitingStreamProgresses` | nodejs/stream/ResponsePartIterator.ts:49-62 | no deadlock: a waiting stream on an open transaction can still progress if and only if it has not consumed its done marker |
| `Network.UnflushedHasTimer` | nodejs/stream/RequestTransmitter.ts:62-78 | a stream's request that is not on the wire of an open transaction has a timer that will flush it |
| `Network.PlayKeeps` | nodejs/stream/BidirectionalStream.ts:59-135 | after every joint run the driver's invariants hold, the server is on script and every message it sent is expected |
| `Completion.StreamCompletes` | nodejs/stream/ResponsePartIterator.ts:41-62 | from every reachable state of an open transaction a stream short of its done marker has a continuation, without `close` and without further calls, after which it has finished and yielded its whole answer |
| `StreamObjects.BidirectionalStream.constructor` | nodejs/stream/BidirectionalStream.ts:51-64 | construction and `open` give the empty run on fresh objects, with the new dispatcher registered at the transmitter |
| `StreamObjects.BidirectionalStream.Single` | nodejs/stream/BidirectionalStream.ts:66-73 | the object takes the call step: registers, dispatches and claims the first promise, or refuses when closed |
| `StreamObjects.BidirectionalStream.Stream` | nodejs/stream/BidirectionalStream.ts:75-82 | the object takes the stream step, or refuses when closed |
| `StreamObjects.BidirectionalStream.Next` | nodejs/stream/ResponsePartIterator.ts:49-50 | takes the pull step: claims the next promise of its own queue |
| `StreamObjects.BidirectionalStream.NextResumed` | nodejs/stream/ResponsePartIterator.ts:51-61 | takes the resume step on what the promise holds; claims another one exactly after a continuation marker |
| `StreamObjects.BidirectionalStream.Iterate` | nodejs/stream/ResponsePartIterator.ts:41-47 | takes the step of a new iteration of a stream that is over |
| `StreamObjects.BidirectionalStream.OnData` | nodejs/stream/BidirectionalStream.ts:104-135 | takes the receive step: ignored after close, routed by kind and id, or a fault |
| `StreamObjects.BidirectionalStream.OnTimer` | nodejs/stream/RequestTransmitter.ts:70-77 | takes the fire step, so the run goes on through the dispatcher's timer |
| `StreamObjects.BidirectionalStream.Close` | nodejs/stream/BidirectionalStream.ts:88-93 | takes the close step and leaves the transmitter's set |
| `StreamObjects.BidirectionalStream.OutcomeNow` | nodejs/stream/ResponseCollector.ts:63-73 | what the promise of a call holds in the queue object is what the object's own run says the call is due |
| `StreamObjects.BidirectionalStream.QueuesAreExact` | nodejs/stream/BidirectionalStream.ts:103-135 | exact demultiplexing, of the queue objects |
| `StreamObjects.BidirectionalStream.MessagesInOrder` | nodejs/stream/RequestTransmitter.ts:41-60 | the arrays the gRPC stream holds are the requests issued, in order, up to those still in the buffer |
| `Transactions.Transaction.constructor` | nodejs/connection/TypeDBTransactionImpl.ts:54-57 | `open` up to its first `await`: a valid stream with nothing sent |
| `Transactions.Transaction.SendOpen` | nodejs/connection/TypeDBTransactionImpl.ts:58-63 | the open request, and nothing else, is on the wire |
| `Transactions.OpenNew` | nodejs/connection/TypeDBTransactionImpl.ts:54-63 | both stretches of `open`, on objects of its own |
| `Transactions.Transaction.SendNow` | nodejs/connection/TypeDBTransactionImpl.ts:74-86 | commit and rollback up to the `await`: the wire holds every request issued on the transaction, this one last; refused exactly when closed |
| `Transactions.Transaction.FinishCommit` | nodejs/connection/TypeDBTransactionImpl.ts:78-80 | whatever came of the commit the stream is closed, and closing does not change what came of it |
| `Failover.PrimaryRunIsBounded` | nodejs/connection/TypeDBDatabaseImpl.ts:141-171 | at most 10 executions, 11 searches, 110 fetch rounds and 110 waits; every execution at the first greatest-term primary of the list in force; one success at most; a search that succeeds waits at most 9 times and one that fails ends the call with its error |
| `Failover.FailsafeOneSuccess` | nodejs/connection/TypeDBDatabaseImpl.ts:118-158 | every execution but the last failed in a retried way, a value comes back exactly when the last succeeded, other errors propagate at once; at most replicas + 10 executions, in list order and, after a refusal by a secondary only, at the primary; the same bounds on searching |
| `FailoverRules.FailsafeFollowsRules` | nodejs/connection/TypeDBDatabaseImpl.ts:118-171 | for every server behaviour the whole trace of `runFailsafe`, every execution, request, wait and search, and its outcome are the ones the rules ask for |
| `FailoverRules.FailsafeRulesDetermine` | nodejs/connection/TypeDBDatabaseImpl.ts:118-171 | the rules leave no choice: two calls that follow them are the same call |
| `FailoverRules.FailsafeEnds` | nodejs/connection/TypeDBDatabaseImpl.ts:118-158 | every way a call can end: the first replica reached decides, or giving up after the last; a refusal always turns it to the primary, where the first outcome that is not retried decides, or a failed search, or giving up after ten executions |
| `FailoverRules.PrimaryRunFollowsRules` | nodejs/connection/TypeDBDatabaseImpl.ts:141-171 | the same of `runOnPrimaryReplica` by itself |
| `FailoverRules.RulesDetermine` | nodejs/connection/TypeDBDatabaseImpl.ts:141-171 | its rule leaves no choice |
| `Failover.PrimaryIsFirstLatest` | nodejs/connection/TypeDBDatabaseImpl.ts:80-84 | the choice is the first replica with the greatest term among the primaries, and absent exactly without one |
| `Failover.FetchFindsFirst` | nodejs/connection/TypeDBDatabaseImpl.ts:53-70 | the first server that is not passed over decides, with its list or its error; without one the fetch fails after asking all |
| `Failover.SeekEffect` | nodejs/connection/TypeDBDatabaseImpl.ts:160-171 | a search runs no task, makes at most 10 rounds, and succeeds only with a list that has a primary |
| `Failover.SeekEndsLast` | nodejs/connection/TypeDBDatabaseImpl.ts:160-171 | a search ends once, after at most 9 waits when it succeeds and at most 10 when it fails |
| `Failover.PrimaryRoundsEffect` | nodejs/connection/TypeDBDatabaseImpl.ts:145-157 | the loop runs the task once per round at the primary then in force, with at most one search between rounds |
| `Failover.RoundsEndSearches` | nodejs/connection/TypeDBDatabaseImpl.ts:145-157 | in the loop a failed search is the last thing that happens, and its error the outcome |
| `Failover.AnyFromEffect` | nodejs/connection/TypeDBDatabaseImpl.ts:128-139 | one execution per replica in list order, going on only after a failure to connect |
| `Sessions.CallHandsNewOne` | nodejs/connection/TypeDBSessionImpl.ts:118-138 | in every reachable open session a call that opens at once returns a transaction never seen before, open and in the set, and changes nothing else; a session that is not open refuses and stays as it is |
| `Sessions.TransactionEnds` | nodejs/connection/TypeDBTransactionImpl.ts:65-68 | closing a transaction ends it and takes it out of the set; a stream that ends by itself stays in the set; no other transaction is touched |
| `Sessions.SessionEnds` | nodejs/connection/TypeDBSessionImpl.ts:94-112 | `close` and a pulse answered "not alive" empty an open session and leave one that is not open alone; `close` alone tells the server; a failed pulse only makes the session say it is closed |
| `Sessions.ReconnectHandsOne` | nodejs/connection/TypeDBSessionImpl.ts:118-138 | after a reconnect the set is exactly the new transaction, the only open one, however many replicas were tried and however far each attempt got; it succeeds exactly when the close was accepted and the failover run succeeded; in every case how many remote sessions it opened and whether the session says it is open |
| `Sessions.FailedOpenLeavesNothing` | nodejs/connection/TypeDBSessionImpl.ts:129-133 | an attempt whose stream opened and whose open request failed leaves no open transaction |
| `Sessions.FailedAttempts` | nodejs/connection/TypeDBSessionImpl.ts:129-134 | failed attempts leave no open transaction, and one more remote session per reopening |
| `Sessions.AttemptsOpenOne` | nodejs/connection/TypeDBSessionImpl.ts:129-134 | a failover run adds exactly one open transaction when it succeeds and none when it fails |
| `Sessions.SessionContainment` | nodejs/connection/TypeDBSessionImpl.ts:94-138 | in every run every open transaction is in the set, and without a failed pulse a session that is not open has none |
| `Sessions.CloseIsComplete` | nodejs/connection/TypeDBSessionImpl.ts:94-100 | `close` leaves no transaction open if and only if the session said it was open or there was none |
| `Sessions.FailedPulseStrands` | nodejs/connection/TypeDBSessionImpl.ts:172-182 | a run in which a failed pulse makes `close` leave a transaction open |
| `Databases.Database.PrimaryReplica` | nodejs/connection/TypeDBDatabaseImpl.ts:80-84 | the fold computes the choice above |
| `Databases.Database.FetchReplicas` | nodejs/connection/TypeDBDatabaseImpl.ts:53-70 | the loop computes the fetch function and changes nothing but how many requests were made |
| `Databases.Database.SeekPrimaryReplica` | nodejs/connection/TypeDBDatabaseImpl.ts:160-171 | the loop computes the search, the list being overwritten each round |
| `Databases.Database.RunOnPrimaryReplica` | nodejs/connection/TypeDBDatabaseImpl.ts:141-158 | the loop computes the primary run, and a reconnecting session is where its executions brought it |
| `Databases.Database.RunOnAnyReplica` | nodejs/connection/TypeDBDatabaseImpl.ts:128-139 | the loop computes the run over all replicas, with the same session invariant |
| `Databases.Database.RunFailsafeTask` | nodejs/connection/TypeDBDatabaseImpl.ts:118-126 | any replica first, the primary after a refusal |
| `Databases.ManagerRunFailsafe` | nodejs/connection/TypeDBDatabaseManagerImpl.ts:74-86 | the first server that succeeds or calls itself secondary decides: its value, or, after fetching the list from the first server that has it, the outcome of a run at primaries that follows the rules; else every server's failure once, in order |
| `Databases.HandOverToPrimary` | nodejs/connection/TypeDBDatabaseManagerImpl.ts:81 | after a refusal: a failed fetch is passed on as it is, else the task is run at primaries by the rules and its outcome passed on |
| `Databases.DecisionIsUnique` | nodejs/connection/TypeDBDatabaseManagerImpl.ts:74-86 | that description admits one result only |
| `Databases.SessionObject.CloseOne` | nodejs/connection/TypeDBTransactionImpl.ts:65-68 | the transaction ends and leaves the set |
| `Databases.SessionObject.CloseAll` | nodejs/connection/TypeDBSessionImpl.ts:102-106 | the walk closes every transaction although each leaves the set meanwhile |
| `Databases.SessionObject.CloseIt` | nodejs/connection/TypeDBSessionImpl.ts:94-100 | a closed session is left alone; otherwise resources first, then the server |
| `Databases.SessionObject.Reconnect` | nodejs/connection/TypeDBSessionImpl.ts:129-134 | the reconnect task at one server: the session reopened there, then a transaction, as far as it got |
| `Databases.SessionObject.NewTransactionFor` | nodejs/connection/TypeDBSessionImpl.ts:118-138 | the object takes the step of `transaction`, directly or by handing its reconnect task to the database's loops |
| `JsonExact.RoundTripIffClean` | java/api/answer/JSON.java:136-201 | printing and reading back give the same tree if and only if numbers are JSON numbers and keys and strings have no quote, backslash or control character |
| `JsonExact.QuoteBreaksTheText` | java/api/answer/JSON.java:272-274 | a string holding a quote is printed as an unreadable text |
| `JsonExact.BackslashReadsBackAsEscape` | java/api/answer/JSON.java:272-274 | a string holding a backslash and an n reads back as a newline |
| `JsonExact.PrintWeight` | java/api/answer/JSON.java:136-201 | a printed text has exactly as many backslashes and letters `u` as the tree, whatever the nesting and layout |
| `JsonExact.LexWeight` | java/api/answer/JSON.java:39-41 | reading never yields more of those characters than the text has, and as many only when no string needed an escape |
| `JsonLayout.ObjectLayout` | java/api/answer/JSON.java:136-160 | how every clean object is laid out: members in a row for types and values and one below the other with commas at line ends otherwise; content of several lines between bracket lines and four spaces further in, of one line between brackets with spaces |
| `JsonLayout.ArrayLayout` | java/api/answer/JSON.java:192-201 | the same of every clean array |
| `JsonLayout.MembersBelowEachOther` | java/api/answer/JSON.java:141-157 | an object of at least two members that is no type and no value: the lines of its text are the bracket, the shifted lines of its members in key order, the bracket |
| `JsonLayout.IndentMeans` | java/api/answer/JSON.java:62-64 | indenting any text shifts its lines by four spaces, empty lines at the end being dropped |
| `JsonLayout.LineCountMeans` | java/api/answer/JSON.java:155 | the line count of any text, by its newlines and carriage returns |
| `JsonText.RepeatedNameIsRefused` | java/api/answer/JSON.java:44-46 | an object that names a member twice is refused |
| `JsonRoundTrip.RoundTrip` | java/api/answer/JSON.java:136-160 | a clean tree is printed as a valid text that reads back as the same tree |
| `JsonRoundTrip.LexPrint` | java/api/answer/JSON.java:136-160 | whatever the layout, the printed text reads as exactly the tree's token sequence |
| `JsonRoundTrip.LexIndent` | java/api/answer/JSON.java:62-64 | indenting a readable text, trailing empty lines dropped, does not change its tokens |
| `JsonRoundTrip.ParseTokens` | java/api/answer/JSON.java:43-60 | the grammar reads a tree's tokens back as that tree, whatever follows |
| `Json.Ordered` | java/api/answer/JSON.java:141-145 | all keys once each, every earlier one before every later one |
| `Json.TypeComesLast` | java/api/answer/JSON.java:141-145 | "type" is the last key; of any two others the earlier has the smaller character at the first difference, or ends there |
| `Json.TypesAndValuesOnOneLine` | java/api/answer/JSON.java:138-157 | an object with a "root" or "value" key whose members need no line break is printed without one |
| `Leapfrog.HasIntersectionSorted` | java/common/collection/Collections.java:157-171 | true exactly when the sorted sets share an element, within min(2·size1, 2·size2 + 1) iterations |
| `Leapfrog.HasIntersection` | java/common/collection/Collections.java:138-152 | true exactly when the intersection is not empty |
| `Leapfrog.Intersection` | java/common/collection/Collections.java:121-136 | the common elements, whichever set is smaller |
| `Leapfrog.Ceiling` | java/common/collection/Collections.java:163 | the least element not below the key, absent exactly when all are below |
| `NativeIterators.NextsTakeInOrder` | cpp/lib/concept/iterator.cpp:96-105 | after any number of calls of `next` exactly that many items are gone, in order, and each finished iterator was dropped once |
| `NativeIterators.NextTakesOne` | cpp/lib/concept/iterator.cpp:96-105 | from a clear flag `next` gives the next item of the whole chain: value, thrown error with the flag clear, or the end exactly when nothing is left |
| `NativeIterators.StaleFlagCostsAnItem` | c/src/error.rs:92-108 | a flag set beforehand is thrown, cleared, and costs the item taken |
| `NativeIterators.ChainedWrapper.TryNextNative` | c/src/iterator.rs:36-38 | a null pointer at the end and on an error, which also sets the flag |
| `NativeIterators.ChainedWrapper.CheckAndThrow` | cpp/lib/common/exception.cpp:56-61 | throws exactly a set flag and leaves it clear |
| `NativeIterators.ChainedWrapper.NextConcept` | cpp/lib/concept/iterator.cpp:96-105 | the loop computes `next` |
| `NativeIterators.ChainedWrapper.Drain` | cpp/lib/concept/iterator.cpp:96-105 | draining gives the values of the streams, last stream first, up to the first error, which is thrown with the flag clear |
| `NativeIterators.ChainedWrapper.Destroy` | cpp/lib/concept/iterator.cpp:89-94 | wherever draining stopped, every native iterator has then been dropped exactly once, and none that is not there |

## Left out

- gRPC channels, TLS, credentials and token renewal: network plumbing.
- `onClose` and `onReopen` callbacks: they run after the modelled part of `close`, unguarded, and are the user's code.
- A `close` before `open` has finished, and two generators of one stream at the same time.
- The transaction stream refuses messages after `end`; what gRPC then reports to the driver is not modelled.
- Closing the transmitter under a live stream: nothing in the driver calls it; `RequestTransmitter.Close` itself is modelled.
- StreamObjects.BidirectionalStream: generators are held as values in a map, not as suspended objects; the promise one waits on is passed back to it.
- Queues.ResponseCollector.PutIn: `get` and `put` are one operation; the source's handlers always pair them.
- Databases.SessionObject.NewTransactionFor: how each attempt fails is given, as a run of the transport; pulse timers and network latency are not modelled.
- Databases.ManagerRunFailsafe: the error text is the list of failures, not its formatting; the database cache, `get` and `all` are left out.
- Completion.StreamCompletes: states that a stream can finish from every reachable state, not that a fair server and caller will bring it there.
- The preferred replica, address translation and driver close: settled by reading one branch, or not supported by the code.
- JsonExact.RoundTripIffClean: a number is the text printed for it; conversion to and from `double` is not modelled, nor the text of numbers that are not finite beyond being no JSON number.
- JsonText: a `\u` escape that is half of a surrogate pair is refused, and characters are whole code points, so keys are compared by code point where Java compares UTF-16 units.
- Leapfrog.HasIntersectionSorted: elements are integers standing for any totally ordered type, and sets are their elements in order.
- NativeIterators: the thread-local flag belongs to one thread; simple and promise-wrapping iterators would add easy members only.
- Wrapper classes of the C#, Java, Go and C++ drivers and the Rust cloud paths: single native calls or unfinished code.
