/**
 The vocabulary of the transaction protocol: what the driver sends, what the server
 answers, and the errors a stream can be closed with.
 */
module Protocol {

  datatype Option<+T> = None | Some(value: T)

  /** A request id. The driver draws it from `uuid.v4`, which is taken to return unused ids. */
  type RequestId = nat

  /** The content of an answer; nothing below looks inside it. */
  type Payload = int

  datatype Operation = OpenTransaction | Commit | Rollback | Other(code: int)

  /** What a request asks for: one answer, a stream of answers, or the next batch of a stream. */
  datatype Body = Unary(op: Operation) | Query(code: int) | StreamRequest

  datatype Request = Request(id: RequestId, body: Body)

  /** One element of an answer stream: data, or a flow-control marker. */
  datatype Part = Data(payload: Payload) | DoneMarker | ContinueMarker | UnknownMarker(code: int)

  datatype ServerMessage =
    | Response(id: RequestId, payload: Payload)
    | ResponsePart(id: RequestId, part: Part)
    | Neither

  /** The optional argument of `close`: an exception object or a plain text. */
  datatype CloseError = Thrown(code: int) | Text(text: string)

  /** JavaScript's `!error`: absent, or the empty text. */
  predicate Falsy(error: Option<CloseError>) {
    error.None? || error.value == Text("")
  }

  /** The errors a caller of the transport can see. */
  datatype DriverError =
    | TransactionClosed
    | TransactionClosedWithErrors(cause: CloseError)
    | StreamFailed(cause: CloseError)
    | UnknownStreamState(code: int)

  /** What someone waiting when the stream is closed is to be told: the cause, or that the transaction was closed. */
  ghost predicate Reports(error: DriverError, cause: Option<CloseError>) {
    match cause
    case None => error == TransactionClosed
    case Some(c) => error == StreamFailed(c)
  }

  /** What someone calling on a closed transaction is to be told; an empty text counts as no cause. */
  ghost predicate Refuses(error: DriverError, cause: Option<CloseError>) {
    match cause
    case None => error == TransactionClosed
    case Some(Thrown(_)) => error == TransactionClosedWithErrors(cause.value)
    case Some(Text(text)) => error == if text == "" then TransactionClosed else TransactionClosedWithErrors(cause.value)
  }
}

/** Facts about sequences that several components share. */
module Sequences {

  function Last<T>(s: seq<T>): T
    requires s != []
  {
    s[|s| - 1]
  }

  function Front<T>(s: seq<T>): (r: seq<T>)
    requires s != []
  {
    s[..|s| - 1]
  }

  lemma FrontLast<T>(s: seq<T>)
    requires s != []
    ensures s == Front(s) + [Last(s)]
  {
  }

  function Flatten<T>(batches: seq<seq<T>>): seq<T> {
    if batches == [] then [] else Flatten(Front(batches)) + Last(batches)
  }

  lemma FlattenSnoc<T>(batches: seq<seq<T>>, batch: seq<T>)
    ensures Flatten(batches + [batch]) == Flatten(batches) + batch
  {
    assert Front(batches + [batch]) == batches;
  }
}
