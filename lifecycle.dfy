/**
 * The lifecycle shared by the connection manager and by every queue it owns:
 * the four states, the errors the core raises, and the execute-when-open rule
 * that both owners implement with the same switch.
 */
module Lifecycle {

  datatype Option<T> = None | Some(value: T)

  /** The `STATE` enum. */
  datatype State = Closed | Closing | Opening | Open

  /** The errors the core raises itself, plus opaque failures from the broker and from a user callback. */
  datatype Error =
    | ClosedStream           // execute-when-open on a closing or closed owner
    | Aborted                // an abort observed by a queue's connect
    | NotImplemented         // publish or subscribe on a base queue
    | AlreadyRegistered      // register refused the queue
    | Broker(reason: string) // connect, createChannel, assertQueue, a channel call or close failed
    | Callback(reason: string) // what a completion callback threw

  const ClosedStreamMessage := "Cannot execute value with closed stream"
  const AbortedMessage := "Aborted connection due to error"
  const NotImplementedMessage := "Not Implemented - Please subclass and use those instead"
  const AlreadyRegisteredMessage := "Cannot register already registered queue"

  /** The message each error carries; a broker error carries the broker's own text. */
  function Message(e: Error): string
  {
    match e
    case ClosedStream => ClosedStreamMessage
    case Aborted => AbortedMessage
    case NotImplemented => NotImplementedMessage
    case AlreadyRegistered => AlreadyRegisteredMessage
    case Broker(reason) => reason
    case Callback(reason) => reason
  }

  /** What execute-when-open does with a continuation. */
  datatype Ewo =
    | RunNow            // the owner is OPEN: the continuation runs at once
    | Buffered          // the owner is OPENING: the continuation waits in the buffer
    | Failed(error: Error)

  /** Execute-when-open decides on the current state alone, identically for manager and queue. */
  function Dispatch(s: State): (r: Ewo)
    ensures r.RunNow? <==> s == Open
    ensures r.Buffered? <==> s == Opening
    ensures r.Failed? <==> (s == Closing || s == Closed)
    ensures r.Failed? ==> Message(r.error) == "Cannot execute value with closed stream"
  {
    match s
    case Open => RunNow
    case Opening => Buffered
    case Closing => Failed(ClosedStream)
    case Closed => Failed(ClosedStream)
  }

  /** The one-shot outcome of an owner's initial promise. */
  datatype Outcome = Pending | Resolved | Rejected(error: Error)

  /** One invocation of the completion callback given to a constructor. */
  datatype CallbackCall = CalledWithOwner | CalledWithError(error: Error)

  /**
   * The invocations a constructor's callback has received: none before the
   * initial promise settles, `(err)` once it rejects, `(null, owner)` once the
   * success chain has run (the same step that drains the buffer). A callback
   * that throws on that success call (`threw`) makes the chain's catch call it
   * a second time, with what it threw, and the drain never runs.
   */
  function CallbackLog(given: bool, outcome: Outcome, drained: bool, threw: Option<Error>): (r: seq<CallbackCall>)
    ensures |r| <= 2
    ensures r != [] <==> given && (outcome.Rejected? || (outcome.Resolved? && (drained || threw.Some?)))
    ensures |r| == 2 <==> given && outcome.Resolved? && !drained && threw.Some?
    ensures r != [] && outcome.Rejected? ==> r == [CalledWithError(outcome.error)]
    ensures r != [] && outcome.Resolved? ==> r[0] == CalledWithOwner
    ensures |r| == 2 ==> r[1] == CalledWithError(threw.value)
  {
    if !given then []
    else match outcome
      case Pending => []
      case Resolved =>
        if drained then [CalledWithOwner]
        else if threw.Some? then [CalledWithOwner, CalledWithError(threw.value)]
        else []
      case Rejected(e) => [CalledWithError(e)]
  }

  /** Events an owner emits on itself. */
  datatype Event = OpenEvent | ErrorEvent(error: Error) | ErrorOpeningEvent(error: Error)

  /** `n` copies of one event: what `n` failed deferred calls emit. */
  function Repeat(e: Event, n: nat): (r: seq<Event>)
    ensures |r| == n
    ensures forall i :: 0 <= i < n ==> r[i] == e
  {
    if n == 0 then [] else Repeat(e, n - 1) + [e]
  }
}
