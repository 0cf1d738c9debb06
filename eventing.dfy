/**
 * The connection manager (StreamManager) and the queues it owns (BaseQueue,
 * and Queue, its subclass with a real publish and subscribe). Both owners
 * carry a lifecycle state, a FIFO buffer of continuations waiting for OPEN,
 * and a one-shot outcome.
 *
 * Every `await` of the original is an explicit step: a method the caller
 * invokes when the broker answers (CreateChannelSucceeds, HandshakeFails, ...)
 * or when the promise chain moves on (Connect, Settle). The broker itself is
 * opaque: each of its calls either succeeds or fails. A call made on the
 * broker channel is recorded in `channelCalls`.
 *
 * The two classes refer to each other, so they share one module.
 */
module Eventing {
  import opened Lifecycle
  import opened Options
  import opened Warning

  // ---------------------------------------------------------------------------
  // Queue continuations and the channel calls they make

  /** A continuation parked in a queue's buffer, named by what it does once the queue is OPEN. */
  datatype QueueWaiter =
    | PrefetchWaiter(count: int)               // prefetch(count)
    | SendWaiter(content: string)              // one send of Queue.publish
    | ConsumeWaiter(consumeOptions: Options)   // Queue.subscribe

  /** A call on the broker channel. */
  datatype ChannelCall =
    | ChannelPrefetch(count: int)
    | SendToQueue(queue: string, content: string)
    | Consume(queue: string, consumeOptions: Options)

  /** The channel call a continuation makes; sends and consumes go to the asserted queue's name. */
  function Run(w: QueueWaiter, queue: string): ChannelCall
  {
    match w
    case PrefetchWaiter(c) => ChannelPrefetch(c)
    case SendWaiter(m) => SendToQueue(queue, m)
    case ConsumeWaiter(o) => Consume(queue, o)
  }

  /** The channel calls a run of continuations makes: one per continuation. */
  function RunAll(ws: seq<QueueWaiter>, queue: string): (r: seq<ChannelCall>)
    ensures |r| == |ws|
  {
    if ws == [] then [] else RunAll(ws[..|ws| - 1], queue) + [Run(ws[|ws| - 1], queue)]
  }

  /** ... in the continuations' own order. */
  lemma {:induction false} RunAllAt(ws: seq<QueueWaiter>, queue: string, i: nat)
    requires i < |ws|
    ensures RunAll(ws, queue)[i] == Run(ws[i], queue)
  {
    if i < |ws| - 1 {
      RunAllAt(ws[..|ws| - 1], queue, i);
    }
  }

  /** Running one more continuation adds exactly its call at the end. */
  lemma RunAllAppend(ws: seq<QueueWaiter>, w: QueueWaiter, queue: string)
    ensures RunAll(ws + [w], queue) == RunAll(ws, queue) + [Run(w, queue)]
  {
    assert (ws + [w])[..|ws|] == ws;
  }

  /** The continuations Queue.publish parks: one send per argument. */
  function SendWaiters(contents: seq<string>): (r: seq<QueueWaiter>)
    ensures |r| == |contents|
  {
    if contents == [] then [] else SendWaiters(contents[..|contents| - 1]) + [SendWaiter(contents[|contents| - 1])]
  }

  /** ... in argument order. */
  lemma {:induction false} SendWaitersAt(contents: seq<string>, i: nat)
    requires i < |contents|
    ensures SendWaiters(contents)[i] == SendWaiter(contents[i])
  {
    if i < |contents| - 1 {
      SendWaitersAt(contents[..|contents| - 1], i);
    }
  }

  /** One more argument parks exactly one more send, at the end. */
  lemma SendWaitersSnoc(contents: seq<string>, i: nat)
    requires i < |contents|
    ensures SendWaiters(contents[..i + 1]) == SendWaiters(contents[..i]) + [SendWaiter(contents[i])]
  {
    assert contents[..i + 1][..i] == contents[..i];
  }

  /**
   * Whether each channel call throws: `None` for a call that returns, `Some(e)`
   * for one that throws `e`. The broker decides; the model takes it as input.
   */
  type Faults = seq<Option<Error>>

  /** The continuations whose channel call returned, in their own order. */
  function Kept(ws: seq<QueueWaiter>, faults: Faults): (r: seq<QueueWaiter>)
    requires |faults| == |ws|
    ensures |r| <= |ws|
  {
    if ws == [] then []
    else Kept(ws[..|ws| - 1], faults[..|ws| - 1]) + (if faults[|ws| - 1].None? then [ws[|ws| - 1]] else [])
  }

  /** The 'error' events the `.catch` emits for the calls that threw, in order. */
  function Thrown(faults: Faults): (r: seq<Event>)
    ensures |r| <= |faults|
  {
    if faults == [] then [] else Thrown(faults[..|faults| - 1]) + ThrownOne(faults[|faults| - 1])
  }

  /** The 'error' one call emits: its own error if it throws. */
  function ThrownOne(f: Option<Error>): seq<Event>
  {
    if f.Some? then [ErrorEvent(f.value)] else []
  }

  /** No call throws. */
  function NoFaults(n: nat): (r: Faults)
    ensures |r| == n
    ensures forall i :: 0 <= i < n ==> r[i] == None
  {
    seq(n, i => None)
  }

  /** One more continuation either keeps its call or adds its error, at the end. */
  lemma KeptAppend(ws: seq<QueueWaiter>, faults: Faults, w: QueueWaiter, f: Option<Error>)
    requires |faults| == |ws|
    ensures Kept(ws + [w], faults + [f]) == Kept(ws, faults) + (if f.None? then [w] else [])
    ensures Thrown(faults + [f]) == Thrown(faults) + ThrownOne(f)
  {
    assert (ws + [w])[..|ws|] == ws;
    assert (faults + [f])[..|faults|] == faults;
  }

  /** Every continuation either makes its call or emits exactly one 'error': none is lost or doubled. */
  lemma {:induction false} KeptOrThrown(ws: seq<QueueWaiter>, faults: Faults)
    requires |faults| == |ws|
    ensures |Kept(ws, faults)| + |Thrown(faults)| == |ws|
  {
    if ws != [] {
      KeptOrThrown(ws[..|ws| - 1], faults[..|ws| - 1]);
    }
  }

  /** No 'error' is emitted exactly when no call throws, and then every continuation makes its call. */
  lemma {:induction false} NothingThrown(ws: seq<QueueWaiter>, faults: Faults)
    requires |faults| == |ws|
    ensures Thrown(faults) == [] <==> forall i :: 0 <= i < |faults| ==> faults[i].None?
    ensures Thrown(faults) == [] ==> Kept(ws, faults) == ws
  {
    if ws != [] {
      var n := |ws| - 1;
      NothingThrown(ws[..n], faults[..n]);
      assert forall i :: 0 <= i < n ==> faults[..n][i] == faults[i];
      if Thrown(faults) == [] {
        assert Thrown(faults[..n]) == [];
        assert ws == ws[..n] + [ws[n]];
      }
    }
  }

  /** When no call throws, every continuation makes its call and nothing is emitted. */
  lemma {:induction false} NoFaultsKeepAll(ws: seq<QueueWaiter>)
    ensures Kept(ws, NoFaults(|ws|)) == ws
    ensures Thrown(NoFaults(|ws|)) == []
  {
    if ws != [] {
      var n := |ws| - 1;
      NoFaultsKeepAll(ws[..n]);
      assert NoFaults(|ws|)[..n] == NoFaults(n);
      assert ws == ws[..n] + [ws[n]];
    }
  }

  /**
   * The drain's `forEach`: resolve every buffered continuation once, in
   * insertion order; each resolved continuation makes its channel call, and a
   * call that throws is emitted as 'error' instead.
   */
  method DrainQueue(buffer: seq<QueueWaiter>, queue: string, faults: Faults)
    returns (resolved: seq<QueueWaiter>, calls: seq<ChannelCall>, errors: seq<Event>)
    requires |faults| == |buffer|
    ensures resolved == buffer
    ensures calls == RunAll(Kept(buffer, faults), queue)
    ensures errors == Thrown(faults)
  {
    resolved, calls, errors := [], [], [];
    var i := 0;
    while i < |buffer|
      invariant 0 <= i <= |buffer|
      invariant resolved == buffer[..i]
      invariant calls == RunAll(Kept(buffer[..i], faults[..i]), queue)
      invariant errors == Thrown(faults[..i])
    {
      var w, f := buffer[i], faults[i];
      assert buffer[..i + 1] == buffer[..i] + [w];
      assert faults[..i + 1] == faults[..i] + [f];
      KeptAppend(buffer[..i], faults[..i], w, f);
      resolved := resolved + [w];
      if f.None? {
        assert Kept(buffer[..i + 1], faults[..i + 1]) == Kept(buffer[..i], faults[..i]) + [w];
        RunAllAppend(Kept(buffer[..i], faults[..i]), w, queue);
        calls := calls + [Run(w, queue)];
      } else {
        assert Kept(buffer[..i + 1], faults[..i + 1]) == Kept(buffer[..i], faults[..i]) + [] == Kept(buffer[..i], faults[..i]);
        errors := errors + [ErrorEvent(f.value)];
      }
      i := i + 1;
    }
    assert buffer[..i] == buffer;
    assert faults[..i] == faults;
  }

  /** Publishing a list of payloads to an OPEN queue sends exactly those payloads, to that queue, in order. */
  lemma SendsInOrder(contents: seq<string>, queue: string, i: nat)
    requires i < |contents|
    ensures |RunAll(SendWaiters(contents), queue)| == |contents|
    ensures RunAll(SendWaiters(contents), queue)[i] == SendToQueue(queue, contents[i])
  {
    SendWaitersAt(contents, i);
    RunAllAt(SendWaiters(contents), queue, i);
  }

  /** What deferred calls leave in the buffer, given the state they met: all of them while OPENING. */
  function Parked(s: State, ws: seq<QueueWaiter>): seq<QueueWaiter>
  {
    if s == Opening then ws else []
  }

  /** What deferred calls make on the channel, given the state they met: those that do not throw, while OPEN. */
  function Issued(s: State, ws: seq<QueueWaiter>, faults: Faults, queue: string): seq<ChannelCall>
    requires |faults| == |ws|
  {
    if s == Open then RunAll(Kept(ws, faults), queue) else []
  }

  /** The one channel call a single deferred call makes now, if any: none unless OPEN and it does not throw. */
  function IssuedOne(s: State, w: QueueWaiter, fault: Option<Error>, queue: string): seq<ChannelCall>
  {
    if s == Open && fault.None? then [Run(w, queue)] else []
  }

  /**
   * The one 'error' a single deferred call emits now, if any: the closed-stream
   * error while CLOSING or CLOSED, its own error if it throws while OPEN.
   */
  function FailureOne(s: State, fault: Option<Error>): seq<Event>
  {
    if s == Closing || s == Closed then [ErrorEvent(ClosedStream)]
    else if s == Open then ThrownOne(fault)
    else []
  }

  /** What deferred calls emit, given the state they met, one call at a time. */
  function Failures(s: State, faults: Faults): seq<Event>
  {
    if faults == [] then [] else Failures(s, faults[..|faults| - 1]) + FailureOne(s, faults[|faults| - 1])
  }

  /**
   * ... which is one closed-stream 'error' per call while CLOSING or CLOSED,
   * the errors of the calls that throw while OPEN, and nothing while OPENING.
   */
  lemma {:induction false} FailuresByState(s: State, faults: Faults)
    ensures Failures(s, faults) == if s == Closing || s == Closed then Repeat(ErrorEvent(ClosedStream), |faults|)
                                   else if s == Open then Thrown(faults)
                                   else []
  {
    if faults != [] {
      FailuresByState(s, faults[..|faults| - 1]);
    }
  }

  /** One more deferred call extends each of the three records by its own part. */
  lemma DeferredAppend(s: State, ws: seq<QueueWaiter>, faults: Faults, w: QueueWaiter, f: Option<Error>, queue: string)
    requires |faults| == |ws|
    ensures Parked(s, ws + [w]) == Parked(s, ws) + Parked(s, [w])
    ensures Issued(s, ws + [w], faults + [f], queue) == Issued(s, ws, faults, queue) + IssuedOne(s, w, f, queue)
    ensures Failures(s, faults + [f]) == Failures(s, faults) + FailureOne(s, f)
  {
    KeptAppend(ws, faults, w, f);
    if s == Open {
      if f.None? {
        RunAllAppend(Kept(ws, faults), w, queue);
      } else {
        assert Kept(ws + [w], faults + [f]) == Kept(ws, faults) + [] == Kept(ws, faults);
      }
    }
    assert (faults + [f])[..|faults|] == faults;
  }

  /** The i-th argument of publish extends each of the three records by its own part. */
  lemma DeferSendStep(s: State, contents: seq<string>, faults: Faults, queue: string, i: nat)
    requires |faults| == |contents| && i < |contents|
    ensures Parked(s, SendWaiters(contents[..i + 1])) == Parked(s, SendWaiters(contents[..i])) + Parked(s, [SendWaiter(contents[i])])
    ensures Issued(s, SendWaiters(contents[..i + 1]), faults[..i + 1], queue)
         == Issued(s, SendWaiters(contents[..i]), faults[..i], queue) + IssuedOne(s, SendWaiter(contents[i]), faults[i], queue)
    ensures Failures(s, faults[..i + 1]) == Failures(s, faults[..i]) + FailureOne(s, faults[i])
  {
    SendWaitersSnoc(contents, i);
    assert faults[..i + 1] == faults[..i] + [faults[i]];
    DeferredAppend(s, SendWaiters(contents[..i]), faults[..i], SendWaiter(contents[i]), faults[i], queue);
  }

  /**
   * Queue.publish's loop over its (already serialised) arguments: one
   * deferred send each, in argument order. Every send meets the same state,
   * so each is parked, made, or turned into an 'error' event as execute-when-open
   * decides; a send made while OPEN that throws is an 'error' event too.
   */
  method DeferSends(s: State, queue: string, contents: seq<string>, faults: Faults)
    returns (parked: seq<QueueWaiter>, calls: seq<ChannelCall>, errors: seq<Event>)
    requires |faults| == |contents|
    ensures parked == Parked(s, SendWaiters(contents))
    ensures calls == Issued(s, SendWaiters(contents), faults, queue)
    ensures errors == Failures(s, faults)
  {
    parked, calls, errors := [], [], [];
    var i := 0;
    while i < |contents|
      invariant 0 <= i <= |contents|
      invariant parked == Parked(s, SendWaiters(contents[..i]))
      invariant calls == Issued(s, SendWaiters(contents[..i]), faults[..i], queue)
      invariant errors == Failures(s, faults[..i])
    {
      var w, f := SendWaiter(contents[i]), faults[i];
      DeferSendStep(s, contents, faults, queue, i);
      parked := parked + Parked(s, [w]);
      calls := calls + IssuedOne(s, w, f, queue);
      errors := errors + FailureOne(s, f);
      i := i + 1;
    }
    assert contents[..i] == contents;
    assert faults[..i] == faults;
  }

  /** Where the queue's connect has got to. */
  datatype ConnectPhase =
    | AwaitingManager   // waiting for the manager's execute-when-open
    | NotRun            // that wait failed, or the checkpoint saw an abort: the body never ran
    | CreatingChannel   // awaiting createChannel()
    | AssertingQueue    // awaiting assertQueue(name, options)
    | BodyDone          // the body ran to its end, setting OPEN or CLOSED

  /** The abort listener is attached once connect has passed its checkpoint. */
  predicate Listening(p: ConnectPhase)
  {
    p == CreatingChannel || p == AssertingQueue || p == BodyDone
  }

  // ---------------------------------------------------------------------------

  class BaseQueue {
    const name: string
    const manager: StreamManager
    /** BaseQueue, or its subclass Queue. */
    const kind: Constructor
    const options: Options
    const callbackGiven: bool

    var state: State
    /** Continuations parked while OPENING, in call order. Never cleared. */
    var buffer: seq<QueueWaiter>
    /** The continuations the drain has resolved, in the order resolved. */
    var resumed: seq<QueueWaiter>
    /** The abort controller while registered, holding whether it was aborted. */
    var controller: Option<bool>
    /** What the manager's execute-when-open answered when the queue was constructed. */
    var managerWait: Ewo
    var phase: ConnectPhase
    /** The initial promise. */
    var outcome: Outcome
    /** The success chain (callback, unregister the controller, drain) has run. */
    var drained: bool
    /** The callback threw this on the success call, so the chain's catch ran instead of the drain. */
    var callbackThrew: Option<Error>
    /** The channel's one-time 'error' handler is still waiting. */
    var channelErrorArmed: bool
    /** The queue name the assertion returned; sends and consumes go there. */
    var assertedQueue: string
    var callbacks: seq<CallbackCall>
    var events: seq<Event>
    var channelCalls: seq<ChannelCall>

    ghost predicate Valid()
      reads this
    {
      && (outcome.Pending? ==> state == Opening)
      && (controller.Some? <==> outcome.Pending? || (outcome.Resolved? && !drained && callbackThrew.None?))
      && (phase == AwaitingManager ==> outcome.Pending?)
      && (phase == NotRun ==> outcome.Rejected? && state == Opening && !channelErrorArmed)
      && (outcome.Resolved? ==> phase == BodyDone && state != Opening)
      && (state == Open ==> phase == BodyDone)
      && (phase == BodyDone ==> state != Opening)
      && (drained ==> outcome.Resolved? && resumed == buffer)
      && (!drained ==> resumed == [])
      && (channelErrorArmed ==> phase == AssertingQueue || phase == BodyDone)
      && (callbackThrew.Some? ==> outcome.Resolved? && !drained && callbackGiven)
      && callbacks == CallbackLog(callbackGiven, outcome, drained, callbackThrew)
    }

    /**
     * Construction: normalise the arguments, start OPENING with a registered
     * controller, and ask the manager's execute-when-open to run connect (which
     * parks this queue in the manager's buffer while the manager is OPENING).
     */
    constructor (manager: StreamManager, name: string, optionsOrCallback: QueueArg, callback: bool, kind: Constructor)
      requires manager.Valid()
      modifies manager`buffer
      ensures Valid() && manager.Valid()
      ensures this.manager == manager && this.name == name && this.kind == kind
      ensures (options, callbackGiven) == NormaliseQueueArgs(optionsOrCallback, callback)
      ensures state == Opening && buffer == [] && resumed == [] && controller == Some(false)
      ensures phase == AwaitingManager && outcome == Pending && !drained && callbackThrew == None && !channelErrorArmed
      ensures callbacks == [] && events == [] && channelCalls == []
      ensures managerWait == Dispatch(manager.state)
      ensures manager.buffer == old(manager.buffer) + (if manager.state == Opening then [OpenQueue(this)] else [])
    {
      this.name := name;
      this.manager := manager;
      this.kind := kind;
      var (opts, cb) := NormaliseQueueArgs(optionsOrCallback, callback);
      options := opts;
      callbackGiven := cb;
      state := Opening;
      controller := Some(false);
      buffer := [];
      resumed := [];
      phase := AwaitingManager;
      outcome := Pending;
      drained := false;
      callbackThrew := None;
      channelErrorArmed := false;
      assertedQueue := "";
      callbacks := [];
      events := [];
      channelCalls := [];
      managerWait := Buffered;
      new;
      managerWait := manager.ExecuteWhenOpen(OpenQueue(this));
    }

    /** The catch handler: the promise rejects, the controller is unregistered, the callback gets the error. */
    method Reject(e: Error)
      requires outcome.Pending?
      modifies this`outcome, this`controller, this`callbacks
      ensures outcome == Rejected(e) && controller == None
      ensures callbacks == old(callbacks) + (if callbackGiven then [CalledWithError(e)] else [])
    {
      outcome := Rejected(e);
      controller := None;
      if callbackGiven {
        callbacks := callbacks + [CalledWithError(e)];
      }
    }

    /**
     * The manager's execute-when-open has settled and connect is due. A failed
     * wait rejects without connect running; otherwise the checkpoint rejects
     * an earlier abort; otherwise the listener is attached and createChannel
     * is awaited. None of these assigns the state.
     */
    method Connect()
      requires Valid() && phase == AwaitingManager
      requires managerWait.RunNow? || managerWait.Failed? || OpenQueue(this) in manager.resumed
      modifies this`phase, this`outcome, this`controller, this`callbacks
      ensures Valid()
      ensures old(managerWait).Failed? ==>
        phase == NotRun && outcome == Rejected(managerWait.error) && controller == None
      ensures !managerWait.Failed? && old(controller) == Some(true) ==>
        phase == NotRun && outcome == Rejected(Aborted) && controller == None
      ensures !managerWait.Failed? && old(controller) == Some(false) ==>
        phase == CreatingChannel && outcome == Pending && controller == old(controller)
    {
      if managerWait.Failed? {
        Reject(managerWait.error);
        phase := NotRun;
      } else if controller == Some(true) {
        Reject(Aborted);
        phase := NotRun;
      } else {
        phase := CreatingChannel;
      }
    }

    /** createChannel answered: the one-time channel 'error' handler is attached and assertQueue is awaited. */
    method CreateChannelSucceeds()
      requires Valid() && phase == CreatingChannel
      modifies this`phase, this`channelErrorArmed
      ensures Valid() && phase == AssertingQueue && channelErrorArmed
    {
      phase := AssertingQueue;
      channelErrorArmed := true;
    }

    /**
     * assertQueue answered with the queue's name: the state becomes OPEN and the
     * promise resolves, unless an abort already rejected it; the body goes on
     * to OPEN either way.
     */
    method AssertQueueSucceeds(queue: string)
      requires Valid() && phase == AssertingQueue
      modifies this`state, this`phase, this`assertedQueue, this`outcome, this`events
      ensures Valid()
      ensures state == Open && phase == BodyDone && assertedQueue == queue
      ensures events == old(events) + [OpenEvent]
      ensures outcome == if old(outcome).Pending? then Resolved else old(outcome)
    {
      assertedQueue := queue;
      state := Open;
      events := events + [OpenEvent];
      phase := BodyDone;
      if outcome.Pending? {
        outcome := Resolved;
      }
    }

    /**
     * createChannel or assertQueue failed: CLOSED, 'error:opening', and the
     * promise rejects unless an abort got there first. The buffer is left alone.
     */
    method HandshakeFails(e: Error)
      requires Valid() && (phase == CreatingChannel || phase == AssertingQueue)
      modifies this`state, this`phase, this`outcome, this`controller, this`callbacks, this`events
      ensures Valid()
      ensures state == Closed && phase == BodyDone
      ensures events == old(events) + [ErrorOpeningEvent(e)]
      ensures old(outcome).Pending? ==> outcome == Rejected(e) && controller == None
      ensures !old(outcome).Pending? ==> outcome == old(outcome) && controller == old(controller) && callbacks == old(callbacks)
    {
      state := Closed;
      events := events + [ErrorOpeningEvent(e)];
      if outcome.Pending? {
        Reject(e);
      }
      phase := BodyDone;
    }

    /** The channel's first 'error' event runs the same rejection, at any time after the channel exists. */
    method ChannelError(e: Error)
      requires Valid() && channelErrorArmed
      modifies this`channelErrorArmed, this`state, this`outcome, this`controller, this`callbacks, this`events
      ensures Valid()
      ensures state == Closed && !channelErrorArmed
      ensures events == old(events) + [ErrorOpeningEvent(e)]
      ensures old(outcome).Pending? ==> outcome == Rejected(e) && controller == None
      ensures !old(outcome).Pending? ==> outcome == old(outcome) && controller == old(controller) && callbacks == old(callbacks)
    {
      channelErrorArmed := false;
      state := Closed;
      events := events + [ErrorOpeningEvent(e)];
      if outcome.Pending? {
        Reject(e);
      }
    }

    /**
     * The success chain: the callback gets `(null, queue)`, the controller is
     * unregistered, then every buffered continuation is resolved once, in
     * insertion order, and makes its channel call; `faults` says which of
     * those calls throw, each throw being emitted as 'error'.
     */
    method Settle(faults: Faults)
      requires Valid() && outcome.Resolved? && !drained && callbackThrew.None?
      requires |faults| == |buffer|
      modifies this`callbacks, this`controller, this`resumed, this`channelCalls, this`events, this`drained
      ensures Valid() && drained && controller == None
      ensures resumed == buffer
      ensures channelCalls == old(channelCalls) + RunAll(Kept(buffer, faults), assertedQueue)
      ensures events == old(events) + Thrown(faults)
      ensures callbacks == old(callbacks) + (if callbackGiven then [CalledWithOwner] else [])
    {
      if callbackGiven {
        callbacks := callbacks + [CalledWithOwner];
      }
      controller := None;
      var resolved, calls, errors := DrainQueue(buffer, assertedQueue, faults);
      resumed := resolved;
      channelCalls := channelCalls + calls;
      events := events + errors;
      drained := true;
    }

    /**
     * The success chain when the callback throws `e` on its `(null, queue)`
     * call: the rest of the chain is skipped, and its catch unregisters the
     * controller and calls the callback again with `e`. The buffer is never
     * resumed.
     */
    method CallbackThrows(e: Error)
      requires Valid() && outcome.Resolved? && !drained && callbackThrew.None? && callbackGiven
      modifies this`callbacks, this`controller, this`callbackThrew
      ensures Valid() && controller == None && callbackThrew == Some(e)
      ensures callbacks == old(callbacks) + [CalledWithOwner, CalledWithError(e)]
      ensures !drained && resumed == []
    {
      callbackThrew := Some(e);
      controller := None;
      callbacks := callbacks + [CalledWithOwner, CalledWithError(e)];
    }

    /**
     * Abort: a no-op once the controller is unregistered; otherwise the signal
     * is set, and if connect's listener is attached and the promise is still
     * pending, the promise rejects. The state is never touched.
     */
    method Abort()
      requires Valid()
      modifies this`controller, this`outcome, this`callbacks
      ensures Valid()
      ensures old(controller).None? ==>
        controller == None && outcome == old(outcome) && callbacks == old(callbacks)
      ensures old(controller).Some? && Listening(phase) && old(outcome).Pending? ==>
        outcome == Rejected(Aborted) && controller == None
      ensures old(controller).Some? && !(Listening(phase) && old(outcome).Pending?) ==>
        controller == Some(true) && outcome == old(outcome) && callbacks == old(callbacks)
    {
      if controller.Some? {
        controller := Some(true);
        if Listening(phase) && outcome.Pending? {
          Reject(Aborted);
        }
      }
    }

    /** Execute-when-open: run now when OPEN, park at the end of the buffer when OPENING, fail otherwise. */
    method ExecuteWhenOpen(w: QueueWaiter) returns (r: Ewo)
      requires Valid()
      modifies this`buffer
      ensures Valid()
      ensures r == Dispatch(state)
      ensures buffer == old(buffer) + (if state == Opening then [w] else [])
    {
      r := Dispatch(state);
      if r.Buffered? {
        buffer := buffer + [w];
      }
    }

    /**
     * The shape shared by prefetch, each send of publish and subscribe:
     * execute-when-open, then the channel call, with a failure emitted as
     * 'error' instead of thrown. `fault` says whether the call throws if it
     * is made now; a parked call meets its own fault when the drain runs it.
     */
    method Defer(w: QueueWaiter, fault: Option<Error>)
      requires Valid()
      modifies this`buffer, this`channelCalls, this`events
      ensures Valid()
      ensures buffer == old(buffer) + Parked(state, [w])
      ensures channelCalls == old(channelCalls) + IssuedOne(state, w, fault, assertedQueue)
      ensures events == old(events) + FailureOne(state, fault)
    {
      var r := ExecuteWhenOpen(w);
      match r
      case RunNow =>
        if fault.None? {
          channelCalls := channelCalls + [Run(w, assertedQueue)];
        } else {
          events := events + [ErrorEvent(fault.value)];
        }
      case Buffered =>
      case Failed(e) =>
        events := events + [ErrorEvent(e)];
    }

    /** prefetch never throws: a closed queue, or a channel whose prefetch throws, emits 'error' instead. */
    method Prefetch(count: int, fault: Option<Error>)
      requires Valid()
      modifies this`buffer, this`channelCalls, this`events
      ensures Valid()
      ensures buffer == old(buffer) + (if state == Opening then [PrefetchWaiter(count)] else [])
      ensures channelCalls == old(channelCalls) + (if state == Open && fault.None? then [ChannelPrefetch(count)] else [])
      ensures events == old(events) + FailureOne(state, fault)
      ensures |channelCalls| + |events| == |old(channelCalls)| + |old(events)| + (if state == Opening then 0 else 1)
    {
      Defer(PrefetchWaiter(count), fault);
    }

    /**
     * publish: BaseQueue throws "Not Implemented" and changes nothing; Queue
     * defers one send per argument (DeferSends) and records what they did.
     * `faults` says, per argument, whether its send throws if it is made now.
     */
    method Publish(contents: seq<string>, faults: Faults) returns (thrown: Option<Error>)
      requires Valid() && |faults| == |contents|
      modifies this`buffer, this`channelCalls, this`events
      ensures Valid()
      ensures kind == BaseQueueClass ==>
        thrown == Some(NotImplemented) && buffer == old(buffer) && channelCalls == old(channelCalls) && events == old(events)
      ensures kind == QueueClass ==> thrown == None
      ensures kind == QueueClass ==>
        buffer == old(buffer) + (if state == Opening then SendWaiters(contents) else [])
      ensures kind == QueueClass ==>
        channelCalls == old(channelCalls) + (if state == Open then RunAll(Kept(SendWaiters(contents), faults), assertedQueue) else [])
      ensures kind == QueueClass ==>
        events == old(events) + (if state == Closing || state == Closed then Repeat(ErrorEvent(ClosedStream), |contents|)
                                 else if state == Open then Thrown(faults) else [])
    {
      if kind == BaseQueueClass {
        return Some(NotImplemented);
      }
      var parked, calls, errors := DeferSends(state, assertedQueue, contents, faults);
      FailuresByState(state, faults);
      buffer := buffer + parked;
      channelCalls := channelCalls + calls;
      events := events + errors;
      thrown := None;
    }

    /** Queue's `$__publish`: one send, deferred until OPEN, with a failure emitted as 'error'. */
    method SendOne(content: string, fault: Option<Error>)
      requires Valid()
      modifies this`buffer, this`channelCalls, this`events
      ensures Valid()
      ensures buffer == old(buffer) + (if state == Opening then [SendWaiter(content)] else [])
      ensures channelCalls == old(channelCalls) + (if state == Open && fault.None? then [SendToQueue(assertedQueue, content)] else [])
      ensures events == old(events) + FailureOne(state, fault)
    {
      Defer(SendWaiter(content), fault);
    }

    /**
     * subscribe: BaseQueue throws "Not Implemented" and registers nothing;
     * Queue defers one consume with noAck defaulting to true.
     */
    method Subscribe(consumeOptions: Options, fault: Option<Error>) returns (thrown: Option<Error>)
      requires Valid()
      modifies this`buffer, this`channelCalls, this`events
      ensures Valid()
      ensures kind == BaseQueueClass ==>
        thrown == Some(NotImplemented) && buffer == old(buffer) && channelCalls == old(channelCalls) && events == old(events)
      ensures kind == QueueClass ==> thrown == None
      ensures kind == QueueClass ==>
        buffer == old(buffer) + (if state == Opening then [ConsumeWaiter(SubscribeOptions(consumeOptions))] else [])
      ensures kind == QueueClass ==>
        channelCalls == old(channelCalls)
          + (if state == Open && fault.None? then [Consume(assertedQueue, SubscribeOptions(consumeOptions))] else [])
      ensures kind == QueueClass ==> events == old(events) + FailureOne(state, fault)
    {
      if kind == BaseQueueClass {
        return Some(NotImplemented);
      }
      Defer(ConsumeWaiter(SubscribeOptions(consumeOptions)), fault);
      thrown := None;
    }
  }

  // ---------------------------------------------------------------------------
  // The manager

  /** A continuation parked in the manager's buffer. */
  datatype ManagerWaiter =
    | OpenQueue(queue: BaseQueue)   // a queue's constructor waiting to run connect
    | QuitClose(force: bool)        // quit waiting to close the link

  /** The `force` flags of the quit continuations among some waiters, in order. */
  function QuitForces(ws: seq<ManagerWaiter>): seq<bool>
  {
    if ws == [] then []
    else QuitForces(ws[..|ws| - 1]) + (if ws[|ws| - 1].QuitClose? then [ws[|ws| - 1].force] else [])
  }

  /** Quit continuations are found exactly where the waiters hold one. */
  lemma {:induction false} QuitForcesEmpty(ws: seq<ManagerWaiter>)
    ensures QuitForces(ws) == [] <==> forall i :: 0 <= i < |ws| ==> !ws[i].QuitClose?
  {
    if ws != [] {
      var init, last := ws[..|ws| - 1], ws[|ws| - 1];
      QuitForcesEmpty(init);
      assert QuitForces(ws) == QuitForces(init) + (if last.QuitClose? then [last.force] else []);
      assert forall i :: 0 <= i < |init| ==> init[i] == ws[i];
    }
  }

  /** One more waiter adds its force flag at the end exactly when it is a quit. */
  lemma QuitForcesAppend(ws: seq<ManagerWaiter>, w: ManagerWaiter)
    ensures QuitForces(ws + [w]) == QuitForces(ws) + (if w.QuitClose? then [w.force] else [])
  {
    assert (ws + [w])[..|ws|] == ws;
  }

  /**
   * The manager drain's `forEach`: resolve every buffered continuation once,
   * in insertion order. Each resumed quit starts closing the link, with its
   * own `force` flag, in the order the quits were made.
   */
  method DrainManager(buffer: seq<ManagerWaiter>) returns (resolved: seq<ManagerWaiter>, forces: seq<bool>)
    ensures resolved == buffer
    ensures forces == QuitForces(buffer)
    ensures forces == [] <==> forall i :: 0 <= i < |buffer| ==> !buffer[i].QuitClose?
  {
    resolved, forces := [], [];
    var i := 0;
    while i < |buffer|
      invariant 0 <= i <= |buffer|
      invariant resolved == buffer[..i]
      invariant forces == QuitForces(buffer[..i])
    {
      var w := buffer[i];
      assert buffer[..i + 1] == buffer[..i] + [w];
      QuitForcesAppend(buffer[..i], w);
      resolved := resolved + [w];
      if w.QuitClose? {
        forces := forces + [w.force];
      }
      i := i + 1;
    }
    assert buffer[..i] == buffer;
    QuitForcesEmpty(buffer);
  }

  datatype ManagerPhase = Connecting | Connected | ConnectFailed

  class StreamManager {
    const uri: string
    const callbackGiven: bool

    var state: State
    /** Continuations parked while OPENING, in call order. Never cleared. */
    var buffer: seq<ManagerWaiter>
    /** The continuations the drain has resolved, in the order resolved. */
    var resumed: seq<ManagerWaiter>
    /** The name-to-queue table. */
    var queues: map<string, BaseQueue>
    var phase: ManagerPhase
    var outcome: Outcome
    var drained: bool
    /** The callback threw this on the success call, so the chain's catch ran instead of the drain. */
    var callbackThrew: Option<Error>
    /** Quit continuations awaiting the link's close, each with its `force` flag. */
    var closing: seq<bool>
    var callbacks: seq<CallbackCall>
    var events: seq<Event>

    ghost predicate Valid()
      reads this
    {
      && (phase == Connecting <==> outcome.Pending?)
      && (phase == Connected <==> outcome.Resolved?)
      && (phase == Connecting ==> state == Opening && closing == [])
      && (phase == ConnectFailed ==> state == Closed && closing == [])
      && (phase == Connected ==> state != Opening)
      && (drained ==> phase == Connected && resumed == buffer)
      && (!drained ==> resumed == [])
      && (callbackThrew.Some? ==> phase == Connected && !drained && callbackGiven)
      && callbacks == CallbackLog(callbackGiven, outcome, drained, callbackThrew)
      && (forall n | n in queues :: queues[n].name == n && queues[n].manager == this)
    }

    /** A new manager is OPENING with no queues and an empty buffer; connecting is its first step. */
    constructor (uri: string, callback: bool)
      ensures Valid()
      ensures this.uri == uri && callbackGiven == callback
      ensures state == Opening && buffer == [] && resumed == [] && queues == map[]
      ensures phase == Connecting && outcome == Pending && !drained && callbackThrew == None && closing == []
      ensures callbacks == [] && events == []
    {
      this.uri := uri;
      callbackGiven := callback;
      state := Opening;
      buffer := [];
      resumed := [];
      queues := map[];
      phase := Connecting;
      outcome := Pending;
      drained := false;
      callbackThrew := None;
      closing := [];
      callbacks := [];
      events := [];
    }

    /** The broker connection opened: OPEN, 'open', the link's 'close' handler attached, the promise resolved. */
    method ConnectSucceeds()
      requires Valid() && phase == Connecting
      modifies this`state, this`phase, this`outcome, this`events
      ensures Valid()
      ensures state == Open && phase == Connected && outcome == Resolved
      ensures events == old(events) + [OpenEvent]
    {
      state := Open;
      phase := Connected;
      outcome := Resolved;
      events := events + [OpenEvent];
    }

    /** The broker connection failed: CLOSED, 'error:opening', the promise rejects, the callback gets the error. */
    method ConnectFails(e: Error)
      requires Valid() && phase == Connecting
      modifies this`state, this`phase, this`outcome, this`events, this`callbacks
      ensures Valid()
      ensures state == Closed && phase == ConnectFailed && outcome == Rejected(e)
      ensures events == old(events) + [ErrorOpeningEvent(e)]
      ensures callbacks == old(callbacks) + (if callbackGiven then [CalledWithError(e)] else [])
    {
      state := Closed;
      phase := ConnectFailed;
      events := events + [ErrorOpeningEvent(e)];
      outcome := Rejected(e);
      if callbackGiven {
        callbacks := callbacks + [CalledWithError(e)];
      }
    }

    /**
     * The success chain: the callback gets `(null, manager)`, then every
     * buffered continuation is resolved once, in insertion order. A resumed
     * quit moves the state to CLOSING and starts closing the link; a resumed
     * queue may now run its connect.
     */
    method Settle()
      requires Valid() && phase == Connected && !drained && callbackThrew.None?
      modifies this`callbacks, this`resumed, this`drained, this`state, this`closing
      ensures Valid() && drained
      ensures resumed == buffer
      ensures closing == old(closing) + QuitForces(buffer)
      ensures state == if QuitForces(buffer) == [] then old(state) else Closing
      ensures callbacks == old(callbacks) + (if callbackGiven then [CalledWithOwner] else [])
    {
      if callbackGiven {
        callbacks := callbacks + [CalledWithOwner];
      }
      var resolved, forces := DrainManager(buffer);
      resumed := resolved;
      if forces != [] {
        state := Closing;
      }
      closing := closing + forces;
      drained := true;
    }

    /**
     * The success chain when the callback throws `e` on its `(null, manager)`
     * call: the drain is skipped and the catch calls the callback again with
     * `e`. The buffer is never resumed, so nothing parked ever runs.
     */
    method CallbackThrows(e: Error)
      requires Valid() && phase == Connected && !drained && callbackThrew.None? && callbackGiven
      modifies this`callbacks, this`callbackThrew
      ensures Valid() && callbackThrew == Some(e)
      ensures callbacks == old(callbacks) + [CalledWithOwner, CalledWithError(e)]
      ensures !drained && resumed == [] && state == old(state) && closing == old(closing)
    {
      callbackThrew := Some(e);
      callbacks := callbacks + [CalledWithOwner, CalledWithError(e)];
    }

    /** The link's 'close' event, once attached, marks CLOSED only an owner already CLOSING or CLOSED. */
    method OnLinkClose()
      requires Valid()
      modifies this`state
      ensures Valid()
      ensures state == if phase == Connected && (old(state) == Closing || old(state) == Closed) then Closed else old(state)
    {
      if phase == Connected && (state == Closing || state == Closed) {
        state := Closed;
      }
    }

    /** Execute-when-open: run now when OPEN, park at the end of the buffer when OPENING, fail otherwise. */
    method ExecuteWhenOpen(w: ManagerWaiter) returns (r: Ewo)
      requires Valid()
      modifies this`buffer
      ensures Valid()
      ensures r == Dispatch(state)
      ensures buffer == old(buffer) + (if state == Opening then [w] else [])
    {
      r := Dispatch(state);
      if r.Buffered? {
        buffer := buffer + [w];
      }
    }

    /**
     * create: a name already in the table gives back its queue and changes
     * nothing; a new name gets one new queue (Queue unless `type` says
     * otherwise) built with the options minus `type`.
     */
    method Create(name: string, options: Options) returns (q: BaseQueue)
      requires Valid()
      modifies this`buffer, this`queues
      ensures Valid()
      ensures name in queues && queues[name] == q
      ensures name in old(queues) ==>
        q == old(queues)[name] && queues == old(queues) && buffer == old(buffer)
      ensures name !in old(queues) ==>
        && fresh(q) && q.Valid()
        && queues == old(queues)[name := q]
        && q.name == name && q.manager == this && !q.callbackGiven
        && q.kind == ConstructorFor(options)
        && q.options == SanitiseOptions(WithDefaultType(options))
        && q.state == Opening && q.outcome == Pending && q.buffer == []
        && q.managerWait == Dispatch(state)
        && buffer == old(buffer) + (if state == Opening then [OpenQueue(q)] else [])
    {
      var opts := WithDefaultType(options);
      var kind := ConstructorFor(options);
      if name !in queues {
        var created := new BaseQueue(this, name, OptionsArg(SanitiseOptions(opts)), false, kind);
        queues := queues[name := created];
      }
      q := queues[name];
    }

    /**
     * register: refused when the name is taken or the queue belongs to another
     * manager; otherwise exactly that entry is added.
     */
    method Register(q: BaseQueue) returns (thrown: Option<Error>)
      requires Valid()
      modifies this`queues
      ensures Valid()
      ensures thrown.Some? <==> q.name in old(queues) || q.manager != this
      ensures thrown.Some? ==> thrown == Some(AlreadyRegistered) && queues == old(queues)
      ensures thrown.None? ==> queues == old(queues)[q.name := q]
    {
      if q.name in queues || q.manager != this {
        return Some(AlreadyRegistered);
      }
      queues := queues[q.name := q];
      thrown := None;
    }

    /**
     * quit: on a CLOSING or CLOSED manager, warn once per process and return.
     * Otherwise wait for OPEN through execute-when-open; once OPEN the
     * continuation moves to CLOSING and closes the link.
     */
    method Quit(reason: ReasonArg, force: Option<bool>, process: Process) returns (returned: bool)
      requires Valid() && process.Valid()
      modifies this`buffer, this`state, this`closing, process
      ensures Valid() && process.Valid()
      ensures returned <==> old(state) == Closing || old(state) == Closed
      ensures returned ==>
        && state == old(state) && buffer == old(buffer) && closing == old(closing)
        && process.warned
        && process.warnings == if old(process.warned) then old(process.warnings)
                               else old(process.warnings) + [AlreadyClosed(DefaultMessage)]
      ensures old(state) == Open ==>
        && state == Closing && buffer == old(buffer)
        && closing == old(closing) + [NormaliseQuitArgs(reason, force).1]
        && unchanged(process)
      ensures old(state) == Opening ==>
        && state == Opening && closing == old(closing)
        && buffer == old(buffer) + [QuitClose(NormaliseQuitArgs(reason, force).1)]
        && unchanged(process)
    {
      var (_, forced) := NormaliseQuitArgs(reason, force);
      if state == Closed || state == Closing {
        process.EmitAlreadyClosed(None);
        return true;
      }
      var r := ExecuteWhenOpen(QuitClose(forced));
      if r.RunNow? {
        state := Closing;
        closing := closing + [forced];
      }
      returned := false;
    }

    /**
     * The link's close() settled for the quit continuation at position i: the
     * state becomes CLOSED whether or not close threw (a throw is a process
     * warning). A forced quit then waits for a 'close' event on the manager
     * that nothing emits, so it never settles.
     */
    method LinkCloseSettles(i: nat, ok: bool, failure: Error, process: Process) returns (quitSettled: bool)
      requires Valid() && process.Valid() && i < |closing|
      modifies this`state, this`closing, process`warnings
      ensures Valid() && process.Valid()
      ensures state == Closed
      ensures closing == old(closing[..i] + closing[i + 1..])
      ensures quitSettled == !old(closing[i])
      ensures process.warnings == old(process.warnings) + (if ok then [] else [CloseFailed(failure)])
    {
      if !ok {
        process.EmitCloseFailure(failure);
      }
      state := Closed;
      quitSettled := !closing[i];
      closing := closing[..i] + closing[i + 1..];
    }
  }
}
