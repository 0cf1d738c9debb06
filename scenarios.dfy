/**
 * Runs of the lifecycle from construction to a settled outcome, each one a
 * sequence of the steps the classes offer, in the order the promise chain
 * and the broker would take them. Each run states what the owners look like
 * at its end.
 */
module Scenarios {
  import opened Lifecycle
  import opened Options
  import opened Warning
  import opened Eventing

  const Uri := "amqp://localhost"

  /** A manager whose connection has opened and whose (empty) buffer has been drained. */
  method OpenManager() returns (m: StreamManager)
    ensures fresh(m) && m.Valid()
    ensures m.state == Open && m.phase == Connected && m.drained
    ensures m.buffer == [] && m.queues == map[] && m.closing == []
  {
    m := new StreamManager(Uri, false);
    m.ConnectSucceeds();
    m.Settle();
  }

  /** A queue built on an OPEN manager: connect may run at once, and the queue is still OPENING. */
  method QueueOnOpenManager(name: string, arg: QueueArg, callback: bool, kind: Constructor) returns (q: BaseQueue)
    ensures fresh(q) && q.Valid()
    ensures q.name == name && q.kind == kind && (q.options, q.callbackGiven) == NormaliseQueueArgs(arg, callback)
    ensures q.state == Opening && q.phase == AwaitingManager && q.managerWait == RunNow
    ensures q.controller == Some(false) && q.outcome == Pending && !q.drained && q.callbackThrew == None
    ensures !q.channelErrorArmed
    ensures q.buffer == [] && q.resumed == [] && q.callbacks == [] && q.events == [] && q.channelCalls == []
  {
    var m := OpenManager();
    q := new BaseQueue(m, name, arg, callback, kind);
  }

  /**
   * The handshake of a queue whose manager was already OPEN: connect passes
   * its checkpoint, createChannel and assertQueue answer, and the promise
   * resolves; the success chain has not run yet.
   */
  method OpenQueueChannel(q: BaseQueue, queue: string)
    requires q.Valid() && q.phase == AwaitingManager && q.managerWait.RunNow? && q.controller == Some(false)
    requires q.callbackThrew.None?
    modifies q
    ensures q.Valid() && q.state == Open && q.outcome == Resolved && !q.drained && q.callbackThrew.None?
    ensures q.assertedQueue == queue && q.buffer == old(q.buffer)
    ensures q.channelCalls == old(q.channelCalls) && q.callbacks == old(q.callbacks)
    ensures q.events == old(q.events) + [OpenEvent]
  {
    q.Connect();
    q.CreateChannelSucceeds();
    q.AssertQueueSucceeds(queue);
  }

  /** ... run to the end: the success chain drains the buffer, with no resumed call throwing. */
  method Handshake(q: BaseQueue, queue: string)
    requires q.Valid() && q.phase == AwaitingManager && q.managerWait.RunNow? && q.controller == Some(false)
    requires q.callbackThrew.None?
    modifies q
    ensures q.Valid() && q.state == Open && q.outcome == Resolved && q.drained && q.assertedQueue == queue
    ensures q.buffer == old(q.buffer) && q.resumed == q.buffer
    ensures q.channelCalls == old(q.channelCalls) + RunAll(q.buffer, queue)
    ensures q.events == old(q.events) + [OpenEvent]
    ensures q.callbacks == old(q.callbacks) + (if q.callbackGiven then [CalledWithOwner] else [])
  {
    OpenQueueChannel(q, queue);
    NoFaultsKeepAll(q.buffer);
    q.Settle(NoFaults(|q.buffer|));
  }

  /**
   * A queue built on an OPEN manager runs connect at once; one prefetch while
   * it is still OPENING leaves exactly one continuation in its buffer, and the
   * drain then sets the prefetch on the channel.
   */
  method PrefetchWhileOpening() returns (q: BaseQueue, parked: seq<QueueWaiter>)
    ensures parked == [PrefetchWaiter(1)]
    ensures q.state == Open && q.outcome == Resolved && q.drained
    ensures q.resumed == parked
    ensures q.channelCalls == [ChannelPrefetch(1)]
    ensures q.events == [OpenEvent]
  {
    q := QueueOnOpenManager("jobs", NoArg, false, BaseQueueClass);
    q.Prefetch(1, None);
    parked := q.buffer;
    Handshake(q, "jobs");
  }

  /** The calls the drain of two sends and a prefetch makes, worked out. */
  lemma TwoSendsThenPrefetch(queue: string)
    ensures RunAll(SendWaiters(["a", "b"]) + [PrefetchWaiter(1)], queue)
         == [SendToQueue(queue, "a"), SendToQueue(queue, "b"), ChannelPrefetch(1)]
  {
    var ws := SendWaiters(["a", "b"]);
    SendWaitersAt(["a", "b"], 0);
    SendWaitersAt(["a", "b"], 1);
    assert ws == [SendWaiter("a"), SendWaiter("b")];
    RunAllAppend(ws, PrefetchWaiter(1), queue);
    RunAllAt(ws, queue, 0);
    RunAllAt(ws, queue, 1);
  }

  /**
   * Sends and a prefetch issued while OPENING are made once the queue is OPEN,
   * in the order they were issued, addressed to the name the assertion gave.
   */
  method PublishBeforeOpen() returns (q: BaseQueue)
    ensures q.kind == QueueClass && q.state == Open && q.drained
    ensures q.channelCalls == [SendToQueue("amq.gen-1", "a"), SendToQueue("amq.gen-1", "b"), ChannelPrefetch(1)]
  {
    q := QueueOnOpenManager("", NoArg, false, QueueClass);
    var thrown := q.Publish(["a", "b"], [None, None]);
    q.Prefetch(1, None);
    assert q.buffer == SendWaiters(["a", "b"]) + [PrefetchWaiter(1)] && q.channelCalls == [];
    Handshake(q, "amq.gen-1");
    TwoSendsThenPrefetch("amq.gen-1");
  }

  /** Of two calls, the first throws and the second returns: only the second is kept. */
  lemma ThrowThenKeep(w1: QueueWaiter, w2: QueueWaiter, e: Error)
    ensures Kept([w1, w2], [Some(e), None]) == [w2]
    ensures Thrown([Some(e), None]) == [ErrorEvent(e)]
  {
    var ws, fs := [w1, w2], [Some(e), None];
    assert ws[..1] == [w1] && fs[..1] == [Some(e)];
    assert [w1][..0] == [] && [Some(e)][..0] == [];
    assert Kept([w1], [Some(e)]) == [];
    assert Thrown([Some(e)]) == [ErrorEvent(e)];
  }

  /** What the drain of two prefetches does when the first one throws: only the second is set. */
  lemma FirstOfTwoThrows(ws: seq<QueueWaiter>, faults: Faults, queue: string, e: Error)
    requires ws == [PrefetchWaiter(1), PrefetchWaiter(2)] && faults == [Some(e), None]
    ensures RunAll(Kept(ws, faults), queue) == [ChannelPrefetch(2)]
    ensures Thrown(faults) == [ErrorEvent(e)]
  {
    ThrowThenKeep(ws[0], ws[1], e);
    RunAllAppend([], ws[1], queue);
  }

  /** A queue with two prefetches parked while OPENING, then opened; the success chain has not run yet. */
  method TwoPrefetchesParked() returns (q: BaseQueue)
    ensures fresh(q) && q.Valid() && q.state == Open && q.outcome == Resolved && q.assertedQueue == "jobs"
    ensures !q.drained && q.callbackThrew.None?
    ensures q.buffer == [PrefetchWaiter(1), PrefetchWaiter(2)]
    ensures q.channelCalls == [] && q.events == [OpenEvent]
  {
    q := QueueOnOpenManager("jobs", NoArg, false, BaseQueueClass);
    q.Prefetch(1, None);
    q.Prefetch(2, None);
    OpenQueueChannel(q, "jobs");
  }

  /**
   * Two prefetches parked while OPENING; once OPEN, the drain resumes both,
   * the first one's channel call throws and is emitted as 'error', and the
   * second is still made.
   */
  method DrainSurvivesThrowingCall() returns (q: BaseQueue)
    ensures q.state == Open && q.drained && q.resumed == [PrefetchWaiter(1), PrefetchWaiter(2)]
    ensures q.channelCalls == [ChannelPrefetch(2)]
    ensures q.events == [OpenEvent, ErrorEvent(Broker("Channel closed"))]
  {
    q := TwoPrefetchesParked();
    var faults := [Some(Broker("Channel closed")), None];
    FirstOfTwoThrows(q.buffer, faults, "jobs", Broker("Channel closed"));
    q.Settle(faults);
  }

  /** What publishing two payloads does when the first send throws: only the second is sent. */
  lemma FirstSendThrows(contents: seq<string>, faults: Faults, queue: string, e: Error)
    requires |contents| == 2 && faults == [Some(e), None]
    ensures RunAll(Kept(SendWaiters(contents), faults), queue) == [SendToQueue(queue, contents[1])]
    ensures Thrown(faults) == [ErrorEvent(e)]
  {
    var ws := SendWaiters(contents);
    SendWaitersAt(contents, 0);
    SendWaitersAt(contents, 1);
    assert ws == [ws[0], ws[1]];
    ThrowThenKeep(ws[0], ws[1], e);
    RunAllAppend([], ws[1], queue);
  }

  /**
   * publish of two payloads on an OPEN Queue whose channel has gone away
   * under it (the state is still OPEN) so that the first send throws `e`: that
   * send becomes an 'error' event, publish itself throws nothing, and the
   * second send is still made.
   */
  method PublishOnBrokenChannel(first: string, second: string, e: Error) returns (q: BaseQueue, thrown: Option<Error>)
    ensures thrown == None && q.state == Open
    ensures q.channelCalls == [SendToQueue("jobs", second)]
    ensures q.events == [OpenEvent, ErrorEvent(e)]
  {
    q := OpenIdleQueue();
    var contents, faults := [first, second], [Some(e), None];
    FirstSendThrows(contents, faults, "jobs", e);
    thrown := q.Publish(contents, faults);
  }

  /** An OPEN Queue, drained with nothing parked: no channel call made yet. */
  method OpenIdleQueue() returns (q: BaseQueue)
    ensures fresh(q) && q.Valid() && q.kind == QueueClass && q.state == Open && q.assertedQueue == "jobs"
    ensures q.channelCalls == [] && q.events == [OpenEvent]
  {
    q := QueueOnOpenManager("jobs", NoArg, false, QueueClass);
    Handshake(q, "jobs");
    assert q.channelCalls == RunAll([], "jobs") == [];
  }


  /**
   * A queue whose callback throws when handed the queue: the chain's catch
   * calls the callback a second time, with that error, and the prefetch
   * parked while OPENING is never resumed.
   */
  method QueueCallbackThrows() returns (q: BaseQueue)
    ensures q.state == Open && q.outcome == Resolved && q.controller == None
    ensures q.callbacks == [CalledWithOwner, CalledWithError(Callback("boom"))]
    ensures q.buffer == [PrefetchWaiter(1)] && q.resumed == [] && !q.drained
    ensures q.channelCalls == []
  {
    q := QueueOnOpenManager("jobs", CallbackArg, false, BaseQueueClass);
    q.Prefetch(1, None);
    OpenQueueChannel(q, "jobs");
    q.CallbackThrows(Callback("boom"));
  }

  /**
   * A manager whose callback throws when handed the manager: the callback is
   * called again with the error, and a queue built while it was connecting is
   * never resumed, so its connect never runs.
   */
  method ManagerCallbackThrows() returns (m: StreamManager, q: BaseQueue)
    ensures m.state == Open && m.outcome == Resolved
    ensures m.callbacks == [CalledWithOwner, CalledWithError(Callback("boom"))]
    ensures m.buffer == [OpenQueue(q)] && m.resumed == []
    ensures q.phase == AwaitingManager && q.outcome == Pending
  {
    m := new StreamManager(Uri, true);
    q := new BaseQueue(m, "jobs", NoArg, false, BaseQueueClass);
    m.ConnectSucceeds();
    m.CallbackThrows(Callback("boom"));
  }

  /**
   * A queue built on a manager whose connection failed: the manager's
   * execute-when-open fails, so connect never runs, the state stays OPENING,
   * and the promise and the callback get the closed-stream error.
   */
  method QueueOnFailedManager() returns (q: BaseQueue)
    ensures q.outcome == Rejected(ClosedStream) && Message(q.outcome.error) == ClosedStreamMessage
    ensures q.state == Opening && q.phase == NotRun
    ensures q.callbacks == [CalledWithError(ClosedStream)]
    ensures q.events == [] && q.channelCalls == []
  {
    var m := new StreamManager("amqp://invalid-uri", false);
    m.ConnectFails(Broker("getaddrinfo ENOTFOUND invalid-uri"));
    q := new BaseQueue(m, "jobs", CallbackArg, false, BaseQueueClass);
    q.Connect();
  }

  /** An abort before connect's checkpoint rejects with "Aborted connection due to error"; the state is untouched. */
  method AbortBeforeCheckpoint() returns (q: BaseQueue)
    ensures q.outcome == Rejected(Aborted) && Message(q.outcome.error) == AbortedMessage
    ensures q.state == Opening && q.controller == None
    ensures q.callbacks == [CalledWithError(Aborted)]
  {
    q := QueueOnOpenManager("jobs", CallbackArg, false, BaseQueueClass);
    q.Abort();
    q.Connect();
  }

  /**
   * An abort while createChannel is pending (connect is past its checkpoint
   * and listening): the promise rejects at once and the callback gets the
   * abort error, but the body goes on and still reaches OPEN.
   */
  method AbortWhileCreatingChannel() returns (q: BaseQueue, rejected: Outcome, calledBack: seq<CallbackCall>)
    ensures rejected == Rejected(Aborted) && calledBack == [CalledWithError(Aborted)]
    ensures q.state == Open && q.outcome == rejected && q.callbacks == calledBack
  {
    q := QueueOnOpenManager("jobs", CallbackArg, false, BaseQueueClass);
    q.Connect();
    q.Abort();
    rejected, calledBack := q.outcome, q.callbacks;
    q.CreateChannelSucceeds();
    q.AssertQueueSucceeds("jobs");
  }

  /**
   * An abort after the checkpoint rejects the promise, but connect's body goes
   * on: the assertion still sets OPEN. The success chain never runs, so what
   * was buffered is never resumed and never reaches the channel.
   */
  method AbortAfterCheckpointStillOpens() returns (q: BaseQueue)
    ensures q.state == Open && q.outcome == Rejected(Aborted)
    ensures q.buffer == [PrefetchWaiter(5)] && q.resumed == [] && !q.drained
    ensures q.channelCalls == []
    ensures q.events == [OpenEvent]
  {
    q := QueueOnOpenManager("jobs", NoArg, false, BaseQueueClass);
    q.Prefetch(5, None);
    q.Connect();
    q.CreateChannelSucceeds();
    q.Abort();
    q.AssertQueueSucceeds("jobs");
  }

  /**
   * A failed assertion closes the queue and rejects, leaving its buffer
   * unresumed; a later publish on the CLOSED queue throws nothing, emits
   * 'error' and sends nothing.
   */
  method HandshakeFailureStrandsBuffer() returns (q: BaseQueue)
    ensures q.state == Closed && q.outcome == Rejected(Broker("PRECONDITION_FAILED"))
    ensures q.callbacks == [CalledWithError(Broker("PRECONDITION_FAILED"))]
    ensures q.buffer == [SendWaiter("early")] && q.resumed == []
    ensures q.events == [ErrorOpeningEvent(Broker("PRECONDITION_FAILED")), ErrorEvent(ClosedStream)]
    ensures q.channelCalls == []
  {
    q := ClosedWithParkedSend();
    var thrown := q.Publish(["late"], [None]);
    assert Repeat(ErrorEvent(ClosedStream), 1) == [ErrorEvent(ClosedStream)];
  }

  /** A Queue with one send parked whose assertion then fails. */
  method ClosedWithParkedSend() returns (q: BaseQueue)
    ensures fresh(q) && q.Valid() && q.kind == QueueClass
    ensures q.state == Closed && q.outcome == Rejected(Broker("PRECONDITION_FAILED"))
    ensures q.callbacks == [CalledWithError(Broker("PRECONDITION_FAILED"))]
    ensures q.buffer == [SendWaiter("early")] && q.resumed == []
    ensures q.events == [ErrorOpeningEvent(Broker("PRECONDITION_FAILED"))]
    ensures q.channelCalls == []
  {
    q := QueueOnOpenManager("jobs", OptionsArg(map["durable" := Bool(false)]), true, QueueClass);
    var thrown := q.Publish(["early"], [None]);
    assert SendWaiters(["early"]) == [SendWaiter("early")];
    q.Connect();
    q.CreateChannelSucceeds();
    q.HandshakeFails(Broker("PRECONDITION_FAILED"));
  }

  /** Base publish and subscribe throw "Not Implemented" on an OPEN queue and register nothing. */
  method BaseQueueRefusesPubSub() returns (q: BaseQueue, published: Option<Error>, subscribed: Option<Error>)
    ensures published == Some(NotImplemented) && subscribed == Some(NotImplemented)
    ensures Message(published.value) == NotImplementedMessage
    ensures q.state == Open && q.channelCalls == []
  {
    q := QueueOnOpenManager("jobs", NoArg, false, BaseQueueClass);
    Handshake(q, "jobs");
    published := q.Publish([], []);
    subscribed := q.Subscribe(map[], None);
  }

  /** Subscribe on an OPEN Queue consumes from the asserted queue with noAck defaulting to true. */
  method SubscribeDefaultsNoAck() returns (q: BaseQueue)
    ensures q.channelCalls == [Consume("jobs", map["noAck" := Bool(true), "exclusive" := Bool(true)])]
  {
    q := QueueOnOpenManager("jobs", NoArg, false, QueueClass);
    Handshake(q, "jobs");
    assert q.channelCalls == RunAll([], "jobs") == [];
    var thrown := q.Subscribe(map["exclusive" := Bool(true)], None);
    assert SubscribeOptions(map["exclusive" := Bool(true)]) == map["noAck" := Bool(true), "exclusive" := Bool(true)];
  }

  /** A new manager, still connecting, with a queue built on it and then a quit parked in its buffer. */
  method ParkQueueAndQuit(force: bool) returns (m: StreamManager, q: BaseQueue, process: Process)
    ensures fresh(m) && fresh(q) && fresh(process)
    ensures m.Valid() && q.Valid() && process.Valid()
    ensures m.phase == Connecting && !m.drained && m.callbackThrew == None && m.closing == [] && m.resumed == []
    ensures m.buffer == [OpenQueue(q), QuitClose(force)]
    ensures q.manager == m && q.managerWait == Buffered && q.phase == AwaitingManager
    ensures q.controller == Some(false) && q.outcome == Pending
  {
    process := new Process();
    m := new StreamManager(Uri, false);
    q := new BaseQueue(m, "jobs", NoArg, false, BaseQueueClass);
    var returned := m.Quit(ReasonFlag(force), None, process);
  }

  /**
   * Continuations parked on a manager whose connection then fails are never
   * resumed: the queue built meanwhile stays pending and the quit never closes.
   */
  method ManagerFailureStrandsWaiters() returns (m: StreamManager, q: BaseQueue)
    ensures m.state == Closed && m.outcome == Rejected(Broker("ECONNREFUSED"))
    ensures m.buffer == [OpenQueue(q), QuitClose(false)] && m.resumed == [] && m.closing == []
    ensures q.outcome == Pending && q.state == Opening && q.phase == AwaitingManager
  {
    var process;
    m, q, process := ParkQueueAndQuit(false);
    m.ConnectFails(Broker("ECONNREFUSED"));
  }

  /** Of a parked queue and a parked forced quit, only the quit closes the link, with force. */
  lemma QueueThenForcedQuit(q: BaseQueue)
    ensures QuitForces([OpenQueue(q), QuitClose(true)]) == [true]
  {
    var ws := [OpenQueue(q), QuitClose(true)];
    assert ws[..1] == [OpenQueue(q)];
    assert [OpenQueue(q)][..0] == [];
    assert QuitForces([OpenQueue(q)]) == [];
    assert QuitForces(ws) == QuitForces(ws[..1]) + [true];
  }

  /**
   * A queue and a quit parked on an OPENING manager both resume, in order,
   * when it opens: the quit closes the link, and the queue's connect, now
   * free to run, still gets past its checkpoint.
   */
  method ManagerDrainResumesInOrder() returns (m: StreamManager, q: BaseQueue, quitSettled: bool)
    ensures m.resumed == [OpenQueue(q), QuitClose(true)]
    ensures m.state == Closed && m.closing == []
    ensures !quitSettled
    ensures q.phase == CreatingChannel && q.outcome == Pending
  {
    var process;
    m, q, process := OpenAfterParking();
    q.Connect();
    quitSettled := m.LinkCloseSettles(0, true, Broker(""), process);
  }

  /** The manager of ParkQueueAndQuit(true) opens and drains. */
  method OpenAfterParking() returns (m: StreamManager, q: BaseQueue, process: Process)
    ensures fresh(m) && fresh(q) && fresh(process) && m.Valid() && q.Valid() && process.Valid()
    ensures m.resumed == [OpenQueue(q), QuitClose(true)]
    ensures m.state == Closing && m.closing == [true]
    ensures q.manager == m && q.managerWait == Buffered && q.phase == AwaitingManager
    ensures q.controller == Some(false) && q.outcome == Pending
  {
    m, q, process := ParkQueueAndQuit(true);
    m.ConnectSucceeds();
    QueueThenForcedQuit(q);
    m.Settle();
  }

  /** quit on an OPEN manager whose link close then throws: one process warning, and the manager is CLOSED. */
  method QuitWithFailingClose(process: Process) returns (m: StreamManager, quitSettled: bool)
    requires process.Valid() && !process.warned && process.warnings == []
    modifies process
    ensures fresh(m) && m.Valid() && m.state == Closed
    ensures quitSettled
    ensures process.Valid() && !process.warned
    ensures process.warnings == [CloseFailed(Broker("Connection closed"))]
  {
    m := OpenManager();
    var returned := m.Quit(ReasonText("shutdown"), None, process);
    quitSettled := m.LinkCloseSettles(0, false, Broker("Connection closed"), process);
  }

  /** A manager whose connection failed: CLOSED from its first step. */
  method FailedManager() returns (m: StreamManager)
    ensures fresh(m) && m.Valid() && m.state == Closed
  {
    m := new StreamManager("amqp://invalid-uri", false);
    m.ConnectFails(Broker("ECONNREFUSED"));
  }

  /**
   * quit on an OPEN manager closes; a close that throws becomes one process
   * warning and the state is CLOSED all the same. A second quit, and a quit
   * on another, never-opened manager, warn "already closed" once between them.
   */
  method AlreadyClosedWarnsOncePerProcess() returns (process: Process, quitSettled: bool)
    ensures quitSettled
    ensures process.warned
    ensures process.warnings == [CloseFailed(Broker("Connection closed")), AlreadyClosed(DefaultMessage)]
    ensures CountAlreadyClosed(process.warnings) == 1
  {
    process := new Process();
    var m;
    m, quitSettled := QuitWithFailingClose(process);
    var again := m.Quit(NoReason, None, process);
    var other := FailedManager();
    var forced := other.Quit(NoReason, Some(true), process);
  }

  /** create is idempotent per name: a second call returns the stored queue and ignores its options. */
  method CreateIsIdempotent() returns (q1: BaseQueue, q2: BaseQueue, m: StreamManager)
    ensures q1 == q2 && m.queues == map["jobs" := q1]
    ensures q1.kind == QueueClass && q1.options == map["durable" := Bool(true)]
  {
    m := OpenManager();
    q1 := m.Create("jobs", map["durable" := Bool(true)]);
    q2 := m.Create("jobs", map["type" := Str("exchange")]);
    assert SanitiseOptions(WithDefaultType(map["durable" := Bool(true)])) == map["durable" := Bool(true)] by {
      CreatePassesOptionsOn(map["durable" := Bool(true)]);
    }
  }

  /** register accepts a queue built directly on the manager, and refuses one create already stored. */
  method RegisterOnce() returns (accepted: Option<Error>, refused: Option<Error>)
    ensures accepted == None
    ensures refused == Some(AlreadyRegistered) && Message(refused.value) == AlreadyRegisteredMessage
  {
    var m;
    m, accepted := RegisterDirect();
    var created := m.Create("created", map[]);
    refused := m.Register(created);
  }

  /** An OPEN manager with one queue built on it directly and then registered. */
  method RegisterDirect() returns (m: StreamManager, accepted: Option<Error>)
    ensures fresh(m) && m.Valid()
    ensures accepted == None && |m.queues| == 1 && "direct" in m.queues
  {
    m := OpenManager();
    var direct := new BaseQueue(m, "direct", NoArg, false, BaseQueueClass);
    accepted := m.Register(direct);
  }
}
