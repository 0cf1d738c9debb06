# eventing lifecycle, in Dafny

A model of the lifecycle at the heart of the `eventing` library: a thin
layer over an AMQP broker in which a connection manager (`StreamManager`)
owns named queues (`BaseQueue`, and its subclass `Queue`). Each of them
carries:

- a state from `STATE` (OPENING, OPEN, CLOSING, CLOSED);
- a FIFO buffer of continuations parked by execute-when-open while the owner
  is OPENING;
- a one-shot initial promise and an optional completion callback.

When the owner's handshake succeeds, the success chain calls the callback
and then resumes every parked continuation once, in the order it was
parked. When the handshake fails, the owner is CLOSED and the promise
rejects.

The model is imperative where the library is:

- the two owners are classes whose methods update their fields in place;
- both drains are loops;
- `Queue.publish` is a loop of one deferred send per argument, over values;
- the warn-once helper is a class holding a write-once flag.

Every `await` of the original is an explicit step method, called in the
order the promise chain or the broker would take it. Examples are `Connect`,
`CreateChannelSucceeds`, `AssertQueueSucceeds`, `HandshakeFails`,
`ChannelError`, `Settle`, `ConnectSucceeds`, `ConnectFails`, `OnLinkClose` and
`LinkCloseSettles`. The broker is opaque: each of its calls either succeeds
or fails with a `Broker(reason)` error. The calls a queue makes on its
channel (prefetch, sendToQueue, consume) may throw too. Whether each one
throws is an input (a `fault`, or one `Faults` entry per call): a call that
returns is recorded in `channelCalls`, and a call that throws is caught and
emitted as 'error' instead. The events an owner emits on itself, the
callback's invocations and the process warnings are recorded as logs. A
completion callback that throws is a step of its own (`CallbackThrows`).

Files:

- `lifecycle.dfy`: the states, the errors with their messages, the shared
  execute-when-open rule (`Dispatch`) and the callback rule.
- `options.dfy`: the argument and option handling of the constructors,
  `create`, `subscribe` and `quit`.
- `warning.dfy`: the process-wide warn-once flag.
- `eventing.dfy`: `BaseQueue`/`Queue` and `StreamManager`, in one module
  because each refers to the other.
- `scenarios.dfy`: whole runs built from those steps, taken from the
  library's tests and from its edge cases, each with the end state it
  reaches.

Where the code departs from the behaviour its design describes, the model
follows the code:

- A failed handshake or a failed connection never resumes or rejects the
  parked continuations. They stay pending forever (`HandshakeFailureStrandsBuffer`,
  `ManagerFailureStrandsWaiters`).
- The callback is called before the buffer is drained, not after it. If it
  throws there, the chain's catch calls it a second time with what it threw,
  and the buffer is never drained (`QueueCallbackThrows`,
  `ManagerCallbackThrows`).
- An abort rejects the queue's promise but does not set CLOSED. An abort
  after connect's checkpoint does not stop the body either, so the queue
  still reaches OPEN with a rejected promise and an undrained buffer
  (`AbortAfterCheckpointStillOpens`).
- CLOSED is not terminal. The channel's first 'error' can close a queue
  while `assertQueue` is still pending, and the assertion then sets OPEN.
  A quit parked on an OPENING manager moves it to CLOSING when the drain
  runs, whatever the state is then.

## Model

| member | source | states |
|---|---|---|
| `Lifecycle.Dispatch` | lib/base-queue.ts:277-290 | execute-when-open runs at once exactly when OPEN, parks exactly when OPENING, and fails with "Cannot execute value with closed stream" exactly when CLOSING or CLOSED |
| `Lifecycle.CallbackLog` | lib/base-queue.ts:64-82 | never called while pending; once with the error when the promise rejects; once with the owner when the success chain runs; twice, first with the owner and then with what it threw, exactly when it throws on that success call |
| `Options.NormaliseQueueArgs` | lib/base-queue.ts:46-53 | a function in third place becomes the callback and leaves the options empty; an options object is kept; null or absent gives empty options |
| `Options.CallShapesAgree` | lib/base-queue.ts:36-53 | the four constructor overloads agree once normalised: absent options equal empty ones, a callback in third or fourth place is the same callback |
| `Options.SanitiseOptions` | lib/stream.ts:185-189 | the result has no `type` key and keeps every other key with its value |
| `Options.CreateLogContext` | lib/stream.ts:191-193 | keeps exactly the entries whose value is neither null nor undefined, with their values |
| `Options.WithDefaultType` | lib/stream.ts:103 | `type` defaults to "queue"; every caller key, `type` included, wins |
| `Options.ConstructorFor` | lib/stream.ts:103-104 | create builds a Queue exactly when `type` is absent or "queue", a BaseQueue otherwise |
| `Options.CreatePassesOptionsOn` | lib/stream.ts:103-107 | the options create hands to the queue are the caller's options minus `type`; the default never leaks |
| `Options.SubscribeOptions` | lib/queues/queue.ts:22 | `noAck` is true unless the caller gives one; every caller option passes through unchanged |
| `Options.NormaliseQuitArgs` | lib/stream.ts:124-127 | a boolean first argument becomes `force` and the reason becomes absent; otherwise the reason is kept and `force` is true only if given as true |
| `Warning.OnlyOneAlreadyClosed` | lib/utils/warning.ts:5-10 | a warning log whose flag count is one holds exactly one "already closed" warning |
| `Warning.Process.constructor` | lib/utils/warning.ts:3-6 | a process starts with the flag unset and no warnings |
| `Warning.Process.EmitAlreadyClosed` | lib/utils/warning.ts:5-10 | the first call sets the flag and emits one warning ("Already closed event manager" by default); every later call emits nothing; the flag never clears |
| `Warning.Process.EmitCloseFailure` | lib/stream.ts:139-143 | a link close that throws adds one process warning and leaves the already-closed flag alone |
| `Eventing.RunAllAt` | lib/base-queue.ts:76-78 | resumed continuations make their channel calls in buffer order, one each |
| `Eventing.SendWaitersAt` | lib/queues/queue.ts:8-12 | publish parks one send per argument, in argument order |
| `Eventing.SendsInOrder` | lib/queues/queue.ts:8-17 | publishing n payloads to an OPEN queue issues exactly n sends, the i-th carrying the i-th payload, all to the asserted queue name |
| `Eventing.DeferSends` | lib/queues/queue.ts:9-11 | the publish loop defers one send per argument, in argument order: all parked while OPENING; while OPEN, each send that does not throw is made to the asserted name and each that throws becomes its own 'error'; one closed-stream 'error' each while CLOSING or CLOSED |
| `Eventing.DrainQueue` | lib/base-queue.ts:76-78 | the queue drain resolves every buffered continuation exactly once, in insertion order; the calls made are exactly those of the continuations whose call does not throw, in order, and the 'error' events are exactly the thrown errors, in order |
| `Eventing.KeptOrThrown` | lib/base-queue.ts:97-99 | every deferred channel call either is made or emits exactly one 'error': none is lost and none is counted twice |
| `Eventing.NothingThrown` | lib/queues/queue.ts:15-18 | no 'error' is emitted exactly when no call throws, and then every continuation makes its call |
| `Eventing.NoFaultsKeepAll` | lib/base-queue.ts:76-78 | when no resumed call throws, the drain makes every parked call and emits nothing |
| `Eventing.FailuresByState` | lib/queues/queue.ts:14-19 | deferred sends emit one closed-stream 'error' each while CLOSING or CLOSED, exactly the errors of the sends that throw while OPEN, and nothing while OPENING |
| `Eventing.DeferSendStep` | lib/queues/queue.ts:8-19 | the i-th argument of publish adds to each record exactly what one `$__publish` of it adds: one parked send, one call, or one 'error' |
| `Eventing.DrainManager` | lib/stream.ts:52-54 | the manager drain resolves every buffered continuation once, in insertion order; the quits among them start closing, with their own force flags, in order; none start exactly when no quit was parked |
| `Eventing.BaseQueue.constructor` | lib/base-queue.ts:40-63 | a new queue is OPENING with an empty buffer, a registered controller, normalised arguments and a pending promise; the manager's execute-when-open is asked to run connect, which parks it while the manager is OPENING |
| `Eventing.BaseQueue.Reject` | lib/base-queue.ts:79-82 | the catch handler rejects the promise, unregisters the controller and calls the callback with the error |
| `Eventing.BaseQueue.Connect` | lib/base-queue.ts:116-141 | a failed manager wait rejects without connect running (state stays OPENING); an abort before the checkpoint rejects with "Aborted connection due to error"; otherwise createChannel is awaited |
| `Eventing.BaseQueue.CreateChannelSucceeds` | lib/base-queue.ts:143-149 | once the channel exists, its one-time 'error' handler is armed and the assertion is awaited |
| `Eventing.BaseQueue.AssertQueueSucceeds` | lib/base-queue.ts:151-162 | the state becomes OPEN and 'open' is emitted before the promise resolves; an already rejected promise stays rejected |
| `Eventing.BaseQueue.HandshakeFails` | lib/base-queue.ts:129-165 | a failed createChannel or assertQueue sets CLOSED, emits 'error:opening' and rejects with that error unless already rejected; the buffer is untouched |
| `Eventing.BaseQueue.ChannelError` | lib/base-queue.ts:149 | the channel's first 'error' runs the same rejection, once |
| `Eventing.BaseQueue.Settle` | lib/base-queue.ts:64-78 | after a resolve the callback gets the queue, the controller is unregistered, and every buffered continuation is resumed once, in insertion order; each makes its channel call, or emits 'error' if that call throws |
| `Eventing.BaseQueue.CallbackThrows` | lib/base-queue.ts:64-82 | a callback that throws on its success call is called again with what it threw; the controller is unregistered and the buffer is never resumed |
| `Eventing.BaseQueue.Abort` | lib/base-queue.ts:170-176 | a no-op once the controller is gone; otherwise it marks the signal and rejects a pending promise only if connect's listener is attached; it never sets the state |
| `Eventing.BaseQueue.ExecuteWhenOpen` | lib/base-queue.ts:277-290 | answers by the state and appends the continuation at the end of the buffer exactly when OPENING, leaving it unchanged otherwise |
| `Eventing.BaseQueue.Prefetch` | lib/base-queue.ts:96-100 | prefetch never throws: it is parked while OPENING; when OPEN it is made at once, or emits 'error' if the channel's prefetch throws; it emits 'error' when CLOSING or CLOSED; a prefetch not parked yields exactly one call or one event |
| `Eventing.BaseQueue.Publish` | lib/queues/queue.ts:8-12 | BaseQueue throws "Not Implemented" and changes nothing; Queue never throws and, for each argument in order, parks a send, makes it, or emits 'error' (the closed-stream error, or what the send threw), as the state says |
| `Eventing.BaseQueue.SendOne` | lib/queues/queue.ts:14-19 | one send is parked, made to the asserted queue name, or turned into an 'error' event, when the queue is closed or when sendToQueue throws |
| `Eventing.BaseQueue.Subscribe` | lib/queues/queue.ts:21-29 | BaseQueue throws "Not Implemented"; Queue defers one consume on the asserted queue with noAck defaulting to true; it emits 'error' when closed or when consume throws |
| `Eventing.StreamManager.constructor` | lib/stream.ts:34-44 | a new manager is OPENING with an empty queue table, an empty buffer and a pending connection |
| `Eventing.StreamManager.ConnectSucceeds` | lib/stream.ts:72-94 | a successful connection sets OPEN, emits 'open' and resolves the promise |
| `Eventing.StreamManager.ConnectFails` | lib/stream.ts:95-99 | a failed connection sets CLOSED, emits 'error:opening' and rejects; the callback then gets the error, from the catch at stream.ts line 55 |
| `Eventing.StreamManager.Settle` | lib/stream.ts:45-54 | the callback gets the manager, then every buffered continuation is resumed once, in order; the state becomes CLOSING exactly when a quit was among them |
| `Eventing.StreamManager.CallbackThrows` | lib/stream.ts:45-55 | a callback that throws on its success call is called again with what it threw, and the buffer is never resumed |
| `Eventing.StreamManager.OnLinkClose` | lib/stream.ts:83-92 | the link's 'close' sets CLOSED only when the state is already CLOSING or CLOSED |
| `Eventing.StreamManager.ExecuteWhenOpen` | lib/stream.ts:169-182 | the same rule as the queue's: run when OPEN, park at the end when OPENING, fail otherwise |
| `Eventing.StreamManager.Create` | lib/stream.ts:102-111 | idempotent per name: a stored name returns its queue and changes nothing; a new name inserts one new queue of the type `type` selects, built with the options minus `type` |
| `Eventing.StreamManager.Register` | lib/stream.ts:113-116 | throws exactly when the name is taken or the queue belongs to another manager; otherwise adds exactly that entry |
| `Eventing.StreamManager.Quit` | lib/stream.ts:124-162 | on CLOSING or CLOSED it changes nothing but the warn-once flag and returns; on OPEN it moves to CLOSING and starts the close; on OPENING it parks the close |
| `Eventing.StreamManager.LinkCloseSettles` | lib/stream.ts:139-155 | the state is CLOSED whether or not close threw (a throw becomes a process warning); a forced quit does not settle |
| `Scenarios.PrefetchWhileOpening` | lib/base-queue.test.ts:147-158 | one prefetch on an OPENING queue leaves one continuation in the buffer, and the drain sets the prefetch |
| `Scenarios.PublishBeforeOpen` | lib/queues/queue.test.ts:27-36 | sends and a prefetch issued while OPENING reach the channel in issue order, addressed to the asserted name |
| `Scenarios.QueueOnFailedManager` | lib/base-queue.test.ts:101-117 | a queue on a failed manager rejects with the closed-stream error and never leaves OPENING |
| `Scenarios.AbortBeforeCheckpoint` | lib/base-queue.ts:118-122 | an abort before connect's checkpoint rejects with the abort message, calls the callback with it, and leaves the state OPENING |
| `Scenarios.AbortWhileCreatingChannel` | lib/base-queue.test.ts:119-131 | an abort while createChannel is pending rejects at once and calls the callback with the abort error, yet the queue still reaches OPEN |
| `Scenarios.AbortAfterCheckpointStillOpens` | lib/base-queue.ts:141-162 | an abort after the checkpoint rejects, yet the queue reaches OPEN and its buffer is never resumed |
| `Scenarios.HandshakeFailureStrandsBuffer` | lib/queues/queue.test.ts:38-49 | a failed assertion closes and rejects, strands the buffer, and a later publish only emits 'error' (the test reaches CLOSED by assigning the state field; the run reaches it through a failed assertion) |
| `Scenarios.PublishOnBrokenChannel` | lib/queues/queue.ts:14-19 | on an OPEN queue whose first send throws, publish throws nothing, that send becomes an 'error' event, and the second send is still made |
| `Scenarios.DrainSurvivesThrowingCall` | lib/base-queue.ts:76-78 | of two parked prefetches, the first one's call throws during the drain and becomes an 'error'; the second is still made |
| `Scenarios.QueueCallbackThrows` | lib/base-queue.ts:64-82 | a queue callback that throws on success is called a second time with that error, and the parked prefetch never runs |
| `Scenarios.BaseQueueRefusesPubSub` | lib/base-queue.test.ts:173-205 | base publish and subscribe throw "Not Implemented" and make no channel call |
| `Scenarios.SubscribeDefaultsNoAck` | lib/queues/queue.ts:21-27 | subscribe consumes from the asserted queue with noAck true beside the caller's options |
| `Scenarios.ManagerFailureStrandsWaiters` | lib/stream.ts:45-55 | a queue and a quit parked on a manager whose connection fails are never resumed |
| `Scenarios.ManagerCallbackThrows` | lib/stream.ts:45-55 | a manager callback that throws on success is called a second time with that error, and the queue parked on it never connects |
| `Scenarios.ManagerDrainResumesInOrder` | lib/stream.ts:45-54 | a parked queue and a parked forced quit resume in order; the link closes, the forced quit never settles, and the queue's connect proceeds |
| `Scenarios.AlreadyClosedWarnsOncePerProcess` | lib/stream.ts:124-145 | a close that throws warns once; quitting a closed manager, then a never-opened one, warns "already closed" once between them |
| `Scenarios.CreateIsIdempotent` | lib/stream.ts:102-111 | a second create of the same name returns the first queue and ignores its options |
| `Scenarios.RegisterOnce` | lib/stream.test.ts:73-92 | register accepts a queue built directly on the manager and refuses one that create stored |

## Left out

- The amqplib calls (`connect`, `createChannel`, `assertQueue`, `sendToQueue`, `consume`, `prefetch`, `close`) are foreign I/O. Each is an opaque step. `connect`, `createChannel`, `assertQueue` and `close` succeed or fail through their own step methods. Whether `sendToQueue`, `consume` or `prefetch` throws is an input to the method that makes the call; a call that returns is recorded, not performed. `ack` is only used by message contexts, which are not modelled.
- Promise and microtask timing is collapsed into the step order. `quit` on an OPEN manager moves to CLOSING at once, where the original does so one microtask later. Two synchronous quits in that gap would both pass the guard; the model does not capture that.
- The AbortController/WeakMap machinery is a `controller` field: absent, or present with its `aborted` flag. The `removeEventListener` calls are left out: they pass fresh closures and so never remove anything.
- `Eventing.StreamManager.LinkCloseSettles`: a forced quit waits for a 'close' event on the manager itself, which nothing in the library emits. The model says only that such a quit does not settle; it does not model that wait.
- EventEmitter forwarding of channel and connection events ('error', 'close', 'return', 'drain', 'blocked', 'unblocked') is left out. The model logs only the events the owners emit themselves: 'open', 'error' and 'error:opening'.
- Listener invocation and message contexts are left out. The listener given to `subscribe` is not modelled, and `lib/context.ts` is not part of this model.
- JSON serialisation of publish arguments is left out: `Publish` takes the already serialised strings.
- `Eventing.BaseQueue.Publish`: the loop over the arguments (`DeferSends`) works on values, and its results are appended to the queue's fields once, instead of one in-place update per argument through `SendOne`. `DeferSendStep` proves that argument i adds exactly what `SendOne` adds for it. No step can run between those calls, and they all meet the same state. That n `SendOne` calls leave the fields as `Publish` does is argued from those two facts; no method proves it as a heap loop. The interleaving of the individual appends is not modelled.
- The order between a queue's 'error' events and its channel calls is not modelled: they are two separate logs.
- Logging (`lib/proc-log.ts`) is left out, and so is where `createLogContext` is used. The function itself is modelled.
- `asPromise` is left out; the `outcome` field stands for the initial promise.
- Only the keys the code inspects (`type`, `noAck`) carry meaning in option maps; the option record types of `lib/types.ts` are not modelled.
- A queue built with another manager than the one whose drain resumes it is outside the model: `Connect` requires that its manager's wait was answered.
- `undefined` options spread into `create` are modelled as an empty map.
