# Giraph worker server data and SASL server handler, modelled in Dafny

This project models two pieces of a Giraph worker's communication layer.

**ServerData** keeps two message stores for a bulk-synchronous computation. The
"current" store holds the messages the running superstep consumes. The "incoming" store
collects the messages peers send for the next superstep. `prepareSuperstep` is the
boundary between supersteps. It clears the old current store, and a failed clear is a
fatal `IllegalStateException`. Then it promotes incoming to current and installs a new
store from the factory as incoming. The map of vertices arriving for each partition and
the map of pending vertex mutations are held alongside, and the boundary leaves them alone.

**SaslServerHandler** handles each request a connection receives:

- If the job option that simulates a failed first request is on and the process-wide
  flag is still unset, the handler closes the channel and sets the flag for good.
- Otherwise a SASL token message is run locally with the channel's SASL server session.
  The session is created and registered on the channel's first such message.
- Every other request is sent upstream unchanged.
- Connect, close and exception events only log.

Files:

- `message_store.dfy` (module `MessageStores`): the message store abstracted to its
  sequence of messages, and a factory that returns fresh empty stores.
- `handoff.dfy` (module `Handoff`): the contents of the two stores as a value, the
  boundary as a function, and lemmas about any number of supersteps.
- `server_data.dfy` (module `Comm`): the `ServerData` class. Its store fields are reassigned
  in place. The two maps are shared objects that callers fill in place. `PrepareSuperstep`
  is proved against `Handoff.Advance`.
- `dispatch.dfy` (module `Dispatch`): the state the handlers share, the per-request
  decision `Receive`, and runs of events delivered to any number of handlers, with lemmas
  about those runs.
- `sasl_server_handler.dfy` (module `NettyHandler`): the shared flag and the session
  registry as objects, and the `SaslServerHandler` class. Each of its methods is proved
  equal to `Dispatch.Receive` or `Dispatch.Handle` on the shared state.

Environment inputs become parameters. The outcome of the store's clear I/O is the
`clearFails` parameter of `PrepareSuperstep`. Netty's effects become `Action` values:
`CloseChannel` for closing the channel, `DoRequest` for running the request,
`SendUpstream` for forwarding it.

The handler's `channelClosed` (SaslServerHandler.java:143-150) only logs. So closing a
channel leaves its session registered (`LifecycleEventsChangeNothing`, `SessionsPersist`).

## Model

| member | source | states |
|---|---|---|
| Comm.ServerData.constructor | src/main/java/org/apache/giraph/comm/ServerData.java:75-81 | both roles hold fresh, empty stores that are two different objects; the two maps are new, empty objects owned by this server |
| Comm.ServerData.GetPartitionVertexMap | src/main/java/org/apache/giraph/comm/ServerData.java:88-91 | returns the server's own partition-vertex map object, not a copy, so what a caller adds to it the server holds; changes nothing |
| Comm.ServerData.GetIncomingMessageStore | src/main/java/org/apache/giraph/comm/ServerData.java:99-101 | returns the non-null incoming store, which is not the current one, changing nothing |
| Comm.ServerData.GetCurrentMessageStore | src/main/java/org/apache/giraph/comm/ServerData.java:109-111 | returns the non-null current store, which is not the incoming one, changing nothing |
| Comm.ServerData.PrepareSuperstep | src/main/java/org/apache/giraph/comm/ServerData.java:114-125 | a failed clear gives the fatal error with the source's message and swaps nothing. On success: the old current store is emptied; the old incoming object, with its messages, becomes current; a fresh empty store becomes incoming; the contents move as `Handoff.Advance` says. Both roles stay filled by distinct stores; neither map object nor its entries change |
| Comm.ServerData.GetVertexMutations | src/main/java/org/apache/giraph/comm/ServerData.java:132-135 | returns the server's own vertex-mutation map object, not a copy, so what a caller adds to it the server holds; changes nothing |
| Handoff.ObservedRounds | src/main/java/org/apache/giraph/comm/ServerData.java:114-125 | over any number of boundaries, what current holds in round r + 1 is exactly what was put into incoming in round r; only the first round also sees what was pending before |
| Handoff.ObservedFromInitial | src/main/java/org/apache/giraph/comm/ServerData.java:75-81 | starting from a new ServerData, current in each round holds exactly the previous round's deliveries |
| Handoff.ObservedKeepsEveryMessage | src/main/java/org/apache/giraph/comm/ServerData.java:55-64 | across all boundaries no message is lost, duplicated or reordered: the concatenation of what current shows equals the pending messages followed by everything delivered |
| Handoff.AfterRounds | src/main/java/org/apache/giraph/comm/ServerData.java:123-124 | after one or more boundaries incoming is empty and current holds the last round's messages |
| Dispatch.Start | src/main/java/org/apache/giraph/comm/netty/handler/SaslServerHandler.java:53 | the initial shared state (flag unset, no sessions) satisfies the registry invariant |
| Dispatch.Receive | src/main/java/org/apache/giraph/comm/netty/handler/SaslServerHandler.java:84-124 | the drop happens exactly when the option is on and the flag unset; it closes this channel and touches no session. The flag ends set exactly when it was set or the option is on. A SASL token message that is not dropped runs locally with this channel's session and is never forwarded. An existing session is reused. A missing one is created once, registered for this channel, and differs from every other. Any other request goes upstream unchanged and leaves the sessions alone. Other channels' sessions are untouched, and the registry invariant is kept |
| Dispatch.FirstRequestClosedOnce | src/main/java/org/apache/giraph/comm/netty/handler/SaslServerHandler.java:92-99 | over any sequence of events delivered to any handlers, the flag is never reset. At most one request is dropped: exactly one if the run set the flag, none otherwise |
| Dispatch.DisabledNeverDrops | src/main/java/org/apache/giraph/comm/netty/handler/SaslServerHandler.java:77-79 | handlers whose option is off never drop a request and never change the flag |
| Dispatch.NoDropsAfterSet | src/main/java/org/apache/giraph/comm/netty/handler/SaslServerHandler.java:92 | once the flag is set, no later event in any run is dropped |
| Dispatch.FirstQualifyingRequestDropped | src/main/java/org/apache/giraph/comm/netty/handler/SaslServerHandler.java:92-99 | while the flag is unset, the request dropped is exactly the first one that reaches a handler with the option on, and no other event in the run is dropped |
| Dispatch.SessionsPersist | src/main/java/org/apache/giraph/comm/netty/handler/SaslServerHandler.java:105-115 | once a channel has a session it keeps that same session through every later event, including the channel closing |
| Dispatch.HandleRegistersWhatItCreates | src/main/java/org/apache/giraph/comm/netty/handler/SaslServerHandler.java:105-110 | one event creates a session exactly when it registers a channel that had none |
| Dispatch.OneSessionPerChannel | src/main/java/org/apache/giraph/comm/netty/handler/SaslServerHandler.java:105-115 | the number of sessions a run creates equals the number of channels it newly registers (a later SASL message reuses the session); registered channels stay registered; distinct channels keep distinct sessions |
| Dispatch.RunActionsFit | src/main/java/org/apache/giraph/comm/netty/handler/SaslServerHandler.java:103-123 | in any run, each request is either dropped or handled by its type: a SASL token message runs locally and is never forwarded, any other request is forwarded unchanged; lifecycle events do nothing |
| Dispatch.LifecycleEventsChangeNothing | src/main/java/org/apache/giraph/comm/netty/handler/SaslServerHandler.java:134-156 | any run of connect, close and exception events leaves the shared state unchanged, so a closed channel keeps its session |
| NettyHandler.FirstRequestFlag.constructor | src/main/java/org/apache/giraph/comm/netty/handler/SaslServerHandler.java:53 | the process-wide flag starts unset |
| NettyHandler.SessionRegistry.Get | src/main/java/org/apache/giraph/comm/netty/handler/SaslServerHandler.java:105 | finds the channel's session exactly when one is registered |
| NettyHandler.SessionRegistry.NewSession | src/main/java/org/apache/giraph/comm/netty/handler/SaslServerHandler.java:109 | constructs a session with a new identity and registers nothing |
| NettyHandler.SessionRegistry.Set | src/main/java/org/apache/giraph/comm/netty/handler/SaslServerHandler.java:110 | registers the session for that channel only |
| NettyHandler.SaslServerHandler.constructor | src/main/java/org/apache/giraph/comm/netty/handler/SaslServerHandler.java:71-81 | the handler keeps the configured simulated-failure option and shares the given flag and registry |
| NettyHandler.SaslServerHandler.MessageReceived | src/main/java/org/apache/giraph/comm/netty/handler/SaslServerHandler.java:84-124 | the new shared flag and registry, and the action taken, are exactly those of `Dispatch.Receive` on the old shared state |
| NettyHandler.SaslServerHandler.ChannelConnected | src/main/java/org/apache/giraph/comm/netty/handler/SaslServerHandler.java:134-140 | takes no action and changes no state, as `Dispatch.Handle` says of a connect |
| NettyHandler.SaslServerHandler.ChannelClosed | src/main/java/org/apache/giraph/comm/netty/handler/SaslServerHandler.java:143-150 | takes no action and changes no state; the channel's session stays registered |
| NettyHandler.TwoHandlersShareOneDrop | src/main/java/org/apache/giraph/comm/netty/handler/SaslServerHandler.java:53-55 | two handlers built over one flag and one registry share them and start from `Dispatch.Start()`, where the registry invariant holds; with the option on, the first request is dropped and the next is handled by its type, a SASL token message getting the first session created |
| NettyHandler.SaslServerHandler.ExceptionCaught | src/main/java/org/apache/giraph/comm/netty/handler/SaslServerHandler.java:153-156 | takes no action and changes no state |

## Left out

- Concurrency. The volatile store fields, the `ConcurrentHashMap`s and the concurrent
  delivery of events are modelled sequentially. In the source, testing and then setting
  the static flag is not atomic. Looking up and then registering a session is not atomic
  either. So "at most one drop" and "one session per channel" are proved only for
  events handled one at a time.
- The message store's per-partition structure and its factory are not part of this model.
  A store is its sequence of messages, and the factory returns a fresh, empty store.
- MessageStores.MessageStore.ClearAll: when the clear fails, the contract says nothing
  about what the store then holds. The store's I/O is not part of this model, and the
  worker aborts anyway.
- The request types other than `SASL_TOKEN_MESSAGE` are not listed one by one. The
  `RequestType` enumeration is not part of this model, and the handler only tests for
  that one type.
- The SASL exchange is not modelled: `SaslNettyServer`, the secret manager passed to it,
  and what `doRequest` does. A session is an identity given by its creation order, and
  running a request is the `DoRequest` action.
- Netty's channel context, closing the channel and `sendUpstream` are not modelled;
  they become `Action` values. Where `NettyServer.channelSaslNettyServers` keeps its
  entries is not part of this model. The registry is an explicit shared object.
- `WorkerRequestReservedMap` and exactly-once dispatch are not part of this model. The
  handler stores the map but never calls it.
- Nothing in these files appends to or drains the partition-vertex map or the mutation
  map, so neither operation is modelled. The maps are shared objects that the boundary
  must leave untouched.
- Logging, the worker id read from the configuration, `RESPONSE_BYTES`, the abstract
  `processRequest` and the handler `Factory` interface are not modelled. None of them
  changes the modelled state.
