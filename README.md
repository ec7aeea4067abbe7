# websocket Hub — a Dafny model

This project models the **Hub** of the `websocket` Go package. A Hub keeps a
set of registered clients. It fans each broadcast event out to them,
evicting any client whose channel is full. It shuts itself down when asked
to (`Close`), when the last client leaves (`CloseOnNoClients`), or when no
message has been broadcast for `CloseTimeout`. The model covers:

- the Hub's control loop in `hub.go`;
- the `Client` capability and the hub's private sentinel client (`emptyClient`) in `client.go`.

Files:

- `clients.dfy` (module `Clients`). `Event`, `ClientEvent` and the `Client`
  capability. A client is a class with one field, its delivery channel: an
  `Inbox` recording capacity, buffered events, whether it is closed, and
  how many times Close was called on it. It has a ghost owner with which
  the model expresses "registered with at most one Hub".
  - `TrySend` is the non-blocking `select { case c.Send() <- e: default: }`.
  - `Close` closes the channel.
- `hub_spec.dfy` (module `HubSpec`). The hub as values. It defines a
  `World` (the hub's fields plus the channels of the clients it can touch)
  and one function per arm of `Run`'s `select`. Each arm runs to completion
  before the next, so it is one atomic transition. The file also holds the
  shared `closeClient` procedure and the lemmas that state what each arm
  does and that every arm keeps the invariant `Inv`. Go's map iteration
  order is unspecified, so both loops that evict while iterating are
  described order-independently:
  - `EvictAll(w, E)` and `FanOut(w, msg, V)` describe the loop after it has
    visited a set;
  - `EvictAllStep` and `FanOutStep` prove that visiting one more member, in
    any order, gives the summary of the larger set.
- `hub.dfy` (module `Hubs`). The `Hub` class, with the fields of the Go
  struct. There is one method per `select` arm, plus the exported API
  (`Close`, `Register`, `Unregister`, `Broadcast`, `BroadcastAll`, and
  setters for the exported fields). Each method is proved against the
  functions of `HubSpec`: after the call, the hub's fields and every
  affected client's channel are what the arm's function says. The two
  `for … range h.clients` loops are `while` loops that pick an unvisited
  member with `:|`, so they hold for every visiting order.
- `hub_traces.dfy` (module `HubTraces`). Whole runs of the hub, driven by a
  sequence of inputs (the arms, Close, field writes, and clients reading
  their channels): the close flag never resets, the close signal is
  scheduled at most once, the loop returns at most once, nothing happens
  after it returns but channels draining, the empty check is silent
  before the first Register, and a broadcast postpones the idle shutdown
  by a full CloseTimeout. It also holds a concrete run with three clients.

Modelling decisions:

- `Close`'s `go func() { h.close <- true }()` is the flag `closeSignalPending`.
- The close arm is taken only while that flag is set, and it clears it.
- Once the close arm has run, the phase is `Stopped`.
- Time is an integer number of nanoseconds, passed to the handlers.
  `time.Now` in the broadcast and tick arms is the `now` argument.
  `timeoutTicker` is the field `nextTick`.
- `Run` never sets `lastMessageTimestamp`, so its initial value is a
  parameter of the constructor (and of `NewHub`). The field's comment says
  it defaults to the time the hub began listening; the code does not do so.
- An `onClose` callback is either absent or present. When present, the
  model records its invocation in the ghost multiset `onCloseCalls`. Whether
  it calls `Close` on the hub is the flag `closesHub`.

## Model

| member | source | states |
|---|---|---|
| Clients.Push | hub.go:186 | a successful send appends exactly the event at the end of the buffer, keeps capacity and closed state, and keeps a valid channel valid |
| Clients.Shut | client.go:27-29 | closing keeps the buffer, marks the channel closed and counts one more Close; on an open valid channel the count becomes exactly 1 |
| Clients.Client.TrySend | hub.go:185-189 | the non-blocking send succeeds iff the buffer had room, and then the channel is the old one with the event appended, otherwise unchanged; sending on a closed channel is excluded as Go panics |
| Clients.Client.Close | client.go:27-29 | Close closes the client's own channel and counts the call; closing twice is excluded as Go panics, so a closed sentinel takes no further deliveries |
| Clients.Pop | client.go:7-9 | a read takes the oldest buffered event and keeps the rest in order; an empty channel stays as it is; capacity and close state never change |
| Clients.PopDrains | client.go:7-9 | what a read leaves is a suffix of the buffer, with the same capacity and close state |
| Clients.Client.Receive | client.go:7-9 | the client's reader gets an event iff one was buffered, namely the oldest, and the channel becomes Pop of the old one |
| Clients.Client.constructor | client.go:16-21 | a client starts with an open, empty channel of the given capacity and no hub |
| HubSpec.RequestClose | hub.go:133-140 | Close sets the flag; only a call that finds it unset schedules the close signal; a call that finds it set changes nothing; nothing else changes |
| HubSpec.EvictAllHub | hub.go:142-148 | evicting a set removes exactly those members, records exactly the callbacks of those that have one, and requests Close iff it was requested or one of those callbacks calls Close |
| HubSpec.CloseClientHub | hub.go:142-148 | closeClient removes only the client, closes its channel once, records its onClose iff it has one, requests Close iff the callback calls it, and changes nothing else |
| HubSpec.EvictAllStep | hub.go:150-154 | closing one more member after a set of them is evicting the larger set: closeAllClients does not depend on map order, and the not-yet-visited member is still untouched |
| HubSpec.EvictAllStepInboxes | hub.go:150-154 | the channels after evicting one more member are the previous ones with that member's channel closed |
| HubSpec.EvictOne | hub.go:142-148 | closeClient on one member is evicting the one-member set |
| HubSpec.EvictNone | hub.go:150-154 | evicting nobody changes nothing |
| HubSpec.EvictAllEffect | hub.go:142-154 | evicted members are closed exactly once and leave; the others keep their record and channel; the registry stays sound |
| HubSpec.EvictAllInv | hub.go:150-154 | evicting members keeps the hub invariant |
| HubSpec.NotifiedStep | hub.go:145-147 | the callbacks recorded for one more evicted member grow by that member iff it has an onClose |
| HubSpec.FanOutNone | hub.go:179-190 | the broadcast loop before its first iteration has changed nothing |
| HubSpec.FanOutStep | hub.go:179-190 | one more iteration of the broadcast loop, over any unvisited member, extends the fan-out to that member; members not yet visited are untouched |
| HubSpec.FanOutEffect | hub.go:179-190 | after the loop, each target with room received the event once and stays, each target with a full channel is closed and evicted, and each self-skipped member and each non-member is untouched |
| HubSpec.NewHubInv | hub.go:94-107 | a new hub (no members, flag unset, close-on-empty off, ten-minute timeout) satisfies the invariant |
| HubSpec.CloseWhenEmptyInv | hub.go:172-176 | the empty check keeps the invariant and the phase |
| HubSpec.StartInv | hub.go:159-162 | entering Run keeps the invariant |
| HubSpec.RegisterInv | hub.go:165-167 | the register arm keeps the invariant for an open, non-sentinel client |
| HubSpec.RegisterInvExtend | hub.go:165-167 | the same when the newly registered client's channel has just been brought into view |
| HubSpec.UnregisterInv | hub.go:168-176 | the unregister arm keeps the invariant |
| HubSpec.BroadcastInv | hub.go:177-193 | the broadcast arm keeps the invariant |
| HubSpec.TickInv | hub.go:198-203 | the tick arm keeps the invariant |
| HubSpec.CloseInv | hub.go:133-140 | Close keeps the invariant |
| HubSpec.SetCloseOnNoClientsInv | hub.go:74-77 | changing CloseOnNoClients keeps the invariant |
| HubSpec.SetCloseTimeoutInv | hub.go:83-86 | changing CloseTimeout to a positive value keeps the invariant |
| HubSpec.CloseSignalInv | hub.go:194-197 | taking the close signal and the deferred cleanup keep the invariant |
| HubSpec.RegisterEffect | hub.go:165-167 | Register inserts or overwrites exactly the client's entry, sets clientsHaveExisted, and leaves every other entry, every channel, the close state and the idle clock (time of the last message, timeout) as they were |
| HubSpec.UnregisterEffect | hub.go:168-176 | a member is removed alone, closed exactly once, its onClose recorded iff present; a non-member leaves membership and channels alone; Close is requested iff already requested, or the callback calls it, or nobody is left while close-on-empty is on and clients have existed; the idle clock is kept |
| HubSpec.BroadcastIsFanOut | hub.go:177-193 | a broadcast leaves the channels and members of the fan-out over all members of the time-stamped hub |
| HubSpec.BroadcastNoSelfEcho | hub.go:180-184 | a sender that does not receive its own messages gets nothing and stays registered |
| HubSpec.BroadcastDeliversOrEvicts | hub.go:179-190 | every other member present at the start either receives the event exactly once and stays, or is closed once and evicted, the latter exactly when its channel was full |
| HubSpec.BroadcastFrame | hub.go:177-193 | a broadcast admits nobody, keeps the records of members that stay, and leaves non-members' channels alone |
| HubSpec.BroadcastCloseRequest | hub.go:177-193 | a broadcast stamps the time, evicts exactly the refusing targets, records the onClose of each evicted member that has one, requests Close iff already requested, or an evicted member's callback calls Close, or nobody is left while close-on-empty is on and clients have existed, schedules the close signal only when it sets the flag, and changes no other hub field |
| HubSpec.SentinelSkipsNobody | hub.go:115-119 | the sentinel is never a member, so BroadcastAll skips no member on self-echo grounds |
| HubSpec.TickEffect | hub.go:198-203 | a tick requests Close iff at least CloseTimeout has passed since the last broadcast (or Close was requested already), schedules the close signal only when it sets the flag, rearms the ticker for a full CloseTimeout, and leaves the members, the channels and every other hub field as they were |
| HubSpec.BroadcastPostponesIdleClose | hub.go:178 | a tick that directly follows a broadcast by less than CloseTimeout does not request Close (the general case, with inputs in between, is HubTraces.BroadcastPostponesIdleCloseInRun) |
| HubSpec.CloseSignalEffect | hub.go:194-197 | on the close signal the loop returns and the cleanup empties the hub: every member present is closed exactly once and has its onClose recorded iff it has one; other channels and the idle clock are untouched |
| HubSpec.NoEmptyCloseBeforeRegister | hub.go:172 | before the first Register, unregister changes nothing and broadcast neither requests Close nor touches a channel |
| HubSpec.ReceiveInv | client.go:7-9 | a client reading its channel keeps the hub invariant |
| HubSpec.ReceiveEffect | client.go:7-9 | a read changes nothing of the hub and only the reader's own channel, by Pop |
| HubSpec.LastUnregisterCloses | hub.go:172-176 | once clients have existed with close-on-empty on, an unregister that leaves nobody requests Close |
| Hubs.Hub.constructor | hub.go:94-107 | NewHub: fields equal NewHub, with a fresh sentinel whose channel is unbuffered and open |
| Hubs.Hub.Close | hub.go:133-140 | the fields after Close are RequestClose of the old ones; validity is kept |
| Hubs.Hub.SetCloseOnNoClients | hub.go:77 | only CloseOnNoClients changes |
| Hubs.Hub.SetCloseTimeout | hub.go:83-86 | only CloseTimeout changes, to a positive value |
| Hubs.Hub.CloseClient | hub.go:142-148 | the entry is deleted, the client closed and released, and the fields and channels are those of HubSpec.CloseClient |
| Hubs.Hub.InvokeOnClose | hub.go:145-147 | onClose is invoked iff present, and re-enters Close if the callback does |
| Hubs.Hub.CloseAllClients | hub.go:150-154 | closeAllClients leaves the fields and channels of HubSpec.CloseAllClients, for every map order |
| Hubs.Hub.EvictNext | hub.go:151-153 | one iteration of closeAllClients extends the eviction to one more member |
| Hubs.Hub.Start | hub.go:159-162 | entering Run arms the ticker for one CloseTimeout |
| Hubs.Hub.OnRegister | hub.go:165-167 | the register arm yields RegisterStep, adds exactly the client, and takes ownership of it |
| Hubs.Hub.OnUnregister | hub.go:168-176 | the unregister arm yields UnregisterStep |
| Hubs.Hub.OnBroadcast | hub.go:177-193 | the broadcast arm yields BroadcastStep, for every map order |
| Hubs.Hub.FinishBroadcast | hub.go:191-193 | after the loop, the empty check completes BroadcastStep and the hub is valid again |
| Hubs.Hub.CheckEmpty | hub.go:172-176 | the empty check yields CloseWhenEmpty |
| Hubs.Hub.FanOutMembers | hub.go:179-190 | the broadcast loop yields the fan-out over all members, for every map order |
| Hubs.Hub.VisitNext | hub.go:179-190 | one iteration of the broadcast loop extends the fan-out to one more member |
| Hubs.Hub.VisitMember | hub.go:180-189 | the loop body skips self-echo, sends, or closes the client on a full channel, as HubSpec.Visit says |
| Hubs.Hub.OnTick | hub.go:198-203 | the tick arm yields TickStep |
| Hubs.Hub.OnCloseSignal | hub.go:194-197 | the close arm returns and closes every member: no member is left and the result is CloseSignalStep |
| Hubs.Hub.Register | hub.go:121-125 | Register of a client with options is the register arm on RegistrationData |
| Hubs.Hub.Unregister | hub.go:127-130 | Unregister is the unregister arm |
| Hubs.Hub.Broadcast | hub.go:109-113 | Broadcast is the broadcast arm on the event attributed to the client |
| Hubs.Hub.BroadcastAll | hub.go:115-119 | BroadcastAll is the broadcast arm on the event attributed to the sentinel |
| HubTraces.Apply | hub.go:163-205 | each input the hub can take now (an arm of the loop, Close, or a field write) is its transition, and keeps the invariant |
| HubTraces.Next | hub.go:163-205 | an input the hub cannot take now is skipped; either way the invariant holds |
| HubTraces.Run | hub.go:163-205 | a run of any input sequence keeps the invariant |
| HubTraces.NextKeepsCloseFlag | hub.go:69-72 | no input clears a set close flag |
| HubTraces.NextKeepsClientsHaveExisted | hub.go:79-81 | no input clears clientsHaveExisted once it is set |
| HubTraces.ScheduleNeedsUnsetFlag | hub.go:134 | an input that schedules the close signal finds the flag unset and leaves it set |
| HubTraces.NextAfterStop | hub.go:194-197 | after Run returned, an input keeps the hub stopped and empty; channels only drain, and only a client's read changes one |
| HubTraces.NextKeepsIdleClock | hub.go:178 | only a broadcast changes the time of the last message, and only a write of CloseTimeout changes the timeout |
| HubTraces.NextTick | hub.go:198-201 | a due tick requests Close iff the time since the last message has reached CloseTimeout, or Close was requested already |
| HubTraces.NextReceive | client.go:7-9 | a client's read leaves the hub alone and only drains channels |
| HubTraces.CloseFlagNeverResets | hub.go:133-140 | in any run the close flag never returns to unset |
| HubTraces.ClientsHaveExistedStays | hub.go:79-81 | once a client has been registered, clientsHaveExisted stays true for the rest of any run, even after every client has left |
| HubTraces.CloseSchedulesOnce | hub.go:133-140 | in any run the close signal is scheduled at most once, and never once the flag is set |
| HubTraces.StoppedIsFinal | hub.go:194-197 | after Run returned, no run admits a member, writes to or closes a channel: channels only drain by their readers, and a run without reads leaves them exactly as they were |
| HubTraces.ShutdownOnce | hub.go:194-197 | in any run the loop returns at most once |
| HubTraces.NoEmptyCloseBeforeFirstRegister | hub.go:172-193 | before the first Register, unregisters and broadcasts among any client reads leave the close state and the (empty) members as they were, and deliver to or close no channel |
| HubTraces.QuietRunKeepsIdleClock | hub.go:178 | a run without broadcasts or writes of CloseTimeout keeps the time of the last message and the timeout |
| HubTraces.BroadcastPostponesIdleCloseInRun | hub.go:178-201 | after a broadcast at t and any run without broadcasts or timeout writes, a due tick at now requests Close iff now - t has reached CloseTimeout (or Close was requested already) |
| HubTraces.RegisteredFacts | hub.go:165-167 | three registrations with default options give three members with their fresh channels |
| HubTraces.StartAndRegister | hub.go:159-167 | starting a new hub and registering three clients yields the expected hub |
| HubTraces.RunOne | hub.go:163-205 | a run of one input is one step |
| HubTraces.NextBroadcast | hub.go:177 | while Run loops, a broadcast input is the broadcast arm |
| HubTraces.RunAppend | hub.go:163-205 | a run of two input sequences is the run of their concatenation |
| HubTraces.BroadcastToRoomyPeers | hub.go:179-190 | a broadcast from a member that does not receive its own messages reaches the two other members that have room, and not the sender |
| HubTraces.BroadcastToRoomyMembersKeepsAll | hub.go:185-193 | a broadcast in which every channel has room evicts nobody and requests no Close |
| HubTraces.PingReachesOthers | test/main.go:33-38 | three clients with 256-slot channels register with a new hub; a broadcast by one reaches each of the other two once, not the sender, and all three stay |

## Left out

- Goroutines and blocking handoff. `Broadcast`, `Register` and `Unregister`
  block until the loop takes their value. Here each is a call of the loop's
  arm. The loop's `select` chooses among ready arms without a fixed order,
  and the runs in `HubTraces` take inputs in any order a sequence gives.
- The close goroutine is only the flag `closeSignalPending`. A second hub
  reading `h.close` and other channel plumbing are not modelled.
- Real clocks and tickers. Time is an integer argument, and a tick is
  enabled when `now >= nextTick`. Ticker drift is not modelled, and neither
  is `time.Time`'s monotonic reading.
- Duration arithmetic is on unbounded integers. The int64 saturation of
  `time.Time.Sub` is not modelled.
- Unbuffered channels accept a non-blocking send only when a receiver is
  waiting. Here a channel of capacity 0, such as the sentinel's, never
  accepts, and a waiting reader is not modelled.
- The body of an `onClose` callback. Only its invocation is modelled, plus
  whether it calls `Close` synchronously. The sample callback `go hub.Close()`
  (test/main.go:113-115) runs later, so it corresponds to a later `CloseCall`
  input, not to `closesHub`.
- Panics. A send to, or a close of, a closed channel is excluded by a
  precondition of `TrySend` and `Close`. Registering a closed client is
  excluded likewise.
- The universe of channels. The `World`'s channel map fixes which clients
  the model can see. The class proves its methods over the members' own
  channels.
- JSON payloads are opaque byte sequences (`Event.data`).
- websocketClient.go is not part of this model: its read and write pumps
  are websocket I/O with deadlines, pings and JSON encoding. Likewise
  websocket.go (HTTP upgrade, script serving), socket.js.go, generate/,
  main/, and test/main.go beyond its channel capacity of 256.
- Calling `Run` again after it has returned. The model enters Run once
  (`Start` needs a hub that has never run), as every call site in
  test/main.go does. In Go a second `Run` would take registrations again
  but could never return, because the compare-and-swap in `Close` can no
  longer succeed once the flag is set.
- Input times need not increase along a run: the `now` of successive
  broadcasts and ticks is whatever the inputs carry, so a run may set the
  time of the last message back. The idle-timing lemmas hold for any times.
- A client's own reader is the only client-side activity in runs
  (`Receive`, one event at a time); what a reader does with the event,
  and the transport behind it, are not modelled.
- Hubs.Hub.CloseAllClients and Hubs.Hub.FanOutMembers state their result
  for every visiting order. They do not model which order Go picks.
