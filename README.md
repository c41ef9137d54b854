# Pub/sub connection hub: registry bookkeeping

This project models the connection hub of a small WebSocket pub/sub relay
(`websocket/basic_server/main.go`). The hub owns three tables:

- the set of registered clients;
- the channel index, from each channel name to its set of member clients;
- for every client object, its own channel set (`Channels`) and its outbound
  mailbox (`Send`). The mailbox is a buffered queue of 256 responses that can
  be closed.

The hub's operations are modelled one atomic step each:

- admitting a connection (create the client, register it, send `connect`);
- registering and retiring (unregistering) a client;
- broadcasting to a channel;
- handling a client's `subscribe`, `unsubscribe` and `ping` requests, with
  dispatch on the action tag.

The writer's receive side of a mailbox is modelled too.

Layout:

- `protocol.dfy`, module `Protocol`: client identities (opaque `nat`s), the
  request and response records, and the acknowledgement and delivery records
  the hub builds.
- `registry.dfy`, module `Registry`: the hub state as a value (`Hub`), the
  invariant `Valid`, and one function per operation.
- `properties.dfy`, module `Properties`: lemmas about those functions. They
  cover the invariant each operation keeps, what it changes and what it leaves
  alone, and idempotence and no-op cases.
- `server.dfy`, module `Relay`: class `Server`, whose fields are the three
  tables. Its methods update the tables in place, as the Go code does: they
  loop over the client's channels on retirement and over a copied member
  snapshot on broadcast. Each hub step is proved to end in the state the
  matching `Registry` function computes, with `Valid` kept. There are two
  exceptions:
  - `Withdraw`, a single pass of the retirement loop, is proved against
    `Registry.Withdraw` only, because the invariant does not hold between
    passes.
  - `HandleMessage` ends in `Findings.DispatchCorrected`. That is
    `Registry.Dispatch` for a registered client, and no change for a client
    that is no longer registered.
- `findings.dfy`, module `Findings`: the code's behaviour where it stops or
  panics, as written, and the corrected behaviour. It covers the hub loop with
  its full-mailbox path, the second close on retirement, and the request
  handlers' sends.
- `scenario.dfy`, module `Scenario`: one client's whole life on the hub.

The invariant `Valid` has five parts:

- no mailbox holds more than 256 responses;
- every registered client exists and its mailbox is open;
- no channel entry has an empty member set;
- every member of a channel is registered and lists that channel itself;
- every channel a registered client lists has an entry naming it.

The last two together are the two-way agreement between the channel index and
each client's own `Channels`.

Where the code and the intended behaviour differ, the model takes these
positions:

- On a full mailbox, the broadcast loop as written stops the hub loop for
  good. `Findings` models that as written. The rest of the model uses the
  intended behaviour: the full member is retired inside the same step.
- The request handlers do not check that the client is registered. The
  model's dispatch ignores a request from a client that is no longer
  registered. The single-request handlers behind it require a registered
  client (see the `HandleSubscribe` line under "Left out").
- Acknowledgement sends wait while the mailbox is full, and panic once it is
  closed. The model's sends require an open mailbox with a free slot (see the
  `Post` line under "Left out"). `Findings.SendAsWritten` models both the wait
  and the panic.

## Model

| member | source | states |
|---|---|---|
| `Protocol.ConnectAck` | websocket/basic_server/main.go:159-164 | action "connect", the client's id, code 200, msg "success", no channel (""), no data |
| `Protocol.SubscribeAck` | websocket/basic_server/main.go:251-257 | action "subscribe", the client's id, the channel, code 200, msg "success", no data |
| `Protocol.UnsubscribeAck` | websocket/basic_server/main.go:281-287 | action "unsubscribe", the client's id, the channel, code 200, msg "success", no data |
| `Protocol.Pong` | websocket/basic_server/main.go:296-301 | action "pong", the client's id, code 200, msg "success", no channel (""), no data |
| `Protocol.Delivery` | websocket/basic_server/main.go:116-122 | action "message", the channel, code 200, msg "success", the broadcast's data, no client id (see "Left out") |
| `Registry.Withdraw` | websocket/basic_server/main.go:273-278 | afterwards the client is not in the channel's entry; the entry survives exactly when other members remain; every other entry is unchanged |
| `Registry.Create` | websocket/basic_server/main.go:148-153 | a new client object with no channels and an empty open mailbox, not yet registered; its properties are `Properties.CreateValid` |
| `Registry.Register` | websocket/basic_server/main.go:76-79 | the client joins the registered set; its effect and invariant are `Properties.RegisterValid` |
| `Registry.Enqueue` | websocket/basic_server/main.go:151 | a channel send that finds room appends to that client's queue. It keeps the invariant (`Properties.EnqueueValid`) and is first in, first out with `Take` (`Properties.TakeAfterEnqueue`, `Properties.TakeEnqueueCommute`) |
| `Registry.Admit` | websocket/basic_server/main.go:147-166 | create, register, send the connect acknowledgement; its effect is `Properties.AdmitEffect` |
| `Registry.Join` | websocket/basic_server/main.go:241-248 | the table updates of a subscribe. Its effect is `Properties.JoinEffect`, its invariant `Properties.JoinValid`, its idempotence `Properties.JoinIdempotent` |
| `Registry.Leave` | websocket/basic_server/main.go:269-278 | the table updates of an unsubscribe. Its effect is `Properties.LeaveEffect`, its invariant `Properties.LeaveValid`; `Properties.LeaveNotJoined` and `Properties.LeaveIdempotent` give its no-op cases |
| `Registry.Subscribe` | websocket/basic_server/main.go:237-259 | join, then acknowledge; its effect is `Properties.SubscribeEffect`, its idempotence `Properties.SubscribeIdempotent` |
| `Registry.Unsubscribe` | websocket/basic_server/main.go:265-289 | leave, then acknowledge; its effect is `Properties.UnsubscribeEffect`, its idempotence `Properties.UnsubscribeIdempotent` |
| `Registry.Ping` | websocket/basic_server/main.go:295-304 | one pong on the client's own mailbox; its effect is `Properties.PingEffect` |
| `Registry.Dispatch` | websocket/basic_server/main.go:223-234 | selects the handler by action tag; `Properties.DispatchValid` states that it keeps the invariant and that an unknown tag is a no-op |
| `Registry.DetachFrom` | websocket/basic_server/main.go:88-95 | the channel index after the client has been withdrawn from the given channels; its loop step is `Properties.DetachFromStep`, its effect `Properties.UnregisterDetaches` |
| `Registry.Unregister` | websocket/basic_server/main.go:82-96 | retirement. Its effect is `Properties.UnregisterEffect`, its invariant `Properties.UnregisterValid`; `Properties.UnregisterUnknown` and `Properties.RetireOnce` give its no-op cases |
| `Registry.FanoutPart` | websocket/basic_server/main.go:115-131 | corrected delivery loop: the state after the members handled so far. Its step is `Properties.FanoutStep`, its invariant `Properties.FanoutPartValid` |
| `Registry.Fanout` | websocket/basic_server/main.go:100-131 | corrected broadcast. Its effect is `Properties.FanoutEffect`, its invariant `Properties.FanoutValid`, its no-entry case `Properties.FanoutUnknown` |
| `Registry.Take` | websocket/basic_server/main.go:207-212 | the writer's receive. It keeps the invariant (`Properties.TakeValid`) and is first in, first out with `Enqueue` (`Properties.TakeEnqueueCommute`) |
| `Relay.Server.constructor` | websocket/basic_server/main.go:62-70 | a new server has no clients, no channels, no client objects, and satisfies the invariant |
| `Relay.Server.Post` | websocket/basic_server/main.go:258-259 | a send on an open mailbox with room appends the response to that mailbox only and keeps the invariant |
| `Relay.Server.Register` | websocket/basic_server/main.go:76-79 | the client joins the registered set; the channel index and every client record are unchanged |
| `Relay.Server.Admit` | websocket/basic_server/main.go:147-166 | the new client is created with no channels and an open mailbox, registered, and sent the connect acknowledgement; the invariant holds |
| `Relay.Server.Withdraw` | websocket/basic_server/main.go:89-94 | one pass of the retirement loop: the in-place removal of one client from one entry matches `Registry.Withdraw`; clients and records are untouched. It does not promise `Valid`, which holds only once the loop ends |
| `Relay.Server.Unregister` | websocket/basic_server/main.go:82-96 | the loop over the client's channels ends in the state `Registry.Unregister` gives: a registered client is dropped, its mailbox closed, it is taken out of each listed channel, and entries left empty are deleted; an unregistered client changes nothing |
| `Relay.Server.Broadcast` | websocket/basic_server/main.go:100-132 | no entry means no change; otherwise the loop over a member snapshot ends in `Registry.Fanout`'s state, with the invariant kept |
| `Relay.Server.HandleSubscribe` | websocket/basic_server/main.go:237-262 | the in-place updates of both tables plus the acknowledgement equal `Registry.Subscribe`; the invariant holds |
| `Relay.Server.HandleUnsubscribe` | websocket/basic_server/main.go:265-292 | the in-place updates of both tables plus the acknowledgement equal `Registry.Unsubscribe`; the invariant holds |
| `Relay.Server.HandlePing` | websocket/basic_server/main.go:295-304 | only a pong is appended to the client's own mailbox |
| `Relay.Server.HandleMessage` | websocket/basic_server/main.go:223-234 | dispatch on the action tag: subscribe, unsubscribe or ping; any other tag changes nothing; a request from a client already retired (by the fan-out, while its reader still runs) changes nothing; the invariant holds; the new state is `Findings.DispatchCorrected` |
| `Relay.Server.Receive` | websocket/basic_server/main.go:206-212 | the writer gets the oldest buffered response, even after close; it gets the closed signal only once a closed mailbox is empty |
| `Properties.Agreement` | websocket/basic_server/main.go:242-248 | for a registered client, membership in a channel's entry holds iff the client's own channel set lists the channel (both directions) |
| `Properties.CreateValid` | websocket/basic_server/main.go:148-153 | a freshly created client is unregistered, keeps the invariant, and may be registered |
| `Properties.RegisterValid` | websocket/basic_server/main.go:76-79 | registering adds exactly that client, changes no other table, and keeps the invariant |
| `Properties.EnqueueValid` | websocket/basic_server/main.go:151 | a send that finds the mailbox open and with room keeps every mailbox within its 256 slots and keeps the invariant |
| `Properties.AdmitEffect` | websocket/basic_server/main.go:147-166 | after admission the client is registered, in no channel, and its mailbox holds just the connect acknowledgement; every other client is unchanged |
| `Properties.JoinEffect` | websocket/basic_server/main.go:241-248 | the channel is added to the client's set and the client to the channel's entry, created if absent; every other entry and client is unchanged |
| `Properties.JoinValid` | websocket/basic_server/main.go:241-248 | subscribing a registered client keeps the invariant: no empty entry, agreement both ways |
| `Properties.JoinIdempotent` | websocket/basic_server/main.go:242-248 | joining a channel twice gives the same state as joining it once |
| `Properties.SubscribeEffect` | websocket/basic_server/main.go:237-259 | a subscribe request changes the tables as a join does and appends exactly one subscribe acknowledgement to the client's own mailbox; every other client object is unchanged |
| `Properties.SubscribeIdempotent` | websocket/basic_server/main.go:237-259 | a second subscribe request leaves every table as the first left it; it only adds a second acknowledgement |
| `Properties.LeaveEffect` | websocket/basic_server/main.go:269-278 | the channel is removed from the client's set and the client from the entry; the entry goes when no member remains; nothing else changes |
| `Properties.LeaveValid` | websocket/basic_server/main.go:269-278 | unsubscribing a registered client keeps the invariant |
| `Properties.LeaveNotJoined` | websocket/basic_server/main.go:270-278 | for any client object, registered or not, leaving a channel it has not joined leaves the whole state unchanged |
| `Properties.LeaveIdempotent` | websocket/basic_server/main.go:270-278 | leaving a channel twice gives the same state as leaving it once |
| `Properties.UnsubscribeEffect` | websocket/basic_server/main.go:265-289 | an unsubscribe request changes the tables as a leave does and appends exactly one unsubscribe acknowledgement to the client's own mailbox; every other client object is unchanged |
| `Properties.UnsubscribeIdempotent` | websocket/basic_server/main.go:265-289 | a second unsubscribe request leaves every table as the first left it; it only adds a second acknowledgement |
| `Properties.PingEffect` | websocket/basic_server/main.go:295-304 | a ping changes no table and appends exactly one pong to the client's own mailbox; every other client object is unchanged |
| `Properties.DispatchValid` | websocket/basic_server/main.go:223-234 | every dispatched request keeps the invariant, and an unknown action changes nothing |
| `Properties.DetachFromStep` | websocket/basic_server/main.go:88-95 | one more pass of the retirement loop is one more withdrawal of the client from that channel's entry |
| `Properties.UnregisterDetaches` | websocket/basic_server/main.go:84-96 | for a registered client, walking only its own channels removes it from every entry of the index and deletes each entry it leaves empty |
| `Properties.UnregisterEffect` | websocket/basic_server/main.go:84-96 | retirement drops the client from the registered set, closes its mailbox, and keeps its channel set as it was; each channel's members lose exactly that client; other clients are unchanged |
| `Properties.UnregisterValid` | websocket/basic_server/main.go:82-96 | retirement keeps the invariant |
| `Properties.UnregisterUnknown` | websocket/basic_server/main.go:84 | retiring a client that is not registered changes nothing |
| `Properties.RetireOnce` | websocket/basic_server/main.go:84-86 | the mailbox retirement closes was open, and retiring again changes nothing, so it is closed exactly once |
| `Properties.FanoutUnknown` | websocket/basic_server/main.go:102-107 | a broadcast to a channel with no entry changes no table and enqueues nothing |
| `Properties.FanoutStep` | websocket/basic_server/main.go:124-131 | handling one more snapshot member either appends the delivery (room) or retires the member (full) |
| `Properties.FanoutPartValid` | websocket/basic_server/main.go:115-131 | every intermediate state of the delivery loop satisfies the invariant |
| `Properties.FanoutValid` | websocket/basic_server/main.go:100-131 | broadcast keeps the invariant, including no empty channel entry |
| `Properties.FanoutEffect` | websocket/basic_server/main.go:109-131 | each member with room gets exactly one message delivery with code 200; a member without room gets nothing appended, is closed, unregistered and in no channel; non-members are unchanged |
| `Properties.TakeAfterEnqueue` | websocket/basic_server/main.go:207-217 | a response sent to an empty mailbox is the next one the writer receives, and the mailbox is back as before |
| `Properties.TakeEnqueueCommute` | websocket/basic_server/main.go:206-212 | the mailbox is first in, first out: with responses already buffered, a new send does not change what the writer receives next, and receiving then sending gives the same state as sending then receiving |
| `Properties.TakeValid` | websocket/basic_server/main.go:207-212 | a receive changes no table and keeps the invariant |
| `Findings.FanoutAsWritten` | websocket/basic_server/main.go:115-131 | the delivery loop as written: room gives a delivery; a full member is closed and the loop parks on its own send; a closed mailbox panics. `Findings.OverflowStopsHub` states its stop |
| `Findings.UnregisterAsWritten` | websocket/basic_server/main.go:82-96 | the `unregister` branch with Go's panicking `close`; `Findings.UnregisterAgrees` ties it to `Registry.Unregister`, `Findings.OverflowThenRetirePanics` shows its panic |
| `Findings.RunStep` | websocket/basic_server/main.go:73-135 | one pass of the hub loop as written over a register, unregister or broadcast request; `Findings.StoppedStaysStopped` and `Findings.OverflowStopsHubForever` state its behaviour |
| `Findings.Run` | websocket/basic_server/main.go:73-135 | the hub loop as written over a request sequence; see `Findings.StoppedStaysStopped` |
| `Findings.SendAsWritten` | websocket/basic_server/main.go:259 | a handler's send as written: it panics on a closed mailbox and waits on a full one; see `Findings.ReaderAfterOverflowPanics` |
| `Findings.DispatchAsWritten` | websocket/basic_server/main.go:223-303 | the handlers as written, table update then send. `Findings.DispatchAgrees` ties it to `Registry.Dispatch`, and `Findings.ReaderAfterOverflowPanics` shows its panic |
| `Findings.DispatchCorrected` | websocket/basic_server/main.go:223-234 | corrected dispatch, which ignores an unregistered client. `Relay.Server.HandleMessage` is proved against it, and `Findings.CorrectedReaderIgnoredAfterRetire` states it |
| `Findings.UnregisterAgrees` | websocket/basic_server/main.go:84-96 | for a client whose mailbox is open whenever it is registered, the `unregister` branch as written, with Go's `close`, never panics and does exactly what `Registry.Unregister` does |
| `Findings.Enumerate` | websocket/basic_server/main.go:109-112 | the copied member list holds exactly the members, each once (no two positions hold the same client) |
| `Findings.OverflowStopsHub` | websocket/basic_server/main.go:124-131 | as written, one full mailbox anywhere in the copied member list means the delivery loop ends parked or panicked, never back to serving |
| `Findings.FanoutAsWrittenPart` | websocket/basic_server/main.go:124-126 | while every member has room, each further pass of the delivery loop as written does what the corrected delivery loop does for that member |
| `Findings.FanoutAgrees` | websocket/basic_server/main.go:100-131 | when every member of the channel has room, the hub loop's broadcast as written ends serving, in exactly the state `Registry.Fanout` computes, so the correction changes only the overflow path |
| `Findings.StoppedStaysStopped` | websocket/basic_server/main.go:74-76 | by construction of `RunStep`, a hub loop that is parked on a send or has panicked receives no further request. The lemma lifts that to sequences: running any request sequence from such a loop leaves it where it is. This is how the model reads the self-send at :130; it is not derived from Go's channel rules |
| `Findings.OverflowStopsHubForever` | websocket/basic_server/main.go:100-131 | as written, a broadcast on a channel with a full member stops the hub loop, and no later register, unregister or broadcast request moves it |
| `Findings.DispatchAgrees` | websocket/basic_server/main.go:223-303 | for a registered client with room, dispatch as written, whose sends panic on a closed mailbox, does exactly what `Registry.Dispatch` does |
| `Findings.ReaderAfterOverflowPanics` | websocket/basic_server/main.go:223-303 | as written, after the overflow broadcast the client is still registered with its mailbox closed, so its reader's next subscribe, unsubscribe or ping sends on the closed mailbox and panics |
| `Findings.OverflowThenRetirePanics` | websocket/basic_server/main.go:84-86 | in that same state, the retirement the blocked send asks for would close the mailbox a second time and panic. This is latent, since the loop never receives that send |
| `Findings.CorrectedReaderIgnoredAfterRetire` | websocket/basic_server/main.go:223-234 | corrected: after the fan-out retires a full member, that member's requests change nothing, and every registered client with room is served with no panic |
| `Findings.CorrectedOverflowRetiresOnce` | websocket/basic_server/main.go:127-131 | corrected: a full member is retired on the spot, the invariant holds, and a later retirement is a no-op, so its mailbox is closed once |
| `Scenario.Lifecycle` | websocket/basic_server/main.go:223-303 | connect, subscribe, broadcast, unsubscribe, broadcast, ping yield exactly the responses connect, subscribe, message, unsubscribe, pong; disconnecting then leaves no client and no channel |
| `Scenario.DisconnectDeletesLastChannel` | websocket/basic_server/main.go:88-93 | a subscribed client that disconnects deletes the channel entry when it was the last member |

## Findings

| source | as written | input that shows it | evidently intended | confidence | as-written member | corrected member |
|---|---|---|---|---|---|---|
| websocket/basic_server/main.go:127-130 | on a full mailbox the broadcast loop closes `Send`, then sends the client on the unbuffered `unregister` channel from inside `Run`. `Run` is that channel's only receiver, so it blocks for good and every later register, unregister and broadcast request waits | a broadcast to "alerts" while its one member's mailbox holds 256 responses | retire the member without blocking the hub loop, closing its mailbox once | not executed | `Findings.OverflowStopsHubForever` | `Findings.CorrectedOverflowRetiresOnce` |
| websocket/basic_server/main.go:259 | after :129, the client stays registered with a closed mailbox. Its reader does not go through `Run`, so it goes on dispatching. The next subscribe, unsubscribe or ping sends on the closed `Send` (:259, :289, :303), which panics the process | the state after the broadcast above, followed by a ping from that client | requests from a retired client change nothing and send nothing | not executed | `Findings.ReaderAfterOverflowPanics` | `Findings.CorrectedReaderIgnoredAfterRetire` |
| websocket/basic_server/main.go:86 | retirement closes `Send` unconditionally, so retiring a client whose mailbox the overflow path already closed would panic on a second close. In the code as written this is latent: it is reachable only if the blocked send at :130 ever completed, for instance were it moved into a goroutine | the state after the broadcast above, followed by that client's retirement | close each mailbox exactly once | not executed | `Findings.OverflowThenRetirePanics` | `Properties.RetireOnce` |

The rest of the model uses the corrected behaviour. `Registry.Fanout` and
`Relay.Server.Broadcast` retire a full member inside the same step and do not
block.

## Left out

- Goroutines, the unbuffered `register`/`unregister`/`broadcast` channels and
  the read-write lock are not modelled. Each hub operation is one atomic step
  of `Relay.Server`, so interleavings are not modelled.
- The WebSocket upgrade, the frame I/O of `readPump` and `writePump`, and
  `Conn.Close` are transport I/O and are not modelled. Only the mailbox side of
  the writer's receive is modelled (`Receive`).
- JSON encoding and decoding are not modelled; responses stay structured
  records. A request that fails to decode never reaches dispatch.
- A broadcast delivery carries no client id (`None`). The code sends an empty
  string there.
- Logging is not modelled.
- `uuid.New` is not modelled: the new client's identity is a parameter of
  `Admit`, required to be new.
- The HTTP `/broadcast` handler and `main` are process plumbing and are not
  modelled. `BroadcastToChannel` only hands a request to the hub loop; its
  effect is `Relay.Server.Broadcast`.
- The order in which Go iterates a map is not modelled. The broadcast picks
  snapshot members in an unspecified order, and its result does not depend on
  that order.
- Relay.Server.Receive: on an empty open mailbox the writer's receive (:207)
  waits until a send arrives. Waiting is not modelled: `Registry.Take` and
  `Relay.Server.Receive` require a mailbox that is non-empty or closed.
- Relay.Server.Post: the acknowledgement and connect sends wait while the
  mailbox is full (:166, :259, :289, :303), and panic once it is closed. The
  class does not model either case: callers must provide an open mailbox with
  a free slot. The class's callers always send to a registered or newly
  created client, whose mailbox the invariant keeps open.
  `Findings.SendAsWritten` models both cases, the wait and the panic.
- Relay.Server.HandleSubscribe: the code does not check that the client is
  registered (:237-248). The single-request handlers here require it.
  A retired client's reader can still issue requests: the fan-out retires a
  full member while that member's reader (:180-198) runs on. Those requests
  reach `Relay.Server.HandleMessage`, which ignores them, as
  `Findings.DispatchCorrected` specifies.
- Relay.Server.Register: retirement does not clear the client's own `Channels`
  (:88), and `UnregisterEffect` states this. So registering a retired client
  again would break the agreement invariant. Registration therefore requires
  an open mailbox and channels already indexed, which a freshly created client
  always has.
- OverflowStopsHub: the hub loop as written (`Findings.RunStep`) is a model
  that treats a parked or panicked loop as final, because the channel's only
  receiver is the loop itself. It is not derived from a model of Go channels.
  A request naming a client object that does not exist cannot be sent; it is
  treated as a no-op. The copied member list is one fixed enumeration
  (`Findings.Enumerate`), not every order Go could choose.
