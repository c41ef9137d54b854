/**
 The hub's registry as a value: the set of registered clients, the channel
 index (channel name to member set) and, for every client object that exists,
 its own channel set and its outbound mailbox. Each operation of the hub is a
 function from one such value to the next; the `Relay.Server` class performs
 the same updates in place and is proved to agree with these functions.
 */
module Registry {
  import opened Protocol

  /** The buffer size every client's `Send` channel is made with. */
  const CAPACITY: nat := 256

  /** A client's `Send` channel: the buffered responses, oldest first, and whether it was closed. */
  datatype Mailbox = Mailbox(queue: seq<Response>, closed: bool)

  /** A client object: the channels it believes it belongs to and its mailbox. */
  datatype Client = Client(channels: set<Channel>, send: Mailbox)

  /**
   The hub state. `records` holds every client object that exists (registered
   or not); `clients` is the registered subset.
   */
  datatype Hub = Hub(
    clients: set<ClientId>,
    subscriptions: map<Channel, set<ClientId>>,
    records: map<ClientId, Client>)

  /** The state a fresh server starts in. */
  const EMPTY: Hub := Hub({}, map[], map[])

  /** A freshly created client: no channels, an open, empty mailbox. */
  const FRESH_CLIENT: Client := Client({}, Mailbox([], false))

  /** The members of `ch`, empty when the channel has no entry. */
  function Members(h: Hub, ch: Channel): set<ClientId>
  {
    if ch in h.subscriptions then h.subscriptions[ch] else {}
  }

  /** Whether a non-blocking send to `c`'s mailbox would find a free slot. */
  predicate HasRoom(h: Hub, c: ClientId)
    requires c in h.records
  {
    |h.records[c].send.queue| < CAPACITY
  }

  // ----- the invariant -----

  /** No mailbox holds more than its buffer size. */
  ghost predicate Bounded(h: Hub)
  {
    forall c :: c in h.records ==> |h.records[c].send.queue| <= CAPACITY
  }

  /** Every registered client is a live object whose mailbox is still open. */
  ghost predicate LiveOpen(h: Hub)
  {
    forall c :: c in h.clients ==> c in h.records && !h.records[c].send.closed
  }

  /** No channel entry has an empty member set. */
  ghost predicate NoEmptyEntry(h: Hub)
  {
    forall ch :: ch in h.subscriptions ==> h.subscriptions[ch] != {}
  }

  /** Every member of a channel is registered and lists that channel itself. */
  ghost predicate MembersAgree(h: Hub)
  {
    forall ch, c :: ch in h.subscriptions && c in h.subscriptions[ch] ==>
      c in h.clients && c in h.records && ch in h.records[c].channels
  }

  /** Every channel a registered client lists has an entry naming that client. */
  ghost predicate ChannelsAgree(h: Hub)
  {
    forall c, ch :: c in h.clients && c in h.records && ch in h.records[c].channels ==>
      ch in h.subscriptions && c in h.subscriptions[ch]
  }

  ghost predicate Valid(h: Hub)
  {
    && Bounded(h)
    && LiveOpen(h)
    && NoEmptyEntry(h)
    && MembersAgree(h)
    && ChannelsAgree(h)
  }

  /**
   What registering `c` needs for the invariant to survive: its mailbox is
   open and every channel it lists already names it. A freshly created client
   meets this; a retired one in general does not, because retirement leaves
   its channel set in place.
   */
  predicate Admissible(h: Hub, c: ClientId)
    requires c in h.records
  {
    && !h.records[c].send.closed
    && forall ch :: ch in h.records[c].channels ==> ch in h.subscriptions && c in h.subscriptions[ch]
  }

  // ----- client-record helpers -----

  function Pushed(cl: Client, r: Response): Client
  {
    cl.(send := cl.send.(queue := cl.send.queue + [r]))
  }

  function Closed(cl: Client): Client
  {
    cl.(send := cl.send.(closed := true))
  }

  // ----- operations -----

  /** Creating the client object for a new connection. */
  function Create(h: Hub, id: ClientId): Hub
    requires id !in h.records
  {
    h.(records := h.records[id := FRESH_CLIENT])
  }

  /** The `register` branch of the hub loop. */
  function Register(h: Hub, c: ClientId): Hub
    requires c in h.records
  {
    h.(clients := h.clients + {c})
  }

  /** A send of `r` on `c`'s mailbox that finds room. */
  function Enqueue(h: Hub, c: ClientId, r: Response): Hub
    requires c in h.records
  {
    h.(records := h.records[c := Pushed(h.records[c], r)])
  }

  /** Accepting a connection: create the client, register it, send the connect acknowledgement. */
  function Admit(h: Hub, id: ClientId): Hub
    requires id !in h.records
  {
    var created := Create(h, id);
    Enqueue(Register(created, id), id, ConnectAck(id))
  }

  /**
   Removing `c` from the entry of `ch`, and the entry itself once it has no
   member left. Unsubscribe and retirement both go through this step.
   */
  function Withdraw(subs: map<Channel, set<ClientId>>, ch: Channel, c: ClientId): (subs': map<Channel, set<ClientId>>)
    ensures ch !in subs' || c !in subs'[ch]
    ensures ch in subs' <==> ch in subs && subs[ch] - {c} != {}
    ensures ch in subs' ==> subs'[ch] == subs[ch] - {c}
    ensures forall k :: k != ch ==> (k in subs' <==> k in subs)
    ensures forall k :: k != ch && k in subs ==> subs'[k] == subs[k]
  {
    if ch !in subs then subs
    else if subs[ch] - {c} == {} then subs - {ch}
    else subs[ch := subs[ch] - {c}]
  }

  /** The table updates of a subscribe request. */
  function Join(h: Hub, c: ClientId, ch: Channel): Hub
    requires c in h.records
  {
    var cl := h.records[c];
    h.(records := h.records[c := cl.(channels := cl.channels + {ch})],
       subscriptions := h.subscriptions[ch := Members(h, ch) + {c}])
  }

  /** The table updates of an unsubscribe request. */
  function Leave(h: Hub, c: ClientId, ch: Channel): Hub
    requires c in h.records
  {
    var cl := h.records[c];
    h.(records := h.records[c := cl.(channels := cl.channels - {ch})],
       subscriptions := Withdraw(h.subscriptions, ch, c))
  }

  /** A subscribe request: join, then acknowledge on the client's own mailbox. */
  function Subscribe(h: Hub, c: ClientId, ch: Channel): Hub
    requires c in h.records
  {
    Enqueue(Join(h, c, ch), c, SubscribeAck(c, ch))
  }

  /** An unsubscribe request: leave, then acknowledge on the client's own mailbox. */
  function Unsubscribe(h: Hub, c: ClientId, ch: Channel): Hub
    requires c in h.records
  {
    Enqueue(Leave(h, c, ch), c, UnsubscribeAck(c, ch))
  }

  /** A ping request: only a pong on the client's own mailbox. */
  function Ping(h: Hub, c: ClientId): Hub
    requires c in h.records
  {
    Enqueue(h, c, Pong(c))
  }

  /** Dispatch of a decoded request on its action tag; an unknown tag changes nothing. */
  function Dispatch(h: Hub, c: ClientId, m: Message): Hub
    requires c in h.records
  {
    if m.action == "subscribe" then Subscribe(h, c, m.channel)
    else if m.action == "unsubscribe" then Unsubscribe(h, c, m.channel)
    else if m.action == "ping" then Ping(h, c)
    else h
  }

  /**
   The channel index after retirement has walked the channels in `chans`:
   `c` is gone from each of their entries, and those entries left empty are
   deleted. Entries of other channels are untouched.
   */
  function DetachFrom(subs: map<Channel, set<ClientId>>, c: ClientId, chans: set<Channel>): map<Channel, set<ClientId>>
  {
    map k | k in subs && !(k in chans && subs[k] - {c} == {}) ::
      if k in chans then subs[k] - {c} else subs[k]
  }

  /** The `unregister` branch of the hub loop; a client that is not registered is left alone. */
  function Unregister(h: Hub, c: ClientId): Hub
    requires c in h.records
  {
    if c !in h.clients then h
    else
      var cl := h.records[c];
      Hub(h.clients - {c},
          DetachFrom(h.subscriptions, c, cl.channels),
          h.records[c := Closed(cl)])
  }

  /** The channel index with every client in `gone` removed from every entry, empty entries deleted. */
  function Detached(subs: map<Channel, set<ClientId>>, gone: set<ClientId>): map<Channel, set<ClientId>>
  {
    map k | k in subs && subs[k] - gone != {} :: subs[k] - gone
  }

  /** The members of `done` whose mailbox has no room. */
  function Overflowing(h: Hub, done: set<ClientId>): set<ClientId>
    requires done <= h.records.Keys
  {
    set c | c in done && !HasRoom(h, c)
  }

  /**
   The state after a fan-out of `Delivery(ch, data)` has handled the members
   in `done`: each one with room has the delivery appended; each one without
   room has been retired (unregistered, mailbox closed, removed from every
   channel). Everyone else is untouched.
   */
  function FanoutPart(h: Hub, ch: Channel, data: Option<Payload>, done: set<ClientId>): Hub
    requires done <= h.records.Keys
  {
    var full := Overflowing(h, done);
    Hub(h.clients - full,
        Detached(h.subscriptions, full),
        map c | c in h.records ::
          if c in done then
            (if HasRoom(h, c) then Pushed(h.records[c], Delivery(ch, data)) else Closed(h.records[c]))
          else h.records[c])
  }

  /** The `broadcast` branch of the hub loop, with an overflowing member retired on the spot. */
  function Fanout(h: Hub, ch: Channel, data: Option<Payload>): Hub
    requires Members(h, ch) <= h.records.Keys
  {
    if ch !in h.subscriptions then h
    else FanoutPart(h, ch, data, h.subscriptions[ch])
  }

  /** What a receive on a mailbox yields: the oldest buffered response, or the closed signal. */
  datatype Received = Item(r: Response) | EndOfStream

  /**
   The writer's receive on `c`'s mailbox. Buffered responses are still handed
   out after the mailbox is closed; only an empty closed mailbox yields the
   closed signal. An empty open mailbox would block, so it is excluded.
   */
  function Take(h: Hub, c: ClientId): (Hub, Received)
    requires c in h.records
    requires h.records[c].send.queue != [] || h.records[c].send.closed
  {
    var cl := h.records[c];
    if cl.send.queue == [] then (h, EndOfStream)
    else (h.(records := h.records[c := cl.(send := cl.send.(queue := cl.send.queue[1..]))]), Item(cl.send.queue[0]))
  }

  // ----- views used to compare states -----

  /** Every client object's own channel set. */
  function ChannelSets(h: Hub): map<ClientId, set<Channel>>
  {
    map c | c in h.records :: h.records[c].channels
  }

  /** Two states whose registry tables agree (the mailboxes may differ). */
  predicate SameTables(a: Hub, b: Hub)
  {
    a.clients == b.clients && a.subscriptions == b.subscriptions && ChannelSets(a) == ChannelSets(b)
  }
}
