/**
 The fan-out overflow path as the Go code writes it, next to the corrected
 behaviour that `Registry.Fanout` models. As written, a member whose mailbox
 is full has its mailbox closed and is then sent on the hub's own unbuffered
 `unregister` channel from inside the hub loop; that loop is the channel's only
 receiver, so the loop blocks for good and takes no further request. The
 client stays registered with a closed mailbox, so the next request its reader
 dispatches sends on a closed channel, which panics. The second close the
 retirement would do is latent: it is reached only if that blocked send were
 ever received.
 */
module Findings {
  import opened Protocol
  import opened Registry
  import Properties

  /** Go's `close` on a channel: closing a channel that is already closed panics (`None`). */
  function CloseChannel(m: Mailbox): Option<Mailbox>
  {
    if m.closed then None else Some(m.(closed := true))
  }

  /**
   Where a goroutine stands after a step: done and ready for the next one,
   parked on a send (`Blocked`, with the state at that point), or panicked.
   */
  datatype RunState = Serving(h: Hub) | Blocked(h: Hub) | Panicked

  /**
   The delivery loop as written, over the copied member list `snapshot`: a
   member with room gets the delivery; for a full member the loop closes its
   mailbox and then blocks on the send to `unregister`. A send on a mailbox
   already closed panics.
   */
  function FanoutAsWritten(h: Hub, ch: Channel, data: Option<Payload>, snapshot: seq<ClientId>): RunState
    requires forall i :: 0 <= i < |snapshot| ==> snapshot[i] in h.records
    decreases |snapshot|
  {
    if snapshot == [] then Serving(h)
    else
      var c := snapshot[0];
      var m := h.records[c].send;
      if m.closed then Panicked
      else if |m.queue| < CAPACITY then FanoutAsWritten(Enqueue(h, c, Delivery(ch, data)), ch, data, snapshot[1..])
      else Blocked(h.(records := h.records[c := Closed(h.records[c])]))
  }

  /** The `unregister` branch with Go's `close`, which panics on a mailbox closed before. */
  function UnregisterAsWritten(h: Hub, c: ClientId): RunState
    requires c in h.records
  {
    if c !in h.clients then Serving(h)
    else
      var cl := h.records[c];
      match CloseChannel(cl.send)
      case None => Panicked
      case Some(m) =>
        Serving(Hub(h.clients - {c}, DetachFrom(h.subscriptions, c, cl.channels), h.records[c := cl.(send := m)]))
  }

  /** As written, one full mailbox anywhere in the snapshot stops the hub loop: it never gets back to serving. */
  lemma {:induction false} OverflowStopsHub(h: Hub, ch: Channel, data: Option<Payload>, snapshot: seq<ClientId>, i: nat)
    requires forall j :: 0 <= j < |snapshot| ==> snapshot[j] in h.records
    requires i < |snapshot| && !HasRoom(h, snapshot[i])
    ensures !FanoutAsWritten(h, ch, data, snapshot).Serving?
    decreases |snapshot|
  {
    var c := snapshot[0];
    if i > 0 && !h.records[c].send.closed && |h.records[c].send.queue| < CAPACITY {
      var h' := Enqueue(h, c, Delivery(ch, data));
      assert snapshot[1..][i - 1] == snapshot[i];
      OverflowStopsHub(h', ch, data, snapshot[1..], i - 1);
    }
  }

  /** For a registered client the `unregister` branch as written does exactly what `Registry.Unregister` does. */
  lemma UnregisterAgrees(h: Hub, c: ClientId)
    requires Valid(h) && c in h.records
    ensures UnregisterAsWritten(h, c) == Serving(Unregister(h, c))
  {
  }

  /** A request the hub loop receives on its `register`, `unregister` or `broadcast` channel. */
  datatype Request = RegisterReq(c: ClientId) | UnregisterReq(c: ClientId) | BroadcastReq(ch: Channel, data: Option<Payload>)

  /** Some listing of a set with each element once: the member list the loop copies out before delivering. */
  ghost function Enumerate(s: set<ClientId>): (q: seq<ClientId>)
    ensures forall x :: x in q <==> x in s
    ensures forall i :: 0 <= i < |q| ==> q[i] in s
    ensures forall i, j :: 0 <= i < j < |q| ==> q[i] != q[j]
    ensures |q| == |s|
    decreases s
  {
    if s == {} then []
    else
      var x :| x in s;
      [x] + Enumerate(s - {x})
  }

  /**
   One pass of the hub loop as written. A loop that is parked on its own
   `unregister` send or has panicked receives nothing more: every later
   request waits, the reader's own unregister among them. A request naming a
   client object that does not exist cannot be sent and changes nothing.
   */
  ghost function RunStep(s: RunState, req: Request): RunState
  {
    match s
    case Blocked(_) => s
    case Panicked => s
    case Serving(h) =>
      match req
      case RegisterReq(c) => if c in h.records then Serving(Register(h, c)) else s
      case UnregisterReq(c) => if c in h.records then UnregisterAsWritten(h, c) else s
      case BroadcastReq(ch, data) =>
        if ch !in h.subscriptions then s
        else FanoutAsWritten(h, ch, data, Enumerate(h.subscriptions[ch] * h.records.Keys))
  }

  /** The hub loop as written taking the requests `reqs` one after another. */
  ghost function Run(s: RunState, reqs: seq<Request>): RunState
    decreases |reqs|
  {
    if reqs == [] then s else Run(RunStep(s, reqs[0]), reqs[1..])
  }

  /**
   The delivery loop as written, run over the rest of the member list once
   the members in `done` have had their delivery, agrees with the corrected
   delivery loop as long as every member has room.
   */
  lemma {:induction false} FanoutAsWrittenPart(h: Hub, ch: Channel, data: Option<Payload>, done: set<ClientId>, snapshot: seq<ClientId>)
    requires Valid(h) && ch in h.subscriptions && done <= h.subscriptions[ch]
    requires forall i :: 0 <= i < |snapshot| ==> snapshot[i] in h.subscriptions[ch] && snapshot[i] !in done
    requires forall i, j :: 0 <= i < j < |snapshot| ==> snapshot[i] != snapshot[j]
    requires forall c :: c in h.subscriptions[ch] ==> c in h.records && HasRoom(h, c)
    ensures FanoutPart(h, ch, data, done).records.Keys == h.records.Keys
    ensures FanoutAsWritten(FanoutPart(h, ch, data, done), ch, data, snapshot)
      == Serving(FanoutPart(h, ch, data, done + set x | x in snapshot))
    decreases |snapshot|
  {
    var cur := FanoutPart(h, ch, data, done);
    if snapshot == [] {
      assert done + (set x | x in snapshot) == done;
    } else {
      var c := snapshot[0];
      Properties.FanoutStep(h, ch, data, done, c);
      assert !cur.records[c].send.closed;
      var rest := snapshot[1..];
      forall i | 0 <= i < |rest|
        ensures rest[i] in h.subscriptions[ch] && rest[i] !in done + {c}
      {
        assert rest[i] == snapshot[i + 1];
      }
      FanoutAsWrittenPart(h, ch, data, done + {c}, rest);
      assert (done + {c}) + (set x | x in rest) == done + set x | x in snapshot;
    }
  }

  /** The delivery loop as written over a whole member list with room everywhere. */
  lemma FanoutAsWrittenAll(h: Hub, ch: Channel, data: Option<Payload>, snapshot: seq<ClientId>)
    requires Valid(h) && ch in h.subscriptions
    requires forall x :: x in snapshot <==> x in h.subscriptions[ch]
    requires forall i, j :: 0 <= i < j < |snapshot| ==> snapshot[i] != snapshot[j]
    requires forall c :: c in h.subscriptions[ch] ==> c in h.records && HasRoom(h, c)
    ensures Members(h, ch) <= h.records.Keys
    ensures forall i :: 0 <= i < |snapshot| ==> snapshot[i] in h.records
    ensures FanoutAsWritten(h, ch, data, snapshot) == Serving(Fanout(h, ch, data))
  {
    Properties.FanoutPartNone(h, ch, data);
    var base := FanoutPart(h, ch, data, {});
    assert base == h;
    FanoutAsWrittenPart(h, ch, data, {}, snapshot);
    var S := set x | x in snapshot;
    assert {} + S == S;
    assert S == h.subscriptions[ch];
    assert FanoutAsWritten(base, ch, data, snapshot) == Serving(FanoutPart(h, ch, data, S));
  }

  /**
   On the normal path, where every member of the channel has room, the hub
   loop's broadcast as written and the corrected `Registry.Fanout` reach the
   same state: the correction changes only the overflow path.
   */
  lemma FanoutAgrees(h: Hub, ch: Channel, data: Option<Payload>)
    requires Valid(h) && ch in h.subscriptions
    requires forall c :: c in h.subscriptions[ch] ==> c in h.records && HasRoom(h, c)
    ensures Members(h, ch) <= h.records.Keys
    ensures RunStep(Serving(h), BroadcastReq(ch, data)) == Serving(Fanout(h, ch, data))
  {
    var members := h.subscriptions[ch];
    assert members * h.records.Keys == members;
    var snapshot := Enumerate(members);
    assert RunStep(Serving(h), BroadcastReq(ch, data)) == FanoutAsWritten(h, ch, data, snapshot);
    FanoutAsWrittenAll(h, ch, data, snapshot);
  }

  /** A hub loop that has stopped stays where it stopped, whatever is sent to it afterwards. */
  lemma {:induction false} StoppedStaysStopped(s: RunState, reqs: seq<Request>)
    requires !s.Serving?
    ensures Run(s, reqs) == s
    decreases |reqs|
  {
    if reqs != [] {
      StoppedStaysStopped(RunStep(s, reqs[0]), reqs[1..]);
    }
  }

  /**
   As written, a broadcast on a channel one of whose members has a full
   mailbox stops the hub loop, and no sequence of later requests moves it.
   */
  lemma OverflowStopsHubForever(h: Hub, ch: Channel, data: Option<Payload>, c: ClientId, reqs: seq<Request>)
    requires Valid(h) && ch in h.subscriptions && c in h.subscriptions[ch] && !HasRoom(h, c)
    ensures var s := RunStep(Serving(h), BroadcastReq(ch, data));
      !s.Serving? && Run(s, reqs) == s
  {
    var snapshot := Enumerate(h.subscriptions[ch] * h.records.Keys);
    assert c in snapshot;
    var i :| 0 <= i < |snapshot| && snapshot[i] == c;
    OverflowStopsHub(h, ch, data, snapshot, i);
    StoppedStaysStopped(RunStep(Serving(h), BroadcastReq(ch, data)), reqs);
  }

  /**
   A send on `c`'s mailbox from a request handler as written: on a closed
   mailbox it panics; on a full one the handler waits for the writer to drain it.
   */
  function SendAsWritten(h: Hub, c: ClientId, r: Response): RunState
    requires c in h.records
  {
    var m := h.records[c].send;
    if m.closed then Panicked
    else if |m.queue| < CAPACITY then Serving(Enqueue(h, c, r))
    else Blocked(h)
  }

  /** The reader's dispatch as written: the tables are updated, then the acknowledgement is sent. */
  function DispatchAsWritten(h: Hub, c: ClientId, m: Message): RunState
    requires c in h.records
  {
    if m.action == "subscribe" then SendAsWritten(Join(h, c, m.channel), c, SubscribeAck(c, m.channel))
    else if m.action == "unsubscribe" then SendAsWritten(Leave(h, c, m.channel), c, UnsubscribeAck(c, m.channel))
    else if m.action == "ping" then SendAsWritten(h, c, Pong(c))
    else Serving(h)
  }

  /** For a registered client with room, dispatch as written does exactly what `Registry.Dispatch` does. */
  lemma DispatchAgrees(h: Hub, c: ClientId, m: Message)
    requires Valid(h) && c in h.clients && HasRoom(h, c)
    ensures c in h.records && DispatchAsWritten(h, c, m) == Serving(Dispatch(h, c, m))
  {
  }

  /** A registered client whose mailbox is full, subscribed to "alerts". */
  function Saturated(): Hub
  {
    Hub({0}, map["alerts" := {0}], map[0 := Client({"alerts"}, Mailbox(seq(CAPACITY, _ => Pong(0)), false))])
  }

  /** The state the hub loop is parked in after broadcasting to "alerts" from `Saturated()`. */
  function Stuck(): Hub
  {
    Saturated().(records := Saturated().records[0 := Closed(Saturated().records[0])])
  }

  /**
   Broadcasting to "alerts" in that state parks the hub loop with the client
   still registered but its mailbox closed. The client's reader, which does
   not go through the loop, goes on reading: whichever request it dispatches
   next sends on the closed mailbox and panics.
   */
  lemma ReaderAfterOverflowPanics(m: Message)
    requires IsCommand(m.action)
    ensures Valid(Saturated())
    ensures RunStep(Serving(Saturated()), BroadcastReq("alerts", None)) == Blocked(Stuck())
    ensures 0 in Stuck().clients && Stuck().records[0].send.closed
    ensures DispatchAsWritten(Stuck(), 0, m) == Panicked
  {
  }

  /**
   The retirement the blocked send asks for would close the mailbox a second
   time and panic. This is latent: as written the loop never receives that
   send, so it is reached only if something else completed it.
   */
  lemma OverflowThenRetirePanics()
    ensures Valid(Saturated())
    ensures FanoutAsWritten(Saturated(), "alerts", None, [0]) == Blocked(Stuck())
    ensures UnregisterAsWritten(Stuck(), 0) == Panicked
  {
  }

  /**
   The corrected fan-out retires a full member on the spot: its mailbox is
   closed, it leaves every channel and the registered set, the invariant holds
   (so every registered client's mailbox is still open), and the retirement
   its reader asks for later is a no-op, so the mailbox is closed exactly once.
   */
  lemma CorrectedOverflowRetiresOnce(h: Hub, ch: Channel, data: Option<Payload>, c: ClientId)
    requires Valid(h) && ch in h.subscriptions && c in h.subscriptions[ch] && !HasRoom(h, c)
    ensures Members(h, ch) <= h.records.Keys
    ensures var h' := Fanout(h, ch, data);
      && Valid(h')
      && c in h'.records && h'.records[c].send.closed && c !in h'.clients
      && (forall k :: c !in Members(h', k))
      && Unregister(h', c) == h'
  {
    Properties.FanoutValid(h, ch, data);
    Properties.FanoutEffect(h, ch, data, c);
  }

  /**
   The corrected reader dispatches only for a registered client, so a
   request from a client the fan-out has retired touches nothing and sends
   nothing on its closed mailbox.
   */
  function DispatchCorrected(h: Hub, c: ClientId, m: Message): Hub
    requires c in h.records
  {
    if c in h.clients then Dispatch(h, c, m) else h
  }

  /**
   After the corrected fan-out retires a full member, that member's requests
   change nothing, while every registered client with room is served as
   dispatch as written serves it, with no panic.
   */
  lemma CorrectedReaderIgnoredAfterRetire(h: Hub, ch: Channel, data: Option<Payload>, c: ClientId, m: Message)
    requires Valid(h) && ch in h.subscriptions && c in h.subscriptions[ch] && !HasRoom(h, c)
    ensures Members(h, ch) <= h.records.Keys
    ensures var h' := Fanout(h, ch, data);
      && c in h'.records && h'.records[c].send.closed
      && DispatchCorrected(h', c, m) == h'
      && (forall d :: d in h'.clients && HasRoom(h', d) ==>
            d in h'.records && DispatchAsWritten(h', d, m) == Serving(DispatchCorrected(h', d, m)))
  {
  }
}
