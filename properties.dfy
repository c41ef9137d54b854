/**
 What the hub's operations promise, stated over the `Registry` functions:
 the invariant each one keeps, what each one changes and leaves alone, and
 the idempotence and no-op cases of subscribe, unsubscribe, retirement and
 fan-out.
 */
module Properties {
  import opened Protocol
  import opened Registry

  // ----- the two views of membership -----

  /** For a registered client the channel index and its own channel set say the same thing. */
  lemma Agreement(h: Hub, c: ClientId, ch: Channel)
    requires Valid(h) && c in h.clients
    ensures c in h.records
    ensures c in Members(h, ch) <==> ch in h.records[c].channels
  {
  }

  // ----- admission -----

  lemma CreateValid(h: Hub, id: ClientId)
    requires Valid(h) && id !in h.records
    ensures Valid(Create(h, id))
    ensures id !in Create(h, id).clients && Admissible(Create(h, id), id)
  {
  }

  lemma RegisterValid(h: Hub, c: ClientId)
    requires Valid(h) && c in h.records && Admissible(h, c)
    ensures Valid(Register(h, c))
    ensures Register(h, c).clients == h.clients + {c}
    ensures Register(h, c).subscriptions == h.subscriptions && Register(h, c).records == h.records
  {
  }

  lemma EnqueueValid(h: Hub, c: ClientId, r: Response)
    requires Valid(h) && c in h.records && HasRoom(h, c) && !h.records[c].send.closed
    ensures Valid(Enqueue(h, c, r))
  {
  }

  lemma AdmitEffect(h: Hub, id: ClientId)
    requires Valid(h) && id !in h.records
    ensures Valid(Admit(h, id))
    ensures Admit(h, id).clients == h.clients + {id}
    ensures Admit(h, id).subscriptions == h.subscriptions
    ensures Admit(h, id).records[id] == Client({}, Mailbox([ConnectAck(id)], false))
    ensures forall d :: d in h.records ==> d in Admit(h, id).records && Admit(h, id).records[d] == h.records[d]
  {
  }

  // ----- subscribe -----

  lemma JoinEffect(h: Hub, c: ClientId, ch: Channel)
    requires c in h.records
    ensures var h' := Join(h, c, ch);
      && c in h'.records
      && h'.records[c].channels == h.records[c].channels + {ch}
      && h'.records[c].send == h.records[c].send
      && ch in h'.subscriptions && h'.subscriptions[ch] == Members(h, ch) + {c}
      && (forall k :: k != ch ==> Members(h', k) == Members(h, k))
      && (forall d :: d in h.records && d != c ==> d in h'.records && h'.records[d] == h.records[d])
      && h'.clients == h.clients
  {
  }

  lemma JoinValid(h: Hub, c: ClientId, ch: Channel)
    requires Valid(h) && c in h.clients
    ensures Valid(Join(h, c, ch))
  {
  }

  /** Subscribing twice leaves the tables as the first subscription left them. */
  lemma JoinIdempotent(h: Hub, c: ClientId, ch: Channel)
    requires c in h.records
    ensures Join(Join(h, c, ch), c, ch) == Join(h, c, ch)
  {
  }

  lemma SubscribeEffect(h: Hub, c: ClientId, ch: Channel)
    requires Valid(h) && c in h.clients && HasRoom(h, c)
    ensures Valid(Subscribe(h, c, ch))
    ensures SameTables(Subscribe(h, c, ch), Join(h, c, ch))
    ensures c in Subscribe(h, c, ch).records
    ensures Subscribe(h, c, ch).records[c].send.queue == h.records[c].send.queue + [SubscribeAck(c, ch)]
    ensures forall d :: d in h.records && d != c ==> d in Subscribe(h, c, ch).records && Subscribe(h, c, ch).records[d] == h.records[d]
  {
  }

  /** A second subscribe to the same channel changes no table and only adds a second acknowledgement. */
  lemma SubscribeIdempotent(h: Hub, c: ClientId, ch: Channel)
    requires c in h.records
    ensures var once := Subscribe(h, c, ch);
      var twice := Subscribe(once, c, ch);
      && SameTables(twice, once)
      && c in once.records && c in twice.records
      && twice.records[c].send.queue == once.records[c].send.queue + [SubscribeAck(c, ch)]
  {
  }

  // ----- unsubscribe -----

  lemma LeaveEffect(h: Hub, c: ClientId, ch: Channel)
    requires c in h.records
    ensures var h' := Leave(h, c, ch);
      && c in h'.records
      && h'.records[c].channels == h.records[c].channels - {ch}
      && h'.records[c].send == h.records[c].send
      && Members(h', ch) == Members(h, ch) - {c}
      && (ch in h'.subscriptions <==> Members(h, ch) - {c} != {})
      && (forall k :: k != ch ==> Members(h', k) == Members(h, k))
      && (forall d :: d in h.records && d != c ==> d in h'.records && h'.records[d] == h.records[d])
      && h'.clients == h.clients
  {
  }

  lemma LeaveValid(h: Hub, c: ClientId, ch: Channel)
    requires Valid(h) && c in h.clients
    ensures Valid(Leave(h, c, ch))
  {
    var h' := Leave(h, c, ch);
    forall k, d | k in h'.subscriptions && d in h'.subscriptions[k]
      ensures d in h'.clients && d in h'.records && k in h'.records[d].channels
    {
      assert d in h.subscriptions[k];
    }
    forall d, k | d in h'.clients && d in h'.records && k in h'.records[d].channels
      ensures k in h'.subscriptions && d in h'.subscriptions[k]
    {
      assert k in h.records[d].channels;
      if k == ch {
        assert d != c && d in h.subscriptions[ch] - {c};
      }
    }
  }

  /** Unsubscribing from a channel the client has not joined leaves the whole state unchanged. */
  lemma LeaveNotJoined(h: Hub, c: ClientId, ch: Channel)
    requires Valid(h) && c in h.records && ch !in h.records[c].channels
    ensures Leave(h, c, ch) == h
  {
    var cl := h.records[c];
    assert cl.(channels := cl.channels - {ch}) == cl;
    if ch in h.subscriptions {
      assert c !in h.subscriptions[ch];
      assert h.subscriptions[ch] - {c} == h.subscriptions[ch];
    }
    assert Withdraw(h.subscriptions, ch, c) == h.subscriptions;
  }

  lemma LeaveIdempotent(h: Hub, c: ClientId, ch: Channel)
    requires c in h.records
    ensures Leave(Leave(h, c, ch), c, ch) == Leave(h, c, ch)
  {
    var h1 := Leave(h, c, ch);
    var subs := h1.subscriptions;
    assert Withdraw(subs, ch, c) == subs by {
      if ch in subs {
        assert subs[ch] - {c} == subs[ch];
      }
    }
    var cl := h1.records[c];
    assert cl.(channels := cl.channels - {ch}) == cl;
    assert h1.records[c := cl] == h1.records;
  }

  lemma UnsubscribeEffect(h: Hub, c: ClientId, ch: Channel)
    requires Valid(h) && c in h.clients && HasRoom(h, c)
    ensures Valid(Unsubscribe(h, c, ch))
    ensures SameTables(Unsubscribe(h, c, ch), Leave(h, c, ch))
    ensures c in Unsubscribe(h, c, ch).records
    ensures Unsubscribe(h, c, ch).records[c].send.queue == h.records[c].send.queue + [UnsubscribeAck(c, ch)]
    ensures forall d :: d in h.records && d != c ==> d in Unsubscribe(h, c, ch).records && Unsubscribe(h, c, ch).records[d] == h.records[d]
  {
    LeaveValid(h, c, ch);
    EnqueueValid(Leave(h, c, ch), c, UnsubscribeAck(c, ch));
    assert ChannelSets(Unsubscribe(h, c, ch)) == ChannelSets(Leave(h, c, ch));
  }

  /** A second unsubscribe changes no table and only adds a second acknowledgement. */
  lemma UnsubscribeIdempotent(h: Hub, c: ClientId, ch: Channel)
    requires c in h.records
    ensures var once := Unsubscribe(h, c, ch);
      var twice := Unsubscribe(once, c, ch);
      && SameTables(twice, once)
      && c in once.records && c in twice.records
      && twice.records[c].send.queue == once.records[c].send.queue + [UnsubscribeAck(c, ch)]
  {
    var once := Unsubscribe(h, c, ch);
    var twice := Unsubscribe(once, c, ch);
    LeaveIdempotent(h, c, ch);
    assert twice.subscriptions == Leave(Leave(h, c, ch), c, ch).subscriptions;
    assert ChannelSets(twice) == ChannelSets(once);
  }

  // ----- ping and dispatch -----

  lemma PingEffect(h: Hub, c: ClientId)
    requires Valid(h) && c in h.clients && HasRoom(h, c)
    ensures Valid(Ping(h, c))
    ensures SameTables(Ping(h, c), h)
    ensures c in Ping(h, c).records
    ensures Ping(h, c).records[c].send.queue == h.records[c].send.queue + [Pong(c)]
    ensures forall d :: d in h.records && d != c ==> d in Ping(h, c).records && Ping(h, c).records[d] == h.records[d]
  {
  }

  lemma DispatchValid(h: Hub, c: ClientId, m: Message)
    requires Valid(h) && c in h.clients
    requires IsCommand(m.action) ==> HasRoom(h, c)
    ensures Valid(Dispatch(h, c, m))
    ensures !IsCommand(m.action) ==> Dispatch(h, c, m) == h
  {
    if m.action == "subscribe" {
      SubscribeEffect(h, c, m.channel);
    } else if m.action == "unsubscribe" {
      UnsubscribeEffect(h, c, m.channel);
    } else if m.action == "ping" {
      PingEffect(h, c);
    }
  }

  // ----- retirement -----

  lemma DetachFromNone(subs: map<Channel, set<ClientId>>, c: ClientId)
    ensures DetachFrom(subs, c, {}) == subs
  {
  }

  /** Walking one more channel during retirement is one more withdrawal from the index. */
  lemma DetachFromStep(subs: map<Channel, set<ClientId>>, c: ClientId, done: set<Channel>, ch: Channel)
    requires ch !in done
    ensures DetachFrom(subs, c, done + {ch}) == Withdraw(DetachFrom(subs, c, done), ch, c)
  {
  }

  /** For a registered client, retirement removes it from every channel, whichever it listed. */
  lemma UnregisterDetaches(h: Hub, c: ClientId)
    requires Valid(h) && c in h.clients
    ensures Unregister(h, c).subscriptions == Detached(h.subscriptions, {c})
  {
    var chans := h.records[c].channels;
    var a := DetachFrom(h.subscriptions, c, chans);
    var b := Detached(h.subscriptions, {c});
    forall k | k in h.subscriptions && k !in chans
      ensures h.subscriptions[k] - {c} == h.subscriptions[k]
    {
      assert c !in h.subscriptions[k];
    }
    assert forall k :: k in a <==> k in b;
  }

  lemma UnregisterEffect(h: Hub, c: ClientId)
    requires Valid(h) && c in h.clients
    ensures var h' := Unregister(h, c);
      && h'.clients == h.clients - {c}
      && c in h'.records && h'.records[c] == Closed(h.records[c])
      && (forall k :: Members(h', k) == Members(h, k) - {c})
      && (forall k :: k in h'.subscriptions <==> Members(h, k) - {c} != {})
      && (forall d :: d in h.records && d != c ==> d in h'.records && h'.records[d] == h.records[d])
  {
  }

  lemma UnregisterValid(h: Hub, c: ClientId)
    requires Valid(h) && c in h.records
    ensures Valid(Unregister(h, c))
  {
  }

  /** Retiring a client that is not registered changes nothing. */
  lemma UnregisterUnknown(h: Hub, c: ClientId)
    requires c in h.records && c !in h.clients
    ensures Unregister(h, c) == h
  {
  }

  /**
   Retirement closes an open mailbox, and retiring again changes nothing, so
   the mailbox is closed exactly once however often retirement is asked for.
   */
  lemma RetireOnce(h: Hub, c: ClientId)
    requires Valid(h) && c in h.clients
    ensures !h.records[c].send.closed
    ensures c in Unregister(h, c).records && Unregister(h, c).records[c].send.closed
    ensures Unregister(Unregister(h, c), c) == Unregister(h, c)
  {
  }

  // ----- fan-out -----

  /** A broadcast to a channel with no entry changes nothing. */
  lemma FanoutUnknown(h: Hub, ch: Channel, data: Option<Payload>)
    requires ch !in h.subscriptions
    ensures Fanout(h, ch, data) == h
  {
  }

  lemma FanoutPartNone(h: Hub, ch: Channel, data: Option<Payload>)
    requires Valid(h)
    ensures FanoutPart(h, ch, data, {}) == h
  {
    assert Overflowing(h, {}) == {};
    var d := Detached(h.subscriptions, {});
    assert forall k :: k in d <==> k in h.subscriptions;
    assert forall k :: k in d ==> d[k] == h.subscriptions[k];
    assert d == h.subscriptions;
    var r := FanoutPart(h, ch, data, {}).records;
    assert forall k :: k in r <==> k in h.records;
    assert r == h.records;
  }

  /** Retiring one more client from an index that already lost `gone`. */
  lemma DetachFromDetached(subs: map<Channel, set<ClientId>>, gone: set<ClientId>, c: ClientId, chans: set<Channel>)
    requires forall k :: k in subs && c in subs[k] ==> k in chans
    ensures DetachFrom(Detached(subs, gone), c, chans) == Detached(subs, gone + {c})
  {
    var a := DetachFrom(Detached(subs, gone), c, chans);
    var b := Detached(subs, gone + {c});
    forall k | k in subs && k !in chans
      ensures subs[k] - gone - {c} == subs[k] - gone
    {
      assert c !in subs[k];
    }
    assert forall k :: k in a <==> k in b;
    forall k | k in a
      ensures a[k] == b[k]
    {
      if k in chans {
        assert a[k] == subs[k] - gone - {c};
      } else {
        assert a[k] == subs[k] - gone;
      }
    }
  }

  /**
   Handling one more member of the snapshot: a member with room gets the
   delivery appended, a member without room is retired.
   */
  lemma FanoutStep(h: Hub, ch: Channel, data: Option<Payload>, done: set<ClientId>, c: ClientId)
    requires Valid(h) && ch in h.subscriptions
    requires done <= h.subscriptions[ch] && c in h.subscriptions[ch] && c !in done
    ensures var cur := FanoutPart(h, ch, data, done);
      && c in cur.records && cur.records[c] == h.records[c]
      && (HasRoom(h, c) ==> Enqueue(cur, c, Delivery(ch, data)) == FanoutPart(h, ch, data, done + {c}))
      && (!HasRoom(h, c) ==> c in cur.clients && Unregister(cur, c) == FanoutPart(h, ch, data, done + {c}))
  {
    var cur := FanoutPart(h, ch, data, done);
    var next := FanoutPart(h, ch, data, done + {c});
    if HasRoom(h, c) {
      assert Overflowing(h, done + {c}) == Overflowing(h, done);
      assert Enqueue(cur, c, Delivery(ch, data)).records == next.records;
    } else {
      assert Overflowing(h, done + {c}) == Overflowing(h, done) + {c};
      DetachFromDetached(h.subscriptions, Overflowing(h, done), c, h.records[c].channels);
      assert cur.records[c := Closed(cur.records[c])] == next.records;
    }
  }

  lemma FanoutPartValid(h: Hub, ch: Channel, data: Option<Payload>, done: set<ClientId>)
    requires Valid(h) && ch in h.subscriptions && done <= h.subscriptions[ch]
    ensures Valid(FanoutPart(h, ch, data, done))
  {
    var h' := FanoutPart(h, ch, data, done);
    var full := Overflowing(h, done);
    forall k, d | k in h'.subscriptions && d in h'.subscriptions[k]
      ensures d in h'.clients && d in h'.records && k in h'.records[d].channels
    {
      assert d in h.subscriptions[k];
    }
    forall d, k | d in h'.clients && d in h'.records && k in h'.records[d].channels
      ensures k in h'.subscriptions && d in h'.subscriptions[k]
    {
      assert k in h.records[d].channels;
      assert d in h.subscriptions[k] - full;
    }
  }

  /** Every operation keeps the invariant, fan-out included. */
  lemma FanoutValid(h: Hub, ch: Channel, data: Option<Payload>)
    requires Valid(h)
    ensures Members(h, ch) <= h.records.Keys
    ensures Valid(Fanout(h, ch, data))
  {
    if ch in h.subscriptions {
      FanoutPartValid(h, ch, data, h.subscriptions[ch]);
    }
  }

  /**
   A broadcast appends exactly one delivery to each member with room, retires
   each member without room, and leaves every other client alone.
   */
  lemma FanoutEffect(h: Hub, ch: Channel, data: Option<Payload>, c: ClientId)
    requires Valid(h) && ch in h.subscriptions && c in h.records
    ensures var h' := Fanout(h, ch, data);
      && c in h'.records
      && (c in h.subscriptions[ch] && HasRoom(h, c) ==>
            h'.records[c] == Pushed(h.records[c], Delivery(ch, data)) && c in h'.clients)
      && (c in h.subscriptions[ch] && !HasRoom(h, c) ==>
            h'.records[c] == Closed(h.records[c]) && c !in h'.clients
            && forall k :: c !in Members(h', k))
      && (c !in h.subscriptions[ch] ==>
            h'.records[c] == h.records[c] && (c in h'.clients <==> c in h.clients))
  {
  }

  // ----- the writer's receive -----

  /** A response sent to an empty mailbox is the next one the writer receives. */
  lemma TakeAfterEnqueue(h: Hub, c: ClientId, r: Response)
    requires c in h.records && h.records[c].send.queue == []
    ensures Take(Enqueue(h, c, r), c) == (h, Item(r))
  {
    var cl := h.records[c];
    assert Pushed(cl, r).send.queue[1..] == [];
    assert Pushed(cl, r).(send := Pushed(cl, r).send.(queue := [])) == cl;
    assert h.records[c := Pushed(cl, r)][c := cl] == h.records;
  }

  /** Receiving from a non-empty mailbox and sending to it commute: the queue is first in, first out. */
  lemma TakeEnqueueCommute(h: Hub, c: ClientId, r: Response)
    requires c in h.records && h.records[c].send.queue != []
    ensures var (after, got) := Take(h, c);
      c in after.records && Take(Enqueue(h, c, r), c) == (Enqueue(after, c, r), got)
  {
    var cl := h.records[c];
    var q := cl.send.queue;
    assert (q + [r])[1..] == q[1..] + [r];
    var tail := cl.(send := cl.send.(queue := q[1..]));
    assert Pushed(cl, r).(send := Pushed(cl, r).send.(queue := (q + [r])[1..])) == Pushed(tail, r);
    assert h.records[c := Pushed(cl, r)][c := Pushed(tail, r)] == h.records[c := tail][c := Pushed(tail, r)];
  }

  lemma TakeValid(h: Hub, c: ClientId)
    requires Valid(h) && c in h.records
    requires h.records[c].send.queue != [] || h.records[c].send.closed
    ensures Valid(Take(h, c).0)
    ensures SameTables(Take(h, c).0, h)
  {
  }
}
