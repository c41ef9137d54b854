/**
 The connection hub as an object whose tables are updated in place. Each
 method is one atomic hub step (the Go code serialises them through its
 select loop and a read-write lock) and is proved to leave the object in the
 state the matching `Registry` function computes, with the invariant kept.
 There are two exceptions. `Withdraw` is one pass of the retirement loop,
 between whose passes the invariant does not hold. `HandleMessage` ends in
 `Findings.DispatchCorrected`, which is `Registry.Dispatch` for a registered
 client and the identity for any other.
 */
module Relay {
  import opened Protocol
  import opened Registry
  import Properties
  import Findings

  class Server {
    /** The registered clients. */
    var clients: set<ClientId>
    /** The channel index: channel name to its members. */
    var subscriptions: map<Channel, set<ClientId>>
    /** Every client object that exists: its own channel set and its mailbox. */
    var records: map<ClientId, Client>

    /** The hub state these fields hold. */
    function State(): Hub
      reads this
    {
      Hub(clients, subscriptions, records)
    }

    ghost predicate Valid()
      reads this
    {
      Registry.Valid(State())
    }

    /** A new server has no clients and no channels. */
    constructor ()
      ensures Valid() && State() == EMPTY
    {
      clients := {};
      subscriptions := map[];
      records := map[];
    }

    /** A send on `c`'s mailbox that finds it open and with room. */
    method Post(c: ClientId, r: Response)
      requires Valid() && c in records && HasRoom(State(), c) && !records[c].send.closed
      modifies this
      ensures Valid() && State() == Enqueue(old(State()), c, r)
    {
      Properties.EnqueueValid(State(), c, r);
      var cl := records[c];
      records := records[c := cl.(send := cl.send.(queue := cl.send.queue + [r]))];
    }

    /** Registering a client: it joins the registered set and nothing else changes. */
    method Register(c: ClientId)
      requires Valid() && c in records && Admissible(State(), c)
      modifies this
      ensures Valid() && State() == Registry.Register(old(State()), c)
      ensures clients == old(clients) + {c}
      ensures subscriptions == old(subscriptions) && records == old(records)
    {
      Properties.RegisterValid(State(), c);
      clients := clients + {c};
    }

    /**
     Accepting a connection whose handshake succeeded: create the client with
     an empty, open mailbox, register it, and send it the connect acknowledgement.
     */
    method Admit(id: ClientId)
      requires Valid() && id !in records
      modifies this
      ensures Valid() && State() == Registry.Admit(old(State()), id)
    {
      Properties.CreateValid(State(), id);
      records := records[id := Client({}, Mailbox([], false))];
      Register(id);
      Post(id, ConnectAck(id));
    }

    /** Removing `c` from the entry of `ch`, deleting the entry once it is empty; no invariant is promised. */
    method Withdraw(ch: Channel, c: ClientId)
      modifies this
      ensures subscriptions == Registry.Withdraw(old(subscriptions), ch, c)
      ensures clients == old(clients) && records == old(records)
    {
      if ch in subscriptions {
        var subs := subscriptions[ch] - {c};
        if |subs| == 0 {
          subscriptions := subscriptions - {ch};
        } else {
          subscriptions := subscriptions[ch := subs];
        }
      }
    }

    /**
     Retiring a client: if it is registered, drop it from the registered set,
     close its mailbox and take it out of every channel it lists.
     */
    method Unregister(c: ClientId)
      requires Valid() && c in records
      modifies this
      ensures Valid() && State() == Registry.Unregister(old(State()), c)
    {
      Properties.UnregisterValid(State(), c);
      if c in clients {
        clients := clients - {c};
        var cl := records[c];
        records := records[c := cl.(send := cl.send.(closed := true))];
        ghost var subs0 := subscriptions;
        Properties.DetachFromNone(subs0, c);
        var pending := cl.channels;
        while pending != {}
          invariant pending <= cl.channels
          invariant subscriptions == DetachFrom(subs0, c, cl.channels - pending)
          invariant clients == old(clients) - {c}
          invariant records == old(records)[c := Closed(cl)]
          decreases pending
        {
          var ch :| ch in pending;
          Properties.DetachFromStep(subs0, c, cl.channels - pending, ch);
          assert cl.channels - (pending - {ch}) == (cl.channels - pending) + {ch};
          Withdraw(ch, c);
          pending := pending - {ch};
        }
        assert cl.channels - pending == cl.channels;
      }
    }

    /**
     Broadcasting `data` to the members of `ch`: nothing happens if the channel
     has no entry; otherwise each member of a snapshot of the member set gets
     one delivery if its mailbox has room, and is retired if it has none.
     */
    method Broadcast(ch: Channel, data: Option<Payload>)
      requires Valid()
      modifies this
      ensures Valid() && State() == Fanout(old(State()), ch, data)
    {
      if ch !in subscriptions {
        return;
      }
      ghost var h0 := State();
      var members := subscriptions[ch];
      var pending := members;
      Properties.FanoutPartNone(h0, ch, data);
      assert members - pending == {};
      while pending != {}
        invariant pending <= members
        invariant Valid()
        invariant State() == FanoutPart(h0, ch, data, members - pending)
        decreases pending
      {
        var c :| c in pending;
        Properties.FanoutStep(h0, ch, data, members - pending, c);
        assert (members - pending) + {c} == members - (pending - {c});
        if |records[c].send.queue| < CAPACITY {
          Post(c, Delivery(ch, data));
        } else {
          Unregister(c);
        }
        pending := pending - {c};
      }
      assert members - pending == members;
    }

    /** A subscribe request from registered client `c`, acknowledged on its own mailbox. */
    method HandleSubscribe(c: ClientId, ch: Channel)
      requires Valid() && c in clients && c in records && HasRoom(State(), c)
      modifies this
      ensures Valid() && State() == Subscribe(old(State()), c, ch)
    {
      ghost var h0 := State();
      Properties.JoinValid(h0, c, ch);
      var cl := records[c];
      records := records[c := cl.(channels := cl.channels + {ch})];
      if ch !in subscriptions {
        subscriptions := subscriptions[ch := {}];
      }
      subscriptions := subscriptions[ch := subscriptions[ch] + {c}];
      assert State() == Join(h0, c, ch);
      Post(c, SubscribeAck(c, ch));
    }

    /** An unsubscribe request from registered client `c`, acknowledged on its own mailbox. */
    method HandleUnsubscribe(c: ClientId, ch: Channel)
      requires Valid() && c in clients && c in records && HasRoom(State(), c)
      modifies this
      ensures Valid() && State() == Unsubscribe(old(State()), c, ch)
    {
      ghost var h0 := State();
      Properties.LeaveValid(h0, c, ch);
      var cl := records[c];
      records := records[c := cl.(channels := cl.channels - {ch})];
      Withdraw(ch, c);
      assert State() == Leave(h0, c, ch);
      Post(c, UnsubscribeAck(c, ch));
    }

    /** A ping request: a pong on the client's own mailbox and nothing else. */
    method HandlePing(c: ClientId)
      requires Valid() && c in clients && c in records && HasRoom(State(), c)
      modifies this
      ensures Valid() && State() == Ping(old(State()), c)
    {
      Post(c, Pong(c));
    }

    /**
     Dispatch of a decoded request on its action tag; an unknown tag is only
     logged. A request from a client that is no longer registered (one the
     fan-out has retired while its reader still runs) is ignored.
     */
    method HandleMessage(c: ClientId, m: Message)
      requires Valid() && c in records
      requires c in clients && IsCommand(m.action) ==> HasRoom(State(), c)
      modifies this
      ensures Valid() && State() == Findings.DispatchCorrected(old(State()), c, m)
    {
      if c !in clients {
        return;
      }
      if m.action == "subscribe" {
        HandleSubscribe(c, m.channel);
      } else if m.action == "unsubscribe" {
        HandleUnsubscribe(c, m.channel);
      } else if m.action == "ping" {
        HandlePing(c);
      }
    }

    /**
     The writer's receive on `c`'s mailbox: the oldest buffered response, or,
     once the mailbox is closed and drained, the closed signal.
     */
    method Receive(c: ClientId) returns (got: Received)
      requires Valid() && c in records
      requires records[c].send.queue != [] || records[c].send.closed
      modifies this
      ensures Valid() && (State(), got) == Take(old(State()), c)
    {
      Properties.TakeValid(State(), c);
      var cl := records[c];
      if cl.send.queue == [] {
        got := EndOfStream;
      } else {
        got := Item(cl.send.queue[0]);
        records := records[c := cl.(send := cl.send.(queue := cl.send.queue[1..]))];
      }
    }
  }
}
