/**
 The hub as the server runs it: a `Hub` object whose `clients` map the
 coordinating loop updates in place, and `Client` objects that own their
 outbound channel. Each method is one arm of the loop's `select`, and each is
 proved to do to the hub what the matching `Registry` function describes.
 */
module Server {
  import Registry

  /**
   A connected client. The state of its `Send` channel is held in the client's
   own fields: the channel is made together with the client and is never
   shared or replaced.
   */
  class Client {
    const id: string
    var queue: seq<Registry.Frame>
    const capacity: nat
    var writerWaiting: bool
    var closed: bool

    /**
     A client with a fresh, empty, open channel of the given buffer size. Its
     writer goroutine has not started yet, so nobody waits on the channel.
     */
    constructor (id: string, capacity: nat)
      ensures State() == Registry.ClientState(id, Registry.Queue([], capacity, false, false))
    {
      this.id := id;
      this.queue := [];
      this.capacity := capacity;
      this.writerWaiting := false;
      this.closed := false;
    }

    function State(): Registry.ClientState
      reads this
    {
      Registry.ClientState(id, Registry.Queue(queue, capacity, writerWaiting, closed))
    }

    /**
     The non-blocking send `select { case Send <- m: ... default: ... }`.
     Sending on a closed channel panics even inside such a `select`.
     */
    method TrySend(m: Registry.Frame) returns (sent: bool)
      requires !closed
      modifies this
      ensures sent == Registry.CanSend(old(State()).send)
      ensures State() == if sent then old(State()).(send := Registry.Deliver(old(State()).send, m)) else old(State())
    {
      sent := |queue| < capacity || writerWaiting;
      if sent {
        queue := queue + [m];
        writerWaiting := false;
      }
    }

    /**
     The writer goroutine is done with the frame it holds, if any, and back at
     `range Send`: it takes the next pending frame, or parks when none is left.
     */
    method WriterNext()
      modifies this
      ensures State() == old(State()).(send := Registry.Next(old(State()).send))
    {
      if queue != [] {
        queue := queue[1..];
      }
      writerWaiting := queue == [];
    }

    /** `close(Send)`; closing a closed channel panics. */
    method Close()
      requires !closed
      modifies this
      ensures State() == old(State()).(send := Registry.Close(old(State()).send))
    {
      closed := true;
    }
  }

  class Hub {
    var clients: map<string, Client>
    /** Every client ever registered with this hub. */
    ghost var seen: set<Client>

    /** Each entry is a registered client filed under its own ID, with an open channel. */
    ghost predicate Valid()
      reads this, seen
    {
      forall id | id in clients :: clients[id] in seen && clients[id].id == id && !clients[id].closed
    }

    /** The hub as a `Registry.State`: its map, and every client it has seen. */
    ghost function View(): (v: Registry.State<Client>)
      reads this, seen
      ensures v.clients.Keys == seen
      ensures Valid() ==> Registry.Inv(v)
    {
      Registry.State(clients, map c | c in seen :: c.State())
    }

    constructor ()
      ensures Valid() && clients == map[] && seen == {}
    {
      clients := map[];
      seen := {};
    }

    /** The register arm. */
    method Register(c: Client)
      requires Valid() && !c.closed
      modifies this
      ensures Valid() && seen == old(seen) + {c}
      ensures View() == Registry.Register(old(View()), c, c.State())
    {
      ghost var v0 := View();
      clients := clients[c.id := c];
      seen := seen + {c};
      assert View().clients == v0.clients[c := c.State()];
    }

    /** The unregister arm; `c` is a client this hub registered earlier. */
    method Unregister(c: Client)
      requires Valid() && c in seen && !c.closed
      modifies this, c
      ensures Valid() && seen == old(seen)
      ensures View() == Registry.Unregister(old(View()), c)
    {
      clients := clients - {c.id};
      c.Close();
    }

    /**
     The broadcast arm: one pass over the map, in whatever order the map yields
     its keys, deleting the current entry when its channel is full.
     */
    method Broadcast(m: Registry.Frame)
      requires Valid()
      modifies this, clients.Values
      ensures Valid() && seen == old(seen)
      ensures View() == Registry.Broadcast(old(View()), m)
    {
      ghost var s0 := View();
      ghost var done: set<string> := {};
      Registry.PartialBroadcastNone(s0, m);
      var pending := clients.Keys;
      while pending != {}
        invariant pending <= s0.registry.Keys && done == s0.registry.Keys - pending
        invariant Valid() && seen == old(seen)
        invariant View() == Registry.PartialBroadcast(s0, done, m)
        decreases pending
      {
        var id :| id in pending;
        assert id in clients && clients[id] == s0.registry[id];
        Visit(id, m);
        Registry.VisitExtendsPartial(s0, done, id, m);
        Registry.MoveToDone(s0.registry.Keys, pending, done, id);
        pending := pending - {id};
        done := done + {id};
      }
      assert done == s0.registry.Keys;
      assert View() == Registry.Broadcast(s0, m);
    }

    /** One turn of the broadcast loop, on the entry under `id`. */
    method Visit(id: string, m: Registry.Frame)
      requires Valid() && id in clients
      modifies this, clients[id]
      ensures Valid() && seen == old(seen)
      ensures View() == Registry.Visit(old(View()), id, m)
    {
      var c := clients[id];
      var sent := c.TrySend(m);
      if !sent {
        clients := clients - {c.id};
        c.Close();
      }
      forall id' | id' in clients
        ensures clients[id'] in seen && clients[id'].id == id' && !clients[id'].closed
      {
        if id' != id {
          assert clients[id'] != c;
        }
      }
    }
  }

  /**
   Alice and Bob connect on unbuffered channels, their writers start and park
   in their receive, and "hello" is broadcast: both outbound queues hold
   exactly that frame, and both stay registered.
   */
  method HelloToAliceAndBob() returns (alice: seq<Registry.Frame>, bob: seq<Registry.Frame>, registered: set<string>)
    ensures alice == [Registry.HELLO] && bob == [Registry.HELLO]
    ensures registered == {"alice", "bob"}
  {
    var hub := new Hub();
    var a := new Client("alice", 0);
    var b := new Client("bob", 0);
    hub.Register(a);
    hub.Register(b);
    a.WriterNext();
    b.WriterNext();
    assert hub.clients == map["alice" := a, "bob" := b];
    alice, bob, registered := Greet(hub, a, b);
  }

  /** The broadcast of "hello" to Alice and Bob, both registered with empty queues and waiting writers. */
  method Greet(hub: Hub, a: Client, b: Client) returns (alice: seq<Registry.Frame>, bob: seq<Registry.Frame>, registered: set<string>)
    requires hub.clients == map["alice" := a, "bob" := b] && hub.seen == {a, b}
    requires a.id == "alice" && a.queue == [] && a.writerWaiting && !a.closed
    requires b.id == "bob" && b.queue == [] && b.writerWaiting && !b.closed
    modifies hub, a, b
    ensures alice == [Registry.HELLO] && bob == [Registry.HELLO]
    ensures registered == {"alice", "bob"}
  {
    assert hub.Valid();
    ghost var v0 := hub.View();
    assert v0.clients[a] == a.State() && v0.clients[b] == b.State();
    assert Registry.IsRegistered(v0, a) && Registry.CanSend(v0.clients[a].send);
    assert Registry.IsRegistered(v0, b) && Registry.CanSend(v0.clients[b].send);
    hub.Broadcast(Registry.HELLO);
    assert hub.View().clients[a] == a.State() && hub.View().clients[b] == b.State();
    alice, bob, registered := a.queue, b.queue, hub.clients.Keys;
  }
}
