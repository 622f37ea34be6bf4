/**
 The hub's registry as a value-level state machine.

 The hub keeps a map from client ID to client, and every client owns an
 outbound `Send` channel. The coordinating loop takes one event at a time
 (register, unregister, broadcast) and applies it to that map and to the
 channels. This module describes each event as a function on a `State`, the
 whole loop as `Run` over a sequence of events, and proves what the loop
 promises and where it goes wrong.

 Client identity is a type parameter `H`: two clients may share an ID and still
 be different clients (a reconnect under the same user ID creates a new one).
 */
module Registry {

  /** One websocket message: an opaque byte payload, fanned out byte for byte. */
  type Frame = seq<bv8>

  /**
   The state of one client's `Send` channel. `items` are the frames the hub has
   handed to the channel that the client's writer has not written out yet, the
   first of them being the one the writer holds while it is busy;
   `writerWaiting` says whether that writer is parked in its receive.
   */
  datatype Queue = Queue(items: seq<Frame>, capacity: nat, writerWaiting: bool, closed: bool)

  /** A client as the hub sees it: its ID and its outbound channel. */
  datatype ClientState = ClientState(id: string, send: Queue)

  /** A non-blocking send succeeds: the channel is open and has room in its buffer or a receiver waiting. */
  predicate CanSend(q: Queue) {
    !q.closed && (|q.items| < q.capacity || q.writerWaiting)
  }

  /**
   A successful send: the frame joins the pending frames, and a writer that was
   parked in its receive has taken it and is busy writing it out.
   */
  function Deliver(q: Queue, m: Frame): Queue {
    q.(items := q.items + [m], writerWaiting := false)
  }

  function Close(q: Queue): Queue {
    q.(closed := true)
  }

  /**
   The writer is done with the frame it holds, if any, and is back at its
   `range` over the channel: it takes the next pending frame at once, or parks
   when none is left. A writer's first move is its goroutine starting.
   */
  function Next(q: Queue): Queue {
    var rest := if q.items == [] then [] else q.items[1..];
    q.(items := rest, writerWaiting := rest == [])
  }

  /**
   The writer parks only when it has nothing left to write, and an unbuffered
   channel holds at most the one frame its writer is writing.
   */
  predicate Coherent(q: Queue) {
    (q.writerWaiting ==> q.items == []) && (q.capacity == 0 ==> |q.items| <= 1)
  }

  /** One arm of the broadcast loop: send `m` if the channel takes it, otherwise close the channel. */
  function Offer(q: Queue, m: Frame): Queue {
    if CanSend(q) then Deliver(q, m) else Close(q)
  }

  /**
   `registry` is the hub's `Clients` map; `clients` holds every client the hub
   knows about, registered or not, with the state of its channel.
   */
  datatype State<H(==)> = State(registry: map<string, H>, clients: map<H, ClientState>)

  /** Every registry entry is a known client filed under its own ID. */
  predicate WellFormed<H(==)>(s: State<H>) {
    forall id | id in s.registry :: s.registry[id] in s.clients && s.clients[s.registry[id]].id == id
  }

  /** The hub's invariant: every registered client's channel is still open. */
  predicate Inv<H(==)>(s: State<H>) {
    WellFormed(s) && forall id | id in s.registry :: !s.clients[s.registry[id]].send.closed
  }

  predicate IsRegistered<H(==)>(s: State<H>, h: H)
    requires h in s.clients
  {
    s.clients[h].id in s.registry && s.registry[s.clients[h].id] == h
  }

  /** The register arm: `Clients[c.ID] = c`, overwriting whatever was filed under that ID. */
  function Register<H(==)>(s: State<H>, h: H, c: ClientState): (r: State<H>)
    ensures r.registry.Keys == s.registry.Keys + {c.id} && r.registry[c.id] == h
    ensures forall id | id in s.registry && id != c.id :: r.registry[id] == s.registry[id]
    ensures r.clients.Keys == s.clients.Keys + {h} && r.clients[h] == c
    ensures forall g | g in s.clients && g != h :: r.clients[g] == s.clients[g]
    ensures WellFormed(s) && (h in s.clients ==> s.clients[h].id == c.id) ==> WellFormed(r)
    ensures Inv(s) && (h in s.clients ==> s.clients[h].id == c.id) && !c.send.closed ==> Inv(r)
  {
    State(s.registry[c.id := h], s.clients[h := c])
  }

  /** The unregister arm: delete the entry under the client's ID and close the client's channel. */
  function Unregister<H(==)>(s: State<H>, h: H): (r: State<H>)
    requires h in s.clients
    ensures s.clients[h].id !in r.registry
    ensures forall id | id in s.registry && id != s.clients[h].id :: id in r.registry && r.registry[id] == s.registry[id]
    ensures r.registry.Keys <= s.registry.Keys
    ensures r.clients.Keys == s.clients.Keys
    ensures r.clients[h] == s.clients[h].(send := Close(s.clients[h].send))
    ensures forall g | g in s.clients && g != h :: r.clients[g] == s.clients[g]
    ensures WellFormed(s) ==> WellFormed(r)
    ensures Inv(s) ==> Inv(r)
  {
    var c := s.clients[h];
    State(s.registry - {c.id}, s.clients[h := c.(send := Close(c.send))])
  }

  /**
   The state once the broadcast loop has visited the IDs in `done`: each visited
   client either got `m` or was deleted and had its channel closed; the others
   are as they were.
   */
  function PartialBroadcast<H(==)>(s: State<H>, done: set<string>, m: Frame): (r: State<H>)
    requires WellFormed(s)
    ensures r.clients.Keys == s.clients.Keys
  {
    State(
      map id | id in s.registry && (id !in done || CanSend(s.clients[s.registry[id]].send)) :: s.registry[id],
      map h | h in s.clients ::
        if IsRegistered(s, h) && s.clients[h].id in done
        then s.clients[h].(send := Offer(s.clients[h].send, m))
        else s.clients[h])
  }

  /** The broadcast arm: one pass over the whole registry. */
  function Broadcast<H(==)>(s: State<H>, m: Frame): (r: State<H>)
    requires WellFormed(s)
    ensures forall id | id in r.registry :: id in s.registry && r.registry[id] == s.registry[id]
    ensures forall id | id in s.registry :: id in r.registry <==> CanSend(s.clients[s.registry[id]].send)
    ensures r.clients.Keys == s.clients.Keys
    ensures forall h | h in s.clients && IsRegistered(s, h) && CanSend(s.clients[h].send) ::
      r.clients[h] == s.clients[h].(send := s.clients[h].send.(items := s.clients[h].send.items + [m], writerWaiting := false))
    ensures forall h | h in s.clients && IsRegistered(s, h) && !CanSend(s.clients[h].send) ::
      r.clients[h] == s.clients[h].(send := s.clients[h].send.(closed := true))
    ensures forall h | h in s.clients && !IsRegistered(s, h) :: r.clients[h] == s.clients[h]
    ensures WellFormed(r)
    ensures Inv(s) ==> Inv(r)
  {
    PartialBroadcast(s, s.registry.Keys, m)
  }

  /**
   One iteration of the broadcast loop as the source runs it, on the entry under
   `id`: deliver, or delete the entry and close the channel.
   */
  function Visit<H(==)>(s: State<H>, id: string, m: Frame): (r: State<H>)
    requires WellFormed(s)
    ensures WellFormed(r) && r.clients.Keys == s.clients.Keys
    ensures forall k | k in r.registry :: k in s.registry && r.registry[k] == s.registry[k]
    ensures forall k | k in s.registry && k != id :: k in r.registry
    ensures id in s.registry ==> (id in r.registry <==> CanSend(s.clients[s.registry[id]].send))
    ensures id in s.registry ==> var h := s.registry[id]; var q := s.clients[h].send;
      r.clients[h] == s.clients[h].(send := if CanSend(q) then Deliver(q, m) else Close(q))
    ensures forall g | g in s.clients && (id !in s.registry || g != s.registry[id]) :: r.clients[g] == s.clients[g]
    ensures Inv(s) ==> Inv(r)
  {
    if id !in s.registry then s
    else
      var h := s.registry[id];
      var c := s.clients[h];
      if CanSend(c.send) then State(s.registry, s.clients[h := c.(send := Deliver(c.send, m))])
      else State(s.registry - {id}, s.clients[h := c.(send := Close(c.send))])
  }

  /** The broadcast loop run over the registry's keys in the order `order`. */
  function BroadcastInOrder<H(==)>(s: State<H>, order: seq<string>, m: Frame): (r: State<H>)
    requires WellFormed(s)
    ensures WellFormed(r) && r.clients.Keys == s.clients.Keys
    ensures forall k | k in r.registry :: k in s.registry && r.registry[k] == s.registry[k]
    ensures forall k | k in s.registry && k !in order :: k in r.registry
    ensures Inv(s) ==> Inv(r)
    decreases |order|
  {
    if order == [] then s else BroadcastInOrder(Visit(s, order[0], m), order[1..], m)
  }

  predicate NoDuplicates(order: seq<string>) {
    forall i, j | 0 <= i < j < |order| :: order[i] != order[j]
  }

  /** Moving one key from the pending keys to the visited ones keeps the two a partition of all the keys. */
  lemma MoveToDone(keys: set<string>, pending: set<string>, done: set<string>, id: string)
    requires pending <= keys && done == keys - pending && id in pending
    ensures pending - {id} <= keys && done + {id} == keys - (pending - {id}) && id !in done
  {
  }

  /** With nothing visited yet, the broadcast has changed nothing. */
  lemma PartialBroadcastNone<H>(s: State<H>, m: Frame)
    requires WellFormed(s)
    ensures PartialBroadcast(s, {}, m) == s
  {
  }

  /** Running one more loop iteration on `id` adds `id` to the visited set. */
  lemma VisitExtendsPartial<H>(s: State<H>, done: set<string>, id: string, m: Frame)
    requires WellFormed(s) && id in s.registry && id !in done
    ensures Visit(PartialBroadcast(s, done, m), id, m) == PartialBroadcast(s, done + {id}, m)
  {
  }

  /** The elements of a non-empty sequence are its head and the elements of its tail. */
  lemma ElementsCons(order: seq<string>)
    requires order != []
    ensures (set i | 0 <= i < |order| :: order[i]) == {order[0]} + (set i | 0 <= i < |order[1..]| :: order[1..][i])
  {
    var all := set i | 0 <= i < |order| :: order[i];
    var restSet := set i | 0 <= i < |order[1..]| :: order[1..][i];
    forall x | x in all ensures x in restSet + {order[0]} {
      var i :| 0 <= i < |order| && order[i] == x;
      if i > 0 { assert order[1..][i - 1] == x; }
    }
    forall x | x in restSet ensures x in all {
      var i :| 0 <= i < |order[1..]| && order[1..][i] == x;
      assert order[i + 1] == x;
    }
  }

  /** The tail of a duplicate-free sequence of unvisited keys avoids its head too. */
  lemma TailFresh<H>(s: State<H>, done: set<string>, order: seq<string>)
    requires order != [] && NoDuplicates(order)
    requires forall i | 0 <= i < |order| :: order[i] in s.registry && order[i] !in done
    ensures NoDuplicates(order[1..])
    ensures forall i | 0 <= i < |order[1..]| :: order[1..][i] in s.registry && order[1..][i] !in done + {order[0]}
  {
    forall i | 0 <= i < |order[1..]| ensures order[1..][i] in s.registry && order[1..][i] !in done + {order[0]} {
      assert order[1..][i] == order[i + 1];
    }
  }

  lemma {:induction false} InOrderFromPartial<H>(s: State<H>, done: set<string>, order: seq<string>, m: Frame)
    requires WellFormed(s) && NoDuplicates(order)
    requires forall i | 0 <= i < |order| :: order[i] in s.registry && order[i] !in done
    ensures BroadcastInOrder(PartialBroadcast(s, done, m), order, m)
         == PartialBroadcast(s, done + (set i | 0 <= i < |order| :: order[i]), m)
    decreases |order|
  {
    var all := set i | 0 <= i < |order| :: order[i];
    if order == [] {
      assert all == {};
      assert done + all == done;
    } else {
      var id := order[0];
      var rest := order[1..];
      var restSet := set i | 0 <= i < |rest| :: rest[i];
      VisitExtendsPartial(s, done, id, m);
      TailFresh(s, done, order);
      InOrderFromPartial(s, done + {id}, rest, m);
      ElementsCons(order);
      assert done + all == (done + {id}) + restSet;
    }
  }

  /**
   The registry's iteration order does not matter: running the loop over the keys
   in any order, each key once, gives `Broadcast`.
   */
  lemma BroadcastOrderIrrelevant<H>(s: State<H>, order: seq<string>, m: Frame)
    requires WellFormed(s) && NoDuplicates(order)
    requires forall id :: id in s.registry <==> id in order
    ensures BroadcastInOrder(s, order, m) == Broadcast(s, m)
  {
    var keys := set i | 0 <= i < |order| :: order[i];
    forall i | 0 <= i < |order| ensures order[i] in s.registry && order[i] !in {} {
      assert order[i] in order;
    }
    PartialBroadcastNone(s, m);
    InOrderFromPartial(s, {}, order, m);
    assert keys == s.registry.Keys by {
      forall id | id in s.registry ensures id in keys {
        assert id in order;
        var i :| 0 <= i < |order| && order[i] == id;
      }
    }
    assert {} + keys == s.registry.Keys;
  }

  /*
   The coordinating loop: one event at a time, in the order received. A Go
   runtime panic (closing a closed channel, sending on a closed channel) stops
   the loop, and so the whole process.
   */

  /**
   The hub's three events, and the one thing a client's writer goroutine does
   to its own channel between them: finish the frame it holds and go back to
   its receive.
   */
  datatype Event<H> = Reg(h: H) | Unreg(h: H) | Bcast(m: Frame) | WriterNext(h: H)

  datatype Panic = CloseOfClosedChannel | SendOnClosedChannel

  datatype Outcome<H(==)> = Running(state: State<H>) | Panicked(panic: Panic)

  /** The register and unregister arms as the source writes them, or as corrected below. */
  datatype Discipline = AsWritten | Corrected

  /** Register and unregister events carry clients the hub knows about. */
  predicate Known<H(==)>(s: State<H>, e: Event<H>) {
    e.Bcast? || e.h in s.clients
  }

  predicate Mentions<H(==)>(e: Event<H>, h: H) {
    !e.Bcast? && e.h == h
  }

  /**
   The corrected register arm: a client displaced by a newer one under the same
   ID leaves the registry, so its channel is closed first.
   */
  function RegisterChecked<H(==)>(s: State<H>, h: H, c: ClientState): (r: Outcome<H>)
    requires WellFormed(s)
    ensures r.Running? ==> r.state.registry.Keys == s.registry.Keys + {c.id} && r.state.registry[c.id] == h
    ensures r.Running? ==> r.state.clients.Keys == s.clients.Keys + {h} && r.state.clients[h] == c
    ensures r.Running? ==> forall id | id in s.registry && id != c.id :: r.state.registry[id] == s.registry[id]
    ensures r.Running? && c.id in s.registry && s.registry[c.id] != h ==>
      var prior := s.registry[c.id];
      r.state.clients[prior] == s.clients[prior].(send := Close(s.clients[prior].send))
    ensures r.Running? ==> forall g | g in s.clients && g != h && !(c.id in s.registry && g == s.registry[c.id]) ::
      r.state.clients[g] == s.clients[g]
    ensures Inv(s) ==> r.Running?
    ensures Inv(s) && !c.send.closed && (h in s.clients ==> s.clients[h].id == c.id) ==> Inv(r.state)
  {
    if c.id in s.registry && s.registry[c.id] != h then
      var prior := s.registry[c.id];
      var p := s.clients[prior];
      if p.send.closed then Panicked(CloseOfClosedChannel)
      else Running(Register(State(s.registry, s.clients[prior := p.(send := Close(p.send))]), h, c))
    else Running(Register(s, h, c))
  }

  /**
   The corrected unregister arm: only the entry that is this very client is removed, and its channel is closed only then, so a second
   unregister, or one after an eviction, does nothing.
   */
  function UnregisterChecked<H(==)>(s: State<H>, h: H): (r: Outcome<H>)
    requires WellFormed(s) && h in s.clients
    ensures r.Running? && !IsRegistered(s, h) ==> r.state == s
    ensures r.Running? && IsRegistered(s, h) ==> r.state == Unregister(s, h)
    ensures Inv(s) ==> r.Running?
  {
    if !IsRegistered(s, h) then Running(s)
    else if s.clients[h].send.closed then Panicked(CloseOfClosedChannel)
    else Running(Unregister(s, h))
  }

  /** The writer goroutine changes its own channel to `q`; the registry is not touched. */
  function Writer<H(==)>(s: State<H>, h: H, q: Queue): (r: State<H>)
    requires h in s.clients && q.closed == s.clients[h].send.closed
    ensures r.registry == s.registry && r.clients.Keys == s.clients.Keys && r.clients[h].send == q
    ensures forall g | g in s.clients && g != h :: r.clients[g] == s.clients[g]
    ensures WellFormed(s) ==> WellFormed(r)
    ensures Inv(s) ==> Inv(r)
  {
    State(s.registry, s.clients[h := s.clients[h].(send := q)])
  }

  /** One turn of the loop: the `select` arm for event `e`, or a writer's move. */
  function Step<H(==)>(s: State<H>, e: Event<H>, d: Discipline): (r: Outcome<H>)
    requires WellFormed(s) && Known(s, e)
    ensures r.Running? ==> WellFormed(r.state) && r.state.clients.Keys == s.clients.Keys
    ensures e.Reg? && d == AsWritten ==> r.Running?
    ensures e.Unreg? && d == AsWritten ==> (r.Panicked? <==> s.clients[e.h].send.closed)
    ensures e.Bcast? ==> (r.Panicked? <==> !Inv(s))
    ensures e.WriterNext? ==> r.Running? && r.state.registry == s.registry
  {
    match e
    case Reg(h) =>
      if d == AsWritten then Running(Register(s, h, s.clients[h]))
      else RegisterChecked(s, h, s.clients[h])
    case Unreg(h) =>
      if d == Corrected then UnregisterChecked(s, h)
      else if s.clients[h].send.closed then Panicked(CloseOfClosedChannel)
      else Running(Unregister(s, h))
    case Bcast(m) =>
      if exists id | id in s.registry :: s.clients[s.registry[id]].send.closed then Panicked(SendOnClosedChannel)
      else Running(Broadcast(s, m))
    case WriterNext(h) => Running(Writer(s, h, Next(s.clients[h].send)))
  }

  predicate Covers<H(==)>(s: State<H>, evs: seq<Event<H>>) {
    forall i | 0 <= i < |evs| :: Known(s, evs[i])
  }

  /** The loop run over a finite sequence of events. */
  function Run<H(==)>(s: State<H>, evs: seq<Event<H>>, d: Discipline): (r: Outcome<H>)
    requires WellFormed(s) && Covers(s, evs)
    ensures r.Running? ==> WellFormed(r.state) && r.state.clients.Keys == s.clients.Keys
    decreases |evs|
  {
    if evs == [] then Running(s)
    else
      match Step(s, evs[0], d)
      case Panicked(p) => Panicked(p)
      case Running(t) =>
        assert forall i | 0 <= i < |evs| - 1 :: evs[1..][i] == evs[i + 1];
        Run(t, evs[1..], d)
  }

  /**
   What the admission handler guarantees about the events it produces: a client
   is registered once, when it is new, unregistered and has an open channel, and
   nothing mentions it before that.
   */
  predicate Admissible<H(==)>(s: State<H>, evs: seq<Event<H>>) {
    && Covers(s, evs)
    && forall i | 0 <= i < |evs| && evs[i].Reg? ::
         && evs[i].h in s.clients
         && !IsRegistered(s, evs[i].h)
         && !s.clients[evs[i].h].send.closed
         && forall j | 0 <= j < i :: !Mentions(evs[j], evs[i].h)
  }

  /** One turn keeps every registered channel open and never sends on a closed one. */
  lemma StepKeepsInv<H>(s: State<H>, e: Event<H>, d: Discipline)
    requires Inv(s) && Known(s, e)
    requires e.Reg? ==> !IsRegistered(s, e.h) && !s.clients[e.h].send.closed
    ensures Step(s, e, d) != Panicked(SendOnClosedChannel)
    ensures d == Corrected ==> Step(s, e, d).Running?
    ensures Step(s, e, d).Running? ==> Inv(Step(s, e, d).state)
  {
  }

  /** A client that is neither registered nor named by the event is left exactly as it was. */
  lemma StepLeavesOthers<H>(s: State<H>, e: Event<H>, d: Discipline, g: H)
    requires WellFormed(s) && Known(s, e) && g in s.clients
    requires !IsRegistered(s, g) && !Mentions(e, g)
    requires Step(s, e, d).Running?
    ensures Step(s, e, d).state.clients[g] == s.clients[g]
    ensures !IsRegistered(Step(s, e, d).state, g)
  {
  }

  /**
   Over any admissible run, every registered client's channel stays open, so the
   broadcast arm never sends on a closed channel; with the corrected arms the
   loop never panics at all.
   */
  lemma {:induction false} RunKeepsInv<H>(s: State<H>, evs: seq<Event<H>>, d: Discipline)
    requires Inv(s) && Admissible(s, evs)
    ensures Run(s, evs, d) != Panicked(SendOnClosedChannel)
    ensures d == Corrected ==> Run(s, evs, d).Running?
    ensures Run(s, evs, d).Running? ==> Inv(Run(s, evs, d).state)
    decreases |evs|
  {
    if evs != [] {
      var e := evs[0];
      StepKeepsInv(s, e, d);
      if Step(s, e, d).Running? {
        var t := Step(s, e, d).state;
        var rest := evs[1..];
        assert forall i | 0 <= i < |rest| :: rest[i] == evs[i + 1];
        forall i | 0 <= i < |rest| && rest[i].Reg?
          ensures rest[i].h in t.clients && !IsRegistered(t, rest[i].h) && !t.clients[rest[i].h].send.closed
        {
          assert !Mentions(evs[0], evs[i + 1].h);
          StepLeavesOthers(s, e, d, rest[i].h);
        }
        assert Admissible(t, rest);
        RunKeepsInv(t, rest, d);
      }
    }
  }

  /**
   A client whose channel is full is evicted by the broadcast, which closes its
   channel; its reader then sends the unregister event, whose unconditional
   close panics. The corrected arm ignores the second unregister.
   */
  lemma EvictionThenUnregister<H>(s: State<H>, h: H, m: Frame)
    requires Inv(s) && h in s.clients && IsRegistered(s, h) && !CanSend(s.clients[h].send)
    ensures Run(s, [Bcast(m), Unreg(h)], AsWritten) == Panicked(CloseOfClosedChannel)
    ensures Run(s, [Bcast(m), Unreg(h)], Corrected) == Running(Broadcast(s, m))
  {
    var evs := [Bcast(m), Unreg(h)];
    var t := Broadcast(s, m);
    assert Step(s, Bcast(m), AsWritten) == Running(t);
    assert Step(s, Bcast(m), Corrected) == Running(t);
    assert evs[1..] == [Unreg(h)];
    assert t.clients[h].send.closed && !IsRegistered(t, h);
    assert Run(t, [Unreg(h)], Corrected) == Run(t, [], Corrected);
  }

  /**
   A client reconnects under the same ID before its old connection's unregister
   arrives: deleting by ID removes the new client's entry while its channel stays
   open, so the live connection gets no further broadcasts. The corrected arms close the old channel at
   registration and keep the new client.
   */
  lemma StaleUnregisterDropsNewer<H>(s: State<H>, prior: H, newer: H)
    requires Inv(s) && prior in s.clients && newer in s.clients && prior != newer
    requires IsRegistered(s, prior) && !IsRegistered(s, newer)
    requires s.clients[newer].id == s.clients[prior].id && !s.clients[newer].send.closed
    ensures var r := Run(s, [Reg(newer), Unreg(prior)], AsWritten);
      && r.Running?
      && s.clients[newer].id !in r.state.registry
      && !r.state.clients[newer].send.closed
      && r.state.clients[prior].send.closed
    ensures var r := Run(s, [Reg(newer), Unreg(prior)], Corrected);
      && r.Running?
      && IsRegistered(r.state, newer)
      && !r.state.clients[newer].send.closed
      && r.state.clients[prior].send.closed
  {
    var evs := [Reg(newer), Unreg(prior)];
    assert evs[1..] == [Unreg(prior)];
    var a := Register(s, newer, s.clients[newer]);
    assert Step(s, Reg(newer), AsWritten) == Running(a);
    assert !a.clients[prior].send.closed;
    assert Run(a, [Unreg(prior)], AsWritten) == Run(Unregister(a, prior), [], AsWritten);
    var c := RegisterChecked(s, newer, s.clients[newer]);
    assert c.Running? && !IsRegistered(c.state, prior);
    assert Run(c.state, [Unreg(prior)], Corrected) == Run(c.state, [], Corrected);
  }

  /**
   A registered client on an unbuffered channel whose writer is parked takes the
   first frame. Its writer is then busy writing that frame out, so the second
   broadcast finds nobody receiving and evicts the client.
   */
  lemma BusyWriterEvicted<H>(s: State<H>, h: H, m1: Frame, m2: Frame)
    requires Inv(s) && h in s.clients && IsRegistered(s, h)
    requires s.clients[h].send.capacity == 0 && s.clients[h].send.writerWaiting
    ensures var r := Run(s, [Bcast(m1), Bcast(m2)], AsWritten);
      && r.Running?
      && s.clients[h].id !in r.state.registry
      && r.state.clients[h].send.closed
      && r.state.clients[h].send.items == s.clients[h].send.items + [m1]
  {
    var evs := [Bcast(m1), Bcast(m2)];
    DeliveredAndKept(s, h, m1);
    RunUnfold(s, evs, AsWritten);
    assert evs[1..] == [Bcast(m2)];
    EvictedWhenBusy(Broadcast(s, m1), h, m2);
  }

  /**
   The same client, whose writer writes the first frame out and is back in its
   receive before the second broadcast, stays registered and gets the second frame.
   */
  lemma ReturningWriterKept<H>(s: State<H>, h: H, m1: Frame, m2: Frame)
    requires Inv(s) && h in s.clients && IsRegistered(s, h)
    requires s.clients[h].send == Queue([], 0, true, false)
    ensures var r := Run(s, [Bcast(m1), WriterNext(h), Bcast(m2)], AsWritten);
      && r.Running?
      && IsRegistered(r.state, h)
      && r.state.clients[h].send == Queue([m2], 0, false, false)
  {
    var evs := [Bcast(m1), WriterNext(h), Bcast(m2)];
    DeliveredAndKept(s, h, m1);
    RunUnfold(s, evs, AsWritten);
    assert evs[1..] == [WriterNext(h), Bcast(m2)];
    WroteThenBroadcast(Broadcast(s, m1), h, m2);
  }

  /** A broadcast to a registered client whose writer is waiting hands it the frame and keeps it registered. */
  lemma DeliveredAndKept<H>(s: State<H>, h: H, m: Frame)
    requires Inv(s) && h in s.clients && IsRegistered(s, h) && s.clients[h].send.writerWaiting
    ensures Step(s, Bcast(m), AsWritten) == Running(Broadcast(s, m))
    ensures var t := Broadcast(s, m);
      && Inv(t) && h in t.clients && IsRegistered(t, h)
      && t.clients[h].send == Deliver(s.clients[h].send, m)
  {
  }

  /** A broadcast to a registered client that cannot take the frame evicts it and closes its channel. */
  lemma EvictedWhenBusy<H>(s: State<H>, h: H, m: Frame)
    requires Inv(s) && h in s.clients && IsRegistered(s, h) && !CanSend(s.clients[h].send)
    ensures var r := Run(s, [Bcast(m)], AsWritten);
      && r.Running?
      && s.clients[h].id !in r.state.registry
      && r.state.clients[h].send == Close(s.clients[h].send)
  {
    assert Step(s, Bcast(m), AsWritten) == Running(Broadcast(s, m));
    assert Run(s, [Bcast(m)], AsWritten) == Run(Broadcast(s, m), [], AsWritten);
  }

  /** A writer that has written out its one frame parks again, and the next broadcast hands it a new one. */
  lemma WroteThenBroadcast<H>(s: State<H>, h: H, m: Frame)
    requires Inv(s) && h in s.clients && IsRegistered(s, h)
    requires s.clients[h].send.capacity == 0 && |s.clients[h].send.items| == 1
    ensures var r := Run(s, [WriterNext(h), Bcast(m)], AsWritten);
      && r.Running?
      && IsRegistered(r.state, h)
      && r.state.clients[h].send == s.clients[h].send.(items := [m], writerWaiting := false)
  {
    var u := Writer(s, h, Next(s.clients[h].send));
    assert Step(s, WriterNext(h), AsWritten) == Running(u);
    assert IsRegistered(u, h) && CanSend(u.clients[h].send) && Inv(u);
    var evs := [WriterNext(h), Bcast(m)];
    assert evs[1..] == [Bcast(m)];
    assert Step(u, Bcast(m), AsWritten) == Running(Broadcast(u, m));
    assert Run(u, [Bcast(m)], AsWritten) == Run(Broadcast(u, m), [], AsWritten);
  }

  /** A run that does not panic on its first event goes on from the state that event leaves. */
  lemma RunUnfold<H>(s: State<H>, evs: seq<Event<H>>, d: Discipline)
    requires WellFormed(s) && Covers(s, evs) && evs != [] && Step(s, evs[0], d).Running?
    ensures Covers(Step(s, evs[0], d).state, evs[1..])
    ensures Run(s, evs, d) == Run(Step(s, evs[0], d).state, evs[1..], d)
  {
    assert forall i | 0 <= i < |evs| - 1 :: evs[1..][i] == evs[i + 1];
  }

  predicate AllCoherent<H(==)>(s: State<H>) {
    forall h | h in s.clients :: Coherent(s.clients[h].send)
  }

  /**
   On a coherent unbuffered channel a send succeeds exactly when it is a
   hand-off to a parked writer with nothing left to write, and afterwards the
   channel holds just that frame and the writer is busy.
   */
  lemma UnbufferedSendIsHandOff(q: Queue, m: Frame)
    requires Coherent(q) && q.capacity == 0
    ensures CanSend(q) <==> !q.closed && q.writerWaiting && q.items == []
    ensures CanSend(q) ==> Deliver(q, m) == q.(items := [m], writerWaiting := false) && Coherent(Deliver(q, m))
  {
  }

  /** One turn keeps every channel coherent. */
  lemma StepKeepsCoherent<H>(s: State<H>, e: Event<H>, d: Discipline)
    requires WellFormed(s) && Known(s, e) && AllCoherent(s)
    ensures Step(s, e, d).Running? ==> AllCoherent(Step(s, e, d).state)
  {
    if e.Bcast? && Step(s, e, d).Running? {
      var t := Step(s, e, d).state;
      forall h | h in t.clients ensures Coherent(t.clients[h].send) {
        assert Coherent(s.clients[h].send);
      }
    }
  }

  /** Every run keeps every channel coherent. */
  lemma {:induction false} RunKeepsCoherent<H>(s: State<H>, evs: seq<Event<H>>, d: Discipline)
    requires WellFormed(s) && Covers(s, evs) && AllCoherent(s)
    ensures Run(s, evs, d).Running? ==> AllCoherent(Run(s, evs, d).state)
    decreases |evs|
  {
    if evs != [] {
      StepKeepsCoherent(s, evs[0], d);
      if Step(s, evs[0], d).Running? {
        RunUnfold(s, evs, d);
        RunKeepsCoherent(Step(s, evs[0], d).state, evs[1..], d);
      }
    }
  }

  /** The corrected unregister is idempotent. */
  lemma UnregisterCheckedIdempotent<H>(s: State<H>, h: H)
    requires Inv(s) && h in s.clients
    ensures UnregisterChecked(s, h).Running?
    ensures UnregisterChecked(UnregisterChecked(s, h).state, h) == UnregisterChecked(s, h)
  {
  }

  const HELLO: Frame := [0x68, 0x65, 0x6c, 0x6c, 0x6f]

  /**
   Alice, Bob and Carol are connected and the hub has just started; Alice's and
   Bob's writers wait on their unbuffered channels, Carol's writer is not in its receive. A
   broadcast of "hello" reaches Alice and Bob, evicts Carol, and Carol's
   unregister then panics.
   */
  lemma HelloScenario()
    ensures
      var ready := Queue([], 0, true, false);
      var busy := Queue([], 0, false, false);
      var s := State(map["alice" := 1, "bob" := 2, "carol" := 3],
                     map[1 := ClientState("alice", ready), 2 := ClientState("bob", ready), 3 := ClientState("carol", busy)]);
      var r := Run(s, [Bcast(HELLO)], AsWritten);
      && r.Running?
      && r.state.registry == map["alice" := 1, "bob" := 2]
      && r.state.clients[1].send.items == [HELLO]
      && r.state.clients[2].send.items == [HELLO]
      && r.state.clients[3].send == busy.(closed := true)
      && Run(s, [Bcast(HELLO), Unreg(3)], AsWritten) == Panicked(CloseOfClosedChannel)
  {
    var ready := Queue([], 0, true, false);
    var busy := Queue([], 0, false, false);
    var s := State(map["alice" := 1, "bob" := 2, "carol" := 3],
                   map[1 := ClientState("alice", ready), 2 := ClientState("bob", ready), 3 := ClientState("carol", busy)]);
    assert s.clients[1].id == "alice" && s.clients[2].id == "bob" && s.clients[3].id == "carol";
    assert s.registry["alice"] == 1 && s.registry["bob"] == 2 && s.registry["carol"] == 3;
    assert IsRegistered(s, 1) && IsRegistered(s, 2) && IsRegistered(s, 3);
    assert Inv(s);
    var t := Broadcast(s, HELLO);
    assert CanSend(s.clients[1].send) && CanSend(s.clients[2].send) && !CanSend(s.clients[3].send);
    assert t.registry.Keys == {"alice", "bob"};
    assert t.registry == map["alice" := 1, "bob" := 2];
    assert Step(s, Bcast(HELLO), AsWritten) == Running(t);
    assert Run(s, [Bcast(HELLO)], AsWritten) == Run(t, [], AsWritten);
    EvictionThenUnregister(s, 3, HELLO);
  }
}
