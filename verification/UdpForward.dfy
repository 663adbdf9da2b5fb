/** The forwarder's poll loops in place (rd-std/src/util/forward_udp.rs). Every poll is
    shown to be a sequence of steps of the state machine in UdpSessions. Endpoints are
    scripted oracles as in TcpRelay. */
module UdpForward {
  import opened Outcomes
  import opened Addresses
  import opened UdpRelay
  import opened UdpSessions
  import opened UdpConnections

  // ------------------------------------------------------------ the forwarder

  datatype Inbox = Inbox(queue: seq<Dgram>, open: bool)

  /** Offering one datagram to the session of its source, made on demand. */
  function Offered(table: map<SocketAddr, Inbox>, capacity: nat, from: SocketAddr, d: Dgram): map<SocketAddr, Inbox> {
    var box := if from in table then table[from] else Inbox([], true);
    table[from := if box.open && |box.queue| < capacity then box.(queue := box.queue + [d]) else box]
  }

  /** What happens while the forwarder looks for datagrams: one arrives, or a session
      vanishes from the table (expiry, or room is made for another). */
  datatype Event = Arrival(from: SocketAddr, to: SocketAddr, data: seq<Byte>) | Expiry(from: SocketAddr)

  function AsStep(e: Event): Step {
    match e
    case Arrival(from, to, data) => Recv(from, to, data)
    case Expiry(from) => Evict(from)
  }

  function Happened(table: map<SocketAddr, Inbox>, capacity: nat, e: Event): map<SocketAddr, Inbox> {
    match e
    case Arrival(from, _, _) => Offered(table, capacity, from, Incoming(AsStep(e)))
    case Expiry(from) => table - {from}
  }

  function OfferedAll(table: map<SocketAddr, Inbox>, capacity: nat, events: seq<Event>): map<SocketAddr, Inbox> {
    if events == [] then table
    else
      var n := |events| - 1;
      Happened(OfferedAll(table, capacity, events[..n]), capacity, events[n])
  }

  /** The datagrams of one source among those received. */
  function From(events: seq<Event>, a: SocketAddr): seq<Dgram> {
    if events == [] then []
    else
      var n := |events| - 1;
      From(events[..n], a) + if events[n].Arrival? && events[n].from == a then [Incoming(AsStep(events[n]))] else []
  }

  /** Which of the events are arrivals from `a`, oldest first. */
  ghost function ArrivedFrom(events: seq<Event>, a: SocketAddr): seq<nat> {
    if events == [] then []
    else
      var n := |events| - 1;
      ArrivedFrom(events[..n], a) + if IsFrom(events[n], a) then [n] else []
  }

  ghost predicate IsFrom(e: Event, a: SocketAddr) { e.Arrival? && e.from == a }

  /** `d` is what arrived, cut to the receive buffer, with the address it was sent to. */
  ghost predicate CarriesEvent(d: Datagram, e: Event) {
    e.Arrival? && d.addr == Socket(e.to) && FirstBytes(d.data, e.data, 8192)
  }

  /** The datagrams of a source are those that arrived from it. */
  lemma {:induction false} FromIsArrived(events: seq<Event>, a: SocketAddr)
    ensures Ascending(ArrivedFrom(events, a))
    ensures forall n :: n in ArrivedFrom(events, a) <==> 0 <= n < |events| && IsFrom(events[n], a)
    ensures CarryEvents(From(events, a), events, ArrivedFrom(events, a))
  {
    if events != [] {
      var n := |events| - 1;
      FromIsArrived(events[..n], a);
      var ds, at := From(events[..n], a), ArrivedFrom(events[..n], a);
      forall k | 0 <= k < |at| ensures at[k] < n && CarriesEvent(ds[k], events[at[k]]) {
        assert at[k] in at && CarriesEvent(ds[k], events[..n][at[k]]);
      }
    }
  }

  ghost predicate CarryEvents(ds: seq<Dgram>, events: seq<Event>, at: seq<nat>) {
    |ds| == |at| && forall k :: 0 <= k < |ds| ==> at[k] < |events| && CarriesEvent(ds[k], events[at[k]])
  }

  function QueueOf(table: map<SocketAddr, Inbox>, a: SocketAddr): seq<Dgram> {
    if a in table then table[a].queue else []
  }

  /** From `table` to `t` the session of `a` was given `more`, some of `sent` in order,
      and never more than its channel holds; if nothing was sent it is as it was. */
  ghost predicate Given(table: map<SocketAddr, Inbox>, t: map<SocketAddr, Inbox>, capacity: nat, a: SocketAddr,
                        sent: seq<Dgram>, more: seq<Dgram>) {
    && Subseq(more, sent) && QueueOf(t, a) == QueueOf(table, a) + more
    && (sent == [] ==> (a in t <==> a in table) && (a in t ==> t[a] == table[a]))
    && (|QueueOf(table, a)| <= capacity ==> |QueueOf(t, a)| <= capacity)
  }

  lemma OfferedQueue(t: map<SocketAddr, Inbox>, capacity: nat, a: SocketAddr, d: Dgram)
    ensures var u := Offered(t, capacity, a, d);
            || QueueOf(u, a) == QueueOf(t, a)
            || (QueueOf(u, a) == QueueOf(t, a) + [d] && |QueueOf(t, a)| < capacity)
  {
  }

  lemma GivenOne(table: map<SocketAddr, Inbox>, t: map<SocketAddr, Inbox>, capacity: nat, a: SocketAddr,
                 sent: seq<Dgram>, more: seq<Dgram>, d: Dgram)
    requires Given(table, t, capacity, a, sent, more)
    ensures var u := Offered(t, capacity, a, d);
            Given(table, u, capacity, a, sent + [d], more) || Given(table, u, capacity, a, sent + [d], more + [d])
  {
    var u := Offered(t, capacity, a, d);
    SubseqGrows(more, sent, d);
    OfferedQueue(t, capacity, a, d);
    assert sent + [d] != [];
    if QueueOf(u, a) == QueueOf(t, a) {
      assert Given(table, u, capacity, a, sent + [d], more);
    } else {
      assert QueueOf(table, a) + more + [d] == QueueOf(table, a) + (more + [d]);
      assert Given(table, u, capacity, a, sent + [d], more + [d]);
    }
  }

  /** Each session that does not vanish is given a subsequence of its own source's
      datagrams. */
  lemma {:induction false} OfferedInOrder(table: map<SocketAddr, Inbox>, capacity: nat, events: seq<Event>, a: SocketAddr)
    requires Expiry(a) !in events
    ensures exists more :: Given(table, OfferedAll(table, capacity, events), capacity, a, From(events, a), more)
    decreases |events|
  {
    if events == [] {
      assert QueueOf(table, a) + [] == QueueOf(table, a);
      assert Given(table, OfferedAll(table, capacity, events), capacity, a, From(events, a), []);
    } else {
      var n := |events| - 1;
      var before, after := OfferedAll(table, capacity, events[..n]), OfferedAll(table, capacity, events);
      assert after == Happened(before, capacity, events[n]);
      OfferedInOrder(table, capacity, events[..n], a);
      var more :| Given(table, before, capacity, a, From(events[..n], a), more);
      GivenNext(table, before, capacity, a, From(events[..n], a), more, events[n]);
      assert From(events, a)
             == From(events[..n], a) + if events[n].Arrival? && events[n].from == a then [Incoming(AsStep(events[n]))] else [];
    }
  }

  lemma GivenNext(table: map<SocketAddr, Inbox>, t: map<SocketAddr, Inbox>, capacity: nat, a: SocketAddr,
                  sent: seq<Dgram>, more: seq<Dgram>, e: Event)
    requires Given(table, t, capacity, a, sent, more) && e != Expiry(a)
    ensures var all := sent + if e.Arrival? && e.from == a then [Incoming(AsStep(e))] else [];
            exists most :: Given(table, Happened(t, capacity, e), capacity, a, all, most)
  {
    if e.Arrival? && e.from == a {
      GivenOne(table, t, capacity, a, sent, more, Incoming(AsStep(e)));
    } else {
      assert sent + [] == sent;
      assert Given(table, Happened(t, capacity, e), capacity, a, sent, more);
    }
  }

  // ------------------------------------------------------------ the table in the state machine

  /** The forwarder's view of the sessions: the channel of each source that has one. */
  ghost function Boxes(w: World): map<SocketAddr, Inbox>
    requires TableOk(w)
  {
    map a | a in w.table :: BoxOf(w, a)
  }

  ghost function BoxOf(w: World, a: SocketAddr): Inbox
    requires TableOk(w) && a in w.table
  {
    assert Newest(w.sessions, w.table[a], a);
    var s := w.sessions[w.table[a]];
    Inbox(s.inbox, s.alive)
  }

  lemma ArrivalAtKnown(w: World, from: SocketAddr, d: Dgram, capacity: nat)
    requires TableOk(w) && from in w.table
    ensures var v := Received(w, from, d, capacity);
            TableOk(v) && Boxes(v) == Offered(Boxes(w), capacity, from, d)
  {
    var v, id := Received(w, from, d, capacity), w.table[from];
    ReceiveKeepsTable(w, from, d, capacity);
    assert Newest(w.sessions, id, from) && w.sessions[id].inbox + [] == w.sessions[id].inbox;
    assert BoxOf(v, from) == Offered(Boxes(w), capacity, from, d)[from];
    forall a | a in w.table && a != from
      ensures BoxOf(v, a) == BoxOf(w, a)
    {
      assert Newest(w.sessions, w.table[a], a);
    }
  }

  lemma OldBoxesStay(w: World, v: World, s: Session, from: SocketAddr, a: SocketAddr)
    requires TableOk(w) && TableOk(v) && a in w.table && from !in w.table
    requires v.sessions == w.sessions + [s] && v.table == w.table[from := |w.sessions|]
    ensures BoxOf(v, a) == BoxOf(w, a)
  {
    assert Newest(w.sessions, w.table[a], a);
  }

  lemma NewBox(w: World, v: World, s: Session, from: SocketAddr)
    requires TableOk(w) && TableOk(v) && from !in w.table
    requires v.sessions == w.sessions + [s] && v.table == w.table[from := |w.sessions|]
    ensures Boxes(v) == Boxes(w)[from := Inbox(s.inbox, s.alive)]
  {
    forall a | a in w.table ensures BoxOf(v, a) == BoxOf(w, a) {
      OldBoxesStay(w, v, s, from, a);
    }
  }

  lemma ArrivalAtNew(w: World, from: SocketAddr, d: Dgram, capacity: nat)
    requires TableOk(w) && from !in w.table
    ensures var v := Received(w, from, d, capacity);
            TableOk(v) && Boxes(v) == Offered(Boxes(w), capacity, from, d)
  {
    var s := Delivered(NewSession(from), d, capacity);
    ReceiveKeepsTable(w, from, d, capacity);
    NewBox(w, Received(w, from, d, capacity), s, from);
    assert [] + [d] == [d];
  }

  /** An arrival is a Recv step, the vanishing of a session an Evict step. */
  lemma HappenedIsStep(w: World, e: Event, capacity: nat)
    requires TableOk(w) && (e.Expiry? ==> e.from in w.table)
    ensures Enabled(w, AsStep(e), capacity) && TableOk(Do(w, AsStep(e), capacity))
    ensures Boxes(Do(w, AsStep(e), capacity)) == Happened(Boxes(w), capacity, e)
  {
    if e.Arrival? {
      if e.from in w.table {
        ArrivalAtKnown(w, e.from, Incoming(AsStep(e)), capacity);
      } else {
        ArrivalAtNew(w, e.from, Incoming(AsStep(e)), capacity);
      }
    }
  }

  datatype RecvOutcome =
    | Arrives(from: SocketAddr, to: SocketAddr, data: seq<Byte>)
    | Vanishes(from: SocketAddr)
    | RecvWaits
    | RecvFails

  /** What happens before the source first waits or fails. */
  function Events(script: seq<RecvOutcome>): seq<Event> {
    if script == [] then []
    else
      match script[0]
      case Arrives(from, to, data) => [Arrival(from, to, data)] + Events(script[1..])
      case Vanishes(from) => [Expiry(from)] + Events(script[1..])
      case _ => []
  }

  /** What the source has to say after it first waited or failed. */
  function Unheard(script: seq<RecvOutcome>): seq<RecvOutcome> {
    if script == [] then []
    else if script[0].RecvWaits? || script[0].RecvFails? then script[1..]
    else Unheard(script[1..])
  }

  function EventOf(o: RecvOutcome): Event
    requires o.Arrives? || o.Vanishes?
  {
    if o.Arrives? then Arrival(o.from, o.to, o.data) else Expiry(o.from)
  }

  lemma EventsNext(got: seq<Event>, script: seq<RecvOutcome>)
    requires script != [] && (script[0].Arrives? || script[0].Vanishes?)
    ensures got + Events(script) == got + [EventOf(script[0])] + Events(script[1..])
    ensures ArrivalsFail(script) == ArrivalsFail(script[1..]) && Unheard(script) == Unheard(script[1..])
  {
    assert got + ([EventOf(script[0])] + Events(script[1..])) == got + [EventOf(script[0])] + Events(script[1..]);
  }

  predicate ArrivalsFail(script: seq<RecvOutcome>) {
    script != [] && !script[0].RecvWaits? && (script[0].RecvFails? || ArrivalsFail(script[1..]))
  }

  lemma OfferedNext(table: map<SocketAddr, Inbox>, capacity: nat, events: seq<Event>, e: Event)
    ensures OfferedAll(table, capacity, events + [e]) == Happened(OfferedAll(table, capacity, events), capacity, e)
  {
    assert (events + [e])[..|events|] == events;
  }

  ghost function RecvSteps(steps: seq<Step>): seq<Step> {
    if steps == [] then []
    else
      var n := |steps| - 1;
      RecvSteps(steps[..n]) + if steps[n].Recv? then [steps[n]] else []
  }

  ghost function Arrived(events: seq<Event>): seq<Step> {
    if events == [] then []
    else
      var n := |events| - 1;
      Arrived(events[..n]) + if events[n].Arrival? then [Recv(events[n].from, events[n].to, events[n].data)] else []
  }

  /** The steps taken so far have brought in exactly the arrivals among the events, each as
      it arrived and in order. */
  ghost predicate BroughtIn(steps: seq<Step>, events: seq<Event>) { RecvSteps(steps) == Arrived(events) }

  lemma BroughtInNext(steps: seq<Step>, events: seq<Event>, e: Event)
    requires BroughtIn(steps, events)
    ensures BroughtIn(steps + [AsStep(e)], events + [e]) && (e.Expiry? ==> BroughtIn(steps, events + [e]))
  {
    assert (steps + [AsStep(e)])[..|steps|] == steps && (events + [e])[..|events|] == events;
  }

  lemma OthersBringNothing(steps: seq<Step>, step: Step, events: seq<Event>)
    requires BroughtIn(steps, events) && !step.Recv?
    ensures BroughtIn(steps + [step], events)
  {
    assert (steps + [step])[..|steps|] == steps;
  }

  /** Packets are kept with the session that sent them, which the code does not look at. */
  class ForwardUdp {
    const capacity: nat
    var sessions: map<SocketAddr, Inbox>
    var back: seq<Tagged>               // the shared channel; it stays open, as `self` holds a sender
    var sendBuf: Option<Tagged>
    var recvScript: seq<RecvOutcome>
    var sendScript: seq<SenderOutcome>
    ghost var handed: seq<Tagged>       // packets the source has accepted
    ghost var waiting: bool             // the last poll_send was Pending
    ghost var failing: bool             // or an error
    ghost var failures: nat             // errors of poll_send so far
    ghost var polls: nat                // calls of poll_send
    ghost var world: World              // what this is in the state machine,
    ghost var polled: World             // what it was when the last poll began,
    ghost var steps: seq<Step>          // and what the forwarder has done since

    /** The forwarder's fields are those of the state machine. */
    ghost predicate Matches()
      reads this
    {
      TableOk(world) && sessions == Boxes(world) && back == world.back && sendBuf == world.sendBuf && handed == world.handed
    }

    ghost predicate Valid()
      reads this
    {
      Matches() && DoAll(polled, steps, capacity) == Some(world)
    }

    /** A datagram goes to the session of its source, made on demand, and is dropped if
        that cannot take it; a session that has vanished is forgotten. */
    method Take(e: Event, ghost events: seq<Event>)
      requires Valid() && BroughtIn(steps, events)
      modifies this`sessions, this`world, this`steps
      ensures Valid() && BroughtIn(steps, events + [e])
      ensures sessions == Happened(old(sessions), capacity, e)
    {
      BroughtInNext(steps, events, e);
      if e.Arrival? || e.from in world.table {
        HappenedIsStep(world, e, capacity);
        OneMoreStep(polled, steps, world, AsStep(e), capacity);
        world, steps := Do(world, AsStep(e), capacity), steps + [AsStep(e)];
      } else {
        assert sessions - {e.from} == sessions;
      }
      sessions := Happened(sessions, capacity, e);
    }

    /** Takes in everything that has arrived, until the source waits or fails. */
    method PollRecvPacket() returns (r: Poll<()>)
      requires Valid() && steps == []
      modifies this`sessions, this`recvScript, this`world, this`steps
      ensures Valid() && BroughtIn(steps, Events(old(recvScript)))
      ensures r == if ArrivalsFail(old(recvScript)) then Failed else Pending
      ensures recvScript == Unheard(old(recvScript))
      ensures sessions == OfferedAll(old(sessions), capacity, Events(old(recvScript)))
    {
      ghost var got: seq<Event> := [];
      while true
        invariant Valid() && BroughtIn(steps, got)
        invariant sessions == OfferedAll(old(sessions), capacity, got)
        invariant Events(old(recvScript)) == got + Events(recvScript)
        invariant ArrivalsFail(old(recvScript)) == ArrivalsFail(recvScript)
        invariant Unheard(old(recvScript)) == Unheard(recvScript)
        decreases |recvScript|
      {
        assert got + [] == got;
        if recvScript == [] {
          return Pending;
        }
        if recvScript[0].RecvWaits? || recvScript[0].RecvFails? {
          var failed := recvScript[0].RecvFails?;
          recvScript := recvScript[1..];
          return if failed then Failed else Pending;
        }
        var e := EventOf(recvScript[0]);
        EventsNext(got, recvScript);
        recvScript := recvScript[1..];
        Take(e, got);
        OfferedNext(old(sessions), capacity, got, e);
        got := got + [e];
      }
    }

    ghost function Passing(): seq<Tagged>
      reads this
    {
      handed + Listed(sendBuf) + back
    }

    ghost method Note(step: Step, events: seq<Event>)
      requires DoAll(polled, steps, capacity) == Some(world) && Enabled(world, step, capacity)
      requires BroughtIn(steps, events) && !step.Recv?
      modifies this`world, this`steps
      ensures DoAll(polled, steps, capacity) == Some(world) && BroughtIn(steps, events)
      ensures world == Do(old(world), step, capacity)
    {
      OneMoreStep(polled, steps, world, step, capacity);
      OthersBringNothing(steps, step, events);
      world, steps := Do(world, step, capacity), steps + [step];
    }

    /** Hands one packet back, or takes the next one out of the channel; Pending or an
        error leaves everything as it is. */
    method SendOne(ghost events: seq<Event>) returns (r: Poll<()>)
      requires Valid() && BroughtIn(steps, events)
      modifies this`sendBuf, this`back, this`sendScript, this`handed, this`waiting, this`failing, this`failures, this`polls
      modifies this`world, this`steps
      ensures Valid() && BroughtIn(steps, events)
      ensures Passing() == old(Passing()) && old(handed) <= handed && polls >= old(polls)
      ensures r.Ready? ==> 2 * |back| + |Listed(sendBuf)| < old(2 * |back| + |Listed(sendBuf)|)
      ensures r.Pending? ==> (sendBuf.Some? && waiting && polls > old(polls)) || (sendBuf.None? && back == [])
      ensures r.Failed? ==> sendBuf.Some? && failing && polls > old(polls)
      ensures failures == old(failures) + if r.Failed? then 1 else 0
    {
      match sendBuf
      case Some(packet) =>
        r := PollSend(packet);
        if r.Ready? {
          Note(Hand, events);
          sendBuf := None;
          MovesOn(old(handed), packet, back);
        }
      case None =>
        if back == [] {
          return Pending;
        }
        assert back == [back[0]] + back[1..];
        MovesOn(handed, back[0], back[1..]);
        Note(Pull, events);
        sendBuf, back := Some(back[0]), back[1..];
        return Ready(());
    }

    /** Hands packets back one by one. A packet the source is not ready for stays in
        `sendBuf`: nothing is lost, repeated or reordered, also on error. */
    method PollSendBack(ghost events: seq<Event>) returns (r: Poll<()>)
      requires Valid() && BroughtIn(steps, events)
      modifies this`sendBuf, this`back, this`sendScript, this`handed, this`waiting, this`failing, this`failures, this`polls
      modifies this`world, this`steps
      ensures Valid() && BroughtIn(steps, events) && !r.Ready?
      ensures Passing() == old(Passing()) && old(handed) <= handed
      ensures r.Pending? ==> (sendBuf.Some? && waiting && polls > old(polls)) || (sendBuf.None? && back == [])
      ensures r.Failed? ==> sendBuf.Some? && failing && polls > old(polls)
      ensures failures == old(failures) + if r.Failed? then 1 else 0
    {
      while true
        invariant Valid() && BroughtIn(steps, events)
        invariant Passing() == old(Passing()) && old(handed) <= handed && polls >= old(polls) && failures == old(failures)
        decreases 2 * |back| + |Listed(sendBuf)|
      {
        r := SendOne(events);
        if !r.Ready? {
          return;
        }
      }
    }

    /** The source's own poll_send. */
    method PollSend(packet: Tagged) returns (r: Poll<()>)
      modifies this`sendScript, this`handed, this`waiting, this`failing, this`failures, this`polls
      ensures handed == old(handed) + if r.Ready? then [packet] else []
      ensures waiting == r.Pending? && failing == r.Failed? && polls == old(polls) + 1
      ensures failures == old(failures) + if r.Failed? then 1 else 0
    {
      var next := if sendScript == [] then Waits else sendScript[0];
      sendScript := if sendScript == [] then [] else sendScript[1..];
      r := match next case Goes => Ready(()) case Waits => Pending case Breaks => Failed;
      waiting, failing, polls := r.Pending?, r.Failed?, polls + 1;
      failures := failures + if r.Failed? then 1 else 0;
      if r.Ready? {
        handed := handed + [packet];
      }
    }

    /** One poll of the forwarder is a sequence of steps of the whole, which bring in
        exactly what arrived. It never completes: Pending means that nothing is left to hand
        back or that the source waits, and the first error of either direction ends it. */
    method Poll() returns (r: Poll<()>)
      requires Matches()
      modifies this
      ensures Valid() && !r.Ready? && polled == old(world)
      ensures BroughtIn(steps, Events(old(recvScript)))
      ensures sessions == OfferedAll(old(sessions), capacity, Events(old(recvScript)))
      ensures Passing() == old(Passing()) && old(handed) <= handed
      ensures recvScript == Unheard(old(recvScript))
      ensures r.Pending? ==>
                && ((sendBuf.Some? && waiting && polls > old(polls)) || (sendBuf.None? && back == []))
                && !ArrivalsFail(old(recvScript)) && failures == old(failures)
      ensures r.Failed? ==>
                || (ArrivalsFail(old(recvScript)) && failures == old(failures))
                || (!ArrivalsFail(old(recvScript)) && failing && failures == old(failures) + 1)
    {
      polled, steps := world, [];
      var aToB := PollRecvPacket();
      if aToB.Failed? {
        return Failed;
      }
      var bToA := PollSendBack(Events(old(recvScript)));
      if bToA.Failed? {
        return Failed;
      }
      return if aToB.Pending? && bToA.Pending? then Pending else Ready(());
    }
  }
}
