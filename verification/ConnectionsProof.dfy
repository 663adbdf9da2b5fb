/** The accounting protocol under every interleaving: any number of connections count,
    flush and drop on their own; one consumer applies queued events one at a time; stop
    requests come at any moment. */
module ConnectionsProof {
  import opened Addresses
  import opened MapSums
  import opened Connections
  import opened Repeats

  /** `live`, `closing` (being dropped: counts flushed, Close not yet sent), `queue` and
      `mgr` are the system; the rest is history: events already applied, bytes ever
      counted by each connection, and stop signals delivered. */
  datatype System = System(
    live: map<Uuid, Counters>,
    closing: set<Uuid>,
    queue: seq<Item>,
    mgr: Manager,
    applied: seq<Item>,
    everUp: map<Uuid, nat>,
    everDown: map<Uuid, nat>,
    stops: seq<Uuid>)

  datatype Step =
    | Create(u: Uuid, protocol: Protocol, addr: Address)
    | Count(u: Uuid, e: EventType)
    | Heartbeat(u: Uuid, events: seq<EventType>)
    | Drop(u: Uuid, events: seq<EventType>)        // the first batch that drop sends
    | SendClose(u: Uuid)                            // and the second
    | Consume
    | Stop(u: Uuid)

  const INIT: System := System(map[], {}, [], Manager(map[], 0, 0), [], map[], map[], [])

  function Ever(dir: Dir, s: System): map<Uuid, nat> { if dir == Up then s.everUp else s.everDown }

  /** Connections that can still be told to stop. */
  function Alive(s: System): set<Uuid> { s.live.Keys + s.closing }

  ghost predicate Enabled(s: System, step: Step) {
    match step
    case Create(u, _, _) => u !in s.everUp
    case Count(u, e) => u in s.live && Fits(s.live[u], e)
    case Heartbeat(u, events) => u in s.live && IsFlush(s.live[u], events)
    case Drop(u, events) => u in s.live && IsFlush(s.live[u], events)
    case SendClose(u) => u in s.closing
    case Consume => s.queue != []
    case Stop(_) => true
  }

  function Bump(m: map<Uuid, nat>, u: Uuid, n: nat): map<Uuid, nat> {
    m[u := n + if u in m then m[u] else 0]
  }

  function Do(s: System, step: Step): System
    requires Enabled(s, step)
  {
    match step
    case Create(u, p, addr) =>
      s.(live := s.live[u := Zero(p)],
         queue := s.queue + Tagged(u, [NewEvent(p, addr), SetStopper(u)]),
         everUp := s.everUp[u := 0], everDown := s.everDown[u := 0])
    case Count(u, e) =>
      s.(live := s.live[u := Counted(s.live[u], e)],
         everUp := Bump(s.everUp, u, Amount(Up, e)), everDown := Bump(s.everDown, u, Amount(Down, e)))
    case Heartbeat(u, events) =>
      s.(live := s.live[u := Zero(ProtocolOf(s.live[u]))], queue := s.queue + Tagged(u, events))
    case Drop(u, events) =>
      s.(live := s.live - {u}, closing := s.closing + {u}, queue := s.queue + Tagged(u, events))
    case SendClose(u) =>
      s.(closing := s.closing - {u}, queue := s.queue + Tagged(u, [CloseConnection]))
    case Consume =>
      var item := s.queue[0];
      s.(queue := s.queue[1..], applied := s.applied + [item], mgr := Apply(s.mgr, item.uuid, item.event))
    case Stop(u) =>
      s.(mgr := Stopped(s.mgr, u), stops := if CanStop(s.mgr, Alive(s), u) then s.stops + [u] else s.stops)
  }

  // ------------------------------------------------------------ event order

  datatype Phase = Absent | Opened | Running | Closed | Broken

  function StepPhase(p: Phase, item: Item, u: Uuid): Phase {
    if item.uuid != u then p
    else if p == Absent && IsNew(item.event) then Opened
    else if p == Opened && item.event == SetStopper(u) then Running
    else if p == Running && IsCount(item.event) then Running
    else if p == Running && item.event == CloseConnection then Closed
    else Broken
  }

  function PhaseFrom(p: Phase, items: seq<Item>, u: Uuid): Phase
    decreases |items|
  {
    if items == [] then p else PhaseFrom(StepPhase(p, items[0], u), items[1..], u)
  }

  function PhaseOf(items: seq<Item>, u: Uuid): Phase { PhaseFrom(Absent, items, u) }

  lemma {:induction false} PhaseAppend(p: Phase, a: seq<Item>, b: seq<Item>, u: Uuid)
    ensures PhaseFrom(p, a + b, u) == PhaseFrom(PhaseFrom(p, a, u), b, u)
    decreases |a|
  {
    if a == [] {
      assert a + b == b;
    } else {
      assert (a + b)[1..] == a[1..] + b;
      PhaseAppend(StepPhase(p, a[0], u), a[1..], b, u);
    }
  }

  lemma {:induction false} BrokenStays(items: seq<Item>, u: Uuid)
    ensures PhaseFrom(Broken, items, u) == Broken
  {
    if items != [] { BrokenStays(items[1..], u); }
  }

  lemma {:induction false} PhaseOfCounts(u: Uuid, events: seq<EventType>)
    requires forall i :: 0 <= i < |events| ==> IsCount(events[i])
    ensures PhaseFrom(Running, Tagged(u, events), u) == Running
  {
    if events != [] {
      assert Tagged(u, events)[1..] == Tagged(u, events[1..]);
      PhaseOfCounts(u, events[1..]);
    }
  }

  lemma {:induction false} PhaseOfOthers(p: Phase, u: Uuid, events: seq<EventType>, v: Uuid)
    requires u != v
    ensures PhaseFrom(p, Tagged(u, events), v) == p
  {
    if events != [] {
      assert Tagged(u, events)[1..] == Tagged(u, events[1..]);
      PhaseOfOthers(p, u, events[1..], v);
    }
  }

  /** The events of one connection, in order. */
  function Project(items: seq<Item>, u: Uuid): seq<EventType> {
    if items == [] then []
    else
      var n := |items| - 1;
      Project(items[..n], u) + if items[n].uuid == u then [items[n].event] else []
  }

  ghost predicate RunningShape(p: seq<EventType>) {
    |p| >= 2 && IsNew(p[0]) && p[1].SetStopper? && forall i :: 2 <= i < |p| ==> IsCount(p[i])
  }

  ghost predicate Shape(p: seq<EventType>, phase: Phase) {
    match phase
    case Absent => p == []
    case Opened => |p| == 1 && IsNew(p[0])
    case Running => RunningShape(p)
    case Closed => |p| >= 3 && RunningShape(p[..|p| - 1]) && p[|p| - 1] == CloseConnection
    case Broken => true
  }

  lemma ShapeStep(p: seq<EventType>, phase: Phase, e: EventType, u: Uuid)
    requires Shape(p, phase)
    ensures Shape(p + [e], StepPhase(phase, Item(u, e), u))
  {
    assert (p + [e])[..|p|] == p;
  }

  /** An unbroken phase says that the events so far are a beginning of New, SetStopper,
      counts, Close. */
  lemma {:induction false} PhaseIsShape(items: seq<Item>, u: Uuid)
    ensures Shape(Project(items, u), PhaseOf(items, u))
  {
    if items != [] {
      var n := |items| - 1;
      var before, last := items[..n], items[n];
      PhaseIsShape(before, u);
      assert items == before + [last];
      PhaseAppend(Absent, before, [last], u);
      assert PhaseOf(items, u) == StepPhase(PhaseOf(before, u), last, u);
      if last.uuid == u {
        ShapeStep(Project(before, u), PhaseOf(before, u), last.event, u);
      } else {
        assert Project(items, u) == Project(before, u);
      }
    }
  }

  /** What the whole trace of a connection has come to. */
  function Expected(s: System, u: Uuid): Phase {
    if u in Alive(s) then Running else if u in s.everUp then Closed else Absent
  }

  ghost predicate OrderInv(s: System) {
    && s.everUp.Keys == s.everDown.Keys && Alive(s) <= s.everUp.Keys && s.live.Keys !! s.closing
    && (forall u :: PhaseOf(s.applied + s.queue, u) == Expected(s, u))
  }

  /** The manager's map holds exactly the connections whose applied events are open. */
  ghost predicate MapInv(s: System) {
    forall u :: u in s.mgr.connections <==> PhaseOf(s.applied, u).Opened? || PhaseOf(s.applied, u).Running?
  }

  lemma SendKeepsOrder(s: System, u: Uuid, events: seq<EventType>, v: Uuid)
    requires OrderInv(s)
    ensures PhaseOf(s.applied + (s.queue + Tagged(u, events)), v) == PhaseFrom(Expected(s, v), Tagged(u, events), v)
    ensures u != v ==> PhaseOf(s.applied + (s.queue + Tagged(u, events)), v) == Expected(s, v)
  {
    assert s.applied + (s.queue + Tagged(u, events)) == s.applied + s.queue + Tagged(u, events);
    PhaseAppend(Absent, s.applied + s.queue, Tagged(u, events), v);
    if u != v { PhaseOfOthers(Expected(s, v), u, events, v); }
  }

  lemma CloseEnds(u: Uuid)
    ensures PhaseFrom(Running, Tagged(u, [CloseConnection]), u) == Closed
  {
    var items := Tagged(u, [CloseConnection]);
    assert items[1..] == [] && PhaseFrom(Closed, [], u) == Closed;
  }

  lemma OpenThenRunning(u: Uuid, p: Protocol, addr: Address)
    ensures PhaseFrom(Absent, Tagged(u, [NewEvent(p, addr), SetStopper(u)]), u) == Running
  {
    var items := Tagged(u, [NewEvent(p, addr), SetStopper(u)]);
    assert items[1..] == [items[1]] && items[1..][1..] == [];
    assert PhaseFrom(Opened, items[1..], u) == PhaseFrom(Running, [], u);
    assert PhaseFrom(Absent, items, u) == PhaseFrom(Opened, items[1..], u);
  }

  lemma StepKeepsOrder(s: System, step: Step)
    requires OrderInv(s) && Enabled(s, step)
    ensures OrderInv(Do(s, step))
  {
    var t := Do(s, step);
    forall v
      ensures PhaseOf(t.applied + t.queue, v) == Expected(t, v)
    {
      match step
      case Create(u, p, addr) =>
        SendKeepsOrder(s, u, [NewEvent(p, addr), SetStopper(u)], v);
        OpenThenRunning(u, p, addr);
      case Count(_, _) =>
      case Heartbeat(u, events) =>
        SendKeepsOrder(s, u, events, v);
        PhaseOfCounts(u, events);
      case Drop(u, events) =>
        SendKeepsOrder(s, u, events, v);
        PhaseOfCounts(u, events);
      case SendClose(u) =>
        SendKeepsOrder(s, u, [CloseConnection], v);
        CloseEnds(u);
      case Consume =>
        assert t.applied + t.queue == s.applied + s.queue;
      case Stop(_) =>
    }
  }

  /** The next event is always in order for its connection. */
  lemma NextInOrder(s: System)
    requires OrderInv(s) && s.queue != []
    ensures var item := s.queue[0];
            && PhaseOf(s.applied + [item], item.uuid) == StepPhase(PhaseOf(s.applied, item.uuid), item, item.uuid)
            && !StepPhase(PhaseOf(s.applied, item.uuid), item, item.uuid).Broken?
            && (forall v :: v != item.uuid ==> PhaseOf(s.applied + [item], v) == PhaseOf(s.applied, v))
  {
    var item := s.queue[0];
    forall v ensures PhaseOf(s.applied + [item], v) == StepPhase(PhaseOf(s.applied, v), item, v) {
      PhaseAppend(Absent, s.applied, [item], v);
    }
    var u := item.uuid;
    PhaseAppend(Absent, s.applied, s.queue, u);
    assert PhaseFrom(PhaseOf(s.applied, u), s.queue, u)
           == PhaseFrom(StepPhase(PhaseOf(s.applied, u), item, u), s.queue[1..], u);
    BrokenStays(s.queue[1..], u);
    assert !Expected(s, u).Broken?;
  }

  lemma StepKeepsMap(s: System, step: Step)
    requires OrderInv(s) && MapInv(s) && Enabled(s, step)
    ensures MapInv(Do(s, step))
  {
    if step.Consume? {
      NextInOrder(s);
    }
  }

  // ------------------------------------------------------------ conservation

  ghost function Queued(dir: Dir, q: seq<Item>): nat {
    if q == [] then 0 else Amount(dir, q[0].event) + Queued(dir, q[1..])
  }

  ghost function QueuedOf(dir: Dir, q: seq<Item>, u: Uuid): nat {
    if q == [] then 0 else (if q[0].uuid == u then Amount(dir, q[0].event) else 0) + QueuedOf(dir, q[1..], u)
  }

  lemma {:induction false} QueuedAppend(dir: Dir, a: seq<Item>, b: seq<Item>, u: Uuid)
    ensures Queued(dir, a + b) == Queued(dir, a) + Queued(dir, b)
    ensures QueuedOf(dir, a + b, u) == QueuedOf(dir, a, u) + QueuedOf(dir, b, u)
  {
    if a == [] {
      assert a + b == b;
    } else {
      assert (a + b)[1..] == a[1..] + b;
      QueuedAppend(dir, a[1..], b, u);
    }
  }

  lemma {:induction false} QueuedTagged(dir: Dir, u: Uuid, events: seq<EventType>, v: Uuid)
    ensures Queued(dir, Tagged(u, events)) == Amounts(dir, events)
    ensures QueuedOf(dir, Tagged(u, events), v) == if u == v then Amounts(dir, events) else 0
  {
    if events != [] {
      assert Tagged(u, events)[1..] == Tagged(u, events[1..]);
      QueuedTagged(dir, u, events[1..], v);
    }
  }

  ghost function HeldMap(dir: Dir, live: map<Uuid, Counters>): map<Uuid, nat> {
    map u | u in live :: Held(dir, live[u])
  }

  /** Bytes ever counted: in the manager's total, in queued events, or still held. */
  ghost predicate TotalInv(dir: Dir, s: System) {
    Sum(Ever(dir, s)) == Total(dir, s.mgr) + Queued(dir, s.queue) + Sum(HeldMap(dir, s.live))
  }

  ghost function Recorded(dir: Dir, s: System, u: Uuid): nat {
    if u in s.mgr.connections then InfoCount(dir, s.mgr.connections[u]) else 0
  }

  ghost function HeldBy(dir: Dir, s: System, u: Uuid): nat {
    if u in s.live then Held(dir, s.live[u]) else 0
  }

  /** The same for each connection on its own, until its Close has been applied. */
  ghost predicate EachInv(dir: Dir, s: System) {
    forall u :: EachAt(dir, s, u)
  }

  ghost predicate EachAt(dir: Dir, s: System, u: Uuid) {
    u in Ever(dir, s) && !PhaseOf(s.applied, u).Closed? ==>
      Ever(dir, s)[u] == Recorded(dir, s, u) + QueuedOf(dir, s.queue, u) + HeldBy(dir, s, u)
  }

  lemma ZeroHolds(dir: Dir, p: Protocol)
    ensures Held(dir, Zero(p)) == 0
  {
  }

  /** What sending some events of one connection does to the amounts queued. */
  lemma SendAmounts(dir: Dir, q: seq<Item>, u: Uuid, events: seq<EventType>, v: Uuid)
    ensures Queued(dir, q + Tagged(u, events)) == Queued(dir, q) + Amounts(dir, events)
    ensures QueuedOf(dir, q + Tagged(u, events), v)
            == QueuedOf(dir, q, v) + if u == v then Amounts(dir, events) else 0
  {
    QueuedAppend(dir, q, Tagged(u, events), v);
    QueuedTagged(dir, u, events, v);
  }

  lemma CloseAmounts(dir: Dir)
    ensures Amounts(dir, [CloseConnection]) == 0
  {
    assert [CloseConnection][1..] == [] && Amounts(dir, []) == 0;
  }

  lemma OpenAmounts(dir: Dir, u: Uuid, p: Protocol, addr: Address)
    ensures Amounts(dir, [NewEvent(p, addr), SetStopper(u)]) == 0
  {
    var e := [NewEvent(p, addr), SetStopper(u)];
    assert e[1..] == [SetStopper(u)] && e[1..][1..] == [];
    assert Amounts(dir, e[1..]) == 0;
  }

  lemma HeldUpdate(dir: Dir, live: map<Uuid, Counters>, u: Uuid, c: Counters)
    ensures Sum(HeldMap(dir, live[u := c]))
            == Sum(HeldMap(dir, live)) - (if u in live then Held(dir, live[u]) else 0) + Held(dir, c)
  {
    SumUpdate(HeldMap(dir, live), u, Held(dir, c));
    assert HeldMap(dir, live[u := c]) == HeldMap(dir, live)[u := Held(dir, c)];
  }

  lemma HeldDrop(dir: Dir, live: map<Uuid, Counters>, u: Uuid)
    requires u in live
    ensures Sum(HeldMap(dir, live - {u})) == Sum(HeldMap(dir, live)) - Held(dir, live[u])
  {
    SumSplit(HeldMap(dir, live), u);
    assert HeldMap(dir, live - {u}) == HeldMap(dir, live) - {u};
  }

  /** A count event finds its connection in the map. */
  lemma CountFindsEntry(s: System)
    requires OrderInv(s) && MapInv(s) && s.queue != [] && IsCount(s.queue[0].event)
    ensures s.queue[0].uuid in s.mgr.connections
  {
    NextInOrder(s);
  }

  lemma CreateKeepsTotal(dir: Dir, s: System, u: Uuid, p: Protocol, addr: Address)
    requires OrderInv(s) && TotalInv(dir, s) && Enabled(s, Create(u, p, addr))
    ensures TotalInv(dir, Do(s, Create(u, p, addr)))
  {
    SendAmounts(dir, s.queue, u, [NewEvent(p, addr), SetStopper(u)], u);
    OpenAmounts(dir, u, p, addr);
    HeldUpdate(dir, s.live, u, Zero(p));
    ZeroHolds(dir, p);
    SumUpdate(Ever(dir, s), u, 0);
  }

  lemma CountKeepsTotal(dir: Dir, s: System, u: Uuid, e: EventType)
    requires OrderInv(s) && TotalInv(dir, s) && Enabled(s, Count(u, e))
    ensures TotalInv(dir, Do(s, Count(u, e)))
  {
    CountedHeld(dir, s.live[u], e);
    HeldUpdate(dir, s.live, u, Counted(s.live[u], e));
    EverBumped(dir, s, u, e);
  }

  lemma EverBumped(dir: Dir, s: System, u: Uuid, e: EventType)
    requires OrderInv(s) && Enabled(s, Count(u, e))
    ensures Sum(Ever(dir, Do(s, Count(u, e)))) == Sum(Ever(dir, s)) + Amount(dir, e)
  {
    SumUpdate(Ever(dir, s), u, Ever(dir, s)[u] + Amount(dir, e));
    assert Ever(dir, Do(s, Count(u, e))) == Ever(dir, s)[u := Ever(dir, s)[u] + Amount(dir, e)];
  }

  lemma HeartbeatKeepsTotal(dir: Dir, s: System, u: Uuid, events: seq<EventType>)
    requires TotalInv(dir, s) && Enabled(s, Heartbeat(u, events))
    ensures TotalInv(dir, Do(s, Heartbeat(u, events)))
  {
    SendAmounts(dir, s.queue, u, events, u);
    HeldUpdate(dir, s.live, u, Zero(ProtocolOf(s.live[u])));
    ZeroHolds(dir, ProtocolOf(s.live[u]));
    assert Amounts(dir, events) == Held(dir, s.live[u]);
  }

  lemma DropKeepsTotal(dir: Dir, s: System, u: Uuid, events: seq<EventType>)
    requires TotalInv(dir, s) && Enabled(s, Drop(u, events))
    ensures TotalInv(dir, Do(s, Drop(u, events)))
  {
    SendAmounts(dir, s.queue, u, events, u);
    HeldDrop(dir, s.live, u);
    assert Amounts(dir, events) == Held(dir, s.live[u]);
  }

  lemma CloseKeepsTotal(dir: Dir, s: System, u: Uuid)
    requires TotalInv(dir, s) && Enabled(s, SendClose(u))
    ensures TotalInv(dir, Do(s, SendClose(u)))
  {
    SendAmounts(dir, s.queue, u, [CloseConnection], u);
    CloseAmounts(dir);
  }

  lemma ConsumeKeepsTotal(dir: Dir, s: System)
    requires OrderInv(s) && MapInv(s) && TotalInv(dir, s) && Enabled(s, Consume)
    ensures TotalInv(dir, Do(s, Consume))
  {
    if IsCount(s.queue[0].event) { CountFindsEntry(s); }
  }

  lemma StepKeepsTotal(dir: Dir, s: System, step: Step)
    requires OrderInv(s) && MapInv(s) && TotalInv(dir, s) && Enabled(s, step)
    ensures TotalInv(dir, Do(s, step))
  {
    match step
    case Create(u, p, addr) => CreateKeepsTotal(dir, s, u, p, addr);
    case Count(u, e) => CountKeepsTotal(dir, s, u, e);
    case Heartbeat(u, events) => HeartbeatKeepsTotal(dir, s, u, events);
    case Drop(u, events) => DropKeepsTotal(dir, s, u, events);
    case SendClose(u) => CloseKeepsTotal(dir, s, u);
    case Consume => ConsumeKeepsTotal(dir, s);
    case Stop(u) =>
  }

  lemma SendKeepsEach(dir: Dir, s: System, step: Step, v: Uuid)
    requires OrderInv(s) && MapInv(s) && EachAt(dir, s, v) && Enabled(s, step)
    requires step.Create? || step.Heartbeat? || step.Drop? || step.SendClose?
    ensures EachAt(dir, Do(s, step), v)
  {
    match step
    case Create(u, p, addr) =>
      SendAmounts(dir, s.queue, u, [NewEvent(p, addr), SetStopper(u)], v);
      OpenAmounts(dir, u, p, addr);
      ZeroHolds(dir, p);
      if u == v { UnknownHasNothing(dir, s, u); }
    case Heartbeat(u, events) =>
      SendAmounts(dir, s.queue, u, events, v);
      ZeroHolds(dir, ProtocolOf(s.live[u]));
      assert Amounts(dir, events) == Held(dir, s.live[u]);
    case Drop(u, events) =>
      SendAmounts(dir, s.queue, u, events, v);
      assert Amounts(dir, events) == Held(dir, s.live[u]);
    case SendClose(u) =>
      SendAmounts(dir, s.queue, u, [CloseConnection], v);
      CloseAmounts(dir);
  }

  lemma CountKeepsEach(dir: Dir, s: System, u: Uuid, e: EventType, v: Uuid)
    requires OrderInv(s) && EachAt(dir, s, v) && Enabled(s, Count(u, e))
    ensures EachAt(dir, Do(s, Count(u, e)), v)
  {
    CountedHeld(dir, s.live[u], e);
  }

  lemma ConsumeKeepsEach(dir: Dir, s: System, v: Uuid)
    requires OrderInv(s) && MapInv(s) && EachAt(dir, s, v) && Enabled(s, Consume)
    ensures EachAt(dir, Do(s, Consume), v)
  {
    NextInOrder(s);
    assert QueuedOf(dir, s.queue, v)
           == QueuedOf(dir, s.queue[1..], v) + if s.queue[0].uuid == v then Amount(dir, s.queue[0].event) else 0;
  }

  lemma StepKeepsEach(dir: Dir, s: System, step: Step)
    requires OrderInv(s) && MapInv(s) && EachInv(dir, s) && Enabled(s, step)
    ensures EachInv(dir, Do(s, step))
  {
    forall v ensures EachAt(dir, Do(s, step), v) {
      assert EachAt(dir, s, v);
      match step
      case Count(u, e) => CountKeepsEach(dir, s, u, e, v);
      case Consume => ConsumeKeepsEach(dir, s, v);
      case Stop(_) =>
      case _ => SendKeepsEach(dir, s, step, v);
    }
  }

  /** A connection not yet created has no entry and no queued event. */
  lemma UnknownHasNothing(dir: Dir, s: System, u: Uuid)
    requires OrderInv(s) && MapInv(s) && u !in s.everUp
    ensures u !in s.mgr.connections && QueuedOf(dir, s.queue, u) == 0
  {
    NothingSeen(s.applied + s.queue, u);
    assert forall i :: 0 <= i < |s.applied| ==> (s.applied + s.queue)[i] == s.applied[i];
    NotMentioned(Absent, s.applied, u);
    assert forall i :: 0 <= i < |s.queue| ==> (s.applied + s.queue)[|s.applied| + i] == s.queue[i];
    NothingQueued(dir, s.queue, u);
  }

  lemma {:induction false} NothingSeen(items: seq<Item>, u: Uuid)
    requires PhaseOf(items, u) == Absent
    ensures forall i :: 0 <= i < |items| ==> items[i].uuid != u
  {
    NeverBack(Absent, items, u);
  }

  /** Nothing leads back to Absent. */
  lemma {:induction false} NeverBack(p: Phase, items: seq<Item>, u: Uuid)
    requires PhaseFrom(p, items, u) == Absent
    ensures p == Absent && forall i :: 0 <= i < |items| ==> items[i].uuid != u
    decreases |items|
  {
    if items != [] {
      NeverBack(StepPhase(p, items[0], u), items[1..], u);
      assert forall i :: 1 <= i < |items| ==> items[i] == items[1..][i - 1];
    }
  }

  lemma {:induction false} NotMentioned(p: Phase, items: seq<Item>, u: Uuid)
    requires forall i :: 0 <= i < |items| ==> items[i].uuid != u
    ensures PhaseFrom(p, items, u) == p
  {
    if items != [] { NotMentioned(p, items[1..], u); }
  }

  lemma {:induction false} NothingQueued(dir: Dir, q: seq<Item>, u: Uuid)
    requires forall i :: 0 <= i < |q| ==> q[i].uuid != u
    ensures QueuedOf(dir, q, u) == 0
  {
    if q != [] { NothingQueued(dir, q[1..], u); }
  }

  // ------------------------------------------------------------ stopping

  /** A stop sender is in a queued event, in the map, or used up. It is used at most
      once, and never lost while its connection lives. */
  ghost predicate StopInv(s: System) {
    && NoRepeats(s.stops)
    && (forall u :: u in s.stops ==> u in s.everUp && (PhaseOf(s.applied, u).Running? || PhaseOf(s.applied, u).Closed?))
    && (forall u :: u in s.mgr.connections && s.mgr.connections[u].stopSender ==>
          PhaseOf(s.applied, u).Running? && u !in s.stops)
    && (forall u :: u in Alive(s) && u in s.mgr.connections && PhaseOf(s.applied, u).Running? && u !in s.stops ==>
          s.mgr.connections[u].stopSender)
  }

  lemma StopKeepsStops(s: System, u: Uuid)
    requires OrderInv(s) && MapInv(s) && StopInv(s)
    ensures StopInv(Do(s, Stop(u)))
  {
  }

  lemma ConsumeKeepsStops(s: System)
    requires OrderInv(s) && MapInv(s) && StopInv(s) && Enabled(s, Consume)
    ensures StopInv(Do(s, Consume))
  {
    NextInOrder(s);
    var t, item := Do(s, Consume), s.queue[0];
    assert t.stops == s.stops && Alive(t) == Alive(s) && t.everUp == s.everUp;
    forall v | v != item.uuid
      ensures v in t.mgr.connections <==> v in s.mgr.connections
      ensures v in s.mgr.connections ==> t.mgr.connections[v] == s.mgr.connections[v]
      ensures PhaseOf(t.applied, v) == PhaseOf(s.applied, v)
    {
    }
  }

  lemma StepKeepsStops(s: System, step: Step)
    requires OrderInv(s) && MapInv(s) && StopInv(s) && Enabled(s, step)
    ensures StopInv(Do(s, step))
  {
    match step
    case Stop(u) => StopKeepsStops(s, u);
    case Consume => ConsumeKeepsStops(s);
    case Create(u, _, _) => UnknownHasNothing(Up, s, u);
    case _ =>
  }

  // ------------------------------------------------------------ whole runs

  ghost predicate Inv(s: System) {
    && OrderInv(s) && MapInv(s) && StopInv(s)
    && TotalInv(Up, s) && TotalInv(Down, s) && EachInv(Up, s) && EachInv(Down, s)
  }

  ghost predicate IsRun(run: seq<System>, steps: seq<Step>) {
    && |run| == |steps| + 1 && run[0] == INIT
    && forall i :: 0 <= i < |steps| ==> Enabled(run[i], steps[i]) && run[i + 1] == Do(run[i], steps[i])
  }

  lemma InitInv()
    ensures Inv(INIT)
  {
    assert HeldMap(Up, INIT.live) == map[] && HeldMap(Down, INIT.live) == map[];
  }

  lemma StepKeepsInv(s: System, step: Step)
    requires Inv(s) && Enabled(s, step)
    ensures Inv(Do(s, step))
  {
    StepKeepsOrder(s, step);
    StepKeepsMap(s, step);
    StepKeepsStops(s, step);
    StepKeepsTotal(Up, s, step);
    StepKeepsTotal(Down, s, step);
    StepKeepsEach(Up, s, step);
    StepKeepsEach(Down, s, step);
  }

  /** Every state of every run satisfies the invariant. */
  lemma {:induction false} RunKeepsInv(run: seq<System>, steps: seq<Step>, i: nat)
    requires IsRun(run, steps) && i < |run|
    ensures Inv(run[i])
  {
    if i == 0 {
      InitInv();
    } else {
      RunKeepsInv(run, steps, i - 1);
      StepKeepsInv(run[i - 1], steps[i - 1]);
    }
  }

  // ------------------------------------------------------------ in terms of the steps alone

  /** The bytes one step counts in a direction for `u`: written and sent up, read and
      received down. */
  ghost function CountedByStep(dir: Dir, step: Step, u: Uuid): nat {
    if !step.Count? || step.u != u then 0
    else
      match step.e
      case Write(size) => if dir == Up then size else 0
      case SendTo(_, size) => if dir == Up then size else 0
      case Read(size) => if dir == Down then size else 0
      case RecvFrom(_, size) => if dir == Down then size else 0
      case _ => 0
  }

  ghost function CountedIn(dir: Dir, steps: seq<Step>, u: Uuid): nat {
    if steps == [] then 0
    else
      var n := |steps| - 1;
      CountedIn(dir, steps[..n], u) + CountedByStep(dir, steps[n], u)
  }

  ghost function CountedInAll(dir: Dir, steps: seq<Step>): nat {
    if steps == [] then 0
    else
      var n := |steps| - 1;
      CountedInAll(dir, steps[..n]) + if steps[n].Count? then CountedByStep(dir, steps[n], steps[n].u) else 0
  }

  /** The history fields say what the steps have counted. */
  ghost predicate HistoryOk(s: System, steps: seq<Step>) {
    forall dir ::
      && Sum(Ever(dir, s)) == CountedInAll(dir, steps)
      && forall u :: CountedIn(dir, steps, u) == if u in Ever(dir, s) then Ever(dir, s)[u] else 0
  }

  lemma AmountIsCounted(dir: Dir, u: Uuid, e: EventType)
    ensures Amount(dir, e) == CountedByStep(dir, Count(u, e), u)
  {
  }

  lemma StepKeepsHistory(s: System, steps: seq<Step>, step: Step)
    requires OrderInv(s) && HistoryOk(s, steps) && Enabled(s, step)
    ensures HistoryOk(Do(s, step), steps + [step])
  {
    var t := Do(s, step);
    assert (steps + [step])[..|steps|] == steps;
    forall dir
      ensures Sum(Ever(dir, t)) == CountedInAll(dir, steps + [step])
      ensures forall u :: CountedIn(dir, steps + [step], u) == if u in Ever(dir, t) then Ever(dir, t)[u] else 0
    {
      match step
      case Create(u, _, _) => SumUpdate(Ever(dir, s), u, 0);
      case Count(u, e) =>
        EverBumped(dir, s, u, e);
        AmountIsCounted(dir, u, e);
      case _ =>
    }
  }

  lemma {:induction false} RunKeepsHistory(run: seq<System>, steps: seq<Step>, i: nat)
    requires IsRun(run, steps) && i < |run|
    ensures HistoryOk(run[i], steps[..i])
  {
    if i > 0 {
      RunKeepsHistory(run, steps, i - 1);
      RunKeepsInv(run, steps, i - 1);
      assert steps[..i] == steps[..i - 1] + [steps[i - 1]];
      StepKeepsHistory(run[i - 1], steps[..i - 1], steps[i - 1]);
    }
  }

  /** Bytes are conserved in every reachable state, in both directions, and nothing
      stored wraps a 64-bit counter unless the bytes counted in all do. */
  lemma Conservation(run: seq<System>, steps: seq<Step>, i: nat, dir: Dir)
    requires IsRun(run, steps) && i < |run|
    ensures var s := run[i];
            var counted := CountedInAll(dir, steps[..i]);
            var total := if dir == Up then s.mgr.totalUpload else s.mgr.totalDownload;
            && counted == total + Queued(dir, s.queue) + Sum(HeldMap(dir, s.live))
            && (forall u :: u in Alive(s) ==>
                  CountedIn(dir, steps[..i], u) == Recorded(dir, s, u) + QueuedOf(dir, s.queue, u) + HeldBy(dir, s, u))
            && (counted < 0x1_0000_0000_0000_0000 ==> total + Queued(dir, s.queue) < 0x1_0000_0000_0000_0000)
  {
    RunKeepsInv(run, steps, i);
    RunKeepsHistory(run, steps, i);
    var s := run[i];
    forall u | u in Alive(s)
      ensures EachAt(dir, s, u) && !PhaseOf(s.applied, u).Closed?
    {
      LiveNotClosed(s, u);
    }
  }

  lemma LiveNotClosed(s: System, u: Uuid)
    requires OrderInv(s) && u in Alive(s)
    ensures !PhaseOf(s.applied, u).Closed?
  {
    PhaseAppend(Absent, s.applied, s.queue, u);
    ClosedStays(s.queue, u);
    assert PhaseOf(s.applied + s.queue, u) == Expected(s, u) == Running;
  }

  lemma {:induction false} ClosedStays(items: seq<Item>, u: Uuid)
    ensures PhaseFrom(Closed, items, u) == Closed || PhaseFrom(Closed, items, u) == Broken
  {
    if items != [] {
      if items[0].uuid == u { BrokenStays(items[1..], u); } else { ClosedStays(items[1..], u); }
    }
  }

  /** No count event is ever applied to a missing entry. */
  lemma CountsNeverLost(run: seq<System>, steps: seq<Step>, i: nat)
    requires IsRun(run, steps) && i < |run| && run[i].queue != [] && IsCount(run[i].queue[0].event)
    ensures run[i].queue[0].uuid in run[i].mgr.connections
  {
    RunKeepsInv(run, steps, i);
    CountFindsEntry(run[i]);
  }

  /** Each connection's events form New, SetStopper, counts, Close, of which one that lives
      or is being dropped lacks just the Close. */
  lemma EventsInOrder(run: seq<System>, steps: seq<Step>, i: nat, u: Uuid)
    requires IsRun(run, steps) && i < |run|
    ensures var s := run[i];
            var events := Project(s.applied + s.queue, u);
            && (u in Alive(s) ==> RunningShape(events))
            && (u !in Alive(s) && u in s.everUp ==> Shape(events, Closed))
            && (u !in s.everUp ==> events == [])
  {
    RunKeepsInv(run, steps, i);
    PhaseIsShape(run[i].applied + run[i].queue, u);
  }

  /** Once the channel is drained the map holds exactly the live connections and those being
      dropped that have not sent their Close, each with exactly the bytes it has flushed. */
  lemma DrainedMapIsLive(run: seq<System>, steps: seq<Step>, i: nat)
    requires IsRun(run, steps) && i < |run| && run[i].queue == []
    ensures var s := run[i];
            && s.mgr.connections.Keys == Alive(s)
            && forall u :: u in Alive(s) ==>
                 && CountedIn(Up, steps[..i], u) == s.mgr.connections[u].upload + HeldBy(Up, s, u)
                 && CountedIn(Down, steps[..i], u) == s.mgr.connections[u].download + HeldBy(Down, s, u)
  {
    RunKeepsInv(run, steps, i);
    RunKeepsHistory(run, steps, i);
    var s := run[i];
    assert s.applied + s.queue == s.applied;
    forall u ensures u in s.mgr.connections <==> u in Alive(s) {
      assert PhaseOf(s.applied, u) == Expected(s, u);
    }
    forall u | u in Alive(s)
      ensures EachAt(Up, s, u) && EachAt(Down, s, u) && !PhaseOf(s.applied, u).Closed?
    {
      LiveNotClosed(s, u);
    }
  }

  /** Over a whole run each connection gets at most one stop signal; a live connection
      that got none can still be stopped as soon as its events have been applied. */
  lemma StopsAtMostOnce(run: seq<System>, steps: seq<Step>, i: nat)
    requires IsRun(run, steps) && i < |run|
    ensures var s := run[i];
            && NoRepeats(s.stops) && |s.stops| <= |s.everUp|
            && (s.queue == [] ==> forall u :: u in Alive(s) && u !in s.stops ==> CanStop(s.mgr, Alive(s), u))
  {
    RunKeepsInv(run, steps, i);
    var s := run[i];
    NoRepeatsFits(s.stops, s.everUp.Keys);
    if s.queue == [] {
      DrainedMapIsLive(run, steps, i);
      assert s.applied + s.queue == s.applied;
      forall u | u in Alive(s) && u !in s.stops
        ensures CanStop(s.mgr, Alive(s), u)
      {
        assert PhaseOf(s.applied, u) == Expected(s, u);
      }
    }
  }

  /** A live connection's stop sender is queued, held by the manager, or was used: it is
      never dropped, so a connection sees its stop channel end only when it was stopped. */
  lemma StopperNeverDropped(run: seq<System>, steps: seq<Step>, i: nat, u: Uuid)
    requires IsRun(run, steps) && i < |run| && u in Alive(run[i])
    ensures var s := run[i];
            || u in s.stops
            || (u in s.mgr.connections && s.mgr.connections[u].stopSender)
            || Item(u, SetStopper(u)) in s.queue
  {
    RunKeepsInv(run, steps, i);
    var s := run[i];
    var p := PhaseOf(s.applied, u);
    PhaseAppend(Absent, s.applied, s.queue, u);
    assert PhaseFrom(p, s.queue, u) == Expected(s, u) == Running;
    if p.Absent? || p.Opened? {
      StopperAhead(p, s.queue, u);
    } else if p.Closed? {
      LiveNotClosed(s, u);
    } else if p.Broken? {
      BrokenStays(s.queue, u);
    }
  }

  lemma {:induction false} StopperAhead(p: Phase, items: seq<Item>, u: Uuid)
    requires (p.Absent? || p.Opened?) && PhaseFrom(p, items, u) == Running
    ensures Item(u, SetStopper(u)) in items
    decreases |items|
  {
    var q := StepPhase(p, items[0], u);
    if q.Absent? || q.Opened? {
      StopperAhead(q, items[1..], u);
    } else if q.Broken? {
      BrokenStays(items[1..], u);
    }
  }

  // ------------------------------------------------------------ what an entry says

  predicate Announces(e: EventType, p: Protocol, addr: Address) {
    (p == TcpProtocol && e == NewTcp(addr)) || (p == UdpProtocol && e == NewUdp(addr))
  }

  ghost predicate MadeAs(steps: seq<Step>, u: Uuid, p: Protocol, addr: Address) { Create(u, p, addr) in steps }

  /** Entries, queued announcements and counters are those of the connection as it was made. */
  ghost predicate MadeOk(s: System, steps: seq<Step>) {
    && (forall u :: u in s.mgr.connections ==> MadeAs(steps, u, s.mgr.connections[u].protocol, s.mgr.connections[u].addr))
    && (forall u :: u in s.live ==> exists addr :: MadeAs(steps, u, ProtocolOf(s.live[u]), addr))
    && (forall k :: 0 <= k < |s.queue| && IsNew(s.queue[k].event) ==> NewIsMade(s.queue[k], steps))
    && (forall u, p, addr :: MadeAs(steps, u, p, addr) ==> u in s.everUp)
  }

  ghost predicate NewIsMade(item: Item, steps: seq<Step>) {
    exists p, addr :: Announces(item.event, p, addr) && MadeAs(steps, item.uuid, p, addr)
  }

  lemma MadeMore(steps: seq<Step>, step: Step)
    ensures forall u, p, addr :: MadeAs(steps + [step], u, p, addr) <==> MadeAs(steps, u, p, addr) || step == Create(u, p, addr)
  {
  }

  lemma MadeStays(steps: seq<Step>, step: Step, item: Item)
    ensures NewIsMade(item, steps) ==> NewIsMade(item, steps + [step])
  {
    if NewIsMade(item, steps) {
      var p, addr :| Announces(item.event, p, addr) && MadeAs(steps, item.uuid, p, addr);
      assert MadeAs(steps + [step], item.uuid, p, addr);
    }
  }

  lemma QueueStaysMade(q: seq<Item>, steps: seq<Step>, step: Step)
    requires forall k :: 0 <= k < |q| && IsNew(q[k].event) ==> NewIsMade(q[k], steps)
    ensures forall k :: 0 <= k < |q| && IsNew(q[k].event) ==> NewIsMade(q[k], steps + [step])
  {
    forall k | 0 <= k < |q| && IsNew(q[k].event) ensures NewIsMade(q[k], steps + [step]) {
      MadeStays(steps, step, q[k]);
    }
  }

  lemma LiveStaysMade(s: System, steps: seq<Step>, step: Step)
    requires MadeOk(s, steps)
    ensures forall u :: u in s.live ==> exists addr :: MadeAs(steps + [step], u, ProtocolOf(s.live[u]), addr)
  {
    forall u | u in s.live ensures exists addr :: MadeAs(steps + [step], u, ProtocolOf(s.live[u]), addr) {
      var addr :| MadeAs(steps, u, ProtocolOf(s.live[u]), addr);
      assert MadeAs(steps + [step], u, ProtocolOf(s.live[u]), addr);
    }
  }

  lemma CreateIsMade(s: System, steps: seq<Step>, u: Uuid, p: Protocol, addr: Address)
    requires MadeOk(s, steps) && Enabled(s, Create(u, p, addr))
    ensures MadeOk(Do(s, Create(u, p, addr)), steps + [Create(u, p, addr)])
  {
    var step, t := Create(u, p, addr), Do(s, Create(u, p, addr));
    var all := steps + [step];
    MadeMore(steps, step);
    LiveStaysMade(s, steps, step);
    QueueStaysMade(s.queue, steps, step);
    assert MadeAs(all, u, p, addr) && ProtocolOf(Zero(p)) == p;
    forall k | 0 <= k < |t.queue| && IsNew(t.queue[k].event) ensures NewIsMade(t.queue[k], all) {
      if k >= |s.queue| {
        assert t.queue[k].event == NewEvent(p, addr) && Announces(t.queue[k].event, p, addr);
      }
    }
  }

  lemma ConsumeIsMade(s: System, steps: seq<Step>)
    requires MadeOk(s, steps) && Enabled(s, Consume)
    ensures MadeOk(Do(s, Consume), steps + [Consume])
  {
    var t, item := Do(s, Consume), s.queue[0];
    MadeMore(steps, Consume);
    LiveStaysMade(s, steps, Consume);
    QueueStaysMade(s.queue, steps, Consume);
    assert forall k :: 0 <= k < |t.queue| ==> t.queue[k] == s.queue[k + 1];
    if IsNew(item.event) {
      var p, addr :| Announces(item.event, p, addr) && MadeAs(steps, item.uuid, p, addr);
      assert MadeAs(steps + [Consume], item.uuid, p, addr);
    }
  }

  lemma CountsAreNotNew(u: Uuid, events: seq<EventType>, q: seq<Item>)
    requires forall i :: 0 <= i < |events| ==> !IsNew(events[i])
    ensures forall k :: |q| <= k < |q + Tagged(u, events)| ==> !IsNew((q + Tagged(u, events))[k].event)
  {
  }

  lemma StepKeepsMade(s: System, steps: seq<Step>, step: Step)
    requires MadeOk(s, steps) && Enabled(s, step)
    ensures MadeOk(Do(s, step), steps + [step])
  {
    MadeMore(steps, step);
    LiveStaysMade(s, steps, step);
    QueueStaysMade(s.queue, steps, step);
    match step
    case Create(u, p, addr) => CreateIsMade(s, steps, u, p, addr);
    case Consume => ConsumeIsMade(s, steps);
    case Heartbeat(u, events) =>
      CountsAreNotNew(u, events, s.queue);
      assert ProtocolOf(Zero(ProtocolOf(s.live[u]))) == ProtocolOf(s.live[u]);
    case Drop(u, events) => CountsAreNotNew(u, events, s.queue);
    case SendClose(u) => CountsAreNotNew(u, [CloseConnection], s.queue);
    case Count(u, e) => assert ProtocolOf(Counted(s.live[u], e)) == ProtocolOf(s.live[u]);
    case Stop(u) =>
  }

  lemma {:induction false} RunKeepsMade(run: seq<System>, steps: seq<Step>, i: nat)
    requires IsRun(run, steps) && i < |run|
    ensures MadeOk(run[i], steps[..i])
  {
    if i > 0 {
      RunKeepsMade(run, steps, i - 1);
      assert steps[..i] == steps[..i - 1] + [steps[i - 1]];
      StepKeepsMade(run[i - 1], steps[..i - 1], steps[i - 1]);
    }
  }

  /** Every entry of the manager has the protocol and the address with which its connection
      was made, and a live connection counts by that protocol. */
  lemma EntriesAreAsMade(run: seq<System>, steps: seq<Step>, i: nat, u: Uuid, p: Protocol, addr: Address)
    requires IsRun(run, steps) && i < |run| && Create(u, p, addr) in steps[..i]
    ensures var s := run[i];
            && (u in s.mgr.connections ==> s.mgr.connections[u].protocol == p && s.mgr.connections[u].addr == addr)
            && (u in s.live ==> if p == TcpProtocol then s.live[u].Tcp? else s.live[u].Udp?)
  {
    RunKeepsMade(run, steps, i);
    var s := run[i];
    if u in s.mgr.connections {
      assert MadeAs(steps[..i], u, s.mgr.connections[u].protocol, s.mgr.connections[u].addr);
      MadeOnce(run, steps, i, u, p, addr, s.mgr.connections[u].protocol, s.mgr.connections[u].addr);
    }
    if u in s.live {
      var a :| MadeAs(steps[..i], u, ProtocolOf(s.live[u]), a);
      MadeOnce(run, steps, i, u, p, addr, ProtocolOf(s.live[u]), a);
    }
  }

  /** There is no entry for a connection that was not made. */
  lemma EntriesWereMade(run: seq<System>, steps: seq<Step>, i: nat, u: Uuid)
    requires IsRun(run, steps) && i < |run| && u in run[i].mgr.connections
    ensures Create(u, run[i].mgr.connections[u].protocol, run[i].mgr.connections[u].addr) in steps[..i]
  {
    RunKeepsMade(run, steps, i);
    assert MadeAs(steps[..i], u, run[i].mgr.connections[u].protocol, run[i].mgr.connections[u].addr);
  }

  lemma {:induction false} MadeOnce(run: seq<System>, steps: seq<Step>, i: nat, u: Uuid,
                                    p: Protocol, a: Address, q: Protocol, b: Address)
    requires IsRun(run, steps) && i < |run| && MadeAs(steps[..i], u, p, a) && MadeAs(steps[..i], u, q, b)
    ensures p == q && a == b
  {
    var before, step := steps[..i - 1], steps[i - 1];
    assert steps[..i] == before + [step];
    MadeMore(before, step);
    RunKeepsMade(run, steps, i - 1);
    assert Enabled(run[i - 1], step);
    if MadeAs(before, u, p, a) && MadeAs(before, u, q, b) {
      MadeOnce(run, steps, i - 1, u, p, a, q, b);
    }
  }
}
