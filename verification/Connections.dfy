/** Connection accounting (src/rabbit_digger/connection_manager.rs, event.rs;
    src/rabbit_digger/running.rs for where bytes are counted). */
module Connections {
  import opened Addresses
  import opened MapSums

  type Uuid = nat

  datatype Protocol = TcpProtocol | UdpProtocol
  datatype Dir = Up | Down

  /** A stop sender is known by the connection that holds its receiver. */
  datatype EventType =
    | NewTcp(addr: Address)
    | NewUdp(addr: Address)
    | SetStopper(receiver: Uuid)
    | CloseConnection
    | Write(size: nat)
    | Read(size: nat)
    | SendTo(peer: Address, size: nat)
    | RecvFrom(peer: Address, size: nat)

  predicate IsNew(e: EventType) { e.NewTcp? || e.NewUdp? }

  predicate IsCount(e: EventType) { e.Write? || e.Read? || e.SendTo? || e.RecvFrom? }

  function Amount(dir: Dir, e: EventType): nat {
    if (dir == Up && (e.Write? || e.SendTo?)) || (dir == Down && (e.Read? || e.RecvFrom?)) then e.size else 0
  }

  // ------------------------------------------------------------ the manager's state

  datatype Info = Info(protocol: Protocol, addr: Address, upload: nat, download: nat, stopSender: bool)

  datatype Manager = Manager(connections: map<Uuid, Info>, totalUpload: nat, totalDownload: nat)

  function Total(dir: Dir, m: Manager): nat { if dir == Up then m.totalUpload else m.totalDownload }

  function InfoCount(dir: Dir, i: Info): nat { if dir == Up then i.upload else i.download }

  /** One event of one connection; everything but New is ignored for a missing entry. */
  function Apply(m: Manager, u: Uuid, e: EventType): Manager {
    match e
    case NewTcp(addr) => m.(connections := m.connections[u := Info(TcpProtocol, addr, 0, 0, false)])
    case NewUdp(addr) => m.(connections := m.connections[u := Info(UdpProtocol, addr, 0, 0, false)])
    case CloseConnection => m.(connections := m.connections - {u})
    case SetStopper(_) =>
      if u in m.connections then m.(connections := m.connections[u := m.connections[u].(stopSender := true)]) else m
    case _ =>
      if u in m.connections then
        var i := m.connections[u];
        Manager(m.connections[u := i.(upload := i.upload + Amount(Up, e), download := i.download + Amount(Down, e))],
                m.totalUpload + Amount(Up, e), m.totalDownload + Amount(Down, e))
      else m
  }

  function ApplyAll(m: Manager, u: Uuid, events: seq<EventType>): Manager
    decreases |events|
  {
    if events == [] then m else ApplyAll(Apply(m, u, events[0]), u, events[1..])
  }

  class ConnectionState {
    var connections: map<Uuid, Info>
    var totalUpload: nat
    var totalDownload: nat

    ghost function Now(): Manager
      reads this
    {
      Manager(connections, totalUpload, totalDownload)
    }

    constructor ()
      ensures Now() == Manager(map[], 0, 0)
    {
      connections, totalUpload, totalDownload := map[], 0, 0;
    }

    method InputOne(u: Uuid, e: EventType)
      modifies this
      ensures Now() == Apply(old(Now()), u, e)
    {
      match e
      case NewTcp(addr) =>
        connections := connections[u := Info(TcpProtocol, addr, 0, 0, false)];
      case NewUdp(addr) =>
        connections := connections[u := Info(UdpProtocol, addr, 0, 0, false)];
      case SetStopper(_) =>
        if u in connections {
          connections := connections[u := connections[u].(stopSender := true)];
        }
      case Read(size) =>
        if u in connections {
          connections := connections[u := connections[u].(download := connections[u].download + size)];
          totalDownload := totalDownload + size;
        }
      case Write(size) =>
        if u in connections {
          connections := connections[u := connections[u].(upload := connections[u].upload + size)];
          totalUpload := totalUpload + size;
        }
      case RecvFrom(_, size) =>
        if u in connections {
          connections := connections[u := connections[u].(download := connections[u].download + size)];
          totalDownload := totalDownload + size;
        }
      case SendTo(_, size) =>
        if u in connections {
          connections := connections[u := connections[u].(upload := connections[u].upload + size)];
          totalUpload := totalUpload + size;
        }
      case CloseConnection =>
        connections := connections - {u};
    }

    method InputEvent(u: Uuid, events: seq<EventType>)
      modifies this
      ensures Now() == ApplyAll(old(Now()), u, events)
    {
      assert events[0..] == events;
      for n := 0 to |events|
        invariant ApplyAll(Now(), u, events[n..]) == ApplyAll(old(Now()), u, events)
      {
        assert events[n..][0] == events[n] && events[n..][1..] == events[n + 1..];
        InputOne(u, events[n]);
      }
    }

    /** Takes the sender; the signal arrives if the receiver still exists. */
    method StopConnection(u: Uuid, alive: set<Uuid>) returns (ok: bool)
      modifies this
      ensures Now() == Stopped(old(Now()), u)
      ensures ok == CanStop(old(Now()), alive, u)
    {
      ok := false;
      if u in connections && connections[u].stopSender {
        connections := connections[u := connections[u].(stopSender := false)];
        ok := u in alive;
      }
    }

    method StopConnections(alive: set<Uuid>) returns (stopped: nat)
      modifies this
      ensures connections.Keys == old(connections.Keys) && totalUpload == old(totalUpload) && totalDownload == old(totalDownload)
      ensures forall u :: u in connections ==> connections[u] == old(connections[u]).(stopSender := false)
      ensures stopped == |set u | u in old(connections) && CanStop(old(Now()), alive, u)|
    {
      stopped := 0;
      var left := connections.Keys;
      ghost var was, hit := Now(), {};
      while left != {}
        invariant left <= connections.Keys == was.connections.Keys
        invariant totalUpload == was.totalUpload && totalDownload == was.totalDownload
        invariant forall u :: u in connections ==>
                    connections[u] == if u in left then was.connections[u] else was.connections[u].(stopSender := false)
        invariant hit == set u | u in was.connections && u !in left && CanStop(was, alive, u)
        invariant stopped == |hit|
        decreases left
      {
        var u :| u in left;
        var ok := StopConnection(u, alive);
        left := left - {u};
        if ok {
          hit, stopped := hit + {u}, stopped + 1;
        }
      }
      assert hit == set u | u in was.connections && CanStop(was, alive, u);
    }
  }

  function Stopped(m: Manager, u: Uuid): Manager {
    if u in m.connections then m.(connections := m.connections[u := m.connections[u].(stopSender := false)]) else m
  }

  predicate CanStop(m: Manager, alive: set<Uuid>, u: Uuid) {
    u in m.connections && m.connections[u].stopSender && u in alive
  }

  // ------------------------------------------------------------ a connection's own counters

  datatype Counters =
    | Tcp(read: nat, write: nat)
    | Udp(recvFrom: map<Address, nat>, sendTo: map<Address, nat>)

  ghost function Held(dir: Dir, c: Counters): nat {
    match c
    case Tcp(read, write) => if dir == Up then write else read
    case Udp(recvFrom, sendTo) => if dir == Up then Sum(sendTo) else Sum(recvFrom)
  }

  function Zero(p: Protocol): Counters {
    match p
    case TcpProtocol => Tcp(0, 0)
    case UdpProtocol => Udp(map[], map[])
  }

  predicate Fits(c: Counters, e: EventType) {
    (c.Tcp? && (e.Read? || e.Write?)) || (c.Udp? && (e.RecvFrom? || e.SendTo?))
  }

  function Bumped(m: map<Address, nat>, addr: Address, size: nat): map<Address, nat> {
    m[addr := size + if addr in m then m[addr] else 0]
  }

  /** read, write, recv_from and send_to of a connection. */
  function Counted(c: Counters, e: EventType): Counters
    requires Fits(c, e)
  {
    match e
    case Read(size) => c.(read := c.read + size)
    case Write(size) => c.(write := c.write + size)
    case RecvFrom(addr, size) => c.(recvFrom := Bumped(c.recvFrom, addr, size))
    case SendTo(addr, size) => c.(sendTo := Bumped(c.sendTo, addr, size))
  }

  lemma CountedHeld(dir: Dir, c: Counters, e: EventType)
    requires Fits(c, e)
    ensures Held(dir, Counted(c, e)) == Held(dir, c) + Amount(dir, e)
  {
    match e
    case Read(_) =>
    case Write(_) =>
    case RecvFrom(addr, size) => SumUpdate(c.recvFrom, addr, size + if addr in c.recvFrom then c.recvFrom[addr] else 0);
    case SendTo(addr, size) => SumUpdate(c.sendTo, addr, size + if addr in c.sendTo then c.sendTo[addr] else 0);
  }

  /** Datagrams are counted for their own peer, and nothing else changes. */
  lemma CountedForPeer(c: Counters, e: EventType)
    requires Fits(c, e)
    ensures e.RecvFrom? ==>
              && Counted(c, e).sendTo == c.sendTo && Counted(c, e).recvFrom.Keys == c.recvFrom.Keys + {e.peer}
              && Counted(c, e).recvFrom[e.peer] == e.size + (if e.peer in c.recvFrom then c.recvFrom[e.peer] else 0)
              && forall a :: a in c.recvFrom && a != e.peer ==> Counted(c, e).recvFrom[a] == c.recvFrom[a]
    ensures e.SendTo? ==>
              && Counted(c, e).recvFrom == c.recvFrom && Counted(c, e).sendTo.Keys == c.sendTo.Keys + {e.peer}
              && Counted(c, e).sendTo[e.peer] == e.size + (if e.peer in c.sendTo then c.sendTo[e.peer] else 0)
              && forall a :: a in c.sendTo && a != e.peer ==> Counted(c, e).sendTo[a] == c.sendTo[a]
    ensures e.Read? ==> Counted(c, e) == Tcp(c.read + e.size, c.write)
    ensures e.Write? ==> Counted(c, e) == Tcp(c.read, c.write + e.size)
  {
  }

  ghost function Amounts(dir: Dir, events: seq<EventType>): nat {
    if events == [] then 0 else Amount(dir, events[0]) + Amounts(dir, events[1..])
  }

  lemma {:induction false} AmountsAppend(dir: Dir, a: seq<EventType>, b: seq<EventType>)
    ensures Amounts(dir, a + b) == Amounts(dir, a) + Amounts(dir, b)
  {
    if a == [] {
      assert a + b == b;
    } else {
      assert (a + b)[1..] == a[1..] + b;
      AmountsAppend(dir, a[1..], b);
    }
  }

  /** Flushing hands over count events worth exactly what was held. The order in which
      a hash map is drained is not fixed, so this is all a flush promises. */
  ghost predicate IsFlush(c: Counters, events: seq<EventType>) {
    && (forall i :: 0 <= i < |events| ==> Fits(c, events[i]))
    && Amounts(Up, events) == Held(Up, c) && Amounts(Down, events) == Held(Down, c)
  }

  /** `e` reports one entry of a counter map. */
  predicate Reports(counters: map<Address, nat>, dir: Dir, e: EventType) {
    && ((dir == Up && e.SendTo?) || (dir == Down && e.RecvFrom?))
    && e.peer in counters && counters[e.peer] == e.size
  }

  lemma BothDrained(recvFrom: map<Address, nat>, sendTo: map<Address, nat>, received: seq<EventType>, sent: seq<EventType>)
    requires forall i :: 0 <= i < |received| ==> Reports(recvFrom, Down, received[i])
    requires forall i :: 0 <= i < |sent| ==> Reports(sendTo, Up, sent[i])
    requires Amounts(Down, received) == Sum(recvFrom) && Amounts(Up, received) == 0
    requires Amounts(Up, sent) == Sum(sendTo) && Amounts(Down, sent) == 0
    ensures IsFlush(Udp(recvFrom, sendTo), received + sent)
  {
    AmountsAppend(Up, received, sent);
    AmountsAppend(Down, received, sent);
  }

  function CountEvent(dir: Dir, addr: Address, size: nat): EventType {
    if dir == Up then SendTo(addr, size) else RecvFrom(addr, size)
  }

  /** Draining a counter map in whatever order it yields its entries. */
  method Drain(counters: map<Address, nat>, dir: Dir) returns (ret: seq<EventType>)
    ensures |ret| == |counters|
    ensures forall e :: e in ret <==> Reports(counters, dir, e)
    ensures Amounts(dir, ret) == Sum(counters) && Amounts(if dir == Up then Down else Up, ret) == 0
  {
    ret := [];
    var left := counters;
    while left != map[]
      invariant |ret| + |left| == |counters|
      invariant forall addr :: addr in left ==> addr in counters && left[addr] == counters[addr]
      invariant forall e :: Reports(counters, dir, e) <==> e in ret || Reports(left, dir, e)
      invariant Amounts(dir, ret) + Sum(left) == Sum(counters) && Amounts(if dir == Up then Down else Up, ret) == 0
      decreases |left|
    {
      var addr :| addr in left;
      var e := CountEvent(dir, addr, left[addr]);
      DrainOne(counters, left, dir, ret, addr);
      ret, left := ret + [e], left - {addr};
    }
  }

  lemma DrainOne(counters: map<Address, nat>, left: map<Address, nat>, dir: Dir, ret: seq<EventType>, addr: Address)
    requires addr in left
    requires forall e :: Reports(counters, dir, e) <==> e in ret || Reports(left, dir, e)
    ensures var e := CountEvent(dir, addr, left[addr]);
            && (forall x :: Reports(counters, dir, x) <==> x in ret + [e] || Reports(left - {addr}, dir, x))
            && Sum(left) == left[addr] + Sum(left - {addr})
            && Amounts(dir, ret + [e]) == Amounts(dir, ret) + left[addr]
            && Amounts(if dir == Up then Down else Up, ret + [e]) == Amounts(if dir == Up then Down else Up, ret)
  {
    var e := CountEvent(dir, addr, left[addr]);
    forall x ensures Reports(left, dir, x) <==> x == e || Reports(left - {addr}, dir, x) {
    }
    SumSplit(left, addr);
    AmountsAppend(Up, ret, [e]);
    AmountsAppend(Down, ret, [e]);
  }

  /** Taking the counts of a TCP connection, zero counts left out. */
  function TcpEvents(read: nat, write: nat): (ret: seq<EventType>)
    ensures IsFlush(Tcp(read, write), ret)
  {
    var first, second := if read > 0 then [Read(read)] else [], if write > 0 then [Write(write)] else [];
    AmountsAppend(Up, first, second);
    AmountsAppend(Down, first, second);
    first + second
  }

  // ------------------------------------------------------------ a connection

  /** An event as queued, with the connection that sent it. */
  datatype Item = Item(uuid: Uuid, event: EventType)

  function Tagged(u: Uuid, events: seq<EventType>): (r: seq<Item>)
    ensures |r| == |events| && forall i :: 0 <= i < |r| ==> r[i] == Item(u, events[i])
  {
    seq(|events|, i requires 0 <= i < |events| => Item(u, events[i]))
  }

  function ProtocolOf(c: Counters): Protocol { if c.Tcp? then TcpProtocol else UdpProtocol }

  function NewEvent(p: Protocol, addr: Address): EventType {
    if p == TcpProtocol then NewTcp(addr) else NewUdp(addr)
  }

  /** The unbounded channel to the manager; a batch is appended in one go. */
  class Channel {
    var items: seq<Item>

    constructor ()
      ensures items == []
    {
      items := [];
    }
  }

  class Connection {
    const uuid: Uuid
    const channel: Channel
    var state: Counters

    constructor (uuid: Uuid, protocol: Protocol, addr: Address, channel: Channel)
      modifies channel
      ensures this.uuid == uuid && this.channel == channel && state == Zero(protocol)
      ensures channel.items == old(channel.items) + Tagged(uuid, [NewEvent(protocol, addr), SetStopper(uuid)])
    {
      this.uuid, this.channel, this.state := uuid, channel, Zero(protocol);
      new;
      Send([NewEvent(protocol, addr), SetStopper(uuid)]);
    }

    method Send(events: seq<EventType>)
      modifies channel
      ensures channel.items == old(channel.items) + Tagged(uuid, events)
    {
      if events != [] {
        channel.items := channel.items + Tagged(uuid, events);
      }
    }

    /** read, write, recv_from, send_to */
    method CountBytes(e: EventType)
      requires Fits(state, e)
      modifies this
      ensures state == Counted(old(state), e)
    {
      state := Counted(state, e);
    }

    method GetEvents() returns (ret: seq<EventType>)
      modifies this
      ensures state == Zero(ProtocolOf(old(state))) && IsFlush(old(state), ret)
      // one event for each address and direction, with the bytes counted for it
      ensures old(state).Udp? ==>
                && |ret| == |old(state).recvFrom| + |old(state).sendTo|
                && forall e :: e in ret <==> Reports(old(state).recvFrom, Down, e) || Reports(old(state).sendTo, Up, e)
    {
      match state
      case Tcp(read, write) =>
        ret := TcpEvents(read, write);
        state := Tcp(0, 0);
      case Udp(recvFrom, sendTo) =>
        var received := Drain(recvFrom, Down);
        var sent := Drain(sendTo, Up);
        BothDrained(recvFrom, sendTo, received, sent);
        ret := received + sent;
        state := Udp(map[], map[]);
    }

    /** A heartbeat flushes; a stop signal fails the poll. */
    method Poll(heartbeat: bool, stopped: bool) returns (ok: bool, ghost events: seq<EventType>)
      modifies this, channel
      ensures ok == !stopped
      ensures !heartbeat ==> state == old(state) && channel.items == old(channel.items)
      ensures heartbeat ==>
                && IsFlush(old(state), events) && state == Zero(ProtocolOf(old(state)))
                && channel.items == old(channel.items) + Tagged(uuid, events)
    {
      events := [];
      if heartbeat {
        var flushed := GetEvents();
        Send(flushed);
        events := flushed;
      }
      ok := !stopped;
    }

    method Close() returns (ghost events: seq<EventType>)
      modifies this, channel
      ensures IsFlush(old(state), events)
      ensures channel.items == old(channel.items) + Tagged(uuid, events + [CloseConnection])
    {
      var flushed := GetEvents();
      Send(flushed);
      Send([CloseConnection]);
      events := flushed;
      assert Tagged(uuid, events + [CloseConnection]) == Tagged(uuid, events) + Tagged(uuid, [CloseConnection]);
    }
  }
}
