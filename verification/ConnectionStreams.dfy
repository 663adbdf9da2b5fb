/** Where bytes are counted: the wrappers around a connection's stream or socket
    (src/rabbit_digger/running.rs, WrapTcpStream and WrapUdpSocket). The inner stream or
    socket answers from a script. */
module ConnectionStreams {
  import opened Outcomes
  import opened Addresses
  import opened Connections

  // ------------------------------------------------------------ what has been counted

  /** What a connection holds after a heartbeat, if there was one. */
  ghost function Polled(state: Counters, heartbeat: bool): Counters {
    if heartbeat then Zero(ProtocolOf(state)) else state
  }

  /** Everything a connection has counted: in count events sent, or still held. */
  ghost function EverCounted(dir: Dir, sent: seq<EventType>, state: Counters): nat {
    Amounts(dir, sent) + Held(dir, state)
  }

  lemma FlushKeepsCount(dir: Dir, sent: seq<EventType>, state: Counters, events: seq<EventType>)
    requires IsFlush(state, events)
    ensures EverCounted(dir, sent + events, Zero(ProtocolOf(state))) == EverCounted(dir, sent, state)
  {
    AmountsAppend(dir, sent, events);
  }

  // ------------------------------------------------------------ TCP

  datatype ReadOutcome = Reads(data: seq<Byte>) | ReadWaits | ReadFails
  datatype WriteOutcome = Writes(limit: nat) | WriteWaits | WriteFails

  class WrapTcpStream {
    const conn: Connection
    var readScript: seq<ReadOutcome>
    var writeScript: seq<WriteOutcome>
    ghost var delivered: nat            // bytes the inner stream has delivered
    ghost var accepted: nat             // and accepted
    ghost var sent: seq<EventType>      // count events that have left the connection

    constructor (conn: Connection, readScript: seq<ReadOutcome>, writeScript: seq<WriteOutcome>)
      requires conn.state == Zero(TcpProtocol)
      ensures Valid() && this.conn == conn
    {
      this.conn, this.readScript, this.writeScript := conn, readScript, writeScript;
      delivered, accepted, sent := 0, 0, [];
    }

    /** Bytes counted are bytes delivered and bytes accepted. */
    ghost predicate Valid()
      reads this, conn
    {
      && conn.state.Tcp?
      && Amounts(Down, sent) + conn.state.read == delivered
      && Amounts(Up, sent) + conn.state.write == accepted
    }

    /** A heartbeat may flush, and a stop fails the poll, before the inner stream is asked. */
    method PollConnection(heartbeat: bool, stopped: bool) returns (ok: bool)
      requires Valid()
      modifies this`sent, conn, conn.channel
      ensures Valid() && ok == !stopped && conn.state == Polled(old(conn.state), heartbeat)
    {
      ghost var before := conn.state;
      ghost var events;
      ok, events := conn.Poll(heartbeat, stopped);
      if heartbeat {
        FlushKeepsCount(Down, sent, before, events);
        FlushKeepsCount(Up, sent, before, events);
        sent := sent + events;
      }
    }

    /** Reads behind what the buffer holds already; only what is new is counted. */
    method PollRead(filled: seq<Byte>, room: nat, heartbeat: bool, stopped: bool) returns (r: Poll<seq<Byte>>)
      requires Valid()
      modifies this, conn, conn.channel
      ensures Valid() && accepted == old(accepted)
      // behind what was there comes what the inner stream delivered, as far as it fits
      ensures r.Ready? ==>
                && old(readScript) != [] && old(readScript)[0].Reads?
                && filled <= r.value && FirstBytes(r.value[|filled|..], old(readScript)[0].data, room)
                && delivered == old(delivered) + |r.value| - |filled|
                && conn.state == Counted(Polled(old(conn.state), heartbeat), Read(|r.value| - |filled|))
      ensures !r.Ready? ==> delivered == old(delivered) && conn.state == Polled(old(conn.state), heartbeat)
      ensures stopped ==> r.Failed? && readScript == old(readScript)
    {
      var ok := PollConnection(heartbeat, stopped);
      if !ok {
        return Failed;
      }
      var next := if readScript == [] then ReadWaits else readScript[0];
      readScript := if readScript == [] then [] else readScript[1..];
      match next
      case ReadWaits => return Pending;
      case ReadFails => return Failed;
      case Reads(all) =>
        var data := if |all| <= room then all else all[..room];
        var after := filled + data;
        assert after[|filled|..] == data;
        delivered := delivered + |data|;
        conn.CountBytes(Read(|after| - |filled|));
        return Ready(after);
    }

    /** Counts what the inner stream accepted, not what it was offered. */
    method PollWrite(buf: seq<Byte>) returns (r: Poll<nat>)
      requires Valid()
      modifies this, conn
      ensures Valid() && delivered == old(delivered)
      ensures r.Ready? ==>
                && r.value <= |buf| && accepted == old(accepted) + r.value
                && conn.state == Counted(old(conn.state), Write(r.value))
      ensures !r.Ready? ==> accepted == old(accepted) && conn.state == old(conn.state)
    {
      var next := if writeScript == [] then WriteWaits else writeScript[0];
      writeScript := if writeScript == [] then [] else writeScript[1..];
      match next
      case WriteWaits => return Pending;
      case WriteFails => return Failed;
      case Writes(limit) =>
        var n := if limit < |buf| then limit else |buf|;
        accepted := accepted + n;
        conn.CountBytes(Write(n));
        return Ready(n);
    }
  }

  // ------------------------------------------------------------ UDP

  datatype RecvOutcome = Receives(data: seq<Byte>, from: SocketAddr) | RecvWaits | RecvFails
  datatype SendOutcome = Sends(reported: nat) | SendWaits | SendFails

  class WrapUdpSocket {
    const conn: Connection
    var recvScript: seq<RecvOutcome>
    var sendScript: seq<SendOutcome>
    ghost var received: nat             // lengths of filled buffers handed up
    ghost var offered: nat              // lengths of buffers the inner socket took, in full or not
    ghost var sent: seq<EventType>

    constructor (conn: Connection, recvScript: seq<RecvOutcome>, sendScript: seq<SendOutcome>)
      requires conn.state == Zero(UdpProtocol)
      ensures Valid() && this.conn == conn
    {
      this.conn, this.recvScript, this.sendScript := conn, recvScript, sendScript;
      received, offered, sent := 0, 0, [];
    }

    ghost predicate Valid()
      reads this, conn
    {
      && conn.state.Udp?
      && EverCounted(Down, sent, conn.state) == received
      && EverCounted(Up, sent, conn.state) == offered
    }

    method PollConnection(heartbeat: bool, stopped: bool) returns (ok: bool)
      requires Valid()
      modifies this`sent, conn, conn.channel
      ensures Valid() && ok == !stopped && conn.state == Polled(old(conn.state), heartbeat)
    {
      ghost var before := conn.state;
      ghost var events;
      ok, events := conn.Poll(heartbeat, stopped);
      if heartbeat {
        FlushKeepsCount(Down, sent, before, events);
        FlushKeepsCount(Up, sent, before, events);
        sent := sent + events;
      }
    }

    /** Counts the whole filled part of the buffer: the datagram, if the buffer was empty,
        as it is when a relay asks. */
    method PollRecvFrom(filled: seq<Byte>, room: nat, heartbeat: bool, stopped: bool) returns (r: Poll<(seq<Byte>, SocketAddr)>)
      requires Valid()
      modifies this, conn, conn.channel
      ensures Valid() && offered == old(offered)
      // the datagram and the peer are those the inner socket gave, and it is counted for that peer
      ensures r.Ready? ==>
                && old(recvScript) != [] && old(recvScript)[0].Receives? && r.value.1 == old(recvScript)[0].from
                && filled <= r.value.0 && FirstBytes(r.value.0[|filled|..], old(recvScript)[0].data, room)
                && received == old(received) + |r.value.0|
                && conn.state == Counted(Polled(old(conn.state), heartbeat), RecvFrom(Socket(r.value.1), |r.value.0|))
      ensures !r.Ready? ==> received == old(received) && conn.state == Polled(old(conn.state), heartbeat)
      ensures stopped ==> r.Failed? && recvScript == old(recvScript)
    {
      var ok := PollConnection(heartbeat, stopped);
      if !ok {
        return Failed;
      }
      var next := if recvScript == [] then RecvWaits else recvScript[0];
      recvScript := if recvScript == [] then [] else recvScript[1..];
      match next
      case RecvWaits => return Pending;
      case RecvFails => return Failed;
      case Receives(all, from) =>
        var data := if |all| <= room then all else all[..room];
        var after := filled + data;
        assert after[|filled|..] == data;
        Count(RecvFrom(Socket(from), |after|));
        received := received + |after|;
        return Ready((after, from));
    }

    /** Counts the length of the buffer, whatever length the inner socket reports. */
    method PollSendTo(buf: seq<Byte>, target: Address) returns (r: Poll<nat>)
      requires Valid()
      modifies this, conn
      ensures Valid() && received == old(received)
      ensures offered == old(offered) + if r.Ready? then |buf| else 0
      ensures conn.state == if r.Ready? then Counted(old(conn.state), SendTo(target, |buf|)) else old(conn.state)
      ensures r.Ready? ==> old(sendScript) != [] && old(sendScript)[0] == Sends(r.value)
    {
      var next := if sendScript == [] then SendWaits else sendScript[0];
      sendScript := if sendScript == [] then [] else sendScript[1..];
      match next
      case SendWaits => return Pending;
      case SendFails => return Failed;
      case Sends(reported) =>
        Count(SendTo(target, |buf|));
        offered := offered + |buf|;
        return Ready(reported);
    }

    method Count(e: EventType)
      requires Fits(conn.state, e) && conn.state.Udp?
      modifies conn
      ensures conn.state.Udp? && conn.state == Counted(old(conn.state), e)
      ensures EverCounted(Up, sent, conn.state) == old(EverCounted(Up, sent, conn.state)) + Amount(Up, e)
      ensures EverCounted(Down, sent, conn.state) == old(EverCounted(Down, sent, conn.state)) + Amount(Down, e)
    {
      CountedHeld(Up, conn.state, e);
      CountedHeld(Down, conn.state, e);
      conn.CountBytes(e);
    }
  }
}
