/** Relaying datagrams through a growing pool of packet buffers
    (rd-std/src/context/connect_udp.rs). Endpoints are scripted oracles as in TcpRelay. */
module UdpRelay {
  import opened Outcomes
  import opened Addresses

  const UDP_BUFFER_SIZE: nat := 2 * 1024

  datatype Datagram = Datagram(data: seq<Byte>, addr: Address)

  function Truncated(data: seq<Byte>): (r: seq<Byte>)
    ensures FirstBytes(r, data, 2048)
  {
    if |data| <= UDP_BUFFER_SIZE then data else data[..UDP_BUFFER_SIZE]
  }

  // ------------------------------------------------------------ the endpoints

  datatype SourceOutcome = Packet(data: seq<Byte>, addr: Address) | SourceFails | SourceWaits
  datatype SinkOutcome = SinkTakes | SinkFails | SinkWaits

  class Source {
    const socketOnly: bool               // a socket names its peers by socket address
    var script: seq<SourceOutcome>
    ghost var taken: seq<Datagram>       // datagrams handed out, cut to the buffer
    ghost var waiting: bool              // the last poll was Pending
    ghost var failing: bool              // or an error
    ghost var failures: nat              // errors so far
    ghost var polls: nat

    ghost predicate Valid()
      reads this
    {
      socketOnly ==> forall i :: 0 <= i < |script| && script[i].Packet? ==> script[i].addr.Socket?
    }

    method PollDatagram() returns (r: Poll<Datagram>)
      requires Valid()
      modifies this
      ensures Valid()
      ensures r.Ready? ==> |r.value.data| <= UDP_BUFFER_SIZE && (socketOnly ==> r.value.addr.Socket?)
      ensures r.Ready? ==>
                && old(script) != [] && old(script)[0].Packet? && r.value.addr == old(script)[0].addr
                && FirstBytes(r.value.data, old(script)[0].data, 2048)
      ensures taken == old(taken) + if r.Ready? then [r.value] else []
      ensures waiting == r.Pending? && failing == r.Failed? && polls == old(polls) + 1
      ensures failures == old(failures) + if r.Failed? then 1 else 0
      ensures |script| <= old(|script|) && (!r.Pending? ==> |script| < old(|script|))
    {
      waiting, failing, polls := false, false, polls + 1;
      if script == [] {
        waiting := true;
        return Pending;
      }
      var next := script[0];
      script := script[1..];
      match next
      case SourceWaits =>
        waiting := true;
        return Pending;
      case SourceFails =>
        failing, failures := true, failures + 1;
        return Failed;
      case Packet(data, addr) =>
        var d := Datagram(Truncated(data), addr);
        taken := taken + [d];
        return Ready(d);
    }
  }

  class Sink {
    const socketOnly: bool
    var script: seq<SinkOutcome>
    ghost var accepted: seq<Datagram>
    ghost var waiting: bool
    ghost var failing: bool
    ghost var failures: nat
    ghost var polls: nat

    method PollSend(d: Datagram) returns (r: Poll<()>)
      requires socketOnly ==> d.addr.Socket?
      modifies this
      ensures accepted == old(accepted) + if r.Ready? then [d] else []
      ensures waiting == r.Pending? && failing == r.Failed? && polls == old(polls) + 1
      ensures failures == old(failures) + if r.Failed? then 1 else 0
      ensures |script| <= old(|script|) && (!r.Pending? ==> |script| < old(|script|))
    {
      waiting, failing, polls := false, false, polls + 1;
      if script == [] {
        waiting := true;
        return Pending;
      }
      var next := script[0];
      script := script[1..];
      match next
      case SinkWaits =>
        waiting := true;
        return Pending;
      case SinkFails =>
        failing, failures := true, failures + 1;
        return Failed;
      case SinkTakes =>
        accepted := accepted + [d];
        return Ready(());
    }
  }

  // ------------------------------------------------------------ packet buffers

  datatype PacketBuffer = PacketBuffer(buf: seq<Byte>, filled: Option<(nat, Address)>)

  function NewPacket(): (p: PacketBuffer)
    ensures Blank(p)
  {
    PacketBuffer(seq(UDP_BUFFER_SIZE, i => 0), None)
  }

  ghost predicate Blank(p: PacketBuffer) { |p.buf| == UDP_BUFFER_SIZE && p.filled.None? }

  ghost predicate Full(p: PacketBuffer) {
    |p.buf| == UDP_BUFFER_SIZE && p.filled.Some? && p.filled.value.0 <= UDP_BUFFER_SIZE
  }

  function View(p: PacketBuffer): Datagram
    requires Full(p)
  {
    Datagram(p.buf[..p.filled.value.0], p.filled.value.1)
  }

  /** The filled packets of a queue in which only the last may be blank. */
  ghost predicate QueueOk(q: seq<PacketBuffer>) {
    && (forall i :: 0 <= i < |q| - 1 ==> Full(q[i]))
    && (q != [] ==> Full(q[|q| - 1]) || Blank(q[|q| - 1]))
  }

  ghost predicate LastBlank(q: seq<PacketBuffer>) { q != [] && q[|q| - 1].filled.None? }

  ghost function Contents(q: seq<PacketBuffer>): (r: seq<Datagram>)
    requires QueueOk(q)
    ensures |r| == |q| - if LastBlank(q) then 1 else 0
    ensures forall i :: 0 <= i < |r| ==> r[i] == View(q[i])
  {
    var n := |q| - if LastBlank(q) then 1 else 0;
    seq(n, i requires 0 <= i < n => View(q[i]))
  }

  class CopyBuffer {
    var pool: seq<PacketBuffer>
    var queue: seq<PacketBuffer>
    const max: nat

    constructor (size: nat, max: nat)
      requires 1 <= size <= max
      ensures Valid() && this.max == max && queue == [] && |pool| == size
    {
      pool, queue := seq(size, i => NewPacket()), [];
      this.max := max;
    }

    ghost predicate Valid()
      reads this
    {
      && 1 <= |pool| + |queue| <= max
      && (forall p :: p in pool ==> Blank(p))
      && QueueOk(queue)
    }

    /** Adds buffers only when the pool is empty: doubles the queue, up to the maximum. */
    method Grow()
      requires Valid()
      modifies this`pool
      ensures Valid()
      ensures old(pool) != [] ==> pool == old(pool)
      ensures old(pool) == [] ==> |pool| == (if 2 * |queue| <= max then 2 * |queue| else max) - |queue|
    {
      if pool == [] {
        var goal := if max <= |queue| * 2 then max else |queue| * 2;
        assert goal >= |queue|;
        pool := pool + seq(goal - |queue|, i => NewPacket());
      }
    }

    /** A blank packet at the back of the queue; none exactly when the queue holds the
        maximum of packets, all of them filled. */
    method BorrowBack() returns (ok: bool)
      requires Valid()
      modifies this
      ensures Valid() && Contents(queue) == old(Contents(queue))
      ensures |pool| + |queue| >= old(|pool| + |queue|)
      ensures ok <==> LastBlank(queue)
      ensures !ok <==> old(|queue| == max && !LastBlank(queue))
    {
      if queue == [] || queue[|queue| - 1].filled.Some? {
        Grow();
        if pool == [] {
          return false;
        }
        var p := pool[|pool| - 1];
        assert Blank(p);
        ghost var before := queue;
        pool, queue := pool[..|pool| - 1], queue + [p];
        assert forall i :: 0 <= i < |before| ==> queue[i] == before[i];
        assert Contents(queue) == Contents(before);
      }
      return true;
    }

    /** The source has written `d` into the borrowed packet. */
    method FillBack(d: Datagram)
      requires Valid() && LastBlank(queue) && |d.data| <= UDP_BUFFER_SIZE
      modifies this`queue
      ensures Valid() && !LastBlank(queue) && |queue| == old(|queue|)
      ensures Contents(queue) == old(Contents(queue)) + [d]
    {
      var p := queue[|queue| - 1];
      var buf := d.data + p.buf[|d.data|..];
      assert buf[..|d.data|] == d.data;
      queue := queue[|queue| - 1 := PacketBuffer(buf, Some((|d.data|, d.addr)))];
    }

    /** The front packet was sent; its buffer goes back to the pool. */
    method PopFront()
      requires Valid()
      modifies this
      ensures Valid() && |pool| + |queue| == old(|pool| + |queue|)
      ensures Contents(queue) == old(if Contents(queue) == [] then [] else Contents(queue)[1..])
      ensures old(queue) != [] ==> queue == old(queue)[1..]
    {
      if queue != [] {
        var p := queue[0];
        pool, queue := pool + [p.(filled := None)], queue[1..];
      }
    }
  }

  // ------------------------------------------------------------ one direction

  ghost predicate AllSocket(socketOnly: bool, ds: seq<Datagram>) {
    socketOnly ==> forall i :: 0 <= i < |ds| ==> ds[i].addr.Socket?
  }

  /** Everything taken from the source has been sent on or is queued, in order, with its
      address. */
  ghost predicate FillOk(q: CopyBuffer, src: Source, sent: seq<Datagram>)
    reads q, src
  {
    && q.Valid() && src.Valid() && src.taken == sent + Contents(q.queue)
    && AllSocket(src.socketOnly, Contents(q.queue))
  }

  ghost predicate SendOk(q: CopyBuffer, sink: Sink, taken: seq<Datagram>)
    reads q, sink
  {
    && q.Valid() && taken == sink.accepted + Contents(q.queue)
    && AllSocket(sink.socketOnly, Contents(q.queue))
  }

  ghost predicate RelayOk(q: CopyBuffer, src: Source, sink: Sink)
    reads q, src, sink
  {
    FillOk(q, src, sink.accepted) && src.socketOnly == sink.socketOnly
  }

  ghost predicate FitsPacket(socketOnly: bool, d: Datagram) {
    |d.data| <= UDP_BUFFER_SIZE && (socketOnly ==> d.addr.Socket?)
  }

  /** Let the source write its next datagram into the borrowed packet. */
  method FillOne(q: CopyBuffer, src: Source, ghost sent: seq<Datagram>) returns (r: Poll<()>)
    requires FillOk(q, src, sent) && LastBlank(q.queue)
    modifies q`queue, src
    ensures FillOk(q, src, sent) && |q.queue| == old(|q.queue|)
    ensures !r.Ready? ==> src.taken == old(src.taken) && src.waiting == r.Pending? && src.failing == r.Failed?
    ensures src.failures == old(src.failures) + if r.Failed? then 1 else 0
    ensures r.Ready? ==>
              && |src.taken| == old(|src.taken|) + 1 && src.taken[..|src.taken| - 1] == old(src.taken)
              && FitsPacket(src.socketOnly, src.taken[|src.taken| - 1]) && |src.script| < old(|src.script|)
    ensures src.polls > old(src.polls) && |src.script| <= old(|src.script|)
  {
    var got := src.PollDatagram();
    match got
    case Pending => return Pending;
    case Failed => return Failed;
    case Ready(d) =>
      ghost var before := Contents(q.queue);
      q.FillBack(d);
      Appended(src.taken, sent, before, d);
      return Ready(());
  }

  /** Take datagrams until the queue is full (Ready), or the source waits or fails.
      `sent` are the datagrams that have left the queue. */
  method FillQueue(q: CopyBuffer, src: Source, ghost sent: seq<Datagram>) returns (r: Poll<()>)
    requires FillOk(q, src, sent)
    modifies q, src
    ensures FillOk(q, src, sent) && |q.pool| + |q.queue| >= old(|q.pool| + |q.queue|)
    ensures old(src.taken) <= src.taken
    ensures forall i :: old(|src.taken|) <= i < |src.taken| ==> FitsPacket(src.socketOnly, src.taken[i])
    ensures r.Ready? ==> |q.queue| == q.max && !LastBlank(q.queue)
    ensures r.Pending? ==> src.waiting && src.polls > old(src.polls)
    ensures r.Failed? ==> src.failing && src.polls > old(src.polls)
    ensures src.failures == old(src.failures) + if r.Failed? then 1 else 0
    ensures src.polls >= old(src.polls) && |src.script| <= old(|src.script|)
  {
    while true
      invariant FillOk(q, src, sent) && |q.pool| + |q.queue| >= old(|q.pool| + |q.queue|)
      invariant old(src.taken) <= src.taken
      invariant forall i :: old(|src.taken|) <= i < |src.taken| ==> FitsPacket(src.socketOnly, src.taken[i])
      invariant src.polls >= old(src.polls) && |src.script| <= old(|src.script|) && src.failures == old(src.failures)
      decreases |src.script|
    {
      var room := q.BorrowBack();
      if !room {
        return Ready(());
      }
      r := FillOne(q, src, sent);
      if !r.Ready? {
        return;
      }
    }
  }

  lemma Appended(taken: seq<Datagram>, sent: seq<Datagram>, queued: seq<Datagram>, d: Datagram)
    requires taken == sent + queued + [d]
    ensures taken == sent + (queued + [d])
  {
  }

  lemma Moved(taken: seq<Datagram>, accepted: seq<Datagram>, queued: seq<Datagram>)
    requires taken == accepted + queued && queued != []
    ensures taken == accepted + [queued[0]] + queued[1..]
  {
  }

  /** Offer the front packet to the sink, and give its buffer back if it is taken. */
  method SendFront(q: CopyBuffer, sink: Sink, ghost taken: seq<Datagram>) returns (r: Poll<()>)
    requires SendOk(q, sink, taken) && Contents(q.queue) != []
    modifies q, sink
    ensures SendOk(q, sink, taken) && |q.pool| + |q.queue| == old(|q.pool| + |q.queue|)
    ensures Contents(q.queue) == old(Contents(q.queue))[if r.Ready? then 1 else 0..]
    ensures old(sink.accepted) <= sink.accepted
    ensures r.Ready? ==> |q.queue| < old(|q.queue|) && |sink.script| < old(|sink.script|)
    ensures r.Pending? ==> sink.waiting
    ensures r.Failed? ==> sink.failing
    ensures sink.failures == old(sink.failures) + if r.Failed? then 1 else 0
    ensures sink.polls > old(sink.polls) && |sink.script| <= old(|sink.script|)
  {
    ghost var queued, accepted := Contents(q.queue), sink.accepted;
    r := sink.PollSend(View(q.queue[0]));
    if r.Ready? {
      q.PopFront();
      Moved(taken, accepted, queued);
    }
  }

  /** Send queued datagrams until none is left (Ready), or the sink waits or fails.
      `taken` are all datagrams that have entered the queue. */
  method SendQueue(q: CopyBuffer, sink: Sink, ghost taken: seq<Datagram>) returns (r: Poll<()>)
    requires SendOk(q, sink, taken)
    modifies q, sink
    ensures SendOk(q, sink, taken) && |q.pool| + |q.queue| == old(|q.pool| + |q.queue|)
    ensures old(sink.accepted) <= sink.accepted
    ensures r.Ready? ==> Contents(q.queue) == []
    ensures r.Pending? ==> Contents(q.queue) != [] && sink.waiting && sink.polls > old(sink.polls)
    ensures r.Failed? ==> sink.failing && sink.polls > old(sink.polls)
    ensures sink.failures == old(sink.failures) + if r.Failed? then 1 else 0
    ensures sink.polls >= old(sink.polls) && |sink.script| <= old(|sink.script|)
    ensures old(Contents(q.queue)) != [] && r.Ready? ==> |sink.script| < old(|sink.script|)
  {
    while q.queue != [] && q.queue[0].filled.Some?
      invariant SendOk(q, sink, taken) && |q.pool| + |q.queue| == old(|q.pool| + |q.queue|)
      invariant old(sink.accepted) <= sink.accepted
      invariant sink.polls >= old(sink.polls) && |sink.script| <= old(|sink.script|) && sink.failures == old(sink.failures)
      invariant Contents(q.queue) == old(Contents(q.queue)) || |sink.script| < old(|sink.script|)
      decreases |q.queue|
    {
      r := SendFront(q, sink, taken);
      if !r.Ready? {
        return;
      }
    }
    return Ready(());
  }

  /** A waker is registered where progress is possible: with the sink, which was Pending
      on a filled front packet, or with the source, with no filled packet queued. The
      answer came after the first `src0` or `sink0` polls. */
  ghost predicate Registered(q: CopyBuffer, src: Source, sink: Sink, src0: nat, sink0: nat)
    reads q, src, sink
    requires q.Valid()
  {
    || (Contents(q.queue) != [] && sink.waiting && sink.polls > sink0)
    || (Contents(q.queue) == [] && src.waiting && src.polls > src0)
  }

  /** One turn of the outer loop. Ready means that nothing was registered: then exactly
      a full queue of datagrams has been sent. */
  method Turn(q: CopyBuffer, src: Source, sink: Sink) returns (r: Poll<()>)
    requires RelayOk(q, src, sink)
    modifies q, src, sink
    ensures RelayOk(q, src, sink) && |q.pool| + |q.queue| >= old(|q.pool| + |q.queue|)
    ensures r.Ready? ==> Contents(q.queue) == [] && |sink.accepted| == old(|sink.accepted|) + q.max
    ensures r.Ready? ==> |src.script| <= old(|src.script|) && |sink.script| < old(|sink.script|)
    ensures r.Pending? ==> Registered(q, src, sink, old(src.polls), old(sink.polls))
    ensures r.Failed? ==> src.failing || sink.failing
    ensures src.failures + sink.failures == old(src.failures + sink.failures) + if r.Failed? then 1 else 0
    ensures src.polls >= old(src.polls) && sink.polls >= old(sink.polls)
  {
    var filled := FillQueue(q, src, sink.accepted);
    if filled.Failed? {
      return Failed;
    }
    var sent := SendQueue(q, sink, src.taken);
    if sent.Failed? {
      return Failed;
    }
    return if filled.Pending? || sent.Pending? then Pending else Ready(());
  }

  /** The body shared by poll_send_to and poll_recv_from. It never completes: it ends
      Pending with a waker registered where progress is possible, or with the first error
      of an endpoint. */
  method PollRelay(q: CopyBuffer, src: Source, sink: Sink) returns (r: Poll<()>)
    requires RelayOk(q, src, sink)
    modifies q, src, sink
    ensures RelayOk(q, src, sink) && |q.pool| + |q.queue| >= old(|q.pool| + |q.queue|)
    ensures !r.Ready?
    ensures r.Pending? ==> Registered(q, src, sink, old(src.polls), old(sink.polls))
    ensures r.Failed? ==> src.failing || sink.failing
    ensures src.failures + sink.failures == old(src.failures + sink.failures) + if r.Failed? then 1 else 0
  {
    while true
      invariant RelayOk(q, src, sink) && |q.pool| + |q.queue| >= old(|q.pool| + |q.queue|)
      invariant src.failures + sink.failures == old(src.failures + sink.failures)
      invariant src.polls >= old(src.polls) && sink.polls >= old(sink.polls)
      decreases |src.script| + |sink.script|
    {
      r := Turn(q, src, sink);
      if !r.Ready? {
        return;
      }
    }
  }

  // ------------------------------------------------------------ both directions

  /** `a` is the channel, `b` the socket: what the socket receives has a socket address,
      so the address conversion on the way back cannot fail. */
  class CopyBidirectional {
    const fromChannel: Source
    const toSocket: Sink
    const fromSocket: Source
    const toChannel: Sink
    const sendQueue: CopyBuffer
    const recvQueue: CopyBuffer

    constructor (fromChannel: Source, toSocket: Sink, fromSocket: Source, toChannel: Sink)
      requires fromChannel != fromSocket && toSocket != toChannel
      requires fromChannel.Valid() && !fromChannel.socketOnly && !toSocket.socketOnly
      requires fromSocket.Valid() && fromSocket.socketOnly && toChannel.socketOnly
      requires fromChannel.taken == [] && toSocket.accepted == [] && fromSocket.taken == [] && toChannel.accepted == []
      ensures Valid()
    {
      this.fromChannel, this.toSocket, this.fromSocket, this.toChannel := fromChannel, toSocket, fromSocket, toChannel;
      var s := new CopyBuffer(1, 16);
      var r := new CopyBuffer(1, 16);
      sendQueue, recvQueue := s, r;
    }

    ghost predicate Valid()
      reads this, fromChannel, toSocket, fromSocket, toChannel, sendQueue, recvQueue
    {
      && fromChannel != fromSocket && toSocket != toChannel && sendQueue != recvQueue
      && sendQueue.max == 16 && recvQueue.max == 16 && toChannel.socketOnly
      && RelayOk(sendQueue, fromChannel, toSocket) && RelayOk(recvQueue, fromSocket, toChannel)
    }

    ghost function Failures(): nat
      reads fromChannel, toSocket, fromSocket, toChannel
    {
      fromChannel.failures + toSocket.failures + fromSocket.failures + toChannel.failures
    }

    method Poll() returns (r: Poll<()>)
      requires Valid()
      modifies fromChannel, toSocket, fromSocket, toChannel, sendQueue, recvQueue
      ensures Valid() && !r.Ready?
      ensures r.Pending? ==>
                && Registered(sendQueue, fromChannel, toSocket, old(fromChannel.polls), old(toSocket.polls))
                && Registered(recvQueue, fromSocket, toChannel, old(fromSocket.polls), old(toChannel.polls))
      ensures r.Failed? ==> fromChannel.failing || toSocket.failing || fromSocket.failing || toChannel.failing
      ensures Failures() == old(Failures()) + if r.Failed? then 1 else 0
    {
      var aToB := PollRelay(sendQueue, fromChannel, toSocket);
      if aToB.Failed? {
        return Failed;
      }
      var bToA := PollRelay(recvQueue, fromSocket, toChannel);
      if bToA.Failed? {
        return Failed;
      }
      return if aToB.Pending? && bToA.Pending? then Pending else Ready(());
    }
  }
}
