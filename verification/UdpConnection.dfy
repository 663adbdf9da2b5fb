/** One session's worker in place: the relay between the session's channel and its
    socket (rd-std/src/util/forward_udp/send_back.rs, connection.rs;
    rd-std/src/context/connect_udp.rs). Every poll is shown to be a sequence of acts of
    the state machine in UdpSessions. Endpoints are scripted oracles as in TcpRelay. */
module UdpConnections {
  import opened Outcomes
  import opened Addresses
  import opened UdpRelay
  import opened UdpSessions

  // ------------------------------------------------------------ the channel end

  datatype SenderOutcome = Goes | Waits | Breaks

  class BackChannel {
    const to: SocketAddr
    const atOnce: bool                  // start_send itself puts the packet into the shared channel
    var receiver: seq<Dgram>            // datagrams from the source, oldest first
    var closed: bool                    // no one can send any more
    var flushing: bool
    var script: seq<SenderOutcome>      // what the back sender's polls answer
    ghost var slot: Option<UdpPacket>   // started, but not yet in the shared channel
    ghost var entered: seq<UdpPacket>   // put into the shared channel
    ghost var waiting: bool             // the back sender's last poll was Pending
    ghost var failing: bool             // or an error
    ghost var failures: nat             // errors so far
    ghost var polls: nat

    constructor (to: SocketAddr, atOnce: bool, script: seq<SenderOutcome>)
      ensures Valid() && this.to == to && receiver == [] && !closed && !flushing && slot == None && entered == []
    {
      this.to, this.atOnce, this.script := to, atOnce, script;
      receiver, closed, flushing, slot, entered := [], false, false, None, [];
    }

    ghost predicate Valid()
      reads this
    {
      slot.Some? ==> flushing
    }

    /** Packets given to the back sender, oldest first. */
    ghost function Started(): seq<UdpPacket>
      reads this
    {
      entered + Listed(slot)
    }

    method PollSendTo() returns (r: Poll<Dgram>)
      modifies this`receiver
      ensures old(receiver) == [] ==> r == (if closed then Failed else Pending) && receiver == []
      ensures old(receiver) != [] ==> r == Ready(Cut(old(receiver)[0])) && receiver == old(receiver)[1..]
    {
      if receiver == [] {
        return if closed then Failed else Pending;
      }
      var item := receiver[0];
      receiver := receiver[1..];
      return Ready(item.(data := Truncated(item.data)));
    }

    method PollSender() returns (r: Poll<()>)
      modifies this`script, this`waiting, this`failing, this`failures, this`polls
      ensures |script| <= old(|script|) && (r.Ready? ==> |script| < old(|script|))
      ensures waiting == r.Pending? && failing == r.Failed? && polls == old(polls) + 1
      ensures failures == old(failures) + if r.Failed? then 1 else 0
    {
      var next := if script == [] then Waits else script[0];
      script := if script == [] then [] else script[1..];
      r := match next case Goes => Ready(()) case Waits => Pending case Breaks => Failed;
      waiting, failing, polls := r.Pending?, r.Failed?, polls + 1;
      failures := failures + if r.Failed? then 1 else 0;
    }

    method StartSend(packet: UdpPacket)
      requires slot.None?
      modifies this`slot, this`entered
      ensures Started() == old(Started()) + [packet] && slot == (if atOnce then None else Some(packet))
    {
      assert entered + [] == entered;
      if atOnce {
        entered := entered + [packet];
      } else {
        slot := Some(packet);
      }
    }

    /** A completed flush means that the packet is in the shared channel. */
    method PollFlush() returns (r: Poll<()>)
      modifies this`slot, this`entered, this`script, this`waiting, this`failing, this`failures, this`polls
      ensures Started() == old(Started()) && (if r.Ready? then slot.None? else slot == old(slot))
      ensures |script| <= old(|script|) && (r.Ready? ==> |script| < old(|script|))
      ensures waiting == r.Pending? && failing == r.Failed? && polls == old(polls) + 1
      ensures failures == old(failures) + if r.Failed? then 1 else 0
    {
      r := PollSender();
      if r.Ready? && slot.Some? {
        entered, slot := entered + [slot.value], None;
      }
    }

    /** The relay offers the same packet again after Pending; the `flushing` flag keeps it
        from being started twice: it is started by this call or was by an earlier one. */
    method PollRecvFrom(buf: seq<Byte>, target: SocketAddr) returns (r: Poll<nat>)
      requires Valid()
      modifies this`flushing, this`script, this`slot, this`entered, this`waiting, this`failing, this`failures, this`polls
      ensures Valid() && polls > old(polls) && (r.Pending? ==> waiting) && (r.Failed? ==> failing)
      ensures failures == old(failures) + if r.Failed? then 1 else 0
      ensures |script| <= old(|script|) && (r.Ready? ==> |script| < old(|script|))
      ensures var packet := UdpPacket(target, to, buf);
              var once := old(Started()) + if old(flushing) then [] else [packet];
              && (r.Ready? ==> r.value == |buf| && !flushing && slot.None? && Started() == once)
              && (!r.Ready? && flushing ==> Started() == once)
              && (!r.Ready? && !flushing ==> Started() == old(Started()) && !old(flushing) && slot == old(slot))
      ensures !r.Ready? && flushing ==>
                slot == if old(flushing) then old(slot) else if atOnce then None else Some(UdpPacket(target, to, buf))
    {
      while true
        invariant Valid() && polls >= old(polls) && |script| <= old(|script|) && failures == old(failures)
        invariant old(flushing) ==> flushing && Started() == old(Started()) && slot == old(slot)
        invariant !old(flushing) && !flushing ==> Started() == old(Started()) && slot == old(slot)
        invariant !old(flushing) && flushing ==>
                    && Started() == old(Started()) + [UdpPacket(target, to, buf)]
                    && slot == if atOnce then None else Some(UdpPacket(target, to, buf))
        decreases |script|
      {
        if flushing {
          var flushed := PollFlush();
          if !flushed.Ready? {
            return if flushed.Pending? then Pending else Failed;
          }
          flushing := false;
          return Ready(|buf|);
        }
        var ready := PollSender();
        if !ready.Ready? {
          return if ready.Pending? then Pending else Failed;
        }
        StartSend(UdpPacket(target, to, buf));
        flushing := true;
      }
    }
  }

  // ------------------------------------------------------------ the worker

  function Emits(n: nat): (r: seq<Act>)
    ensures |r| == n && forall i :: 0 <= i < n ==> r[i] == Emit
  {
    seq(n, i => Emit)
  }

  function Replies(ds: seq<Dgram>): (r: seq<Act>)
    ensures |r| == |ds| && forall i :: 0 <= i < |ds| ==> r[i] == Reply(ds[i].data, ds[i].addr.addr)
  {
    seq(|ds|, i requires 0 <= i < |ds| => Reply(ds[i].data, ds[i].addr.addr))
  }

  /** The session after its socket has accepted `n` queued datagrams. */
  ghost function Emitted(t: Session, n: nat): Session
    requires n <= |t.outq|
  {
    t.(outq := t.outq[n..], emitted := t.emitted + t.outq[..n])
  }

  lemma EmitOne(t: Session, n: nat)
    requires t.alive && n < |t.outq|
    ensures CanAct(Emitted(t, n), Emit) && Acted(Emitted(t, n), Emit) == Emitted(t, n + 1)
  {
    assert t.outq[n..][1..] == t.outq[n + 1..];
    assert t.emitted + t.outq[..n] + [t.outq[n]] == t.emitted + t.outq[..n + 1];
  }

  /** That is `n` acts. */
  lemma {:induction false} EmitMany(s: Session, acts: seq<Act>, t: Session, n: nat)
    requires ActedAll(s, acts) == Some(t) && t.alive && n <= |t.outq|
    ensures ActedAll(s, acts + Emits(n)) == Some(Emitted(t, n))
  {
    if n == 0 {
      assert acts + Emits(0) == acts && t.outq[0..] == t.outq && t.emitted + t.outq[..0] == t.emitted;
    } else {
      EmitMany(s, acts, t, n - 1);
      EmitsSplit(acts, n);
      EmitAfter(s, acts + Emits(n - 1), t, n - 1);
    }
  }

  lemma EmitsSplit(acts: seq<Act>, n: nat)
    requires n > 0
    ensures acts + Emits(n) == acts + Emits(n - 1) + [Emit]
  {
  }

  lemma EmitAfter(s: Session, acts: seq<Act>, t: Session, n: nat)
    requires t.alive && n < |t.outq| && ActedAll(s, acts) == Some(Emitted(t, n))
    ensures ActedAll(s, acts + [Emit]) == Some(Emitted(t, n + 1))
  {
    EmitOne(t, n);
    OneMoreAct(s, acts, Emitted(t, n), Emit);
  }

  ghost function Replied(t: Session, ds: seq<Dgram>): Session { t.(replies := t.replies + ds) }

  lemma ReplyOne(t: Session, ds: seq<Dgram>, d: Dgram)
    requires t.alive && |d.data| <= UDP_BUFFER_SIZE
    ensures var act := Reply(d.data, d.addr.addr);
            CanAct(Replied(t, ds), act) && Acted(Replied(t, ds), act) == Replied(t, ds + [d])
  {
    assert t.replies + ds + [d] == t.replies + (ds + [d]);
  }

  /** And the socket receiving datagrams that fit a packet buffer. */
  lemma {:induction false} ReplyMany(s: Session, acts: seq<Act>, t: Session, ds: seq<Dgram>)
    requires ActedAll(s, acts) == Some(t) && t.alive
    requires forall i :: 0 <= i < |ds| ==> |ds[i].data| <= UDP_BUFFER_SIZE
    ensures ActedAll(s, acts + Replies(ds)) == Some(Replied(t, ds))
  {
    if ds == [] {
      assert acts + Replies(ds) == acts && t.replies + ds == t.replies;
    } else {
      var n := |ds| - 1;
      ReplyMany(s, acts, t, ds[..n]);
      RepliesSplit(acts, ds);
      ReplyAfter(s, acts + Replies(ds[..n]), t, ds[..n], ds[n]);
    }
  }

  lemma RepliesSplit(acts: seq<Act>, ds: seq<Dgram>)
    requires ds != []
    ensures var n := |ds| - 1;
            && acts + Replies(ds) == acts + Replies(ds[..n]) + [Reply(ds[n].data, ds[n].addr.addr)]
            && ds == ds[..n] + [ds[n]]
  {
  }

  lemma ReplyAfter(s: Session, acts: seq<Act>, t: Session, ds: seq<Dgram>, d: Dgram)
    requires ActedAll(s, acts) == Some(Replied(t, ds)) && t.alive && |d.data| <= UDP_BUFFER_SIZE
    ensures ActedAll(s, acts + [Reply(d.data, d.addr.addr)]) == Some(Replied(t, ds + [d]))
  {
    ReplyOne(t, ds, d);
    OneMoreAct(s, acts, Replied(t, ds), Reply(d.data, d.addr.addr));
  }

  /** The session's way out is what the relay holds: datagrams waiting in the channel,
      queued, and accepted by the socket. */
  ghost predicate OutMatches(s: Session, waiting: seq<Dgram>, queued: seq<Datagram>, accepted: seq<Datagram>) {
    s.inbox == waiting && queued == s.outq && accepted == s.emitted
  }

  /** And its way back: datagrams taken from the socket, the last of them still queued,
      and the state of the back sender. */
  ghost predicate InMatches(s: Session, taken: seq<Datagram>, queued: seq<Datagram>,
                            flushing: bool, slot: Option<UdpPacket>, entered: seq<UdpPacket>) {
    && BackOk(s) && s.popped <= |s.replies|
    && taken == s.replies && queued == s.replies[s.popped..]
    && s.flushing == flushing && s.slot == slot && s.entered == entered
  }

  ghost predicate SameWayBack(s: Session, t: Session) {
    && s.src == t.src && s.replies == t.replies && s.popped == t.popped
    && s.flushing == t.flushing && s.slot == t.slot && s.entered == t.entered
  }

  lemma WayBackKept(s: Session, t: Session, taken: seq<Datagram>, queued: seq<Datagram>,
                    flushing: bool, slot: Option<UdpPacket>, entered: seq<UdpPacket>)
    requires InMatches(s, taken, queued, flushing, slot, entered) && SameWayBack(s, t)
    ensures InMatches(t, taken, queued, flushing, slot, entered)
  {
  }

  /** Taking the oldest datagram out of the channel is an act. */
  lemma TakeMatches(s0: Session, acts: seq<Act>, s: Session, waiting: seq<Dgram>, queued: seq<Datagram>,
                    accepted: seq<Datagram>)
    requires ActedAll(s0, acts) == Some(s) && OutMatches(s, waiting, queued, accepted) && s.alive && waiting != []
    ensures CanAct(s, Take) && SameWayBack(s, Acted(s, Take)) && Acted(s, Take).alive
    ensures ActedAll(s0, acts + [Take]) == Some(Acted(s, Take))
    ensures var d := Cut(waiting[0]);
            OutMatches(Acted(s, Take), waiting[1..], queued + [d], accepted)
  {
    OneMoreAct(s0, acts, s, Take);
  }

  /** What the socket has accepted since is that many acts. */
  lemma EmitMatches(s0: Session, acts: seq<Act>, s: Session, waiting: seq<Dgram>, queued: seq<Datagram>,
                    accepted: seq<Datagram>)
    returns (more: seq<Act>, t: Session)
    requires ActedAll(s0, acts) == Some(s) && s.alive
    requires s.inbox == waiting && s.emitted <= accepted
    requires accepted + queued == s.emitted + s.outq
    ensures ActedAll(s0, more) == Some(t) && acts <= more && SameWayBack(s, t) && t.alive
    ensures OutMatches(t, waiting, queued, accepted)
  {
    var a, q, k := s.emitted, s.outq, |accepted| - |s.emitted|;
    assert |accepted + queued| == |a + q|;
    assert accepted == (a + q)[..|accepted|] && queued == (a + q)[|accepted|..];
    assert accepted == a + q[..k] && queued == q[k..];
    assert s.outq[k..] == q[k..] && s.emitted + s.outq[..k] == a + q[..k];
    EmitMany(s0, acts, s, k);
    more, t := acts + Emits(k), Emitted(s, k);
  }

  ghost predicate SameWayOut(s: Session, t: Session) {
    s.src == t.src && s.alive == t.alive && s.inbox == t.inbox && s.outq == t.outq && s.emitted == t.emitted
  }

  lemma WayOutKept(s: Session, t: Session, waiting: seq<Dgram>, queued: seq<Datagram>, accepted: seq<Datagram>)
    requires OutMatches(s, waiting, queued, accepted) && SameWayOut(s, t)
    ensures OutMatches(t, waiting, queued, accepted)
  {
  }

  lemma MoreReplies(s: Session, ds: seq<Dgram>, taken: seq<Datagram>, queued: seq<Datagram>)
    requires BackOk(s) && s.popped <= |s.replies|
    requires taken == s.replies + ds && taken == s.replies[..s.popped] + queued
    ensures InMatches(Replied(s, ds), taken, queued, s.flushing, s.slot, s.entered)
  {
    var all := s.replies + ds;
    assert all[..Sent(s)] == s.replies[..Sent(s)];
    assert taken == all && queued == taken[s.popped..];
    assert all[s.popped..] == all[s.popped..];
  }

  /** And what has been taken from the socket since. */
  lemma FillMatches(s0: Session, acts: seq<Act>, s: Session, taken: seq<Datagram>, queued: seq<Datagram>)
    returns (more: seq<Act>, t: Session)
    requires ActedAll(s0, acts) == Some(s) && s.alive && BackOk(s) && s.popped <= |s.replies|
    requires s.replies <= taken && taken == s.replies[..s.popped] + queued
    requires forall i :: |s.replies| <= i < |taken| ==> FitsPacket(true, taken[i])
    ensures ActedAll(s0, more) == Some(t) && acts <= more && SameWayOut(s, t)
    ensures InMatches(t, taken, queued, s.flushing, s.slot, s.entered)
  {
    var tail := taken[|s.replies|..];
    assert forall i :: 0 <= i < |tail| ==> FitsPacket(true, tail[i]);
    var ds := tail;
    forall i | 0 <= i < |ds| ensures |ds[i].data| <= UDP_BUFFER_SIZE {
      assert ds[i] == tail[i];
    }
    ReplyMany(s0, acts, s, ds);
    MoreReplies(s, ds, taken, queued);
    more, t := acts + Replies(ds), Replied(s, ds);
  }

  /** The packet that the relay offers next. */
  function Offer(src: SocketAddr, d: Datagram): UdpPacket
    requires d.addr.Socket?
  {
    UdpPacket(d.addr.addr, src, d.data)
  }

  lemma QueuedIsReply(s: Session, queued: seq<Datagram>)
    requires s.popped <= |s.replies| && queued == s.replies[s.popped..] && queued != []
    ensures s.popped < |s.replies| && queued[0].addr.Socket?
    ensures var d := s.replies[s.popped]; Offer(s.src, queued[0]) == UdpPacket(d.addr.addr, s.src, d.data)
    ensures queued[1..] == s.replies[s.popped + 1..]
  {
    assert s.replies[s.popped..][0] == s.replies[s.popped];
    assert s.replies[s.popped..][1..] == s.replies[s.popped + 1..];
  }

  lemma StartMatches(s: Session, taken: seq<Datagram>, queued: seq<Datagram>, entered: seq<UdpPacket>)
    requires InMatches(s, taken, queued, false, None, entered) && s.alive && queued != []
    ensures queued[0].addr.Socket? && CanAct(s, StartSend) && SameWayOut(s, Acted(s, StartSend))
    ensures InMatches(Acted(s, StartSend), taken, queued, true, Some(Offer(s.src, queued[0])), entered)
  {
    QueuedIsReply(s, queued);
    StartSendKeeps(s);
  }

  lemma EnterMatches(s: Session, taken: seq<Datagram>, queued: seq<Datagram>, packet: UdpPacket, entered: seq<UdpPacket>)
    requires InMatches(s, taken, queued, true, Some(packet), entered) && s.alive
    ensures CanAct(s, Enter) && SameWayOut(s, Acted(s, Enter))
    ensures InMatches(Acted(s, Enter), taken, queued, true, None, entered + [packet])
  {
    EnterKeeps(s);
  }

  /** A packet that is being flushed is the one at the front of the queue. */
  lemma FlushedMatches(s: Session, taken: seq<Datagram>, queued: seq<Datagram>, entered: seq<UdpPacket>)
    requires InMatches(s, taken, queued, true, None, entered) && s.alive
    ensures queued != [] && CanAct(s, Flushed) && SameWayOut(s, Acted(s, Flushed))
    ensures InMatches(Acted(s, Flushed), taken, queued[1..], false, None, entered)
  {
    assert |queued| == |s.replies| - s.popped;
    QueuedIsReply(s, queued);
  }

  /** What one call of poll_recv_from has done, as acts. */
  lemma SentMatches(s0: Session, acts: seq<Act>, s: Session, taken: seq<Datagram>, queued: seq<Datagram>, done: bool,
                    flushing: bool, slot: Option<UdpPacket>, entered: seq<UdpPacket>)
    returns (more: seq<Act>, t: Session)
    requires ActedAll(s0, acts) == Some(s) && s.alive && queued != [] && queued[0].addr.Socket?
    requires InMatches(s, taken, queued, s.flushing, s.slot, s.entered)
    requires done ==> !flushing && slot.None?
    requires !done && !flushing ==> !s.flushing && slot == s.slot && entered + Listed(slot) == s.entered + Listed(s.slot)
    requires done || flushing ==>
               entered + Listed(slot) == s.entered + Listed(s.slot) + if s.flushing then [] else [Offer(s.src, queued[0])]
    requires !done && flushing ==>
               slot == (if s.flushing then s.slot else Some(Offer(s.src, queued[0]))) || slot.None?
    ensures acts <= more && ActedAll(s0, more) == Some(t) && SameWayOut(s, t)
    ensures InMatches(t, taken, queued[if done then 1 else 0..], flushing, slot, entered)
  {
    more, t := acts, s;
    if !s.flushing && (done || flushing) {
      StartMatches(s, taken, queued, s.entered);
      OneMoreAct(s0, acts, s, StartSend);
      more, t := acts + [StartSend], Acted(s, StartSend);
      assert s.entered + [] == s.entered;
    }
    if t.slot.Some? && slot.None? {
      EnterMatches(t, taken, queued, t.slot.value, t.entered);
      OneMoreAct(s0, more, t, Enter);
      more, t := more + [Enter], Acted(t, Enter);
    }
    assert t.entered + Listed(t.slot) == entered + Listed(slot) && t.slot == slot;
    SameTail(t.entered, entered, Listed(slot));
    if done {
      FlushedMatches(t, taken, queued, t.entered);
      OneMoreAct(s0, more, t, Flushed);
      more, t := more + [Flushed], Acted(t, Flushed);
    }
  }

  lemma SameTail<T>(a: seq<T>, b: seq<T>, c: seq<T>)
    requires a + c == b + c
    ensures a == b
  {
    assert |a + c| == |b + c|;
    assert a == (a + c)[..|a|] && b == (b + c)[..|b|];
  }

  class UdpConnection {
    const capacity: nat
    const back: BackChannel
    const fromSocket: Source
    const toSocket: Sink
    const sendQueue: CopyBuffer
    const recvQueue: CopyBuffer
    var ended: bool                     // the worker has ended
    ghost var session: Session          // what this is in the state machine,
    ghost var polled: Session           // what it was when the last poll began,
    ghost var acts: seq<Act>            // and what the worker has done since

    constructor (src: SocketAddr, capacity: nat, atOnce: bool, script: seq<SenderOutcome>, fromSocket: Source, toSocket: Sink)
      requires fromSocket.Valid() && fromSocket.socketOnly && fromSocket.taken == []
      requires !toSocket.socketOnly && toSocket.accepted == []
      ensures Valid() && session == NewSession(src) && this.capacity == capacity
      ensures this.fromSocket == fromSocket && this.toSocket == toSocket
    {
      this.capacity, this.fromSocket, this.toSocket := capacity, fromSocket, toSocket;
      var channel := new BackChannel(src, atOnce, script);
      var send := new CopyBuffer(1, 16);
      var recv := new CopyBuffer(1, 16);
      back, sendQueue, recvQueue := channel, send, recv;
      ended, session, polled, acts := false, NewSession(src), NewSession(src), [];
      NewIsOk(src);
    }

    ghost predicate SendSide()
      reads this, back, toSocket, sendQueue
    {
      && sendQueue.Valid() && sendQueue.max == 16 && !toSocket.socketOnly && session.src == back.to
      && OutMatches(session, back.receiver, Contents(sendQueue.queue), toSocket.accepted)
    }

    ghost predicate RecvSide()
      reads this, back, fromSocket, recvQueue
    {
      && recvQueue.Valid() && recvQueue.max == 16 && back.Valid() && fromSocket.Valid() && fromSocket.socketOnly
      && InMatches(session, fromSocket.taken, Contents(recvQueue.queue), back.flushing, back.slot, back.entered)
    }

    /** The acts of this poll lead from where it began to here. */
    ghost predicate Traced()
      reads this
    {
      ActedAll(polled, acts) == Some(session)
    }

    ghost predicate Valid()
      reads this, back, fromSocket, toSocket, sendQueue, recvQueue
    {
      sendQueue != recvQueue && session.alive == !ended && SendSide() && RecvSide() && Traced()
    }

    /** try_send: what the forwarder does with a datagram for this session. */
    method Send(d: Dgram) returns (ok: bool)
      requires Valid()
      modifies this`session, this`polled, this`acts, back`receiver
      ensures Valid() && session == Delivered(old(session), d, capacity)
      ensures ok <==> !ended && |old(back.receiver)| < capacity
      ensures back.receiver == if ok then old(back.receiver) + [d] else old(back.receiver)
    {
      ok := !ended && |back.receiver| < capacity;
      ghost var s := session;
      if ok {
        back.receiver := back.receiver + [d];
      }
      session := Delivered(s, d, capacity);
      polled, acts := session, [];
      assert session.inbox == back.receiver;
      WayBackKept(s, session, fromSocket.taken, Contents(recvQueue.queue), back.flushing, back.slot, back.entered);
    }

    // ---------------------------------------------------------- from the source to the socket

    /** Take one datagram from the channel into the borrowed packet. */
    method TakeOne() returns (r: Poll<()>)
      requires SendSide() && Traced() && session.alive && LastBlank(sendQueue.queue)
      modifies this`session, this`acts, back`receiver, sendQueue`queue
      ensures SendSide() && Traced() && session.alive && SameWayBack(old(session), session)
      ensures r.Ready? ==> |back.receiver| < old(|back.receiver|)
      ensures !r.Ready? ==> back.receiver == [] && r == if back.closed then Failed else Pending
    {
      ghost var waiting, queued := back.receiver, Contents(sendQueue.queue);
      var got := back.PollSendTo();
      match got
      case Pending => return Pending;
      case Failed => return Failed;
      case Ready(d) =>
        sendQueue.FillBack(d);
        NoteTake(waiting, queued, toSocket.accepted);
        return Ready(());
    }

    ghost method NoteTake(waiting: seq<Dgram>, queued: seq<Datagram>, accepted: seq<Datagram>)
      requires Traced() && session.alive && OutMatches(session, waiting, queued, accepted) && waiting != []
      modifies this`session, this`acts
      ensures Traced() && session.alive && SameWayBack(old(session), session)
      ensures OutMatches(session, waiting[1..], queued + [Cut(waiting[0])], accepted)
    {
      TakeMatches(polled, acts, session, waiting, queued, accepted);
      session, acts := Acted(session, Take), acts + [Take];
    }

    /** Take datagrams from the channel until the queue is full (Ready), or none is there. */
    method TakeQueue() returns (r: Poll<()>)
      requires SendSide() && Traced() && session.alive
      modifies this`session, this`acts, back`receiver, sendQueue
      ensures SendSide() && Traced() && session.alive && SameWayBack(old(session), session)
      ensures r.Ready? ==> Contents(sendQueue.queue) != []
      ensures !r.Ready? ==> back.receiver == [] && r == if back.closed then Failed else Pending
    {
      while true
        invariant SendSide() && Traced() && session.alive && SameWayBack(old(session), session)
        decreases |back.receiver|
      {
        var room := sendQueue.BorrowBack();
        if !room {
          return Ready(());
        }
        r := TakeOne();
        if !r.Ready? {
          return;
        }
      }
    }

    /** Send them on until none is left (Ready), or the socket waits or fails. */
    method EmitQueue() returns (r: Poll<()>)
      requires SendSide() && Traced() && session.alive
      modifies this`session, this`acts, toSocket, sendQueue
      ensures SendSide() && Traced() && session.alive && SameWayBack(old(session), session)
      ensures r.Ready? ==> Contents(sendQueue.queue) == []
      ensures r.Pending? ==> Contents(sendQueue.queue) != [] && toSocket.waiting && toSocket.polls > old(toSocket.polls)
      ensures r.Failed? ==> toSocket.failing
      ensures toSocket.failures == old(toSocket.failures) + if r.Failed? then 1 else 0
      ensures toSocket.polls >= old(toSocket.polls) && |toSocket.script| <= old(|toSocket.script|)
      ensures old(Contents(sendQueue.queue)) != [] && r.Ready? ==> |toSocket.script| < old(|toSocket.script|)
    {
      ghost var s := session;
      r := SendQueue(sendQueue, toSocket, toSocket.accepted + Contents(sendQueue.queue));
      acts, session := EmitMatches(polled, acts, s, back.receiver, Contents(sendQueue.queue), toSocket.accepted);
    }

    /** Nothing is left to send, or the socket, asked after its first `n` polls, waits. */
    ghost predicate OutRests(n: nat)
      requires sendQueue.Valid()
      reads this, back, toSocket, sendQueue
    {
      || (Contents(sendQueue.queue) == [] && back.receiver == [])
      || (Contents(sendQueue.queue) != [] && toSocket.waiting && toSocket.polls > n)
    }

    /** The socket has nothing to receive and nothing is queued, or the back sender waits. */
    ghost predicate BackRests(m: nat, n: nat)
      requires recvQueue.Valid()
      reads this, back, fromSocket, recvQueue
    {
      || (Contents(recvQueue.queue) == [] && fromSocket.waiting && fromSocket.polls > m)
      || (Contents(recvQueue.queue) != [] && back.waiting && back.polls > n)
    }

    /** poll_send_to of the relay: it never completes. Pending means that the channel is
        empty with nothing queued, or that the socket waits. */
    method PollSendTo() returns (r: Poll<()>)
      requires SendSide() && Traced() && session.alive
      modifies this`session, this`acts, back`receiver, toSocket, sendQueue
      ensures SendSide() && Traced() && session.alive && SameWayBack(old(session), session)
      ensures !r.Ready?
      ensures r.Pending? ==> OutRests(old(toSocket.polls)) && toSocket.failures == old(toSocket.failures)
      ensures r.Failed? ==>
                || (back.closed && back.receiver == [] && toSocket.failures == old(toSocket.failures))
                || (toSocket.failing && toSocket.failures == old(toSocket.failures) + 1)
    {
      while true
        invariant SendSide() && Traced() && session.alive && SameWayBack(old(session), session)
        invariant toSocket.polls >= old(toSocket.polls) && toSocket.failures == old(toSocket.failures)
        decreases |toSocket.script|
      {
        var taken := TakeQueue();
        if taken.Failed? {
          return Failed;
        }
        var sent := EmitQueue();
        if !sent.Ready? {
          return sent;
        }
        if taken.Pending? {
          return Pending;
        }
      }
    }

    // ---------------------------------------------------------- from the socket to the source

    /** Take datagrams from the socket until the queue is full (Ready), or it waits or fails. */
    method FillReplies() returns (r: Poll<()>)
      requires RecvSide() && Traced() && session.alive
      modifies this`session, this`acts, fromSocket, recvQueue
      ensures RecvSide() && Traced() && SameWayOut(old(session), session)
      ensures r.Ready? ==> Contents(recvQueue.queue) != []
      ensures r.Pending? ==> fromSocket.waiting && fromSocket.polls > old(fromSocket.polls)
      ensures r.Failed? ==> fromSocket.failing
      ensures fromSocket.failures == old(fromSocket.failures) + if r.Failed? then 1 else 0
      ensures fromSocket.polls >= old(fromSocket.polls)
    {
      ghost var s := session;
      TakenSplits(s);
      r := FillQueue(recvQueue, fromSocket, s.replies[..s.popped]);
      NoteReplies(fromSocket.taken, Contents(recvQueue.queue));
    }

    /** What has been taken from the socket since becomes acts. */
    ghost method NoteReplies(taken: seq<Datagram>, queued: seq<Datagram>)
      requires Traced() && session.alive && BackOk(session) && session.popped <= |session.replies|
      requires session.replies <= taken && taken == session.replies[..session.popped] + queued
      requires forall i :: |session.replies| <= i < |taken| ==> FitsPacket(true, taken[i])
      modifies this`session, this`acts
      ensures Traced() && SameWayOut(old(session), session)
      ensures InMatches(session, taken, queued, old(session).flushing, old(session).slot, old(session).entered)
    {
      acts, session := FillMatches(polled, acts, session, taken, queued);
    }

    /** Offer the front packet to the channel's back sender. */
    method OfferReply() returns (r: Poll<()>)
      requires RecvSide() && Traced() && session.alive && session.src == back.to && Contents(recvQueue.queue) != []
      modifies this`session, this`acts
      modifies back`flushing, back`script, back`slot, back`entered, back`waiting, back`failing, back`failures, back`polls
      ensures back.Valid() && Traced() && SameWayOut(old(session), session)
      ensures InMatches(session, fromSocket.taken, Contents(recvQueue.queue)[if r.Ready? then 1 else 0..],
                        back.flushing, back.slot, back.entered)
      ensures r.Pending? ==> back.waiting
      ensures r.Failed? ==> back.failing
      ensures back.failures == old(back.failures) + (if r.Failed? then 1 else 0) && back.polls > old(back.polls)
      ensures |back.script| <= old(|back.script|) && (r.Ready? ==> |back.script| < old(|back.script|))
    {
      ghost var s, queued := session, Contents(recvQueue.queue);
      QueuedIsReply(s, queued);
      var d := View(recvQueue.queue[0]);
      var sent := back.PollRecvFrom(d.data, d.addr.addr);
      acts, session := SentMatches(polled, acts, s, fromSocket.taken, queued, sent.Ready?,
                                   back.flushing, back.slot, back.entered);
      return match sent case Ready(_) => Ready(()) case Pending => Pending case Failed => Failed;
    }

    /** Only a completed flush takes a packet off the queue. */
    method SendReply() returns (r: Poll<()>)
      requires RecvSide() && Traced() && session.alive && session.src == back.to && Contents(recvQueue.queue) != []
      modifies this`session, this`acts, recvQueue
      modifies back`flushing, back`script, back`slot, back`entered, back`waiting, back`failing, back`failures, back`polls
      ensures RecvSide() && Traced() && SameWayOut(old(session), session)
      ensures r.Ready? ==> |recvQueue.queue| < old(|recvQueue.queue|) && |back.script| < old(|back.script|)
      ensures !r.Ready? ==> recvQueue.queue == old(recvQueue.queue) && |back.script| <= old(|back.script|)
      ensures r.Pending? ==> back.waiting
      ensures r.Failed? ==> back.failing
      ensures back.failures == old(back.failures) + (if r.Failed? then 1 else 0) && back.polls > old(back.polls)
    {
      r := OfferReply();
      if r.Ready? {
        recvQueue.PopFront();
      }
    }

    /** Send replies on until none is left (Ready), or the back sender waits or fails. */
    method SendReplies() returns (r: Poll<()>)
      requires RecvSide() && Traced() && session.alive && session.src == back.to
      modifies this`session, this`acts, recvQueue
      modifies back`flushing, back`script, back`slot, back`entered, back`waiting, back`failing, back`failures, back`polls
      ensures RecvSide() && Traced() && SameWayOut(old(session), session)
      ensures r.Ready? ==> Contents(recvQueue.queue) == []
      ensures r.Pending? ==> Contents(recvQueue.queue) != [] && back.waiting && back.polls > old(back.polls)
      ensures r.Failed? ==> back.failing
      ensures back.failures == old(back.failures) + (if r.Failed? then 1 else 0) && back.polls >= old(back.polls)
      ensures |back.script| <= old(|back.script|)
      ensures old(Contents(recvQueue.queue)) != [] && r.Ready? ==> |back.script| < old(|back.script|)
    {
      while recvQueue.queue != [] && recvQueue.queue[0].filled.Some?
        invariant RecvSide() && Traced() && SameWayOut(old(session), session)
        invariant |back.script| <= old(|back.script|) && back.polls >= old(back.polls) && back.failures == old(back.failures)
        invariant recvQueue.queue == old(recvQueue.queue) || |back.script| < old(|back.script|)
        decreases |recvQueue.queue|
      {
        r := SendReply();
        if !r.Ready? {
          return;
        }
      }
      return Ready(());
    }

    /** poll_recv_from of the relay: it never completes either. */
    method PollRecvFrom() returns (r: Poll<()>)
      requires RecvSide() && Traced() && session.alive && session.src == back.to
      modifies this`session, this`acts, fromSocket, recvQueue
      modifies back`flushing, back`script, back`slot, back`entered, back`waiting, back`failing, back`failures, back`polls
      ensures RecvSide() && Traced() && SameWayOut(old(session), session)
      ensures !r.Ready?
      ensures r.Pending? ==> BackRests(old(fromSocket.polls), old(back.polls))
      ensures r.Failed? ==> fromSocket.failing || back.failing
      ensures fromSocket.failures + back.failures == old(fromSocket.failures + back.failures) + if r.Failed? then 1 else 0
    {
      while true
        invariant RecvSide() && Traced() && SameWayOut(old(session), session)
        invariant fromSocket.polls >= old(fromSocket.polls) && back.polls >= old(back.polls)
        invariant fromSocket.failures + back.failures == old(fromSocket.failures + back.failures)
        decreases |back.script|
      {
        var filled := FillReplies();
        if filled.Failed? {
          return Failed;
        }
        var sent := SendReplies();
        if !sent.Ready? {
          return sent;
        }
        if filled.Pending? {
          return Pending;
        }
      }
    }

    // ---------------------------------------------------------- both

    method PollOut() returns (r: Poll<()>)
      requires Valid() && !ended
      modifies this`session, this`acts, back`receiver, toSocket, sendQueue
      ensures Valid() && !r.Ready?
      ensures r.Pending? ==> OutRests(old(toSocket.polls)) && toSocket.failures == old(toSocket.failures)
      ensures r.Failed? ==>
                || (back.closed && back.receiver == [] && toSocket.failures == old(toSocket.failures))
                || (toSocket.failing && toSocket.failures == old(toSocket.failures) + 1)
    {
      ghost var s := session;
      r := PollSendTo();
      WayBackKept(s, session, fromSocket.taken, Contents(recvQueue.queue), back.flushing, back.slot, back.entered);
    }

    method PollBack() returns (r: Poll<()>)
      requires Valid() && !ended
      modifies this`session, this`acts, fromSocket, recvQueue
      modifies back`flushing, back`script, back`slot, back`entered, back`waiting, back`failing, back`failures, back`polls
      ensures Valid() && !r.Ready?
      ensures r.Pending? ==> BackRests(old(fromSocket.polls), old(back.polls))
      ensures r.Failed? ==> fromSocket.failing || back.failing
      ensures fromSocket.failures + back.failures == old(fromSocket.failures + back.failures) + if r.Failed? then 1 else 0
    {
      ghost var s := session;
      r := PollRecvFrom();
      WayOutKept(s, session, back.receiver, Contents(sendQueue.queue), toSocket.accepted);
    }

    /** The worker ends. */
    method End()
      requires Valid() && !ended
      modifies this`session, this`acts, this`ended
      ensures Valid() && ended
    {
      ghost var s := session;
      OneMoreAct(polled, acts, s, Die);
      session, acts, ended := Acted(s, Die), acts + [Die], true;
      WayBackKept(s, session, fromSocket.taken, Contents(recvQueue.queue), back.flushing, back.slot, back.entered);
    }

    /** The way back is polled unless the way out has failed. */
    method PollBackOrEnd(out: Poll<()>) returns (r: Poll<()>)
      requires Valid() && !ended && !out.Ready?
      modifies this`session, this`acts, this`ended, fromSocket, recvQueue
      modifies back`flushing, back`script, back`slot, back`entered, back`waiting, back`failing, back`failures, back`polls
      ensures Valid() && !r.Ready? && ended == r.Failed? && (out.Failed? ==> r.Failed?)
      ensures r.Pending? ==> BackRests(old(fromSocket.polls), old(back.polls))
      ensures out.Pending? && r.Failed? ==> fromSocket.failing || back.failing
      ensures fromSocket.failures + back.failures
              == old(fromSocket.failures + back.failures) + if out.Pending? && r.Failed? then 1 else 0
    {
      r := out;
      if r.Pending? {
        r := PollBack();
      }
      if r.Failed? {
        End();
      }
    }

    ghost function Failures(): nat
      reads back, fromSocket, toSocket
    {
      back.failures + fromSocket.failures + toSocket.failures
    }

    /** One poll of the worker is a sequence of acts of its session. It never completes:
        Pending means that in both directions everything that could be moved has been, and
        an endpoint that can wake it waits; the first error ends the worker. */
    method Poll() returns (r: Poll<()>)
      requires Valid() && !ended
      modifies this`session, this`polled, this`acts, this`ended
      modifies back, fromSocket, toSocket, sendQueue, recvQueue
      ensures Valid() && !r.Ready? && ended == r.Failed?
      ensures polled == old(session) && ActedAll(old(session), acts) == Some(session)
      ensures r.Pending? ==>
                && OutRests(old(toSocket.polls)) && BackRests(old(fromSocket.polls), old(back.polls))
                && Failures() == old(Failures())
      ensures r.Failed? ==>
                || (back.closed && back.receiver == [] && Failures() == old(Failures()))
                || ((toSocket.failing || fromSocket.failing || back.failing) && Failures() == old(Failures()) + 1)
    {
      polled, acts := session, [];
      var out := PollOut();
      r := PollBackOrEnd(out);
    }
  }

  lemma TakenSplits(s: Session)
    requires s.popped <= |s.replies|
    ensures s.replies == s.replies[..s.popped] + s.replies[s.popped..]
  {
  }

  /** Across all polls the back sender has been given the datagrams taken from the socket,
      each once and in order: those no longer queued, and the front one if it is being
      flushed. */
  lemma StartedOnce(c: UdpConnection)
    requires c.Valid()
    ensures var taken := c.fromSocket.taken;
            var sent := |taken| - |Contents(c.recvQueue.queue)| + if c.back.flushing then 1 else 0;
            && 0 <= sent <= |taken| && |c.back.Started()| == sent
            && forall i :: 0 <= i < sent ==>
                 taken[i].addr.Socket? && c.back.Started()[i] == UdpPacket(taken[i].addr.addr, c.back.to, taken[i].data)
  {
    var s := c.session;
    var all := Addressed(s.src, s.replies[..Sent(s)]);
    assert c.back.Started() == all;
    forall i | 0 <= i < Sent(s) ensures all[i] == Offer(s.src, s.replies[i]) {
      assert s.replies[..Sent(s)][i] == s.replies[i];
    }
  }
}
