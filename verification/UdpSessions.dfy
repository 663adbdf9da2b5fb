/** UDP sessions, one per source address (rd-std/src/util/forward_udp.rs, send_back.rs,
    connection.rs): what each session emits and what is handed back to the source. */
module UdpSessions {
  import opened Outcomes
  import opened Addresses
  import opened UdpRelay

  /** The forwarder's own receive buffer (rd-interface/src/constant.rs); a session's
      relay then cuts to its packet buffers. */
  const RECV_BUFFER_SIZE: nat := 8 * 1024

  /** A datagram between socket addresses. */
  type Dgram = d: Datagram | d.addr.Socket? witness Datagram([], Socket(SocketAddr(V4([0, 0, 0, 0]), 0)))

  datatype UdpPacket = UdpPacket(from: SocketAddr, to: SocketAddr, data: seq<Byte>)

  function CutTo(n: nat, data: seq<Byte>): seq<Byte> { if |data| <= n then data else data[..n] }

  function Cut(d: Dgram): Dgram { d.(data := Truncated(d.data)) }

  function CutAll(ds: seq<Dgram>): (r: seq<Dgram>)
    ensures |r| == |ds| && forall i :: 0 <= i < |ds| ==> r[i] == Cut(ds[i])
  {
    seq(|ds|, i requires 0 <= i < |ds| => Cut(ds[i]))
  }

  function Addressed(src: SocketAddr, replies: seq<Dgram>): (r: seq<UdpPacket>)
    ensures |r| == |replies|
    ensures forall i :: 0 <= i < |r| ==> r[i] == UdpPacket(replies[i].addr.addr, src, replies[i].data)
  {
    seq(|replies|, i requires 0 <= i < |replies| => UdpPacket(replies[i].addr.addr, src, replies[i].data))
  }

  function Listed<T>(o: Option<T>): seq<T> { if o.Some? then [o.value] else [] }

  // ------------------------------------------------------------ subsequences

  /** `a` can be had from `b` by leaving elements out. */
  ghost predicate Subseq<T>(a: seq<T>, b: seq<T>)
    decreases |b|
  {
    if a == [] then true
    else if b == [] then false
    else
      var m, n := |a| - 1, |b| - 1;
      (a[m] == b[n] && Subseq(a[..m], b[..n])) || Subseq(a, b[..n])
  }

  lemma SubseqGrows<T>(a: seq<T>, b: seq<T>, c: T)
    requires Subseq(a, b)
    ensures Subseq(a + [c], b + [c]) && Subseq(a, b + [c])
  {
    assert (a + [c])[..|a|] == a && (b + [c])[..|b|] == b;
  }

  lemma {:induction false} SubseqDropLast<T>(a: seq<T>, b: seq<T>)
    requires a != [] && Subseq(a, b)
    ensures Subseq(a[..|a| - 1], b)
    decreases |b|
  {
    var m, n := |a| - 1, |b| - 1;
    if a[m] == b[n] && Subseq(a[..m], b[..n]) {
      assert b == b[..n] + [b[n]];
      SubseqGrows(a[..m], b[..n], b[n]);
    } else {
      SubseqDropLast(a, b[..n]);
      assert b == b[..n] + [b[n]];
      SubseqGrows(a[..m], b[..n], b[n]);
    }
  }

  lemma {:induction false} SubseqPrefix<T>(a: seq<T>, c: seq<T>, b: seq<T>)
    requires Subseq(a + c, b)
    ensures Subseq(a, b)
    decreases |c|
  {
    if c == [] {
      assert a + c == a;
    } else {
      var k := |c| - 1;
      SubseqDropLast(a + c, b);
      assert (a + c)[..|a + c| - 1] == a + c[..k];
      SubseqPrefix(a, c[..k], b);
    }
  }

  // ------------------------------------------------------------ the system

  /** One session. `inbox` is its bounded channel, `outq` the relay's send queue, the
      replies from `popped` on are the relay's receive queue; `slot` is a packet accepted
      by the back sender but not yet in the shared channel. The rest is history; `kept`
      are the datagrams received that the channel had room for. */
  datatype Session = Session(
    src: SocketAddr,
    alive: bool,
    inbox: seq<Dgram>,
    outq: seq<Dgram>,
    popped: nat,
    flushing: bool,
    slot: Option<UdpPacket>,
    received: seq<Dgram>,
    kept: seq<Dgram>,
    emitted: seq<Dgram>,
    replies: seq<Dgram>,
    entered: seq<UdpPacket>)

  function NewSession(src: SocketAddr): Session {
    Session(src, true, [], [], 0, false, None, [], [], [], [], [])
  }

  datatype Tagged = Tagged(id: nat, packet: UdpPacket)

  /** A session is known by its position; `table` holds the one in use for a source.
      `back` is the channel all sessions share, `sendBuf` the packet being sent. */
  datatype World = World(
    sessions: seq<Session>,
    table: map<SocketAddr, nat>,
    back: seq<Tagged>,
    sendBuf: Option<Tagged>,
    handed: seq<Tagged>)

  const START: World := World([], map[], [], None, [])

  /** What a session's own worker does. */
  datatype Act =
    | Take                                          // BackChannel::poll_send_to
    | Emit                                          // its socket accepts a datagram
    | Reply(data: seq<Byte>, from: SocketAddr)      // its socket receives a datagram
    | StartSend                                     // poll_ready, then start_send
    | Enter                                         // the started packet gets its place in the shared channel
    | Flushed                                       // poll_flush completes, the relay pops
    | Die                                           // its worker ends

  datatype Step =
    | Recv(from: SocketAddr, to: SocketAddr, data: seq<Byte>)
    | Local(id: nat, act: Act)
    | Pull                                          // recv_back into send_buf
    | Hand                                          // the source accepts send_buf
    | Evict(from: SocketAddr)                       // expiry or capacity; the worker is told to end and may run on a while

  predicate CanAct(s: Session, act: Act) {
    s.alive &&
    match act
    case Take => s.inbox != []
    case Emit => s.outq != []
    case Reply(_, _) => true
    case StartSend => !s.flushing && s.slot.None? && s.popped < |s.replies|
    case Enter => s.slot.Some?
    case Flushed => s.flushing && s.slot.None?
    case Die => true
  }

  ghost predicate Enabled(w: World, step: Step, capacity: nat) {
    match step
    case Recv(_, _, _) => true
    case Local(id, act) =>
      id < |w.sessions| && CanAct(w.sessions[id], act) && (act.Enter? ==> |w.back| < capacity)
    case Pull => w.sendBuf.None? && w.back != []
    case Hand => w.sendBuf.Some?
    case Evict(from) => from in w.table
  }

  /** A datagram for a session: dropped if the worker has ended or the channel is full. */
  function Delivered(s: Session, d: Dgram, capacity: nat): Session {
    var more := if s.alive && |s.inbox| < capacity then [d] else [];
    s.(received := s.received + [d], inbox := s.inbox + more, kept := s.kept + more)
  }

  function Received(w: World, from: SocketAddr, d: Dgram, capacity: nat): World {
    if from in w.table && w.table[from] < |w.sessions| then
      var id := w.table[from];
      w.(sessions := w.sessions[id := Delivered(w.sessions[id], d, capacity)])
    else
      w.(sessions := w.sessions + [Delivered(NewSession(from), d, capacity)], table := w.table[from := |w.sessions|])
  }

  /** A datagram as the forwarder receives it. */
  function Incoming(step: Step): Dgram
    requires step.Recv?
  {
    Datagram(CutTo(RECV_BUFFER_SIZE, step.data), Socket(step.to))
  }

  function Acted(s: Session, act: Act): Session
    requires CanAct(s, act)
  {
    match act
    case Take => s.(inbox := s.inbox[1..], outq := s.outq + [Cut(s.inbox[0])])
    case Emit => s.(outq := s.outq[1..], emitted := s.emitted + [s.outq[0]])
    case Reply(data, from) => s.(replies := s.replies + [Datagram(Truncated(data), Socket(from))])
    case StartSend =>
      var d := s.replies[s.popped];
      s.(slot := Some(UdpPacket(d.addr.addr, s.src, d.data)), flushing := true)
    case Enter => s.(slot := None, entered := s.entered + [s.slot.value])
    case Flushed => s.(flushing := false, popped := s.popped + 1)
    case Die => s.(alive := false)
  }

  function Do(w: World, step: Step, capacity: nat): World
    requires Enabled(w, step, capacity)
  {
    match step
    case Recv(from, _, _) => Received(w, from, Incoming(step), capacity)
    case Local(id, act) =>
      var s := w.sessions[id];
      w.(sessions := w.sessions[id := Acted(s, act)],
         back := w.back + if act.Enter? then [Tagged(id, s.slot.value)] else [])
    case Pull => w.(sendBuf := Some(w.back[0]), back := w.back[1..])
    case Hand => w.(sendBuf := None, handed := w.handed + [w.sendBuf.value])
    case Evict(from) => w.(table := w.table - {from})
  }

  // ------------------------------------------------------------ the invariant

  /** Session `id` is the newest of its source. */
  ghost predicate Newest(sessions: seq<Session>, id: nat, a: SocketAddr) {
    id < |sessions| && sessions[id].src == a && forall j :: id < j < |sessions| ==> sessions[j].src != a
  }

  ghost predicate TableOk(w: World) {
    forall a :: a in w.table ==> Newest(w.sessions, w.table[a], a)
  }

  /** Emitted, queued and waiting datagrams are, in this order, exactly those kept. */
  ghost predicate OutOk(s: Session) {
    s.emitted + s.outq + CutAll(s.inbox) == CutAll(s.kept) && Subseq(s.kept, s.received)
  }

  /** How many replies have been given to the back sender: the one being flushed has
      been, although the relay still queues it. */
  function Sent(s: Session): nat { s.popped + if s.flushing then 1 else 0 }

  ghost predicate BackOk(s: Session) {
    && Sent(s) <= |s.replies| && (s.slot.Some? ==> s.flushing)
    && s.entered + Listed(s.slot) == Addressed(s.src, s.replies[..Sent(s)])
  }

  /** Everything that has entered the shared channel, oldest first. */
  ghost function Passage(w: World): seq<Tagged> { w.handed + Listed(w.sendBuf) + w.back }

  ghost function Of(ps: seq<Tagged>, id: nat): seq<UdpPacket> {
    if ps == [] then []
    else
      var n := |ps| - 1;
      Of(ps[..n], id) + if ps[n].id == id then [ps[n].packet] else []
  }

  ghost predicate PassageOk(w: World) {
    forall id: nat :: Of(Passage(w), id) == if id < |w.sessions| then w.sessions[id].entered else []
  }

  ghost predicate Inv(w: World) {
    TableOk(w) && PassageOk(w) && SessionsOk(w.sessions)
  }

  // ------------------------------------------------------------ steps of one session

  lemma CutFirst(ds: seq<Dgram>)
    requires ds != []
    ensures CutAll(ds) == [Cut(ds[0])] + CutAll(ds[1..])
  {
  }

  lemma CutLast(ds: seq<Dgram>, d: Dgram)
    ensures CutAll(ds + [d]) == CutAll(ds) + [Cut(d)]
  {
  }

  lemma Regroup<T>(a: seq<T>, b: seq<T>, x: T, c: seq<T>)
    ensures a + b + ([x] + c) == a + (b + [x]) + c
    ensures a + ([x] + b) + c == a + [x] + b + c
    ensures a + b + (c + [x]) == a + b + c + [x]
  {
  }

  lemma DeliverKeeps(s: Session, d: Dgram, capacity: nat)
    requires OutOk(s) && BackOk(s)
    ensures OutOk(Delivered(s, d, capacity)) && BackOk(Delivered(s, d, capacity))
  {
    OutDelivered(s, d, capacity);
    BackSame(s, Delivered(s, d, capacity));
  }

  lemma OutDelivered(s: Session, d: Dgram, capacity: nat)
    requires OutOk(s)
    ensures OutOk(Delivered(s, d, capacity))
  {
    SubseqGrows(s.kept, s.received, d);
    if s.alive && |s.inbox| < capacity {
      KeepOne(s.emitted, s.outq, s.inbox, s.kept, d);
    } else {
      assert s.inbox + [] == s.inbox && s.kept + [] == s.kept;
    }
  }

  lemma BackSame(s: Session, t: Session)
    requires BackOk(s) && t.src == s.src && t.replies == s.replies && t.popped == s.popped
    requires t.flushing == s.flushing && t.slot == s.slot && t.entered == s.entered
    ensures BackOk(t)
  {
  }

  lemma KeepOne(emitted: seq<Dgram>, outq: seq<Dgram>, inbox: seq<Dgram>, kept: seq<Dgram>, d: Dgram)
    requires emitted + outq + CutAll(inbox) == CutAll(kept)
    ensures emitted + outq + CutAll(inbox + [d]) == CutAll(kept + [d])
  {
    CutLast(kept, d);
    CutLast(inbox, d);
    Regroup(emitted, outq, Cut(d), CutAll(inbox));
  }

  lemma TakeKeeps(s: Session)
    requires OutOk(s) && s.inbox != []
    ensures OutOk(s.(inbox := s.inbox[1..], outq := s.outq + [Cut(s.inbox[0])]))
  {
    CutFirst(s.inbox);
    Regroup(s.emitted, s.outq, Cut(s.inbox[0]), CutAll(s.inbox[1..]));
  }

  lemma EmitKeeps(s: Session)
    requires OutOk(s) && s.outq != []
    ensures OutOk(s.(outq := s.outq[1..], emitted := s.emitted + [s.outq[0]]))
  {
    assert s.outq == [s.outq[0]] + s.outq[1..];
    Regroup(s.emitted, s.outq[1..], s.outq[0], CutAll(s.inbox));
  }

  lemma ReplyKeeps(s: Session, d: Dgram)
    requires BackOk(s)
    ensures BackOk(s.(replies := s.replies + [d]))
  {
    assert (s.replies + [d])[..Sent(s)] == s.replies[..Sent(s)];
  }

  lemma StartSendKeeps(s: Session)
    requires BackOk(s) && !s.flushing && s.popped < |s.replies|
    ensures var d := s.replies[s.popped];
            BackOk(s.(slot := Some(UdpPacket(d.addr.addr, s.src, d.data)), flushing := true))
  {
    var d := s.replies[s.popped];
    assert s.replies[..s.popped + 1] == s.replies[..s.popped] + [d];
    assert Addressed(s.src, s.replies[..s.popped + 1])
           == Addressed(s.src, s.replies[..s.popped]) + [UdpPacket(d.addr.addr, s.src, d.data)];
    assert s.entered + [] == s.entered;
  }

  lemma EnterKeeps(s: Session)
    requires BackOk(s) && s.slot.Some?
    ensures BackOk(s.(slot := None, entered := s.entered + [s.slot.value]))
  {
    assert s.entered + [s.slot.value] + [] == s.entered + Listed(s.slot);
  }

  // ------------------------------------------------------------ steps of the whole

  lemma {:induction false} OfAppend(a: seq<Tagged>, b: seq<Tagged>, id: nat)
    ensures Of(a + b, id) == Of(a, id) + Of(b, id)
    decreases |b|
  {
    if b == [] {
      assert a + b == a;
    } else {
      var n := |b| - 1;
      OfAppend(a, b[..n], id);
      assert (a + b)[..|a + b| - 1] == a + b[..n];
    }
  }

  lemma EnterKeepsPassage(w: World, i: nat, p: UdpPacket, v: World)
    requires PassageOk(w) && i < |w.sessions| && |v.sessions| == |w.sessions|
    requires Passage(v) == Passage(w) + [Tagged(i, p)]
    requires forall id :: 0 <= id < |w.sessions| ==>
               v.sessions[id].entered == w.sessions[id].entered + if id == i then [p] else []
    ensures PassageOk(v)
  {
    var last := Tagged(i, p);
    assert [last][..0] == [];
    forall id: nat ensures Of(Passage(v), id) == if id < |v.sessions| then v.sessions[id].entered else [] {
      OfAppend(Passage(w), [last], id);
      assert Of([last], id) == Of([], id) + if id == i then [p] else [];
    }
  }

  lemma OthersKeepPassage(w: World, v: World)
    requires PassageOk(w) && Passage(v) == Passage(w) && |w.sessions| <= |v.sessions|
    requires forall id :: 0 <= id < |w.sessions| ==> v.sessions[id].entered == w.sessions[id].entered
    requires forall id :: |w.sessions| <= id < |v.sessions| ==> v.sessions[id].entered == []
    ensures PassageOk(v)
  {
    forall id: nat ensures Of(Passage(v), id) == if id < |v.sessions| then v.sessions[id].entered else [] {
      assert Of(Passage(w), id) == if id < |w.sessions| then w.sessions[id].entered else [];
    }
  }

  lemma MovesOn(handed: seq<Tagged>, x: Tagged, back: seq<Tagged>)
    ensures handed + [] + ([x] + back) == handed + [x] + back
    ensures (handed + [x]) + [] + back == handed + [x] + back
  {
  }

  lemma LocalKeepsPassage(w: World, i: nat, act: Act, capacity: nat)
    requires PassageOk(w) && Enabled(w, Local(i, act), capacity)
    ensures PassageOk(Do(w, Local(i, act), capacity))
  {
    var v := Do(w, Local(i, act), capacity);
    if act.Enter? {
      var p := w.sessions[i].slot.value;
      Regroup(w.handed, Listed(w.sendBuf), Tagged(i, p), w.back);
      EnterKeepsPassage(w, i, p, v);
    } else {
      assert w.back + [] == w.back;
      OthersKeepPassage(w, v);
    }
  }

  lemma SendKeepsPassage(w: World, step: Step, capacity: nat)
    requires PassageOk(w) && Enabled(w, step, capacity) && (step.Pull? || step.Hand?)
    ensures PassageOk(Do(w, step, capacity))
  {
    if step.Pull? {
      assert w.back == [w.back[0]] + w.back[1..];
      MovesOn(w.handed, w.back[0], w.back[1..]);
    } else {
      MovesOn(w.handed, w.sendBuf.value, w.back);
    }
    OthersKeepPassage(w, Do(w, step, capacity));
  }

  lemma ReceiveKeepsPassage(w: World, from: SocketAddr, d: Dgram, capacity: nat)
    requires TableOk(w) && PassageOk(w)
    ensures PassageOk(Received(w, from, d, capacity))
  {
    OthersKeepPassage(w, Received(w, from, d, capacity));
  }

  lemma StepKeepsPassage(w: World, step: Step, capacity: nat)
    requires TableOk(w) && PassageOk(w) && Enabled(w, step, capacity)
    ensures PassageOk(Do(w, step, capacity))
  {
    match step
    case Local(i, act) => LocalKeepsPassage(w, i, act, capacity);
    case Pull => SendKeepsPassage(w, step, capacity);
    case Hand => SendKeepsPassage(w, step, capacity);
    case Recv(from, _, _) => ReceiveKeepsPassage(w, from, Incoming(step), capacity);
    case Evict(_) => OthersKeepPassage(w, Do(w, step, capacity));
  }

  ghost predicate SessionsOk(sessions: seq<Session>) {
    forall id :: 0 <= id < |sessions| ==> OutOk(sessions[id]) && BackOk(sessions[id])
  }

  lemma ActKeeps(s: Session, act: Act)
    requires OutOk(s) && BackOk(s) && CanAct(s, act)
    ensures OutOk(Acted(s, act)) && BackOk(Acted(s, act)) && Acted(s, act).src == s.src
  {
    match act
    case Take => TakeKeeps(s);
    case Emit => EmitKeeps(s);
    case Reply(data, from) => ReplyKeeps(s, Datagram(Truncated(data), Socket(from)));
    case StartSend => StartSendKeeps(s);
    case Enter => EnterKeeps(s);
    case Flushed =>
    case Die =>
  }

  lemma ReceiveKeepsTable(w: World, from: SocketAddr, d: Dgram, capacity: nat)
    requires TableOk(w)
    ensures TableOk(Received(w, from, d, capacity))
  {
    var v := Received(w, from, d, capacity);
    forall a | a in v.table
      ensures Newest(v.sessions, v.table[a], a)
    {
      if a in w.table { assert Newest(w.sessions, w.table[a], a); }
    }
  }

  lemma SessionSet(sessions: seq<Session>, id: nat, s: Session)
    requires SessionsOk(sessions) && id <= |sessions| && OutOk(s) && BackOk(s)
    ensures id < |sessions| ==> SessionsOk(sessions[id := s])
    ensures SessionsOk(sessions + [s])
  {
  }

  lemma ReceiveKeeps(w: World, from: SocketAddr, d: Dgram, capacity: nat)
    requires TableOk(w) && SessionsOk(w.sessions)
    ensures SessionsOk(Received(w, from, d, capacity).sessions)
  {
    if from in w.table {
      var id := w.table[from];
      assert Newest(w.sessions, id, from);
      DeliverKeeps(w.sessions[id], d, capacity);
      SessionSet(w.sessions, id, Delivered(w.sessions[id], d, capacity));
    } else {
      NewIsOk(from);
      DeliverKeeps(NewSession(from), d, capacity);
      SessionSet(w.sessions, |w.sessions|, Delivered(NewSession(from), d, capacity));
    }
  }

  lemma NewIsOk(from: SocketAddr)
    ensures OutOk(NewSession(from)) && BackOk(NewSession(from))
  {
    assert NewSession(from).replies[..0] == [];
  }

  lemma ActKeepsTable(w: World, id: nat, act: Act, capacity: nat)
    requires TableOk(w) && Enabled(w, Local(id, act), capacity)
    ensures TableOk(Do(w, Local(id, act), capacity))
  {
    var v := Do(w, Local(id, act), capacity);
    assert Acted(w.sessions[id], act).src == w.sessions[id].src;
    forall a | a in v.table
      ensures Newest(v.sessions, v.table[a], a)
    {
      assert Newest(w.sessions, w.table[a], a);
    }
  }

  lemma StepKeepsSessions(w: World, step: Step, capacity: nat)
    requires TableOk(w) && SessionsOk(w.sessions) && Enabled(w, step, capacity)
    ensures TableOk(Do(w, step, capacity)) && SessionsOk(Do(w, step, capacity).sessions)
  {
    match step
    case Recv(from, _, _) =>
      ReceiveKeepsTable(w, from, Incoming(step), capacity);
      ReceiveKeeps(w, from, Incoming(step), capacity);
    case Local(id, act) =>
      ActKeepsTable(w, id, act, capacity);
      ActKeeps(w.sessions[id], act);
      SessionSet(w.sessions, id, Acted(w.sessions[id], act));
    case Pull =>
    case Hand =>
    case Evict(from) =>
  }

  // ------------------------------------------------------------ whole runs

  ghost predicate IsRun(run: seq<World>, steps: seq<Step>, capacity: nat) {
    && |run| == |steps| + 1 && run[0] == START
    && forall i :: 0 <= i < |steps| ==> StepsAt(run, steps, capacity, i)
  }

  ghost predicate StepsAt(run: seq<World>, steps: seq<Step>, capacity: nat, i: nat)
    requires i < |steps| && i + 1 < |run|
  {
    StepsOn(run[i], steps[i], run[i + 1], capacity)
  }

  ghost predicate StepsOn(w: World, step: Step, v: World, capacity: nat) {
    Enabled(w, step, capacity) && v == Do(w, step, capacity)
  }

  // ------------------------------------------------------------ where datagrams come from

  /** The datagrams that arrived from `a`, as the forwarder received them. */
  ghost function FromSteps(steps: seq<Step>, a: SocketAddr): seq<Dgram> {
    if steps == [] then []
    else
      var n := |steps| - 1;
      FromSteps(steps[..n], a) + if steps[n].Recv? && steps[n].from == a then [Incoming(steps[n])] else []
  }

  ghost function Evictions(steps: seq<Step>, a: SocketAddr): nat {
    if steps == [] then 0
    else
      var n := |steps| - 1;
      Evictions(steps[..n], a) + if steps[n] == Evict(a) then 1 else 0
  }

  /** What the sessions of one source received, in the order they were made. */
  ghost function ReceivedFrom(sessions: seq<Session>, a: SocketAddr): seq<Dgram> {
    if sessions == [] then []
    else
      var n := |sessions| - 1;
      ReceivedFrom(sessions[..n], a) + if sessions[n].src == a then sessions[n].received else []
  }

  ghost function SessionsOf(sessions: seq<Session>, a: SocketAddr): nat {
    if sessions == [] then 0
    else
      var n := |sessions| - 1;
      SessionsOf(sessions[..n], a) + if sessions[n].src == a then 1 else 0
  }

  /** The sessions of `a` have received exactly what arrived from `a`, one session after
      another, and a new one was made only after the one before it was evicted. */
  ghost predicate SourceOk(w: World, steps: seq<Step>, a: SocketAddr) {
    && ReceivedFrom(w.sessions, a) == FromSteps(steps, a)
    && SessionsOf(w.sessions, a) == Evictions(steps, a) + if a in w.table then 1 else 0
  }

  lemma {:induction false} SameReceived(v: seq<Session>, w: seq<Session>, a: SocketAddr)
    requires |v| == |w|
    requires forall i :: 0 <= i < |v| ==> v[i].src == w[i].src && v[i].received == w[i].received
    ensures ReceivedFrom(v, a) == ReceivedFrom(w, a) && SessionsOf(v, a) == SessionsOf(w, a)
  {
    if v != [] {
      SameReceived(v[..|v| - 1], w[..|w| - 1], a);
    }
  }

  /** A datagram for the newest session of its source comes last. */
  lemma {:induction false} NewestReceives(sessions: seq<Session>, id: nat, s: Session, d: Dgram, a: SocketAddr)
    requires id < |sessions| && Newest(sessions, id, sessions[id].src)
    requires s.src == sessions[id].src && s.received == sessions[id].received + [d]
    ensures ReceivedFrom(sessions[id := s], a) == ReceivedFrom(sessions, a) + if s.src == a then [d] else []
    ensures SessionsOf(sessions[id := s], a) == SessionsOf(sessions, a)
    decreases |sessions|
  {
    var n := |sessions| - 1;
    var after := sessions[id := s];
    if id == n {
      assert after[..n] == sessions[..n];
      assert ReceivedFrom(sessions[..n], a) + (sessions[n].received + [d])
             == ReceivedFrom(sessions[..n], a) + sessions[n].received + [d];
    } else {
      assert after[..n] == sessions[..n][id := s] && after[n] == sessions[n];
      NewestReceives(sessions[..n], id, s, d, a);
    }
  }

  lemma ReceiveKeepsSource(w: World, steps: seq<Step>, step: Step, capacity: nat, a: SocketAddr)
    requires TableOk(w) && SourceOk(w, steps, a) && step.Recv?
    ensures SourceOk(Do(w, step, capacity), steps + [step], a)
  {
    var from, d := step.from, Incoming(step);
    assert (steps + [step])[..|steps|] == steps;
    if from in w.table {
      var id := w.table[from];
      NewestReceives(w.sessions, id, Delivered(w.sessions[id], d, capacity), d, a);
    } else {
      var s := Delivered(NewSession(from), d, capacity);
      assert (w.sessions + [s])[..|w.sessions|] == w.sessions;
      assert s.received == [d];
    }
  }

  lemma StepKeepsSource(w: World, steps: seq<Step>, step: Step, capacity: nat, a: SocketAddr)
    requires TableOk(w) && SourceOk(w, steps, a) && Enabled(w, step, capacity)
    ensures SourceOk(Do(w, step, capacity), steps + [step], a)
  {
    assert (steps + [step])[..|steps|] == steps;
    match step
    case Recv(_, _, _) => ReceiveKeepsSource(w, steps, step, capacity, a);
    case Local(id, act) =>
      ActedSame(w.sessions[id], act);
      SameReceived(w.sessions[id := Acted(w.sessions[id], act)], w.sessions, a);
    case _ =>
  }

  lemma ActedSame(s: Session, act: Act)
    requires CanAct(s, act)
    ensures Acted(s, act).src == s.src && Acted(s, act).received == s.received && Acted(s, act).kept == s.kept
  {
  }

  ghost predicate SourcesOk(w: World, steps: seq<Step>) { forall a :: SourceOk(w, steps, a) }

  lemma StepKeepsSources(w: World, steps: seq<Step>, step: Step, capacity: nat)
    requires TableOk(w) && SourcesOk(w, steps) && Enabled(w, step, capacity)
    ensures SourcesOk(Do(w, step, capacity), steps + [step])
  {
    forall a ensures SourceOk(Do(w, step, capacity), steps + [step], a) {
      assert SourceOk(w, steps, a);
      StepKeepsSource(w, steps, step, capacity, a);
    }
  }

  lemma StepKeepsInv(w: World, step: Step, capacity: nat)
    requires Inv(w) && Enabled(w, step, capacity)
    ensures Inv(Do(w, step, capacity))
  {
    StepKeepsPassage(w, step, capacity);
    StepKeepsSessions(w, step, capacity);
  }

  lemma StartInv()
    ensures Inv(START)
  {
    assert Passage(START) == [];
  }

  lemma StepOnKeepsInv(w: World, step: Step, v: World, capacity: nat)
    requires Inv(w) && StepsOn(w, step, v, capacity)
    ensures Inv(v)
  {
    StepKeepsInv(w, step, capacity);
  }

  /** Every state of every run satisfies the invariant. */
  lemma {:induction false} RunKeepsInv(run: seq<World>, steps: seq<Step>, capacity: nat, i: nat)
    requires IsRun(run, steps, capacity) && i < |run|
    ensures Inv(run[i])
  {
    if i == 0 {
      StartInv();
    } else {
      RunKeepsInv(run, steps, capacity, i - 1);
      assert StepsAt(run, steps, capacity, i - 1);
      StepOnKeepsInv(run[i - 1], steps[i - 1], run[i], capacity);
    }
  }

  lemma StepOnKeepsSources(w: World, steps: seq<Step>, step: Step, v: World, all: seq<Step>, capacity: nat)
    requires TableOk(w) && SourcesOk(w, steps) && StepsOn(w, step, v, capacity) && all == steps + [step]
    ensures SourcesOk(v, all)
  {
    StepKeepsSources(w, steps, step, capacity);
  }

  lemma StartSources(steps: seq<Step>)
    requires steps == []
    ensures SourcesOk(START, steps)
  {
    forall a ensures SourceOk(START, steps, a) {
    }
  }

  lemma RunKeepsTable(run: seq<World>, steps: seq<Step>, capacity: nat, i: nat)
    requires IsRun(run, steps, capacity) && i < |run|
    ensures TableOk(run[i])
  {
    RunKeepsInv(run, steps, capacity, i);
  }

  /** And it says of every source where its datagrams went. */
  lemma {:induction false} RunKeepsSources(run: seq<World>, steps: seq<Step>, capacity: nat, i: nat)
    requires IsRun(run, steps, capacity) && i < |run|
    ensures SourcesOk(run[i], steps[..i])
  {
    if i == 0 {
      StartSources(steps[..0]);
    } else {
      RunKeepsSources(run, steps, capacity, i - 1);
      RunKeepsTable(run, steps, capacity, i - 1);
      assert StepsAt(run, steps, capacity, i - 1);
      assert steps[..i] == steps[..i - 1] + [steps[i - 1]];
      StepOnKeepsSources(run[i - 1], steps[..i - 1], steps[i - 1], run[i], steps[..i], capacity);
    }
  }

  /** Before a datagram arrives: its session, there already or about to be made, can
      take it. */
  predicate Room(w: World, id: nat, capacity: nat) {
    if id < |w.sessions| then w.sessions[id].alive && |w.sessions[id].inbox| < capacity else 0 < capacity
  }

  /** The datagrams that arrived for session `id` while its worker ran and its channel
      was not full: a datagram is for the newest session of its source. */
  ghost function Kept(run: seq<World>, steps: seq<Step>, capacity: nat, i: nat, id: nat): seq<Dgram>
    requires i < |run| && i <= |steps|
  {
    if i == 0 then []
    else
      var step := steps[i - 1];
      Kept(run, steps, capacity, i - 1, id) +
      if step.Recv? && Newest(run[i].sessions, id, step.from) && Room(run[i - 1], id, capacity) then [Incoming(step)] else []
  }

  lemma {:induction false} KeptIsKept(run: seq<World>, steps: seq<Step>, capacity: nat, i: nat, id: nat)
    requires IsRun(run, steps, capacity) && i < |run|
    ensures Kept(run, steps, capacity, i, id) == if id < |run[i].sessions| then run[i].sessions[id].kept else []
  {
    if i > 0 {
      KeptIsKept(run, steps, capacity, i - 1, id);
      RunKeepsTable(run, steps, capacity, i - 1);
      assert StepsAt(run, steps, capacity, i - 1);
      KeptByStep(run[i - 1], steps[i - 1], capacity, id);
    }
  }

  lemma KeptByStep(w: World, step: Step, capacity: nat, id: nat)
    requires TableOk(w) && Enabled(w, step, capacity)
    ensures var v := Do(w, step, capacity);
            var more := if step.Recv? && Newest(v.sessions, id, step.from) && Room(w, id, capacity) then [Incoming(step)] else [];
            (if id < |v.sessions| then v.sessions[id].kept else [])
            == (if id < |w.sessions| then w.sessions[id].kept else []) + more
  {
    if step.Recv? {
      var v := Do(w, step, capacity);
      var target := if step.from in w.table then w.table[step.from] else |w.sessions|;
      assert Newest(v.sessions, target, step.from);
    }
  }

  lemma {:induction false} SubseqCut(a: seq<Dgram>, b: seq<Dgram>)
    requires Subseq(a, b)
    ensures Subseq(CutAll(a), CutAll(b))
    decreases |b|
  {
    if a != [] {
      var m, n := |a| - 1, |b| - 1;
      CutLast(b[..n], b[n]);
      assert b == b[..n] + [b[n]] && a == a[..m] + [a[m]];
      if a[m] == b[n] && Subseq(a[..m], b[..n]) {
        SubseqCut(a[..m], b[..n]);
        CutLast(a[..m], a[m]);
        SubseqGrows(CutAll(a[..m]), CutAll(b[..n]), Cut(b[n]));
      } else {
        SubseqCut(a, b[..n]);
        SubseqGrows(CutAll(a), CutAll(b[..n]), Cut(b[n]));
      }
    }
  }

  /** The part of its source's datagrams that one session received. */
  lemma {:induction false} ReceivedPart(sessions: seq<Session>, id: nat)
    requires id < |sessions|
    ensures var a := sessions[id].src;
            ReceivedFrom(sessions[..id], a) + sessions[id].received <= ReceivedFrom(sessions, a)
    decreases |sessions|
  {
    var n := |sessions| - 1;
    if id < n {
      ReceivedPart(sessions[..n], id);
      assert sessions[..n][..id] == sessions[..id];
    }
  }

  // ------------------------------------------------------------ in terms of the steps alone

  /** Which steps brought in a datagram from `a`, oldest first. */
  ghost function ArrivalsFrom(steps: seq<Step>, a: SocketAddr): seq<nat> {
    if steps == [] then []
    else
      var n := |steps| - 1;
      ArrivalsFrom(steps[..n], a) + if ArrivesFrom(steps[n], a) then [n] else []
  }

  ghost predicate ArrivesFrom(step: Step, a: SocketAddr) { step.Recv? && step.from == a }

  ghost predicate Ascending(at: seq<nat>) { forall j, k :: 0 <= j < k < |at| ==> at[j] < at[k] }

  /** These and no others, in order. */
  lemma {:induction false} ArrivalsAre(steps: seq<Step>, a: SocketAddr)
    ensures Ascending(ArrivalsFrom(steps, a))
    ensures forall n :: n in ArrivalsFrom(steps, a) <==> 0 <= n < |steps| && ArrivesFrom(steps[n], a)
  {
    if steps != [] {
      var n := |steps| - 1;
      ArrivalsAre(steps[..n], a);
      var at := ArrivalsFrom(steps[..n], a);
      forall k | 0 <= k < |at| ensures at[k] < n {
        assert at[k] in at;
      }
    }
  }

  /** `d` is the datagram that the step brought in, cut to the forwarder's buffer, with the
      address it was sent to. */
  ghost predicate Carries(d: Datagram, step: Step) {
    step.Recv? && d.addr == Socket(step.to) && FirstBytes(d.data, step.data, 8192)
  }

  /** `ds` are the datagrams of these steps. */
  ghost predicate CarryAll(ds: seq<Dgram>, steps: seq<Step>, at: seq<nat>) {
    |ds| <= |at| && forall k :: 0 <= k < |ds| ==> at[k] < |steps| && Carries(ds[k], steps[at[k]])
  }

  lemma {:induction false} FromStepsCarry(steps: seq<Step>, a: SocketAddr)
    ensures CarryAll(FromSteps(steps, a), steps, ArrivalsFrom(steps, a))
    ensures |FromSteps(steps, a)| == |ArrivalsFrom(steps, a)|
  {
    if steps != [] {
      var n := |steps| - 1;
      FromStepsCarry(steps[..n], a);
      var ds, at := FromSteps(steps[..n], a), ArrivalsFrom(steps[..n], a);
      forall k | 0 <= k < |ds|
        ensures Carries(ds[k], steps[at[k]])
      {
        assert Carries(ds[k], steps[..n][at[k]]);
      }
    }
  }

  lemma {:induction false} SubseqPlaces<T>(a: seq<T>, b: seq<T>) returns (at: seq<nat>)
    requires Subseq(a, b)
    ensures |at| == |a|
    ensures forall k :: 0 <= k < |a| ==> at[k] < |b| && b[at[k]] == a[k]
    ensures forall j, k :: 0 <= j < k < |a| ==> at[j] < at[k]
    decreases |b|
  {
    if a == [] {
      at := [];
    } else {
      var m, n := |a| - 1, |b| - 1;
      if a[m] == b[n] && Subseq(a[..m], b[..n]) {
        var rest := SubseqPlaces(a[..m], b[..n]);
        at := rest + [n];
      } else {
        at := SubseqPlaces(a, b[..n]);
      }
    }
  }

  /** `emitted` are datagrams that the steps `at` brought in from `a`: in that order, none
      twice, each cut to the packet buffer and sent where its source sent it. */
  ghost predicate EmittedAt(emitted: seq<Dgram>, steps: seq<Step>, a: SocketAddr, at: seq<nat>) {
    && |at| == |emitted|
    && (forall j, k :: 0 <= j < k < |at| ==> at[j] < at[k])
    && forall k :: 0 <= k < |at| ==> at[k] < |steps| && EmittedOne(emitted[k], steps[at[k]], a)
  }

  ghost predicate EmittedOne(d: Datagram, step: Step, a: SocketAddr) {
    step.Recv? && step.from == a && d.addr == Socket(step.to) && FirstBytes(d.data, step.data, 2048)
  }

  lemma CutCarries(d: Dgram, step: Step)
    requires Carries(d, step)
    ensures EmittedOne(Cut(d), step, step.from)
  {
  }

  lemma EmittedHasSteps(s: Session, steps: seq<Step>, from: nat) returns (at: seq<nat>)
    requires OutOk(s) && from + |s.received| <= |ArrivalsFrom(steps, s.src)|
    requires CarryAll(s.received, steps, ArrivalsFrom(steps, s.src)[from..])
    ensures EmittedAt(s.emitted, steps, s.src, at)
  {
    var arrivals := ArrivalsFrom(steps, s.src);
    ArrivalsAre(steps, s.src);
    var places := SubseqPlaces(s.kept, s.received);
    var n := |s.emitted|;
    assert |s.emitted + s.outq + CutAll(s.inbox)| == |s.kept|;
    at := seq(n, k requires 0 <= k < n => arrivals[from + places[k]]);
    forall k | 0 <= k < n
      ensures at[k] < |steps| && EmittedOne(s.emitted[k], steps[at[k]], s.src)
    {
      assert s.emitted[k] == (s.emitted + s.outq + CutAll(s.inbox))[k] == Cut(s.kept[k]);
      assert arrivals[from..][places[k]] == at[k] && at[k] in arrivals;
      CutCarries(s.kept[k], steps[at[k]]);
    }
  }

  /** A session receives an unbroken part of what arrives from its own source, beginning
      where the sessions before it left off. It drops a datagram exactly when its worker
      has ended or its channel is full. What it emits are, in order and each cut to the
      packet buffer, the ones it kept, but for those still waiting: datagrams that came
      from its source, sent to where the source sent them. */
  lemma EmittedInOrder(run: seq<World>, steps: seq<Step>, capacity: nat, i: nat, id: nat)
    requires IsRun(run, steps, capacity) && i < |run| && id < |run[i].sessions|
    ensures var s := run[i].sessions[id];
            var earlier := |ReceivedFrom(run[i].sessions[..id], s.src)|;
            var arrivals := ArrivalsFrom(steps[..i], s.src);
            var kept := Kept(run, steps, capacity, i, id);
            && earlier + |s.received| <= |arrivals| && CarryAll(s.received, steps[..i], arrivals[earlier..])
            && Subseq(kept, s.received)
            && s.emitted + s.outq + CutAll(s.inbox) == CutAll(kept)
            && Subseq(s.emitted, CutAll(s.received))
            && exists at :: EmittedAt(s.emitted, steps[..i], s.src, at)
  {
    RunKeepsInv(run, steps, capacity, i);
    KeptIsKept(run, steps, capacity, i, id);
    var s := run[i].sessions[id];
    ReceivedCarries(run, steps, capacity, i, id);
    EmittedOfReceived(s);
    var at := EmittedHasSteps(s, steps[..i], |ReceivedFrom(run[i].sessions[..id], s.src)|);
  }

  lemma EmittedOfReceived(s: Session)
    requires OutOk(s)
    ensures Subseq(s.emitted, CutAll(s.received))
  {
    SubseqCut(s.kept, s.received);
    SubseqFront(s.emitted, s.outq, CutAll(s.inbox), CutAll(s.kept), CutAll(s.received));
  }

  lemma SubseqFront<T>(a: seq<T>, b: seq<T>, c: seq<T>, kept: seq<T>, all: seq<T>)
    requires a + b + c == kept && Subseq(kept, all)
    ensures Subseq(a, all)
  {
    assert kept == a + (b + c);
    SubseqPrefix(a, b + c, all);
  }

  lemma ReceivedCarries(run: seq<World>, steps: seq<Step>, capacity: nat, i: nat, id: nat)
    requires IsRun(run, steps, capacity) && i < |run| && id < |run[i].sessions|
    ensures var s := run[i].sessions[id];
            var earlier := |ReceivedFrom(run[i].sessions[..id], s.src)|;
            var arrivals := ArrivalsFrom(steps[..i], s.src);
            earlier + |s.received| <= |arrivals| && CarryAll(s.received, steps[..i], arrivals[earlier..])
  {
    var s := run[i].sessions[id];
    var earlier := ReceivedFrom(run[i].sessions[..id], s.src);
    RunKeepsSources(run, steps, capacity, i);
    assert SourceOk(run[i], steps[..i], s.src);
    ReceivedPart(run[i].sessions, id);
    FromStepsCarry(steps[..i], s.src);
    PartCarries(earlier, s.received, FromSteps(steps[..i], s.src), steps[..i], ArrivalsFrom(steps[..i], s.src));
  }

  lemma PartCarries(a: seq<Dgram>, b: seq<Dgram>, all: seq<Dgram>, steps: seq<Step>, at: seq<nat>)
    requires a + b <= all && |all| == |at| && CarryAll(all, steps, at)
    ensures |a| + |b| <= |at| && CarryAll(b, steps, at[|a|..])
  {
    forall k | 0 <= k < |b|
      ensures at[|a|..][k] < |steps| && Carries(b[k], steps[at[|a|..][k]])
    {
      assert b[k] == (a + b)[|a| + k] == all[|a| + k];
    }
  }

  /** The sessions of one source together have received everything that arrived from it,
      each datagram once and in order; there is one session more than evictions while the
      source has one, and as many otherwise. */
  lemma SourcesAreServed(run: seq<World>, steps: seq<Step>, capacity: nat, i: nat, a: SocketAddr)
    requires IsRun(run, steps, capacity) && i < |run|
    ensures var got, arrivals := ReceivedFrom(run[i].sessions, a), ArrivalsFrom(steps[..i], a);
            |got| == |arrivals| && CarryAll(got, steps[..i], arrivals)
    ensures SessionsOf(run[i].sessions, a) == Evictions(steps[..i], a) + if a in run[i].table then 1 else 0
  {
    RunKeepsSources(run, steps, capacity, i);
    assert SourceOk(run[i], steps[..i], a);
    FromStepsCarry(steps[..i], a);
  }

  // ------------------------------------------------------------ where replies come from

  /** Which steps brought in a reply for session `id`, oldest first. */
  ghost function RepliesTo(steps: seq<Step>, id: nat): seq<nat> {
    if steps == [] then []
    else
      var n := |steps| - 1;
      RepliesTo(steps[..n], id) + if RepliesIn(steps[n], id) then [n] else []
  }

  ghost predicate RepliesIn(step: Step, id: nat) { step.Local? && step.id == id && step.act.Reply? }

  /** These and no others, in order. */
  lemma {:induction false} RepliesAre(steps: seq<Step>, id: nat)
    ensures Ascending(RepliesTo(steps, id))
    ensures forall n :: n in RepliesTo(steps, id) <==> 0 <= n < |steps| && RepliesIn(steps[n], id)
  {
    if steps != [] {
      var n := |steps| - 1;
      RepliesAre(steps[..n], id);
      var at := RepliesTo(steps[..n], id);
      forall k | 0 <= k < |at| ensures at[k] < n {
        assert at[k] in at;
      }
    }
  }

  /** `d` is the reply of this step, cut to the packet buffer, with the address it came from. */
  ghost predicate IsReply(d: Datagram, step: Step) {
    step.Local? && step.act.Reply? && d.addr == Socket(step.act.from) && FirstBytes(d.data, step.act.data, 2048)
  }

  ghost predicate ReplyAll(ds: seq<Dgram>, steps: seq<Step>, at: seq<nat>) {
    |ds| == |at| && forall k :: 0 <= k < |ds| ==> at[k] < |steps| && IsReply(ds[k], steps[at[k]])
  }

  ghost function RepliesOf(sessions: seq<Session>, id: nat): seq<Dgram> {
    if id < |sessions| then sessions[id].replies else []
  }

  lemma ReplyByStep(w: World, step: Step, capacity: nat, id: nat)
    requires TableOk(w) && Enabled(w, step, capacity)
    ensures var v := Do(w, step, capacity);
            if RepliesIn(step, id) then
              exists d: Dgram :: IsReply(d, step) && RepliesOf(v.sessions, id) == RepliesOf(w.sessions, id) + [d]
            else RepliesOf(v.sessions, id) == RepliesOf(w.sessions, id)
  {
    var v := Do(w, step, capacity);
    if RepliesIn(step, id) {
      var d: Dgram := Datagram(Truncated(step.act.data), Socket(step.act.from));
      assert IsReply(d, step) && RepliesOf(v.sessions, id) == RepliesOf(w.sessions, id) + [d];
    }
  }

  lemma ReplyAppended(ds: seq<Dgram>, steps: seq<Step>, at: seq<nat>, d: Dgram, step: Step)
    requires ReplyAll(ds, steps, at) && IsReply(d, step)
    ensures ReplyAll(ds + [d], steps + [step], at + [|steps|]) && ReplyAll(ds, steps + [step], at)
  {
  }

  /** What a session's relay has taken from its socket are the replies to it. */
  lemma {:induction false} RunKeepsReplies(run: seq<World>, steps: seq<Step>, capacity: nat, i: nat, id: nat)
    requires IsRun(run, steps, capacity) && i < |run|
    ensures ReplyAll(RepliesOf(run[i].sessions, id), steps[..i], RepliesTo(steps[..i], id))
  {
    if i == 0 {
      NoRepliesYet(steps[..0], id);
    } else {
      RunKeepsReplies(run, steps, capacity, i - 1, id);
      RunKeepsTable(run, steps, capacity, i - 1);
      assert StepsAt(run, steps, capacity, i - 1);
      assert steps[..i] == steps[..i - 1] + [steps[i - 1]];
      StepOnKeepsReplies(run[i - 1], steps[..i - 1], steps[i - 1], run[i], steps[..i], capacity, id);
    }
  }

  lemma NoRepliesYet(steps: seq<Step>, id: nat)
    requires steps == []
    ensures ReplyAll(RepliesOf(START.sessions, id), steps, RepliesTo(steps, id))
  {
  }

  lemma StepOnKeepsReplies(w: World, steps: seq<Step>, step: Step, v: World, all: seq<Step>, capacity: nat, id: nat)
    requires TableOk(w) && StepsOn(w, step, v, capacity) && all == steps + [step]
    requires ReplyAll(RepliesOf(w.sessions, id), steps, RepliesTo(steps, id))
    ensures ReplyAll(RepliesOf(v.sessions, id), all, RepliesTo(all, id))
  {
    ReplyByStep(w, step, capacity, id);
    ReplyKept(w, v, steps, step, id);
  }

  lemma ReplyKept(w: World, v: World, steps: seq<Step>, step: Step, id: nat)
    requires ReplyAll(RepliesOf(w.sessions, id), steps, RepliesTo(steps, id))
    requires if RepliesIn(step, id) then
               exists d: Dgram :: IsReply(d, step) && RepliesOf(v.sessions, id) == RepliesOf(w.sessions, id) + [d]
             else RepliesOf(v.sessions, id) == RepliesOf(w.sessions, id)
    ensures ReplyAll(RepliesOf(v.sessions, id), steps + [step], RepliesTo(steps + [step], id))
  {
    assert (steps + [step])[..|steps|] == steps;
    if RepliesIn(step, id) {
      var d: Dgram :| IsReply(d, step) && RepliesOf(v.sessions, id) == RepliesOf(w.sessions, id) + [d];
      ReplyAppended(RepliesOf(w.sessions, id), steps, RepliesTo(steps, id), d, step);
    }
  }

  // ------------------------------------------------------------ several steps at once

  /** What a session comes to by these acts, if each of them can be done. */
  ghost function ActedAll(s: Session, acts: seq<Act>): Option<Session> {
    if acts == [] then Some(s)
    else
      var n := |acts| - 1;
      match ActedAll(s, acts[..n])
      case None => None
      case Some(t) => if CanAct(t, acts[n]) then Some(Acted(t, acts[n])) else None
  }

  ghost function DoAll(w: World, steps: seq<Step>, capacity: nat): Option<World> {
    if steps == [] then Some(w)
    else
      var n := |steps| - 1;
      match DoAll(w, steps[..n], capacity)
      case None => None
      case Some(v) => if Enabled(v, steps[n], capacity) then Some(Do(v, steps[n], capacity)) else None
  }

  lemma OneMoreAct(s: Session, acts: seq<Act>, t: Session, act: Act)
    requires ActedAll(s, acts) == Some(t) && CanAct(t, act)
    ensures ActedAll(s, acts + [act]) == Some(Acted(t, act))
  {
    assert (acts + [act])[..|acts|] == acts;
  }

  lemma OneMoreStep(w: World, steps: seq<Step>, v: World, step: Step, capacity: nat)
    requires DoAll(w, steps, capacity) == Some(v) && Enabled(v, step, capacity)
    ensures DoAll(w, steps + [step], capacity) == Some(Do(v, step, capacity))
  {
    assert (steps + [step])[..|steps|] == steps;
  }

  function Locals(id: nat, acts: seq<Act>): (r: seq<Step>)
    ensures |r| == |acts| && forall i :: 0 <= i < |r| ==> r[i] == Local(id, acts[i])
  {
    seq(|acts|, i requires 0 <= i < |acts| => Local(id, acts[i]))
  }

  function TagAll(id: nat, packets: seq<UdpPacket>): (r: seq<Tagged>)
    ensures |r| == |packets| && forall i :: 0 <= i < |r| ==> r[i] == Tagged(id, packets[i])
  {
    seq(|packets|, i requires 0 <= i < |packets| => Tagged(id, packets[i]))
  }

  lemma {:induction false} ActsOnlyEnter(s: Session, acts: seq<Act>, t: Session)
    requires ActedAll(s, acts) == Some(t)
    ensures s.entered <= t.entered
  {
    if acts != [] {
      var n := |acts| - 1;
      ActsOnlyEnter(s, acts[..n], ActedAll(s, acts[..n]).value);
    }
  }

  /** What a session's worker does by itself is a sequence of steps of the whole: nothing
      else changes, but for the packets that enter the shared channel, which must have
      room for them. */
  lemma {:induction false} ActsAreSteps(w: World, id: nat, acts: seq<Act>, t: Session, capacity: nat)
    requires id < |w.sessions| && ActedAll(w.sessions[id], acts) == Some(t)
    requires |w.back| + |t.entered| - |w.sessions[id].entered| <= capacity
    ensures |t.entered| >= |w.sessions[id].entered|
    ensures DoAll(w, Locals(id, acts), capacity)
            == Some(w.(sessions := w.sessions[id := t],
                       back := w.back + TagAll(id, t.entered[|w.sessions[id].entered|..])))
  {
    var s := w.sessions[id];
    ActsOnlyEnter(s, acts, t);
    if acts == [] {
      assert t.entered[|s.entered|..] == [] && w.back + [] == w.back;
      assert w.sessions[id := s] == w.sessions;
    } else {
      var n := |acts| - 1;
      var m := ActedAll(s, acts[..n]).value;
      ActsOnlyEnter(s, acts[..n], m);
      ActsAreSteps(w, id, acts[..n], m, capacity);
      assert Locals(id, acts)[..n] == Locals(id, acts[..n]);
      ActIsStep(w, id, s, m, acts[n], capacity);
    }
  }

  lemma ActIsStep(w: World, id: nat, s: Session, m: Session, act: Act, capacity: nat)
    requires id < |w.sessions| && s.entered <= m.entered && CanAct(m, act)
    requires |w.back| + |Acted(m, act).entered| - |s.entered| <= capacity
    ensures var v := w.(sessions := w.sessions[id := m], back := w.back + TagAll(id, m.entered[|s.entered|..]));
            var t := Acted(m, act);
            && Enabled(v, Local(id, act), capacity) && s.entered <= t.entered
            && Do(v, Local(id, act), capacity)
               == w.(sessions := w.sessions[id := t], back := w.back + TagAll(id, t.entered[|s.entered|..]))
  {
    var t := Acted(m, act);
    var k := |s.entered|;
    assert w.sessions[id := m][id := t] == w.sessions[id := t];
    if act.Enter? {
      var p := m.slot.value;
      assert t.entered[k..] == m.entered[k..] + [p];
      assert TagAll(id, m.entered[k..] + [p]) == TagAll(id, m.entered[k..]) + [Tagged(id, p)];
      assert w.back + TagAll(id, m.entered[k..]) + [Tagged(id, p)] == w.back + (TagAll(id, m.entered[k..]) + [Tagged(id, p)]);
    } else {
      assert w.back + TagAll(id, m.entered[k..]) + [] == w.back + TagAll(id, m.entered[k..]);
    }
  }

  /** A step that is not the session's own leaves it alone, or delivers a datagram to it
      that came from its source. */
  lemma OthersKeepSession(w: World, step: Step, capacity: nat, id: nat)
    requires TableOk(w) && Enabled(w, step, capacity) && id < |w.sessions| && !(step.Local? && step.id == id)
    ensures var v := Do(w, step, capacity);
            && id < |v.sessions|
            && (v.sessions[id] == w.sessions[id] ||
                (step.Recv? && step.from == w.sessions[id].src
                 && v.sessions[id] == Delivered(w.sessions[id], Incoming(step), capacity)))
  {
    if step.Recv? && step.from in w.table {
      assert Newest(w.sessions, w.table[step.from], step.from);
    }
  }

  /** Whatever a run is followed by is part of a longer run, so the results below hold
      after it. */
  lemma {:induction false} StepsExtendRun(run: seq<World>, steps: seq<Step>, more: seq<Step>, capacity: nat)
    returns (longer: seq<World>)
    requires IsRun(run, steps, capacity) && DoAll(run[|steps|], more, capacity).Some?
    ensures IsRun(longer, steps + more, capacity) && run <= longer
    ensures longer[|steps + more|] == DoAll(run[|steps|], more, capacity).value
    decreases |more|
  {
    if more == [] {
      assert steps + more == steps;
      longer := run;
    } else {
      var n := |more| - 1;
      var part := StepsExtendRun(run, steps, more[..n], capacity);
      longer := part + [DoAll(run[|steps|], more, capacity).value];
      assert steps + more == (steps + more[..n]) + [more[n]];
      ExtendByOne(part, steps + more[..n], more[n], longer[|part|], capacity);
    }
  }

  lemma ExtendByOne(run: seq<World>, steps: seq<Step>, step: Step, v: World, capacity: nat)
    requires IsRun(run, steps, capacity) && StepsOn(run[|steps|], step, v, capacity)
    ensures IsRun(run + [v], steps + [step], capacity)
  {
    forall i | 0 <= i < |steps + [step]|
      ensures StepsAt(run + [v], steps + [step], capacity, i)
    {
      if i < |steps| { assert StepsAt(run, steps, capacity, i); }
    }
  }

  // ------------------------------------------------------------ what is handed back

  /** `p` hands the reply of this step to `src`. */
  ghost predicate Hands(p: UdpPacket, step: Step, src: SocketAddr) {
    step.Local? && step.act.Reply? && p.from == step.act.from && p.to == src && FirstBytes(p.data, step.act.data, 2048)
  }

  /** What is handed back keeps each session's order, is addressed to its source, and
      neither loses nor repeats a reply: packet k is the k-th reply to the session. All of
      it has been handed back once nothing is queued on the way. */
  lemma HandedInOrder(run: seq<World>, steps: seq<Step>, capacity: nat, i: nat, id: nat)
    requires IsRun(run, steps, capacity) && i < |run| && id < |run[i].sessions|
    ensures var w := run[i];
            var s := w.sessions[id];
            var packets, replies := Of(w.handed, id), RepliesTo(steps[..i], id);
            && |packets| <= |replies|
            && HandAll(packets, steps[..i], replies, s.src)
            && (w.sendBuf.None? && w.back == [] && !s.flushing && s.popped == |s.replies| ==> |packets| == |replies|)
  {
    RunKeepsInv(run, steps, capacity, i);
    var w := run[i];
    HandedOfPassage(w, id);
    EnteredOfReplies(w.sessions[id]);
    RunKeepsReplies(run, steps, capacity, i, id);
    PacketsAreReplies(Of(w.handed, id), w.sessions[id].src, w.sessions[id].replies, steps[..i], RepliesTo(steps[..i], id));
  }

  ghost predicate HandAll(packets: seq<UdpPacket>, steps: seq<Step>, at: seq<nat>, src: SocketAddr) {
    |packets| <= |at| && forall k :: 0 <= k < |packets| ==> at[k] < |steps| && Hands(packets[k], steps[at[k]], src)
  }

  lemma PacketsAreReplies(packets: seq<UdpPacket>, src: SocketAddr, replies: seq<Dgram>, steps: seq<Step>, at: seq<nat>)
    requires packets <= Addressed(src, replies) && ReplyAll(replies, steps, at)
    ensures HandAll(packets, steps, at, src) && |at| == |replies|
  {
    forall k | 0 <= k < |packets|
      ensures Hands(packets[k], steps[at[k]], src)
    {
      assert packets[k] == Addressed(src, replies)[k];
      assert IsReply(replies[k], steps[at[k]]);
    }
  }

  /** A session is made for a source that has sent something. */
  lemma {:induction false} SessionsHaveSources(run: seq<World>, steps: seq<Step>, capacity: nat, i: nat, id: nat)
    requires IsRun(run, steps, capacity) && i < |run| && id < |run[i].sessions|
    ensures run[i].sessions[id].received != [] && ArrivalsFrom(steps[..i], run[i].sessions[id].src) != []
  {
    ReceivedSomething(run, steps, capacity, i, id);
    ReceivedCarries(run, steps, capacity, i, id);
  }

  lemma {:induction false} ReceivedSomething(run: seq<World>, steps: seq<Step>, capacity: nat, i: nat, id: nat)
    requires IsRun(run, steps, capacity) && i < |run| && id < |run[i].sessions|
    ensures run[i].sessions[id].received != []
  {
    if i > 0 {
      RunKeepsTable(run, steps, capacity, i - 1);
      assert StepsAt(run, steps, capacity, i - 1);
      if id < |run[i - 1].sessions| {
        ReceivedSomething(run, steps, capacity, i - 1, id);
        ReceivedGrows(run[i - 1], steps[i - 1], capacity, id);
      }
    }
  }

  lemma ReceivedGrows(w: World, step: Step, capacity: nat, id: nat)
    requires TableOk(w) && Enabled(w, step, capacity) && id < |w.sessions|
    ensures id < |Do(w, step, capacity).sessions| && w.sessions[id].received <= Do(w, step, capacity).sessions[id].received
  {
    if step.Local? { ActedSame(w.sessions[step.id], step.act); }
  }

  lemma HandedOfPassage(w: World, id: nat)
    requires PassageOk(w) && id < |w.sessions|
    ensures Of(w.handed, id) <= w.sessions[id].entered
    ensures w.sendBuf.None? && w.back == [] ==> Of(w.handed, id) == w.sessions[id].entered
  {
    var rest := Listed(w.sendBuf) + w.back;
    PassageSplits(w.handed, Listed(w.sendBuf), w.back);
    OfAppend(w.handed, rest, id);
    assert Of(Passage(w), id) == w.sessions[id].entered;
    PrefixOf(Of(w.handed, id), Of(rest, id), w.sessions[id].entered);
  }

  lemma PassageSplits<T>(a: seq<T>, b: seq<T>, c: seq<T>)
    ensures a + b + c == a + (b + c)
  {
  }

  lemma PrefixOf<T>(a: seq<T>, b: seq<T>, c: seq<T>)
    requires c == a + b
    ensures a <= c && (b == [] ==> a == c)
  {
  }

  lemma EnteredOfReplies(s: Session)
    requires BackOk(s)
    ensures s.entered <= Addressed(s.src, s.replies)
    ensures !s.flushing && s.popped == |s.replies| ==> s.entered == Addressed(s.src, s.replies)
  {
    AddressedPrefix(s.src, s.replies, Sent(s));
    assert s.entered <= s.entered + Listed(s.slot);
    assert s.replies[..|s.replies|] == s.replies;
  }

  lemma AddressedPrefix(src: SocketAddr, replies: seq<Dgram>, n: nat)
    requires n <= |replies|
    ensures Addressed(src, replies[..n]) <= Addressed(src, replies)
  {
  }

  /** Nothing is handed back that no session sent. */
  lemma HandedHasSession(run: seq<World>, steps: seq<Step>, capacity: nat, i: nat, k: nat)
    requires IsRun(run, steps, capacity) && i < |run| && k < |run[i].handed|
    ensures run[i].handed[k].id < |run[i].sessions|
  {
    RunKeepsInv(run, steps, capacity, i);
    var w := run[i];
    OfHas(Passage(w), k);
  }

  lemma {:induction false} OfHas(ps: seq<Tagged>, k: nat)
    requires k < |ps|
    ensures Of(ps, ps[k].id) != []
  {
    if k < |ps| - 1 { OfHas(ps[..|ps| - 1], k); }
  }
}
