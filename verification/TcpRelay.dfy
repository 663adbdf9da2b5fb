/** Copying a byte stream in both directions (rd-std/src/context/connect_tcp.rs).

    The endpoints are oracles: each holds a script of what its next polls answer, and
    answers Pending once the script is used up. No invariant below mentions a script,
    so it may be anything at every poll. */
module TcpRelay {

  import opened Outcomes
  import opened Addresses

  // ------------------------------------------------------------ the endpoints

  /** `Chunk([])` is end of stream. A chunk that does not fit is delivered in parts. */
  datatype ReadOutcome = Chunk(data: seq<Byte>) | ReadFails | ReadWaits

  function ReadWeight(script: seq<ReadOutcome>): nat {
    if script == [] then 0
    else 1 + (if script[0].Chunk? then |script[0].data| else 0) + ReadWeight(script[1..])
  }

  class Reader {
    var script: seq<ReadOutcome>
    ghost var taken: seq<Byte>      // every byte read so far
    ghost var eof: bool             // end of stream was read
    ghost var waiting: bool         // the last poll was Pending
    ghost var failing: bool         // the last poll was an error
    ghost var failures: nat         // errors so far
    ghost var polls: nat

    method PollRead(buf: array<Byte>) returns (r: Poll<nat>)
      modifies this, buf
      ensures !r.Ready? ==> buf[..] == old(buf[..]) && taken == old(taken) && eof == old(eof)
      ensures r.Ready? ==> r.value <= buf.Length && taken == old(taken) + buf[..r.value]
      ensures r.Ready? ==> eof == (old(eof) || r.value == 0)
      ensures waiting == r.Pending? && failing == r.Failed? && polls == old(polls) + 1
      ensures failures == old(failures) + if r.Failed? then 1 else 0
      ensures !r.Pending? && buf.Length > 0 ==> ReadWeight(script) < old(ReadWeight(script))
      ensures r.Pending? ==> ReadWeight(script) <= old(ReadWeight(script))
    {
      waiting, failing, polls := false, false, polls + 1;
      if script == [] {
        waiting := true;
        return Pending;
      }
      var next := script[0];
      script := script[1..];
      match next
      case ReadWaits =>
        waiting := true;
        return Pending;
      case ReadFails =>
        failing, failures := true, failures + 1;
        return Failed;
      case Chunk(data) =>
        var n := if |data| <= buf.Length then |data| else buf.Length;
        forall i | 0 <= i < n { buf[i] := data[i]; }
        if n < |data| {
          script := [Chunk(data[n..])] + script;
        }
        taken := taken + buf[..n];
        eof := eof || n == 0;
        return Ready(n);
    }
  }

  datatype WriteOutcome = Accepts(count: nat) | WriteFails | WriteWaits
  datatype Waiting = Nothing | ForWrite | ForFlush | ForShutdown

  class Writer {
    var script: seq<WriteOutcome>
    ghost var accepted: seq<Byte>   // every byte accepted so far
    ghost var flushed: nat          // how many of them have been flushed
    ghost var closing: bool         // shutdown has been asked for
    ghost var cleanly: bool         // everything was flushed when it was first asked for
    ghost var closed: bool          // shutdown has completed
    ghost var waiting: Waiting      // what the last poll was Pending on
    ghost var failing: bool         // the last poll was an error or a write of nothing
    ghost var failures: nat         // how many polls were
    ghost var polls: nat

    ghost predicate Valid()
      reads this
    {
      flushed <= |accepted| && (closed ==> closing)
    }

    method PollWrite(data: seq<Byte>) returns (r: Poll<nat>)
      requires Valid() && !closing
      modifies this
      ensures Valid() && flushed == old(flushed) && !closing && cleanly == old(cleanly)
      ensures r.Ready? ==> r.value <= |data| && accepted == old(accepted) + data[..r.value]
      ensures !r.Ready? ==> accepted == old(accepted)
      ensures waiting == (if r.Pending? then ForWrite else Nothing) && polls == old(polls) + 1
      ensures failing == (r.Failed? || r == Ready(0)) && failures == old(failures) + if failing then 1 else 0
      ensures |script| <= old(|script|) && (!r.Pending? ==> |script| < old(|script|))
    {
      waiting, failing, polls := Nothing, false, polls + 1;
      if script == [] {
        waiting := ForWrite;
        return Pending;
      }
      var next := script[0];
      script := script[1..];
      match next
      case WriteWaits =>
        waiting := ForWrite;
        return Pending;
      case WriteFails =>
        failing, failures := true, failures + 1;
        return Failed;
      case Accepts(count) =>
        var n := if count <= |data| then count else |data|;
        accepted, failing := accepted + data[..n], n == 0;
        failures := failures + if failing then 1 else 0;
        return Ready(n);
    }

    method PollFlush() returns (r: Poll<()>)
      requires Valid() && !closing
      modifies this
      ensures Valid() && accepted == old(accepted) && !closing && cleanly == old(cleanly)
      ensures flushed == if r.Ready? then |accepted| else old(flushed)
      ensures waiting == (if r.Pending? then ForFlush else Nothing) && failing == r.Failed? && polls == old(polls) + 1
      ensures failures == old(failures) + if r.Failed? then 1 else 0
      ensures |script| <= old(|script|)
    {
      waiting, failing, polls := Nothing, false, polls + 1;
      if script == [] {
        waiting := ForFlush;
        return Pending;
      }
      var next := script[0];
      script := script[1..];
      match next
      case WriteWaits =>
        waiting := ForFlush;
        return Pending;
      case WriteFails =>
        failing, failures := true, failures + 1;
        return Failed;
      case Accepts(_) =>
        flushed := |accepted|;
        return Ready(());
    }

    method PollShutdown() returns (r: Poll<()>)
      requires Valid()
      modifies this
      ensures Valid() && accepted == old(accepted) && flushed == old(flushed) && closing
      ensures cleanly == if old(closing) then old(cleanly) else flushed == |accepted|
      ensures r.Ready? ==> closed
      ensures waiting == (if r.Pending? then ForShutdown else Nothing) && failing == r.Failed? && polls == old(polls) + 1
      ensures failures == old(failures) + if r.Failed? then 1 else 0
    {
      cleanly := if closing then cleanly else flushed == |accepted|;
      closing, waiting, failing, polls := true, Nothing, false, polls + 1;
      if script == [] {
        waiting := ForShutdown;
        return Pending;
      }
      var next := script[0];
      script := script[1..];
      match next
      case WriteWaits =>
        waiting := ForShutdown;
        return Pending;
      case WriteFails =>
        failing, failures := true, failures + 1;
        return Failed;
      case Accepts(_) =>
        closed := true;
        return Ready(());
    }
  }

  // ------------------------------------------------------------ one direction

  /** Moving bytes from the buffer to the writer keeps the stream. */
  lemma Moved(taken: seq<Byte>, accepted: seq<Byte>, rest: seq<Byte>, i: nat)
    requires taken == accepted + rest && i <= |rest|
    ensures taken == accepted + rest[..i] + rest[i..]
  {
    assert rest == rest[..i] + rest[i..];
  }

  class CopyBuffer {
    var readDone: bool
    var needFlush: bool
    var pos: nat
    var cap: nat
    var amt: nat
    const buf: array<Byte>

    constructor (size: nat)
      requires size > 0
      ensures !readDone && !needFlush && pos == cap == amt == 0 && buf.Length == size && fresh(buf)
    {
      readDone, needFlush, pos, cap, amt := false, false, 0, 0, 0;
      buf := new Byte[size];
    }

    /** Bytes read are bytes accepted followed by those still in the buffer; without
        `needFlush` everything accepted has been flushed. */
    ghost predicate Valid(reader: Reader, writer: Writer)
      reads this, buf, reader, writer
    {
      && buf.Length > 0 && pos <= cap <= buf.Length
      && reader.taken == writer.accepted + buf[pos..cap]
      && amt == |writer.accepted|
      && writer.Valid() && !writer.closing
      && (!needFlush ==> writer.flushed == |writer.accepted|)
      && (readDone ==> reader.eof)
    }

    /** The buffer is empty and the stream has not ended: read, or flush while waiting. */
    method FillBuffer(reader: Reader, writer: Writer) returns (r: Poll<()>)
      requires Valid(reader, writer) && pos == cap && !readDone
      modifies this, buf, reader, writer
      ensures Valid(reader, writer)
      ensures r.Pending? ==> Suspended(reader, writer, old(reader.polls), old(writer.polls))
      ensures r.Failed? ==> reader.failing || writer.failing
      ensures reader.failures + writer.failures == old(reader.failures + writer.failures) + if r.Failed? then 1 else 0
      ensures reader.polls >= old(reader.polls) && writer.polls >= old(writer.polls)
      ensures r.Ready? ==> (readDone || pos < cap) && Budget(reader, writer) < old(Budget(reader, writer))
    {
      var got := reader.PollRead(buf);
      match got
      case Failed => return Failed;
      case Pending =>
        if needFlush {
          var flush := writer.PollFlush();
          if !flush.Ready? {
            return flush;
          }
          needFlush := false;
        }
        return Pending;
      case Ready(n) =>
        if n == 0 {
          readDone := true;
          assert buf[..0] == [];
        } else {
          pos, cap := 0, n;
        }
        return Ready(());
    }

    method WriteSome(reader: Reader, writer: Writer) returns (r: Poll<()>)
      requires Valid(reader, writer) && pos < cap
      modifies this, writer
      ensures Valid(reader, writer) && readDone == old(readDone) && cap == old(cap)
      ensures r.Ready? ==> pos > old(pos)
      ensures r.Pending? ==> writer.waiting == ForWrite && pos < cap
      ensures r.Failed? ==> writer.failing
      ensures writer.failures == old(writer.failures) + if r.Failed? then 1 else 0
      ensures writer.polls > old(writer.polls) && |writer.script| <= old(|writer.script|)
      ensures r.Ready? ==> |writer.script| < old(|writer.script|)
    {
      var rest := buf[pos..cap];
      ghost var accepted := writer.accepted;
      var put := writer.PollWrite(rest);
      if !put.Ready? {
        return if put.Pending? then Pending else Failed;
      }
      var i := put.value;
      if i == 0 {
        assert rest[..0] == [];
        return Failed;
      }
      Moved(reader.taken, accepted, rest, i);
      assert rest[i..] == buf[pos + i..cap];
      pos, amt, needFlush := pos + i, amt + i, true;
      return Ready(());
    }

    method DrainBuffer(reader: Reader, writer: Writer) returns (r: Poll<()>)
      requires Valid(reader, writer)
      modifies this, writer
      ensures Valid(reader, writer)
      ensures r.Pending? ==> writer.waiting == ForWrite && pos < cap && writer.polls > old(writer.polls)
      ensures r.Failed? ==> writer.failing
      ensures writer.failures == old(writer.failures) + if r.Failed? then 1 else 0
      ensures writer.polls >= old(writer.polls)
      ensures r.Ready? ==> pos == cap && readDone == old(readDone)
      ensures Budget(reader, writer) <= old(Budget(reader, writer))
      ensures r.Ready? && old(pos < cap) ==> Budget(reader, writer) < old(Budget(reader, writer))
    {
      while pos < cap
        invariant Valid(reader, writer) && readDone == old(readDone) && cap == old(cap)
        invariant |writer.script| <= old(|writer.script|) && writer.polls >= old(writer.polls)
        invariant writer.failures == old(writer.failures)
        invariant old(pos) <= pos && (pos > old(pos) ==> |writer.script| < old(|writer.script|))
      {
        r := WriteSome(reader, writer);
        if !r.Ready? {
          return;
        }
      }
      return Ready(());
    }

    ghost function Budget(reader: Reader, writer: Writer): nat
      reads reader, writer
    {
      ReadWeight(reader.script) + |writer.script|
    }

    method PollCopy(reader: Reader, writer: Writer) returns (r: Poll<nat>)
      requires Valid(reader, writer)
      modifies this, buf, reader, writer
      ensures Valid(reader, writer)
      ensures reader.polls >= old(reader.polls) && writer.polls >= old(writer.polls)
      // finished: the writer has the whole stream, flushed, and the count is its length
      ensures r.Ready? ==>
                && reader.eof && writer.accepted == reader.taken && r.value == |reader.taken|
                && writer.flushed == |writer.accepted|
      // suspended: on the reader with everything read accepted and flushed, or on the writer
      ensures r.Pending? ==> Suspended(reader, writer, old(reader.polls), old(writer.polls))
      ensures r.Failed? ==> reader.failing || writer.failing
      ensures reader.failures + writer.failures == old(reader.failures + writer.failures) + if r.Failed? then 1 else 0
    {
      while true
        invariant Valid(reader, writer)
        invariant reader.polls >= old(reader.polls) && writer.polls >= old(writer.polls)
        invariant reader.failures + writer.failures == old(reader.failures + writer.failures)
        decreases Budget(reader, writer)
      {
        if pos == cap && !readDone {
          var filled := FillBuffer(reader, writer);
          if !filled.Ready? {
            return if filled.Pending? then Pending else Failed;
          }
        }
        var drained := DrainBuffer(reader, writer);
        if !drained.Ready? {
          return if drained.Pending? then Pending else Failed;
        }
        if pos == cap && readDone {
          var flush := writer.PollFlush();
          if !flush.Ready? {
            return if flush.Pending? then Pending else Failed;
          }
          return Ready(amt);
        }
      }
    }

    /** Some endpoint answered Pending to a poll after the first `r0` or `w0`: the
        reader with everything read accepted and flushed, or the writer. */
    ghost predicate Suspended(reader: Reader, writer: Writer, r0: nat, w0: nat)
      reads this, reader, writer
    {
      || (reader.waiting && reader.polls > r0 && writer.accepted == reader.taken && writer.flushed == |writer.accepted|)
      || (writer.waiting == ForFlush && writer.polls > w0 && writer.accepted == reader.taken)
      || (writer.waiting == ForWrite && writer.polls > w0 && pos < cap)
    }
  }

  /** Where one direction stands; the count is the length of the whole stream. */
  datatype TransferState = Running | ShuttingDown(count: nat) | Done(count: nat)

  class Transfer {
    var state: TransferState
    const copy: CopyBuffer
    const reader: Reader
    const writer: Writer

    constructor (reader: Reader, writer: Writer, size: nat)
      requires size > 0 && reader.taken == [] && !reader.eof
      requires writer.accepted == [] && writer.flushed == 0 && !writer.closing && !writer.closed
      ensures Valid() && state == Running && this.reader == reader && this.writer == writer
      ensures fresh(copy) && fresh(copy.buf)
    {
      var c := new CopyBuffer(size);
      this.reader, this.writer, this.copy, this.state := reader, writer, c, Running;
    }

    /** Past copying, the writer has accepted the whole input up to end of stream; a
        flush completed after the last write and before shutdown was first asked for. */
    ghost predicate Valid()
      reads this, reader, writer, copy, copy.buf
    {
      match state
      case Running => copy.Valid(reader, writer)
      case ShuttingDown(n) => Whole(n) && (writer.closing ==> writer.cleanly)
      case Done(n) => Whole(n) && writer.closed && writer.cleanly
    }

    ghost predicate Whole(n: nat)
      reads this, reader, writer
    {
      && reader.eof && writer.Valid()
      && writer.accepted == reader.taken && n == |reader.taken| && writer.flushed == |writer.accepted|
    }

    ghost predicate Suspended(r0: nat, w0: nat)
      reads this, reader, writer, copy
    {
      match state
      case Running => copy.Suspended(reader, writer, r0, w0)
      case ShuttingDown(_) => writer.waiting == ForShutdown && writer.polls > w0
      case Done(_) => false
    }

    method TransferOneDirection() returns (r: Poll<nat>)
      requires Valid()
      modifies this, reader, writer, copy, copy.buf
      ensures Valid()
      ensures r.Ready? ==> state == Done(r.value)
      ensures r.Pending? ==> Suspended(old(reader.polls), old(writer.polls))
      ensures r.Failed? ==> reader.failing || writer.failing
      ensures reader.failures + writer.failures == old(reader.failures + writer.failures) + if r.Failed? then 1 else 0
    {
      while true
        invariant Valid()
        invariant reader.polls >= old(reader.polls) && writer.polls >= old(writer.polls)
        invariant reader.failures + writer.failures == old(reader.failures + writer.failures)
        decreases match state case Running => 2 case ShuttingDown(_) => 1 case Done(_) => 0
      {
        match state
        case Running =>
          var count := copy.PollCopy(reader, writer);
          if !count.Ready? {
            return count;
          }
          state := ShuttingDown(count.value);
        case ShuttingDown(count) =>
          var down := writer.PollShutdown();
          if !down.Ready? {
            return if down.Pending? then Pending else Failed;
          }
          state := Done(count);
        case Done(count) =>
          return Ready(count);
      }
    }
  }

  // ------------------------------------------------------------ both directions

  class CopyBidirectional {
    const aToB: Transfer
    const bToA: Transfer

    constructor (aToB: Transfer, bToA: Transfer)
      ensures this.aToB == aToB && this.bToA == bToA
    {
      this.aToB, this.bToA := aToB, bToA;
    }

    ghost function Parts(t: Transfer): set<object> {
      {t, t.reader, t.writer, t.copy, t.copy.buf}
    }

    ghost function Failures(t: Transfer): nat
      reads t.reader, t.writer
    {
      t.reader.failures + t.writer.failures
    }

    ghost predicate Valid()
      reads this, Parts(aToB), Parts(bToA)
    {
      Parts(aToB) !! Parts(bToA) && aToB.Valid() && bToA.Valid()
    }

    /** Ends as soon as one side is done; only then is a whole stream promised, and only
        for that side. The first error of an endpoint ends it with that error. */
    method Poll() returns (r: Poll<()>)
      requires Valid()
      modifies Parts(aToB), Parts(bToA)
      ensures Valid()
      ensures r.Ready? ==> aToB.state.Done? || bToA.state.Done?
      ensures r.Pending? ==>
                && aToB.Suspended(old(aToB.reader.polls), old(aToB.writer.polls))
                && bToA.Suspended(old(bToA.reader.polls), old(bToA.writer.polls))
      ensures r.Failed? ==>
                || aToB.reader.failing || aToB.writer.failing || bToA.reader.failing || bToA.writer.failing
      ensures Failures(aToB) + Failures(bToA) == old(Failures(aToB) + Failures(bToA)) + if r.Failed? then 1 else 0
    {
      var first := aToB.TransferOneDirection();
      if first.Failed? {
        return Failed;
      }
      var second := bToA.TransferOneDirection();
      if second.Failed? {
        return Failed;
      }
      return if first.Pending? && second.Pending? then Pending else Ready(());
    }
  }
}
