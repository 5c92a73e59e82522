/** `streamReceiveBuffer` (stream.go): a bounded byte FIFO behind a mutex. */
module ReceiveBuffer {
  import opened Varints

  /** A `maxBytes` that is not positive disables the bound. */
  datatype Buffer = Buffer(data: seq<Byte>, closed: bool, maxBytes: int)

  datatype WriteResult = Written | ClosedPipe | Full

  /** A read that would wait for a writer is reported as `Blocked`. */
  datatype ReadResult = Got(bytes: seq<Byte>) | EOF | Blocked

  function WriteTo(b: Buffer, p: seq<Byte>): (Buffer, WriteResult) {
    if b.closed then (b, ClosedPipe)
    else if b.maxBytes > 0 && |b.data| + |p| > b.maxBytes then (b, Full)
    else (b.(data := b.data + p), Written)
  }

  /** Reading into a slice of length `k`. */
  function ReadFrom(b: Buffer, k: nat): (Buffer, ReadResult) {
    if b.data == [] then (b, if b.closed then EOF else Blocked)
    else
      var n := if k < |b.data| then k else |b.data|;
      (b.(data := b.data[n..]), Got(b.data[..n]))
  }

  function Closed(b: Buffer): Buffer {
    b.(closed := true)
  }

  class StreamReceiveBuffer {
    var data: seq<Byte>
    var closed: bool
    const maxBytes: int

    ghost function State(): Buffer
      reads this
    {
      Buffer(data, closed, maxBytes)
    }

    constructor (maxBytes: int)
      ensures State() == Buffer([], false, maxBytes)
    {
      this.maxBytes := maxBytes;
      data, closed := [], false;
    }

    method Write(p: seq<Byte>) returns (r: WriteResult)
      modifies this`data
      ensures (State(), r) == WriteTo(old(State()), p)
    {
      if closed {
        return ClosedPipe;
      }
      if maxBytes > 0 && |data| + |p| > maxBytes {
        return Full;
      }
      data := data + p;
      return Written;
    }

    /** The bytes go to the front of the caller's slice; the rest of it keeps
        its contents. */
    method Read(p: array<Byte>) returns (n: nat, r: ReadResult)
      modifies this`data, p
      ensures (State(), r) == ReadFrom(old(State()), p.Length)
      ensures n <= p.Length && p[n..] == old(p[n..])
      ensures if r.Got? then p[..n] == r.bytes else n == 0
    {
      n := 0;
      if |data| == 0 {
        return 0, if closed then EOF else Blocked;
      }
      n := if p.Length < |data| then p.Length else |data|;
      forall i | 0 <= i < n {
        p[i] := data[i];
      }
      r := Got(data[..n]);
      data := data[n..];
    }

    method Close()
      modifies this`closed
      ensures State() == Closed(old(State()))
    {
      if closed {
        return;
      }
      closed := true;
    }
  }

  // ---------- whole runs ----------

  datatype Op = WriteOp(p: seq<Byte>) | ReadOp(k: nat) | CloseOp

  /** The buffer with what went in, what came out, and whether EOF was seen. */
  datatype History = History(buf: Buffer, accepted: seq<Byte>, taken: seq<Byte>, eof: bool)

  function Step(h: History, op: Op): History {
    match op
    case WriteOp(p) =>
      var (buf, r) := WriteTo(h.buf, p);
      h.(buf := buf, accepted := if r == Written then h.accepted + p else h.accepted)
    case ReadOp(k) =>
      var (buf, r) := ReadFrom(h.buf, k);
      h.(buf := buf, taken := if r.Got? then h.taken + r.bytes else h.taken, eof := h.eof || r == EOF)
    case CloseOp => h.(buf := Closed(h.buf))
  }

  function Run(h: History, ops: seq<Op>): History
    decreases |ops|
  {
    if ops == [] then h else Run(Step(h, ops[0]), ops[1..])
  }

  predicate Fifo(h: History) {
    && h.taken + h.buf.data == h.accepted
    && (h.buf.maxBytes > 0 ==> |h.buf.data| <= h.buf.maxBytes)
    && (h.eof ==> h.buf.closed && h.buf.data == [])
  }

  lemma FifoStep(h: History, op: Op)
    requires Fifo(h)
    ensures Fifo(Step(h, op))
  {
    match op
    case WriteOp(p) => assert h.taken + (h.buf.data + p) == h.taken + h.buf.data + p;
    case ReadOp(k) =>
      var n := if k < |h.buf.data| then k else |h.buf.data|;
      assert h.buf.data == h.buf.data[..n] + h.buf.data[n..];
      assert h.taken + h.buf.data == h.taken + h.buf.data[..n] + h.buf.data[n..];
    case CloseOp =>
  }

  lemma {:induction false} FifoRun(h: History, ops: seq<Op>)
    requires Fifo(h)
    ensures Fifo(Run(h, ops))
    decreases |ops|
  {
    if ops != [] {
      FifoStep(h, ops[0]);
      FifoRun(Step(h, ops[0]), ops[1..]);
    }
  }

  /** For any mix of write sizes, read sizes and closes: bytes come out in the
      order they were accepted, none is lost or made up, the bound holds, and a
      reader that saw EOF has everything that was ever accepted. */
  lemma {:induction false} BufferIsBoundedFifo(maxBytes: int, ops: seq<Op>)
    ensures var h := Run(History(Buffer([], false, maxBytes), [], [], false), ops);
            && h.taken + h.buf.data == h.accepted
            && (maxBytes > 0 ==> |h.buf.data| <= maxBytes)
            && (h.eof ==> h.taken == h.accepted)
  {
    var h0 := History(Buffer([], false, maxBytes), [], [], false);
    FifoRun(h0, ops);
    RunKeepsBound(h0, ops);
    var h := Run(h0, ops);
    if h.eof {
      assert h.taken + [] == h.taken;
    }
  }

  lemma {:induction false} RunKeepsBound(h: History, ops: seq<Op>)
    ensures Run(h, ops).buf.maxBytes == h.buf.maxBytes
    decreases |ops|
  {
    if ops != [] {
      RunKeepsBound(Step(h, ops[0]), ops[1..]);
    }
  }

  /** What each operation answers, told from the history alone: a write is
      accepted exactly when the buffer is open and the unread bytes leave room;
      a read gets the next unread bytes, as many as fit, waits exactly when there
      is none and a writer may still come, and reports EOF otherwise. */
  lemma {:induction false} AnswersFromHistory(h: History, p: seq<Byte>, k: nat)
    requires Fifo(h)
    ensures var unread := h.accepted[|h.taken|..];
            && (WriteTo(h.buf, p).1 == Written <==>
                  !h.buf.closed && (h.buf.maxBytes > 0 ==> |unread| + |p| <= h.buf.maxBytes))
            && (WriteTo(h.buf, p).1 != Written ==> Step(h, WriteOp(p)) == h)
            && (WriteTo(h.buf, p).1 == ClosedPipe <==> h.buf.closed)
            && (ReadFrom(h.buf, k).1.Blocked? <==> unread == [] && !h.buf.closed)
            && (ReadFrom(h.buf, k).1.EOF? <==> unread == [] && h.buf.closed)
            && (unread != [] ==>
                  ReadFrom(h.buf, k).1 == Got(if k < |unread| then unread[..k] else unread))
  {
    assert h.accepted[|h.taken|..] == h.buf.data;
    assert h.buf.data[..|h.buf.data|] == h.buf.data;
  }

  // ---------- a reader that waits on the condition variable ----------

  /** One reader at a time: not in a call, in `Wait`, or signalled and about to
      test the loop's condition again. `k` is the length of its slice. */
  datatype Reader = Idle | Asleep(k: nat) | Awake(k: nat)

  datatype World = World(h: History, reader: Reader)

  datatype Move = WriteMove(p: seq<Byte>) | CloseMove | CallMove(k: nat) | WakeMove

  /** The critical section of `read`, up to its return or its next `Wait`. */
  function Attempt(w: World, k: nat): World {
    if ReadFrom(w.h.buf, k).1.Blocked? then w.(reader := Asleep(k)) else World(Step(w.h, ReadOp(k)), Idle)
  }

  /** `Signal` and `Broadcast`. */
  function Rouse(r: Reader): Reader {
    if r.Asleep? then Awake(r.k) else r
  }

  function Advance(w: World, m: Move): World {
    match m
    case WriteMove(p) =>
      World(Step(w.h, WriteOp(p)), if WriteTo(w.h.buf, p).1 == Written then Rouse(w.reader) else w.reader)
    case CloseMove => World(Step(w.h, CloseOp), if w.h.buf.closed then w.reader else Rouse(w.reader))
    case CallMove(k) => if w.reader.Idle? then Attempt(w, k) else w
    case WakeMove => if w.reader.Awake? then Attempt(w, w.reader.k) else w
  }

  function RunMoves(w: World, ms: seq<Move>): World
    decreases |ms|
  {
    if ms == [] then w else RunMoves(Advance(w, ms[0]), ms[1..])
  }

  predicate Vigilant(w: World) {
    Fifo(w.h) && (w.reader.Asleep? ==> w.h.buf.data == [] && !w.h.buf.closed)
  }

  lemma {:induction false} VigilantRun(w: World, ms: seq<Move>)
    requires Vigilant(w)
    ensures Vigilant(RunMoves(w, ms))
    decreases |ms|
  {
    if ms != [] {
      match ms[0] {
        case WriteMove(p) => FifoStep(w.h, WriteOp(p));
        case CloseMove => FifoStep(w.h, CloseOp);
        case CallMove(k) => FifoStep(w.h, ReadOp(k));
        case WakeMove => if w.reader.Awake? { FifoStep(w.h, ReadOp(w.reader.k)); }
      }
      VigilantRun(Advance(w, ms[0]), ms[1..]);
    }
  }

  /** A new read answers at once if there is something to say, and waits if not; a
      write that is refused wakes nobody. */
  lemma {:induction false} ReadAtOnce(w: World, k: nat, p: seq<Byte>)
    requires w.reader.Idle?
    ensures var w', b := Advance(w, CallMove(k)), w.h.buf;
            if b.data == [] && !b.closed then w' == w.(reader := Asleep(k))
            else
              && w'.reader.Idle?
              && w'.h.taken == w.h.taken + (if k < |b.data| then b.data[..k] else b.data)
              && (w'.h.eof <==> w.h.eof || b.data == [])
    ensures WriteTo(w.h.buf, p).1 != Written ==> Advance(w, WriteMove(p)) == w
  {
    assert w.h.buf.data[..|w.h.buf.data|] == w.h.buf.data;
    assert w.h.taken + [] == w.h.taken;
  }

  /** No lost wake-up: in every run a reader asleep has nothing to read and no
      close to see; once there is either, it is awake, and its next step returns
      the next unread bytes, as many as fit, or EOF. */
  lemma {:induction false} SleepingReaderWakes(maxBytes: int, ms: seq<Move>)
    ensures var w := RunMoves(World(History(Buffer([], false, maxBytes), [], [], false), Idle), ms);
            var unread := w.h.buf.data;
            && w.h.taken + unread == w.h.accepted
            && (!w.reader.Idle? && (unread != [] || w.h.buf.closed) ==>
                  && w.reader.Awake?
                  && var w' := Advance(w, WakeMove);
                     && w'.reader.Idle?
                     && (unread != [] ==>
                           w'.h.taken == w.h.taken + if w.reader.k < |unread| then unread[..w.reader.k] else unread)
                     && (unread == [] ==> w'.h.eof))
  {
    VigilantRun(World(History(Buffer([], false, maxBytes), [], [], false), Idle), ms);
    var w := RunMoves(World(History(Buffer([], false, maxBytes), [], [], false), Idle), ms);
    assert w.h.buf.data[..|w.h.buf.data|] == w.h.buf.data;
  }
}
