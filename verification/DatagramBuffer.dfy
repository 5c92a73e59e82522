/** `datagramReceiveBuffer` (datagram.go): a bounded FIFO of whole messages
    whose reader sleeps on a channel of capacity one. */
module DatagramBuffer {
  import opened Varints

  /** `token` is the one slot of the `notify` channel. */
  datatype Buffer = Buffer(queue: seq<seq<Byte>>, bufferedBytes: int, closed: bool, maxBytes: int, token: bool)

  datatype PollResult = Message(payload: seq<Byte>) | EOF | Wait

  function New(maxBytes: int): Buffer {
    Buffer([], 0, false, maxBytes, false)
  }

  function WriteTo(b: Buffer, p: seq<Byte>): (Buffer, bool) {
    if b.closed || (b.maxBytes > 0 && b.bufferedBytes + |p| > b.maxBytes) then (b, false)
    else (b.(queue := b.queue + [p], bufferedBytes := b.bufferedBytes + |p|, token := true), true)
  }

  /** One pass of the reader through the critical section. */
  function PollFrom(b: Buffer): (Buffer, PollResult) {
    if |b.queue| > 0 then
      (b.(queue := b.queue[1..], bufferedBytes := b.bufferedBytes - |b.queue[0]|), Message(b.queue[0]))
    else (b, if b.closed then EOF else Wait)
  }

  function Closed(b: Buffer): Buffer {
    if b.closed then b else b.(closed := true, token := true)
  }

  class DatagramReceiveBuffer {
    var queue: seq<seq<Byte>>
    var bufferedBytes: int
    var closed: bool
    const maxBytes: int
    var token: bool

    ghost function State(): Buffer
      reads this
    {
      Buffer(queue, bufferedBytes, closed, maxBytes, token)
    }

    constructor (maxBytes: int)
      ensures State() == New(maxBytes)
    {
      this.maxBytes := maxBytes;
      queue, bufferedBytes, closed, token := [], 0, false, false;
    }

    method Write(p: seq<Byte>) returns (ok: bool)
      modifies this
      ensures (State(), ok) == WriteTo(old(State()), p)
    {
      if closed {
        return false;
      }
      if maxBytes > 0 && bufferedBytes + |p| > maxBytes {
        return false;
      }
      queue := queue + [p];
      bufferedBytes := bufferedBytes + |p|;
      token := true;
      return true;
    }

    method Poll() returns (r: PollResult)
      modifies this`queue, this`bufferedBytes
      ensures (State(), r) == PollFrom(old(State()))
    {
      if |queue| > 0 {
        var payload := queue[0];
        queue := queue[1..];
        bufferedBytes := bufferedBytes - |payload|;
        return Message(payload);
      }
      if closed {
        return EOF;
      }
      return Wait;
    }

    method Close()
      modifies this`closed, this`token
      ensures State() == Closed(old(State()))
    {
      if closed {
        return;
      }
      closed, token := true, true;
    }
  }

  // ---------- writers, a closer and one reader at a time ----------

  /** Where the reader is: not in a call, about to lock, or in the select. */
  datatype Reader = Idle | Checking | Waiting

  datatype World = World(
    buf: Buffer,
    reader: Reader,
    accepted: seq<seq<Byte>>,   // writes that returned true, in order
    returned: seq<seq<Byte>>)   // messages handed to readers, in order

  datatype Event =
    | WriteStep(p: seq<Byte>)
    | CloseStep
    | CallStep      // a new read begins
    | CheckStep     // the reader's critical section
    | TakeStep      // the reader receives from notify
    | CancelStep    // the reader's context is done

  function Step(w: World, e: Event): World {
    match e
    case WriteStep(p) =>
      var (buf, ok) := WriteTo(w.buf, p);
      w.(buf := buf, accepted := if ok then w.accepted + [p] else w.accepted)
    case CloseStep => w.(buf := Closed(w.buf))
    case CallStep => if w.reader.Idle? then w.(reader := Checking) else w
    case CheckStep =>
      if !w.reader.Checking? then w
      else
        var (buf, r) := PollFrom(w.buf);
        w.(buf := buf, reader := if r.Wait? then Waiting else Idle,
           returned := if r.Message? then w.returned + [r.payload] else w.returned)
    case TakeStep =>
      if w.reader.Waiting? && w.buf.token then w.(reader := Checking, buf := w.buf.(token := false)) else w
    case CancelStep => if w.reader.Waiting? then w.(reader := Idle) else w
  }

  function Run(w: World, es: seq<Event>): World
    decreases |es|
  {
    if es == [] then w else Run(Step(w, es[0]), es[1..])
  }

  function Start(maxBytes: int): World {
    World(New(maxBytes), Idle, [], [])
  }

  function Sizes(q: seq<seq<Byte>>): nat {
    if q == [] then 0 else |q[0]| + Sizes(q[1..])
  }

  lemma {:induction false} SizesAppend(q: seq<seq<Byte>>, p: seq<Byte>)
    ensures Sizes(q + [p]) == Sizes(q) + |p|
  {
    if q == [] {
      assert q + [p] == [p];
      assert Sizes([p]) == |p| + Sizes([]);
    } else {
      assert (q + [p])[1..] == q[1..] + [p];
      SizesAppend(q[1..], p);
    }
  }

  predicate Sound(w: World) {
    && w.returned + w.buf.queue == w.accepted
    && w.buf.bufferedBytes == Sizes(w.buf.queue)
    && (w.buf.maxBytes > 0 ==> w.buf.bufferedBytes <= w.buf.maxBytes)
    && (w.reader.Waiting? && (w.buf.queue != [] || w.buf.closed) ==> w.buf.token)
  }

  lemma SoundStep(w: World, e: Event)
    requires Sound(w)
    ensures Sound(Step(w, e)) && Step(w, e).buf.maxBytes == w.buf.maxBytes
  {
    match e
    case WriteStep(p) =>
      SizesAppend(w.buf.queue, p);
      assert w.returned + (w.buf.queue + [p]) == w.returned + w.buf.queue + [p];
    case CheckStep =>
      if w.buf.queue != [] {
        assert w.returned + w.buf.queue == w.returned + [w.buf.queue[0]] + w.buf.queue[1..];
      }
    case _ =>
  }

  lemma {:induction false} SoundRun(w: World, es: seq<Event>)
    requires Sound(w)
    ensures Sound(Run(w, es)) && Run(w, es).buf.maxBytes == w.buf.maxBytes
    decreases |es|
  {
    if es != [] {
      SoundStep(w, es[0]);
      SoundRun(Step(w, es[0]), es[1..]);
    }
  }

  /** Over every interleaving the buffer is a bounded FIFO of whole messages:
      the byte counter is exact and within the bound, and what was returned
      followed by what is queued is what was accepted, in order. */
  lemma {:induction false} DatagramsAreBoundedFifo(maxBytes: int, es: seq<Event>)
    ensures var w := Run(Start(maxBytes), es);
            && w.returned + w.buf.queue == w.accepted
            && w.buf.bufferedBytes == Sizes(w.buf.queue)
            && (maxBytes > 0 ==> w.buf.bufferedBytes <= maxBytes)
  {
    SoundRun(Start(maxBytes), es);
  }

  /** No lost wake-up: in every reachable state, a reader asleep while there is
      a message or the buffer is closed finds a token, and its next two steps
      return the oldest message, or end the call at EOF. */
  lemma {:induction false} SleepingReaderWakes(maxBytes: int, es: seq<Event>)
    ensures var w := Run(Start(maxBytes), es);
            w.reader.Waiting? && (w.buf.queue != [] || w.buf.closed) ==>
              && w.buf.token
              && var w' := Step(Step(w, TakeStep), CheckStep);
                 && w'.reader.Idle?
                 && w'.returned == w.returned + (if w.buf.queue != [] then [w.buf.queue[0]] else [])
  {
    SoundRun(Start(maxBytes), es);
    var w := Run(Start(maxBytes), es);
    assert w.returned + [] == w.returned;
  }

  /** A new read answers at once if there is something to say, and waits if not; a
      read that waits ends when its context does. */
  lemma {:induction false} ReadAtOnce(w: World)
    ensures w.reader.Idle? ==>
              var w' := Step(Step(w, CallStep), CheckStep);
              if w.buf.queue == [] && !w.buf.closed then w' == w.(reader := Waiting)
              else
                && w'.reader.Idle?
                && w'.returned == w.returned + (if w.buf.queue != [] then [w.buf.queue[0]] else [])
    ensures w.reader.Waiting? ==> Step(w, CancelStep) == w.(reader := Idle)
    ensures w.reader.Waiting? && w.buf.token ==>
              Step(w, TakeStep).reader.Checking? && Step(w, TakeStep).buf == w.buf.(token := false)
    ensures !(w.reader.Waiting? && w.buf.token) ==> Step(w, TakeStep) == w
  {
    assert w.returned + [] == w.returned;
  }

  /** What each operation answers, told from the history alone: a datagram is
      kept whole exactly when the buffer is open and the unread sizes leave room,
      a dropped one leaves no trace, and a reader gets the oldest unread one. */
  lemma {:induction false} AnswersFromHistory(w: World, p: seq<Byte>)
    requires Sound(w)
    ensures var unread := w.accepted[|w.returned|..];
            && (WriteTo(w.buf, p).1 <==>
                  !w.buf.closed && (w.buf.maxBytes > 0 ==> Sizes(unread) + |p| <= w.buf.maxBytes))
            && (!WriteTo(w.buf, p).1 ==> Step(w, WriteStep(p)) == w)
            && (unread != [] ==> PollFrom(w.buf).1 == Message(unread[0]))
            && (PollFrom(w.buf).1.EOF? <==> unread == [] && w.buf.closed)
  {
    assert w.accepted[|w.returned|..] == w.buf.queue;
  }
}
