/** One session endpoint (session.go, stream.go): its stream tables, the read
    loop as a step on one capsule, and the application's calls. */
module Endpoint {
  import opened StreamIds
  import opened SendLimits
  import opened Varints
  import opened Capsules
  import ReceiveBuffer
  import DatagramBuffer

  /** A ReceiveStream object; `taken` records the bytes its readers were given. */
  datatype Recv = Recv(id: nat, closed: bool, buf: ReceiveBuffer.Buffer, taken: seq<Byte>)

  /** A SendStream object; `written` records the bytes of successful writes, `fin`
      that the FIN was written too. */
  datatype Send = Send(id: nat, closed: bool, fin: bool, written: seq<Byte>)

  function NewSend(id: nat): Send {
    Send(id, false, false, [])
  }

  /** A pointer to a receive half: a stream ID may get a second object, so
      objects are named by ID and order of creation. */
  datatype Ref = Ref(id: nat, gen: nat)

  /** A Stream object. */
  datatype Bidi = Bidi(id: nat, recv: Ref, send: Send)

  datatype CloseError = Application(code: nat, message: seq<Byte>, remote: bool) | FlowControl

  datatype Reason = Unset | ConnectFin | Error

  /** The read loop: about to test `stop`, inside the parse, or returned. Its
      deferred Close is a step of its own. */
  datatype Loop = Top | Reading | Ended

  /** A call of CloseWithError: past the test of `stop`, its capsule written, its
      error handed to `setCloseErr`, returned. */
  datatype Stage = Tested | Announced | Recorded | Returned

  datatype Closer = Closer(code: nat, message: seq<Byte>, stage: Stage)

  /** Who set the close error: a call, by its number, or the read loop. */
  datatype Setter = Caller(k: nat) | ReadLoop

  /** The calls of CloseWithError that passed the test of `stop`, ever; which of
      them wrote its capsule first; and who set the close error. */
  datatype Closes = Closes(calls: seq<Closer>, first: Option<nat>, setter: Option<Setter>)

  datatype Tables = Tables(
    streams: map<nat, Bidi>,            // bidirectional
    receiveStreams: map<nat, Ref>,      // the peer's, unidirectional
    sendStreams: map<nat, Send>,        // ours, unidirectional
    objects: map<nat, seq<Recv>>,       // every receive half ever made
    offered: seq<nat>)                  // IDs put on an accept queue, ever

  datatype Session = Session(
    bufferSize: int,                    // StreamReceiveBufferSize
    limits: Limits,
    tables: Tables,
    incoming: seq<Ref>,                 // accept queues
    incomingUni: seq<Ref>,
    accepted: seq<Ref>,                 // what Accept* returned, in order
    acceptedUni: seq<Ref>,
    stop: bool,
    loop: Loop,
    closeErr: Option<CloseError>,
    closeReason: Reason,
    closes: Closes,
    datagrams: DatagramBuffer.World,    // the datagram buffer, its reader and its history
    sentDatagrams: seq<seq<Byte>>)      // payloads of the DATAGRAM capsules written, in order

  const ACCEPT_QUEUE: nat := 16

  /** `newSessionConfigured` */
  function NewSession(isServer: bool, peer: Option<PeerLimits>, bufferSize: int, datagramSize: int): Session {
    Session(bufferSize, NewLimits(isServer, peer), Tables(map[], map[], map[], map[], []), [], [], [], [],
            false, Top, None, Unset, Closes([], None, None), DatagramBuffer.Start(datagramSize), [])
  }

  predicate Ours(s: Session, id: nat) {
    IsOurs(s.limits.isServer, id)
  }

  function Objects(t: Tables, id: nat): seq<Recv> {
    if id in t.objects then t.objects[id] else []
  }

  // ---------- closing ----------

  /** `setCloseErr`: the first error stays. */
  function SetCloseErr(s: Session, e: CloseError, who: Setter): Session {
    if s.closeErr.None? then s.(closeErr := Some(e), closes := s.closes.(setter := Some(who))) else s
  }

  function SetCloseReason(s: Session, r: Reason): Session {
    if s.closeReason.Unset? then s.(closeReason := r) else s
  }

  /** `Close` */
  function Stopped(s: Session): Session {
    s.(stop := true, datagrams := DatagramBuffer.Step(s.datagrams, DatagramBuffer.CloseStep))
  }

  /** The read loop returns; its deferred Close is still to come. */
  function Return(s: Session): Session {
    s.(loop := Ended)
  }

  predicate CallAt(s: Session, k: nat, stage: Stage) {
    k < |s.closes.calls| && s.closes.calls[k].stage == stage
  }

  function Advance(s: Session, k: nat, stage: Stage): Session
    requires k < |s.closes.calls|
  {
    s.(closes := s.closes.(calls := s.closes.calls[k := s.closes.calls[k].(stage := stage)]))
  }

  /** `CloseWithError` up to and including its test of `stop`. */
  function CloseStart(s: Session, code: nat, message: seq<Byte>): Session {
    if |message| > MAX_CLOSE_MESSAGE || s.stop || code >= 0x1_0000_0000 then s
    else s.(closes := s.closes.(calls := s.closes.calls + [Closer(code, message, Tested)]))
  }

  /** Its WT_CLOSE_SESSION capsule; a failed write ends the call. */
  function CloseAnnounce(s: Session, k: nat, ok: bool): (Session, seq<Capsule>) {
    if !CallAt(s, k, Tested) then (s, [])
    else if !ok then (Advance(s, k, Returned), [])
    else
      var s1 := Advance(s, k, Announced);
      (if s1.closes.first.None? then s1.(closes := s1.closes.(first := Some(k))) else s1,
       [CloseSession(s.closes.calls[k].code, s.closes.calls[k].message)])
  }

  /** Its `setCloseErr`. */
  function CloseRecord(s: Session, k: nat): Session {
    if !CallAt(s, k, Announced) then s
    else
      var c := s.closes.calls[k];
      SetCloseErr(Advance(s, k, Recorded), Application(c.code, c.message, false), Caller(k))
  }

  /** Its `Close`. */
  function CloseReturn(s: Session, k: nat): Session {
    if !CallAt(s, k, Recorded) then s else Stopped(Advance(s, k, Returned))
  }

  /** `CloseWithError` without another goroutine in between. */
  function CloseWithError(s: Session, code: nat, message: seq<Byte>, ok: bool): (Session, seq<Capsule>) {
    var k := |s.closes.calls|;
    var (s1, out) := CloseAnnounce(CloseStart(s, code, message), k, ok);
    (CloseReturn(CloseRecord(s1, k), k), out)
  }

  // ---------- receiving ----------

  /** `receiveStreamData`, then `finishReceive` on a FIN. None is the error
      that makes the read loop return. */
  function Receive(r: Recv, payload: seq<Byte>, fin: bool): Option<Recv> {
    if r.closed then Some(if fin then r.(buf := ReceiveBuffer.Closed(r.buf)) else r)
    else
      var (b, result) := ReceiveBuffer.WriteTo(r.buf, payload);
      if result != ReceiveBuffer.Written then None
      else Some(r.(buf := if fin then ReceiveBuffer.Closed(b) else b))
  }

  function NewRecv(bufferSize: int, id: nat): Recv {
    Recv(id, false, ReceiveBuffer.Buffer([], false, bufferSize), [])
  }

  predicate Points(t: Tables, ref: Ref) {
    ref.gen < |Objects(t, ref.id)|
  }

  function Put(t: Tables, ref: Ref, r: Recv): Tables
    requires Points(t, ref)
  {
    t.(objects := t.objects[ref.id := Objects(t, ref.id)[ref.gen := r]])
  }

  /** A fresh receive half for `id`. */
  function AddObject(t: Tables, id: nat, bufferSize: int): (Tables, Ref) {
    (t.(objects := t.objects[id := Objects(t, id) + [NewRecv(bufferSize, id)]]), Ref(id, |Objects(t, id)|))
  }

  function AddBidi(t: Tables, id: nat, bufferSize: int): (Tables, Ref) {
    var (t1, ref) := AddObject(t, id, bufferSize);
    (t1.(streams := t1.streams[id := Bidi(id, ref, NewSend(id))]), ref)
  }

  /** Data for a receive half that the tables know. */
  function DeliverTo(t: Tables, ref: Ref, payload: seq<Byte>, fin: bool): Option<Tables> {
    if !Points(t, ref) then Some(t)
    else
      match Receive(Objects(t, ref.id)[ref.gen], payload, fin)
      case None => None
      case Some(r) =>
        var t1 := Put(t, ref, r);
        Some(if fin && !IsBidi(ref.id) then t1.(receiveStreams := t1.receiveStreams - {ref.id}) else t1)
  }

  function Deliver(s: Session, ref: Ref, payload: seq<Byte>, fin: bool): Session {
    match DeliverTo(s.tables, ref, payload, fin)
    case None => Return(s)
    case Some(t) => s.(tables := t)
  }

  /** A first capsule on a peer stream: enter it in the tables. */
  function Register(t: Tables, id: nat, bufferSize: int): (Tables, Ref) {
    if IsBidi(id) then AddBidi(t, id, bufferSize)
    else
      var (t1, ref) := AddObject(t, id, bufferSize);
      (t1.(receiveStreams := t1.receiveStreams[id := ref]), ref)
  }

  function Offer(t: Tables, id: nat): Tables {
    t.(offered := t.offered + [id])
  }

  function Enqueue(s: Session, ref: Ref): Session {
    var s1 := s.(tables := Offer(s.tables, ref.id));
    if IsBidi(ref.id) then s1.(incoming := s1.incoming + [ref]) else s1.(incomingUni := s1.incomingUni + [ref])
  }

  /** The entry that routes `id`, if any. */
  function Route(t: Tables, id: nat): Option<Ref> {
    if IsBidi(id) then (if id in t.streams then Some(t.streams[id].recv) else None)
    else if id in t.receiveStreams then Some(t.receiveStreams[id]) else None
  }

  predicate QueueFull(s: Session, id: nat) {
    if IsBidi(id) then |s.incoming| >= ACCEPT_QUEUE else |s.incomingUni| >= ACCEPT_QUEUE
  }

  /** With the session already closed, the accept queue's select may take the
      `done` branch (`doneWins`), and must when the queue is full. */
  predicate Unwanted(s: Session, id: nat, doneWins: bool) {
    s.stop && (doneWins || QueueFull(s, id))
  }

  /** What the accept queue's select does with a new stream. */
  datatype Admission = Sent | Dropped | Blocked

  function Admit(s: Session, id: nat, doneWins: bool): Admission {
    if Unwanted(s, id, doneWins) then Dropped else if QueueFull(s, id) then Blocked else Sent
  }

  /** WT_STREAM and WT_STREAM_FIN. */
  function HandleStream(s: Session, id: nat, payload: seq<Byte>, fin: bool, doneWins: bool): Session {
    match Route(s.tables, id)
    case Some(ref) => Deliver(s, ref, payload, fin)
    case None =>
      if Ours(s, id) then s
      else
        var (t, ref) := Register(s.tables, id, s.bufferSize);
        var s1 := s.(tables := t, limits := if IsBidi(id) then TrackSend(s.limits, id) else s.limits);
        if Unwanted(s, id, doneWins) then Return(s1) else Deliver(Enqueue(s1, ref), ref, payload, fin)
  }

  /** The body of the read loop for one parsed capsule. */
  function Handle(s: Session, c: Capsule, doneWins: bool): Session {
    match c
    case Padding(_) => s
    case Stream(id, payload, fin) => HandleStream(s, id, payload, fin, doneWins)
    case Datagram(p) => s.(datagrams := DatagramBuffer.Step(s.datagrams, DatagramBuffer.WriteStep(p)))
    case CloseSession(code, message) => Return(SetCloseErr(s, Application(code, message, true), ReadLoop))
    case Drain => s
    case Limit(g) =>
      var (l, v) := Raise(s.limits, g);
      if v == Ok then s.(limits := l) else Return(SetCloseErr(s.(limits := l), FlowControl, ReadLoop))
    case Other(_, _) => s
    case Malformed(BadStreamId) => Return(s)
    case Malformed(BadLimit) => Return(SetCloseReason(s, ConnectFin))
    case Malformed(BadClose) => Return(SetCloseReason(s, Error))
  }

  /** The read loop sits in the accept queue's select. */
  predicate Waits(s: Session, c: Capsule) {
    c.Stream? && Route(s.tables, c.id).None? && !Ours(s, c.id) && QueueFull(s, c.id) && !s.stop
  }

  // ---------- the application's calls ----------

  /** `OpenStream` and `OpenUnidirectionalStream` past their test of `stop`. */
  function OpenPast(s: Session, bidi: bool): (Session, Option<nat>) {
    match Alloc(s.limits, bidi)
    case (l, None) => (s.(limits := l), None)
    case (l, Some(id)) =>
      (s.(limits := l,
          tables := if bidi then AddBidi(s.tables, id, s.bufferSize).0
                    else s.tables.(sendStreams := s.tables.sendStreams[id := NewSend(id)])), Some(id))
  }

  function Open(s: Session, bidi: bool): (Session, Option<nat>) {
    if s.stop then (s, None) else OpenPast(s, bidi)
  }

  predicate HasSend(t: Tables, id: nat) {
    id in t.streams || id in t.sendStreams
  }

  /** The send half of `id`; a stream that does not exist has sent nothing. */
  function SendHalf(t: Tables, id: nat): Send {
    if id in t.streams then t.streams[id].send
    else if id in t.sendStreams then t.sendStreams[id]
    else NewSend(id)
  }

  function PutSend(t: Tables, id: nat, h: Send): Tables
    requires HasSend(t, id)
  {
    if id in t.streams then t.(streams := t.streams[id := t.streams[id].(send := h)])
    else t.(sendStreams := t.sendStreams[id := h])
  }

  /** `SendStream.Write`; `ok` is whether the capsule reached the connection.
      An ID beyond the varint range makes the library panic after the charge. */
  function Write(s: Session, id: nat, p: seq<Byte>, ok: bool): (Session, seq<Capsule>) {
    var h := SendHalf(s.tables, id);
    if !HasSend(s.tables, id) || h.closed || ReserveVerdict(s.limits, id, |p|) != Ok then (s, [])
    else
      var l := Reserve(s.limits, id, |p|);
      if id >= TWO_62 then (s.(limits := l), [])
      else if !ok then (s.(limits := Refund(l, id, |p|)), [])
      else (s.(limits := l, tables := PutSend(s.tables, id, h.(written := h.written + p))), [Stream(id, p, false)])
  }

  /** `SendStream.Close`: the flag is set even if the FIN cannot be written. */
  function CloseSend(s: Session, id: nat, ok: bool): (Session, seq<Capsule>) {
    if !HasSend(s.tables, id) || SendHalf(s.tables, id).closed then (s, [])
    else
      var fin := ok && id < TWO_62;
      (s.(tables := PutSend(s.tables, id, SendHalf(s.tables, id).(closed := true, fin := fin))),
       if fin then [Stream(id, [], true)] else [])
  }

  /** `ReceiveStream.Read` into a slice of length `k`. */
  function ReadHalf(r: Recv, k: nat): Recv {
    var (b, result) := ReceiveBuffer.ReadFrom(r.buf, k);
    r.(buf := b, taken := if result.Got? then r.taken + result.bytes else r.taken)
  }

  /** `ReceiveStream.Close` */
  function CloseHalf(r: Recv): Recv {
    r.(closed := true, buf := ReceiveBuffer.Closed(r.buf))
  }

  function Read(t: Tables, ref: Ref, k: nat): Tables {
    if !Points(t, ref) then t else Put(t, ref, ReadHalf(Objects(t, ref.id)[ref.gen], k))
  }

  function CloseRecv(t: Tables, ref: Ref): Tables {
    if !Points(t, ref) then t else Put(t, ref, CloseHalf(Objects(t, ref.id)[ref.gen]))
  }

  /** `AcceptStream` and `AcceptUnidirectionalStream` with a stream in the queue. */
  function Accept(s: Session, bidi: bool): Session {
    if bidi then
      if s.incoming == [] then s
      else s.(incoming := s.incoming[1..], accepted := s.accepted + [s.incoming[0]])
    else
      if s.incomingUni == [] then s
      else s.(incomingUni := s.incomingUni[1..], acceptedUni := s.acceptedUni + [s.incomingUni[0]])
  }

  /** `SendDatagram`; `late` is that it tested `stop` before a Close. */
  function SendDatagram(s: Session, p: seq<Byte>, late: bool, ok: bool): (Session, seq<Capsule>) {
    if (s.stop && !late) || !ok then (s, [])
    else (s.(sentDatagrams := s.sentDatagrams + [p]), [Datagram(p)])
  }

  /** The steps of the reader in `ReceiveDatagram`. */
  predicate ReaderStep(d: DatagramBuffer.Event) {
    !d.WriteStep? && !d.CloseStep?
  }

  // ---------- one endpoint as a machine ----------

  datatype Event =
    | OpenCall(bidi: bool, late: bool)           // `late`: it tested `stop` before a Close
    | WriteCall(id: nat, p: seq<Byte>, ok: bool)
    | CloseSendCall(id: nat, ok: bool)
    | ReadCall(ref: Ref, k: nat)
    | CloseRecvCall(ref: Ref)
    | AcceptCall(bidi: bool)
    | CloseCall
    | CloseStartCall(code: nat, message: seq<Byte>)
    | CloseAnnounceCall(k: nat, ok: bool)
    | CloseRecordCall(k: nat)
    | CloseReturnCall(k: nat)
    | DatagramCall(p: seq<Byte>, late: bool, ok: bool)
    | DatagramRead(d: DatagramBuffer.Event)      // a step of the datagram reader
    | LoopTest                                   // the test of `stop`
    | ConnectionEnd(clean: bool)                 // the parse fails
    | LoopClose                                  // the deferred Close
    | Incoming(c: Capsule, doneWins: bool)       // the parse yields a capsule

  predicate CanRead(s: Session, c: Capsule) {
    s.loop == Reading && !Waits(s, c)
  }

  /** The next state and the capsules written to the connection. */
  function Step(s: Session, e: Event): (Session, seq<Capsule>) {
    match e
    case OpenCall(bidi, late) => (if late then OpenPast(s, bidi).0 else Open(s, bidi).0, [])
    case WriteCall(id, p, ok) => Write(s, id, p, ok)
    case CloseSendCall(id, ok) => CloseSend(s, id, ok)
    case ReadCall(ref, k) => (s.(tables := Read(s.tables, ref, k)), [])
    case CloseRecvCall(ref) => (s.(tables := CloseRecv(s.tables, ref)), [])
    case AcceptCall(bidi) => (Accept(s, bidi), [])
    case CloseCall => (Stopped(s), [])
    case CloseStartCall(code, message) => (CloseStart(s, code, message), [])
    case CloseAnnounceCall(k, ok) => CloseAnnounce(s, k, ok)
    case CloseRecordCall(k) => (CloseRecord(s, k), [])
    case CloseReturnCall(k) => (CloseReturn(s, k), [])
    case DatagramCall(p, late, ok) => SendDatagram(s, p, late, ok)
    case DatagramRead(d) =>
      (if ReaderStep(d) then s.(datagrams := DatagramBuffer.Step(s.datagrams, d)) else s, [])
    case LoopTest => (if s.loop != Top then s else if s.stop then Return(s) else s.(loop := Reading), [])
    case ConnectionEnd(clean) =>
      (if s.loop != Reading then s else Return(SetCloseReason(s, if clean then ConnectFin else Error)), [])
    case LoopClose => (if s.loop == Ended then Stopped(s) else s, [])
    case Incoming(c, doneWins) =>
      if !CanRead(s, c) then (s, [])
      else
        var s1 := Handle(s, c, doneWins);
        (if s1.loop == Ended then s1 else s1.(loop := Top), [])
  }
}
