/** The Session object (session.go, stream.go): the maps, queues and flags in
    place, updated by the read loop and by the application's calls. */
module SessionObject {
  import opened StreamIds
  import opened SendLimits
  import opened Varints
  import opened Capsules
  import opened Endpoint
  import opened Rows
  import opened Demux
  import ReceiveBuffer
  import DatagramBuffer

  /** `readLoop` over the capsules of a whole connection, with no call beside it:
      it returns when the session was stopped, when a capsule says so, or when
      the bytes run out, and closes the session; or it waits, inside a capsule,
      for room in an accept queue. */
  function ReadAll(s: Session, cs: seq<Capsule>): Session
    decreases |cs|
  {
    if s.stop then Stopped(Return(s))
    else if cs == [] then Stopped(Return(Endpoint.SetCloseReason(s, ConnectFin)))
    else if Waits(s, cs[0]) then s.(loop := Reading)
    else
      var s1 := Handle(s.(loop := Reading), cs[0], false);
      if s1.loop == Ended then Stopped(s1) else ReadAll(s1.(loop := Top), cs[1..])
  }

  class SessionState {
    const bufferSize: int
    const limits: SendLimits
    const datagrams: DatagramBuffer.DatagramReceiveBuffer
    var streams: map<nat, Bidi>
    var receiveStreams: map<nat, Ref>
    var sendStreams: map<nat, Send>
    var objects: map<nat, seq<Recv>>
    var offered: seq<nat>
    var incoming: seq<Ref>
    var incomingUni: seq<Ref>
    var accepted: seq<Ref>
    var acceptedUni: seq<Ref>
    var stop: bool
    var loop: Loop
    var closeErr: Option<CloseError>
    var closeReason: Reason
    var closes: Closes
    var datagramReader: DatagramBuffer.Reader
    var acceptedDatagrams: seq<seq<Byte>>
    var returnedDatagrams: seq<seq<Byte>>
    var sentDatagrams: seq<seq<Byte>>

    ghost function TablesState(): Tables
      reads this
    {
      Tables(streams, receiveStreams, sendStreams, objects, offered)
    }

    ghost function DatagramsState(): DatagramBuffer.World
      reads this, datagrams
    {
      DatagramBuffer.World(datagrams.State(), datagramReader, acceptedDatagrams, returnedDatagrams)
    }

    ghost function State(): Session
      reads this, limits, datagrams
    {
      Session(bufferSize, limits.State(), TablesState(), incoming, incomingUni, accepted, acceptedUni, stop, loop,
              closeErr, closeReason, closes, DatagramsState(), sentDatagrams)
    }

    constructor (isServer: bool, peer: Option<PeerLimits>, bufferSize: int, datagramSize: int)
      ensures State() == NewSession(isServer, peer, bufferSize, datagramSize)
      ensures fresh(limits) && fresh(datagrams)
    {
      this.bufferSize := bufferSize;
      var l := new SendLimits(isServer);
      if peer.Some? {
        l.AdoptPeerSendLimits(peer.value);
      }
      limits := l;
      datagrams := new DatagramBuffer.DatagramReceiveBuffer(datagramSize);
      streams, receiveStreams, sendStreams, objects, offered := map[], map[], map[], map[], [];
      incoming, incomingUni, accepted, acceptedUni := [], [], [], [];
      datagramReader, acceptedDatagrams, returnedDatagrams := DatagramBuffer.Idle, [], [];
      sentDatagrams := [];
      stop, loop, closeErr, closeReason, closes := false, Top, None, Unset, Closes([], None, None);
    }

    method SetCloseErr(e: CloseError, who: Setter)
      modifies this`closeErr, this`closes
      ensures State() == Endpoint.SetCloseErr(old(State()), e, who)
    {
      if closeErr.None? {
        closeErr := Some(e);
        closes := closes.(setter := Some(who));
      }
    }

    method SetCloseReason(r: Reason)
      modifies this`closeReason
      ensures State() == Endpoint.SetCloseReason(old(State()), r)
    {
      if closeReason.Unset? {
        closeReason := r;
      }
    }

    /** `closeOnce` and `closeDatagramDeliveryOnce`: a second Close finds
        everything closed. */
    method Close()
      modifies this`stop, datagrams
      ensures State() == Stopped(old(State()))
    {
      stop := true;
      datagrams.Close();
    }

    method NewReceiveStream(id: nat) returns (ref: Ref)
      modifies this`objects
      ensures (TablesState(), ref) == AddObject(old(TablesState()), id, bufferSize)
    {
      var halves := if id in objects then objects[id] else [];
      ref := Ref(id, |halves|);
      objects := objects[id := halves + [NewRecv(bufferSize, id)]];
    }

    method NewStream(id: nat) returns (ref: Ref)
      modifies this`objects, this`streams
      ensures (TablesState(), ref) == AddBidi(old(TablesState()), id, bufferSize)
    {
      ref := NewReceiveStream(id);
      streams := streams[id := Bidi(id, ref, NewSend(id))];
    }

    /** `receiveStreamData` and, for a FIN, `finishReceive` and the removal of a
        unidirectional entry. */
    method ReceiveData(ref: Ref, payload: seq<Byte>, fin: bool)
      modifies this`objects, this`receiveStreams, this`loop
      ensures State() == Deliver(old(State()), ref, payload, fin)
    {
      if ref.id !in objects || ref.gen >= |objects[ref.id]| {
        return;
      }
      var half := Receive(objects[ref.id][ref.gen], payload, fin);
      if half.None? {
        loop := Ended;
        return;
      }
      objects := objects[ref.id := objects[ref.id][ref.gen := half.value]];
      if fin && !IsBidi(ref.id) {
        receiveStreams := receiveStreams - {ref.id};
      }
    }

    /** The select on the accept queue and `done`. */
    method EnqueueIncoming(ref: Ref, doneWins: bool) returns (r: Admission)
      modifies this`offered, this`incoming, this`incomingUni
      ensures r == Admit(old(State()), ref.id, doneWins)
      ensures State() == if r == Sent then Enqueue(old(State()), ref) else old(State())
    {
      var full := if IsBidi(ref.id) then |incoming| >= ACCEPT_QUEUE else |incomingUni| >= ACCEPT_QUEUE;
      if stop && (doneWins || full) {
        return Dropped;
      }
      if full {
        return Blocked;
      }
      offered := offered + [ref.id];
      if IsBidi(ref.id) {
        incoming := incoming + [ref];
      } else {
        incomingUni := incomingUni + [ref];
      }
      return Sent;
    }

    /** The table entry and the send limit of a new peer stream. */
    method RegisterPeerStream(id: nat) returns (ref: Ref)
      modifies this`objects, this`streams, this`receiveStreams, limits`streamMax
      ensures (TablesState(), ref) == Register(old(TablesState()), id, bufferSize)
      ensures limits.State() == if IsBidi(id) then TrackSend(old(limits.State()), id) else old(limits.State())
    {
      if IsBidi(id) {
        ref := NewStream(id);
        limits.TrackSendStream(id);
      } else {
        ref := NewReceiveStream(id);
        receiveStreams := receiveStreams[id := ref];
      }
    }

    /** A stream that would block is left for later as a whole: no other call
        can reach its entry before the select is over. */
    method HandleNewPeerStream(id: nat, payload: seq<Byte>, fin: bool, doneWins: bool) returns (waits: bool)
      requires Route(TablesState(), id).None? && !IsOurs(limits.isServer, id)
      modifies this, limits
      ensures waits <==> Waits(old(State()), Stream(id, payload, fin))
      ensures State() == if waits then old(State()) else HandleStream(old(State()), id, payload, fin, doneWins)
    {
      waits := !stop && if IsBidi(id) then |incoming| >= ACCEPT_QUEUE else |incomingUni| >= ACCEPT_QUEUE;
      if waits {
        return;
      }
      var ref, r := AdmitPeerStream(id, doneWins);
      if r == Dropped {
        loop := Ended;
        return;
      }
      ReceiveData(ref, payload, fin);
    }

    /** The entry, its send limit and the accept queue's select. */
    method AdmitPeerStream(id: nat, doneWins: bool) returns (ref: Ref, r: Admission)
      modifies this`objects, this`streams, this`receiveStreams, this`offered, this`incoming, this`incomingUni
      modifies limits`streamMax
      ensures r == Admit(old(State()), id, doneWins) && ref == Register(old(TablesState()), id, bufferSize).1
      ensures var s := old(State());
              var s1 := s.(tables := Register(s.tables, id, s.bufferSize).0,
                           limits := if IsBidi(id) then TrackSend(s.limits, id) else s.limits);
              State() == if r == Sent then Enqueue(s1, ref) else s1
    {
      ref := RegisterPeerStream(id);
      r := EnqueueIncoming(ref, doneWins);
    }

    method HandleStreamCapsule(id: nat, payload: seq<Byte>, fin: bool, doneWins: bool) returns (waits: bool)
      modifies this, limits
      ensures waits <==> Waits(old(State()), Stream(id, payload, fin))
      ensures State() == if waits then old(State()) else HandleStream(old(State()), id, payload, fin, doneWins)
    {
      waits := false;
      if IsBidi(id) && id in streams {
        ReceiveData(streams[id].recv, payload, fin);
      } else if !IsBidi(id) && id in receiveStreams {
        ReceiveData(receiveStreams[id], payload, fin);
      } else if !IsOurs(limits.isServer, id) {
        waits := HandleNewPeerStream(id, payload, fin, doneWins);
      }
    }

    method HandleSendLimitCapsule(g: Grant) returns (v: Verdict)
      modifies limits
      ensures (limits.State(), v) == Raise(old(limits.State()), g)
    {
      match g
      case MaxData(max) => v := limits.RaiseMaxData(max);
      case MaxStreamData(id, max) => v := limits.RaiseMaxStreamData(id, max);
      case MaxStreams(bidi, max) => v := limits.RaiseMaxStreams(bidi, max);
    }

    /** `deliverDatagram` */
    method DeliverDatagram(p: seq<Byte>)
      modifies this`acceptedDatagrams, datagrams
      ensures State() == old(State()).(
                datagrams := DatagramBuffer.Step(old(State()).datagrams, DatagramBuffer.WriteStep(p)))
    {
      var ok := datagrams.Write(p);
      if ok {
        acceptedDatagrams := acceptedDatagrams + [p];
      }
    }

    /** The switch in `readLoop`. */
    method HandleCapsule(c: Capsule, doneWins: bool) returns (waits: bool)
      modifies this, limits, datagrams
      ensures waits <==> Waits(old(State()), c)
      ensures State() == if waits then old(State()) else Handle(old(State()), c, doneWins)
    {
      waits := false;
      match c
      case Padding(_) =>
      case Stream(id, payload, fin) => waits := HandleStreamCapsule(id, payload, fin, doneWins);
      case Datagram(p) => DeliverDatagram(p);
      case CloseSession(code, message) =>
        SetCloseErr(Application(code, message, true), Setter.ReadLoop);
        loop := Ended;
      case Drain =>
      case Limit(g) =>
        var v := HandleSendLimitCapsule(g);
        if v != Ok {
          SetCloseErr(FlowControl, Setter.ReadLoop);
          loop := Ended;
        }
      case Other(_, _) =>
      case Malformed(BadStreamId) => loop := Ended;
      case Malformed(BadLimit) =>
        SetCloseReason(ConnectFin);
        loop := Ended;
      case Malformed(BadClose) =>
        SetCloseReason(Error);
        loop := Ended;
    }

    /** `readLoop` on the bytes of the CONNECT stream. It ends, and has closed the
        session, unless it waits for room in an accept queue that is full. */
    method ReadLoop(input: seq<Byte>) returns (waits: bool)
      requires loop == Top
      modifies this, limits, datagrams
      ensures State() == ReadAll(old(State()), ParseAll(input).capsules)
      ensures if waits then loop == Reading && !stop && (|incoming| >= ACCEPT_QUEUE || |incomingUni| >= ACCEPT_QUEUE)
              else loop == Ended && stop
    {
      var rest := input;
      while true
        invariant loop == Top
        invariant ReadAll(old(State()), ParseAll(input).capsules) == ReadAll(State(), ParseAll(rest).capsules)
        decreases |rest|
      {
        if stop {
          loop := Ended;
          Close();
          return false;
        }
        var one := ParseOne(rest);
        if one.None? {
          SetCloseReason(ConnectFin);
          loop := Ended;
          Close();
          return false;
        }
        ghost var tail := ParseAll(rest[one.value.1..]).capsules;
        assert ParseAll(rest).capsules == [one.value.0] + tail;
        assert ([one.value.0] + tail)[1..] == tail;
        loop := Reading;
        waits := HandleCapsule(one.value.0, false);
        if waits {
          return;
        }
        if loop == Ended {
          Close();
          return;
        }
        loop := Top;
        rest := rest[one.value.1..];
      }
    }

    /** `OpenStream` and `OpenUnidirectionalStream` */
    method OpenStream(bidi: bool) returns (id: Option<nat>)
      modifies this`objects, this`streams, this`sendStreams, limits
      ensures (State(), id) == Open(old(State()), bidi)
    {
      if stop {
        return None;
      }
      id := limits.AllocLocalStream(bidi);
      if id.Some? {
        if bidi {
          var _ := NewStream(id.value);
        } else {
          sendStreams := sendStreams[id.value := NewSend(id.value)];
        }
      }
    }

    /** `AcceptStream` and `AcceptUnidirectionalStream` with a stream in the queue. */
    method AcceptStream(bidi: bool) returns (ref: Option<Ref>)
      modifies this`incoming, this`incomingUni, this`accepted, this`acceptedUni
      ensures State() == Accept(old(State()), bidi)
      ensures var queue := if bidi then old(incoming) else old(incomingUni);
              ref == if queue == [] then None else Some(queue[0])
    {
      if bidi && |incoming| > 0 {
        ref := Some(incoming[0]);
        accepted := accepted + [incoming[0]];
        incoming := incoming[1..];
      } else if !bidi && |incomingUni| > 0 {
        ref := Some(incomingUni[0]);
        acceptedUni := acceptedUni + [incomingUni[0]];
        incomingUni := incomingUni[1..];
      } else {
        ref := None;
      }
    }

    /** `SendDatagram` */
    method SendDatagramCall(p: seq<Byte>, ok: bool) returns (out: seq<Capsule>)
      modifies this`sentDatagrams
      ensures (State(), out) == SendDatagram(old(State()), p, false, ok)
    {
      if stop || !ok {
        return [];
      }
      sentDatagrams := sentDatagrams + [p];
      return [Datagram(p)];
    }

    /** The reader of `ReceiveDatagram` in its critical section. */
    method CheckDatagrams() returns (r: DatagramBuffer.PollResult)
      requires datagramReader.Checking?
      modifies this`datagramReader, this`returnedDatagrams, datagrams
      ensures State() == old(State()).(
                datagrams := DatagramBuffer.Step(old(State()).datagrams, DatagramBuffer.CheckStep))
      ensures r == DatagramBuffer.PollFrom(old(datagrams.State())).1
    {
      r := datagrams.Poll();
      datagramReader := if r.Wait? then DatagramBuffer.Waiting else DatagramBuffer.Idle;
      if r.Message? {
        returnedDatagrams := returnedDatagrams + [r.payload];
      }
    }

    method StoreSend(id: nat, h: Send)
      requires HasSend(TablesState(), id)
      modifies this`streams, this`sendStreams
      ensures TablesState() == PutSend(old(TablesState()), id, h)
    {
      if id in streams {
        streams := streams[id := streams[id].(send := h)];
      } else {
        sendStreams := sendStreams[id := h];
      }
    }

    /** `SendStream.Write`: reserve, emit, and refund if the emit failed. */
    method WriteStream(id: nat, p: seq<Byte>, ok: bool) returns (out: seq<Capsule>)
      modifies this`streams, this`sendStreams, limits
      ensures (State(), out) == Endpoint.Write(old(State()), id, p, ok)
    {
      out := [];
      if id !in streams && id !in sendStreams {
        return;
      }
      var h := if id in streams then streams[id].send else sendStreams[id];
      if h.closed {
        return;
      }
      var v := limits.ReserveSendData(id, |p|);
      if v != Ok {
        return;
      }
      if id >= TWO_62 {
        return;
      }
      if !ok {
        limits.RefundSendData(id, |p|);
        return;
      }
      StoreSend(id, h.(written := h.written + p));
      out := [Stream(id, p, false)];
    }

    /** `SendStream.Close` */
    method CloseSendStream(id: nat, ok: bool) returns (out: seq<Capsule>)
      modifies this`streams, this`sendStreams
      ensures (State(), out) == CloseSend(old(State()), id, ok)
    {
      out := [];
      if id !in streams && id !in sendStreams {
        return;
      }
      var h := if id in streams then streams[id].send else sendStreams[id];
      if h.closed {
        return;
      }
      StoreSend(id, h.(closed := true, fin := ok && id < TWO_62));
      if ok && id < TWO_62 {
        out := [Stream(id, [], true)];
      }
    }

    /** `ReceiveStream.Read`: what the buffer answers. */
    method ReadStream(ref: Ref, k: nat) returns (r: Option<ReceiveBuffer.ReadResult>)
      modifies this`objects
      ensures TablesState() == Read(old(TablesState()), ref, k)
      ensures r == if !Points(old(TablesState()), ref) then None
                   else Some(ReceiveBuffer.ReadFrom(Objects(old(TablesState()), ref.id)[ref.gen].buf, k).1)
    {
      if ref.id in objects && ref.gen < |objects[ref.id]| {
        var half := objects[ref.id][ref.gen];
        objects := objects[ref.id := objects[ref.id][ref.gen := ReadHalf(half, k)]];
        return Some(ReceiveBuffer.ReadFrom(half.buf, k).1);
      }
      return None;
    }

    /** `ReceiveStream.Close` */
    method CloseReceiveStream(ref: Ref)
      modifies this`objects
      ensures TablesState() == CloseRecv(old(TablesState()), ref)
    {
      if ref.id in objects && ref.gen < |objects[ref.id]| {
        objects := objects[ref.id := objects[ref.id][ref.gen := CloseHalf(objects[ref.id][ref.gen])]];
      }
    }

    method AdvanceCall(k: nat, stage: Stage)
      requires k < |closes.calls|
      modifies this`closes
      ensures State() == Advance(old(State()), k, stage)
    {
      closes := closes.(calls := closes.calls[k := closes.calls[k].(stage := stage)]);
    }

    /** `CloseWithError`, one call at a time: refused without effect, or the
        capsule, then the error, then the stop. */
    method CloseWithError(code: nat, message: seq<Byte>, ok: bool) returns (out: seq<Capsule>)
      requires code < 0x1_0000_0000
      modifies this`closeErr, this`closes, this`stop, datagrams
      ensures (State(), out) == Endpoint.CloseWithError(old(State()), code, message, ok)
    {
      out := [];
      if |message| > MAX_CLOSE_MESSAGE || stop {
        return;
      }
      var k := |closes.calls|;
      closes := closes.(calls := closes.calls + [Closer(code, message, Tested)]);
      if !ok {
        AdvanceCall(k, Returned);
        return;
      }
      out := [CloseSession(code, message)];
      AdvanceCall(k, Announced);
      if closes.first.None? {
        closes := closes.(first := Some(k));
      }
      AdvanceCall(k, Recorded);
      SetCloseErr(Application(code, message, false), Caller(k));
      AdvanceCall(k, Returned);
      Close();
    }
  }

  // ---------- the loop on bytes is a run of the endpoint ----------

  function LoopEvents(s: Session, cs: seq<Capsule>): seq<Event>
    decreases |cs|
  {
    if s.stop then [LoopTest, LoopClose]
    else if cs == [] then [LoopTest, ConnectionEnd(true), LoopClose]
    else if Waits(s, cs[0]) then [LoopTest]
    else
      var s1 := Handle(s.(loop := Reading), cs[0], false);
      [LoopTest, Incoming(cs[0], false)]
      + if s1.loop == Ended then [LoopClose] else LoopEvents(s1.(loop := Top), cs[1..])
  }

  lemma RunOne(s: Session, e: Event)
    ensures RunEvents(s, [e]) == Step(s, e).0
  {
    assert [e][1..] == [];
  }

  /** The loop's last steps. */
  lemma LoopStops(s: Session, cs: seq<Capsule>)
    requires s.loop == Top && s.stop
    ensures ReadAll(s, cs) == RunEvents(s, LoopEvents(s, cs))
  {
    RunTwo(s, LoopTest, LoopClose);
    assert Step(s, LoopTest).0 == Return(s);
  }

  lemma RunThree(s: Session, a: Event, b: Event, c: Event)
    ensures RunEvents(s, [a, b, c]) == Step(Step(Step(s, a).0, b).0, c).0
  {
    assert [a, b, c][1..] == [b, c];
    RunTwo(Step(s, a).0, b, c);
  }

  lemma ConnectionFinishes(s: Session)
    requires s.loop == Top && !s.stop
    ensures Step(Step(Step(s, LoopTest).0, ConnectionEnd(true)).0, LoopClose).0
         == Stopped(Return(Endpoint.SetCloseReason(s, ConnectFin)))
  {
    var reading := s.(loop := Reading);
    assert Step(s, LoopTest).0 == reading;
    assert Step(reading, ConnectionEnd(true)).0 == Return(Endpoint.SetCloseReason(s, ConnectFin));
  }

  lemma LoopFinishes(s: Session)
    requires s.loop == Top && !s.stop
    ensures ReadAll(s, []) == RunEvents(s, LoopEvents(s, []))
  {
    RunThree(s, LoopTest, ConnectionEnd(true), LoopClose);
    ConnectionFinishes(s);
  }

  /** One turn of the loop. */
  lemma LoopTurns(s: Session, c: Capsule)
    requires s.loop == Top && !s.stop && !Waits(s, c)
    ensures var s1 := Handle(s.(loop := Reading), c, false);
            RunEvents(s, [LoopTest, Incoming(c, false)]) == if s1.loop == Ended then s1 else s1.(loop := Top)
  {
    RunTwo(s, LoopTest, Incoming(c, false));
    assert Step(s, LoopTest).0 == s.(loop := Reading);
  }

  /** The loop on the bytes of a connection is a run of the endpoint's steps, so
      what holds of every run holds of what `ReadLoop` leaves behind. */
  lemma {:induction false} ReadAllIsRun(s: Session, cs: seq<Capsule>)
    requires s.loop == Top
    ensures ReadAll(s, cs) == RunEvents(s, LoopEvents(s, cs))
    decreases |cs|
  {
    if s.stop {
      LoopStops(s, cs);
    } else if cs == [] {
      LoopFinishes(s);
    } else if Waits(s, cs[0]) {
      RunOne(s, LoopTest);
    } else {
      var turn, s1 := [LoopTest, Incoming(cs[0], false)], Handle(s.(loop := Reading), cs[0], false);
      LoopTurns(s, cs[0]);
      if s1.loop == Ended {
        RunConcat(s, turn, [LoopClose]);
        RunOne(s1, LoopClose);
      } else {
        RunConcat(s, turn, LoopEvents(s1.(loop := Top), cs[1..]));
        ReadAllIsRun(s1.(loop := Top), cs[1..]);
      }
    }
  }

  /** Whatever bytes arrive, the tables stay well formed. */
  lemma {:induction false} BytesKeepTables(s: Session, input: seq<Byte>)
    requires s.loop == Top && WellFormed(s) && Room(s.limits, |LoopEvents(s, ParseAll(input).capsules)|)
    ensures WellFormed(ReadAll(s, ParseAll(input).capsules))
  {
    ReadAllIsRun(s, ParseAll(input).capsules);
    RunKeepsTables(s, LoopEvents(s, ParseAll(input).capsules));
  }

  function Caps(cs: seq<Capsule>): seq<Item> {
    if cs == [] then [] else [Cap(cs[0])] + Caps(cs[1..])
  }

  /** Capsules that neither end the loop nor fill a queue are one trace. */
  lemma {:induction false} ReadAllIsTrace(s: Session, cs: seq<Capsule>)
    requires s.loop == Top && !s.stop && Proper(s, Caps(cs))
    ensures ReadAll(s, cs) == Stopped(Return(Endpoint.SetCloseReason(Trace(s, Caps(cs)), ConnectFin)))
    decreases |cs|
  {
    if cs != [] {
      assert Caps(cs)[1..] == Caps(cs[1..]);
      HandleWhileReading(s, cs[0], false);
      CapsuleKeepsRunning(s, cs[0]);
      ReadAllIsTrace(Do(s, Cap(cs[0])), cs[1..]);
    }
  }

  /** Two byte streams whose capsules agree on a stream leave it in the same
      state, whatever else they carry and however it is interleaved. */
  lemma {:induction false} BytesDemux(s: Session, a: seq<Byte>, b: seq<Byte>, id: nat)
    requires s.loop == Top && !s.stop && WellFormed(s)
    requires var x, y := Caps(ParseAll(a).capsules), Caps(ParseAll(b).capsules);
             && Proper(s, x) && Proper(s, y) && Room(s.limits, |x|) && Room(s.limits, |y|)
             && Project(x, id) == Project(y, id)
    ensures RowOf(ReadAll(s, ParseAll(a).capsules).tables, id) == RowOf(ReadAll(s, ParseAll(b).capsules).tables, id)
  {
    ReadAllIsTrace(s, ParseAll(a).capsules);
    ReadAllIsTrace(s, ParseAll(b).capsules);
    DemuxDependsOnProjection(s, Caps(ParseAll(a).capsules), Caps(ParseAll(b).capsules), id);
  }
}
