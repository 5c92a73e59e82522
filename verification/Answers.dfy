/** What the read loop and the application's calls answer, told from the session's
    objects: when the loop returns or waits and why, in which order streams are
    accepted, and what a close leaves behind. */
module Answers {
  import opened StreamIds
  import opened SendLimits
  import opened Varints
  import opened Capsules
  import opened Endpoint
  import opened Rows
  import opened Demux
  import opened Delivery
  import ReceiveBuffer

  // ---------- when the read loop returns ----------

  /** A receive half refuses `n` more bytes: it is not closed locally, and it has
      seen its FIN or has no room. Data for a half that is closed locally is
      thrown away. */
  predicate Refuses(r: Recv, n: nat) {
    !r.closed && (r.buf.closed || (r.buf.maxBytes > 0 && |r.buf.data| + n > r.buf.maxBytes))
  }

  /** The accept queue of the stream's kind: sixteen places. */
  predicate NoPlace(s: Session, id: nat) {
    16 <= if IsBidi(id) then |s.incoming| else |s.incomingUni|
  }

  /** A capsule for stream `id` that makes the loop return. */
  predicate Fatal(s: Session, id: nat, n: nat, doneWins: bool) {
    match Route(s.tables, id)
    case Some(ref) => Points(s.tables, ref) && Refuses(Objects(s.tables, ref.id)[ref.gen], n)
    case None =>
      && !Ours(s, id)
      && ((s.stop && (doneWins || NoPlace(s, id))) || (s.bufferSize > 0 && n > s.bufferSize))
  }

  /** The loop returns on a capsule exactly when it closes the session, does not
      parse, grants less than before or more than 2^60 streams, or is stream data
      that its stream cannot take or that nobody will accept; and it waits exactly
      for a place in the accept queue of a new stream, while the session runs. */
  lemma {:induction false} LoopReturnsExactlyWhen(s: Session, c: Capsule, doneWins: bool)
    requires s.loop == Reading
    ensures CanRead(s, c) <==>
            !(c.Stream? && Route(s.tables, c.id).None? && !Ours(s, c.id) && !s.stop && NoPlace(s, c.id))
    ensures var s' := Step(s, Incoming(c, doneWins)).0;
            CanRead(s, c) ==>
              && s'.loop == (if s'.loop == Ended then Ended else Top)
              && (s'.loop == Ended <==>
                    match c
                    case CloseSession(_, _) => true
                    case Malformed(_) => true
                    case Limit(g) => g.max < Current(s.limits, g) || (g.MaxStreams? && g.max > 0x1000_0000_0000_0000)
                    case Stream(id, payload, _) => Fatal(s, id, |payload|, doneWins)
                    case _ => false)
  {
    if c.Stream? && CanRead(s, c) {
      StreamReturns(s, c.id, c.payload, c.fin, doneWins);
    }
  }

  lemma StreamReturns(s: Session, id: nat, payload: seq<Byte>, fin: bool, doneWins: bool)
    requires s.loop == Reading
    ensures var s' := HandleStream(s, id, payload, fin, doneWins);
            (s'.loop == Ended || s'.loop == Reading) && (s'.loop == Ended <==> Fatal(s, id, |payload|, doneWins))
  {
    match Route(s.tables, id)
    case Some(ref) => DeliverReturns(s, ref, payload, fin);
    case None =>
      if !Ours(s, id) && !Unwanted(s, id, doneWins) {
        var (t, ref) := Register(s.tables, id, s.bufferSize);
        var s1 := s.(tables := t, limits := if IsBidi(id) then TrackSend(s.limits, id) else s.limits);
        assert Objects(t, id)[ref.gen] == NewRecv(s.bufferSize, id);
        DeliverReturns(Enqueue(s1, ref), ref, payload, fin);
      }
  }

  lemma DeliverReturns(s: Session, ref: Ref, payload: seq<Byte>, fin: bool)
    requires s.loop == Reading
    ensures var s' := Deliver(s, ref, payload, fin);
            (s'.loop == Ended || s'.loop == Reading)
            && (s'.loop == Ended <==>
                  Points(s.tables, ref) && Refuses(Objects(s.tables, ref.id)[ref.gen], |payload|))
  {
  }

  /** A half that is closed locally keeps what it had: what still arrives is thrown
      away. */
  lemma {:induction false} LocalCloseDiscards(s: Session, c: Capsule, doneWins: bool)
    requires CanRead(s, c) && c.Stream? && Route(s.tables, c.id).Some?
    requires var ref := Route(s.tables, c.id).value;
             Points(s.tables, ref) && Objects(s.tables, ref.id)[ref.gen].closed
    ensures var ref, s' := Route(s.tables, c.id).value, Step(s, Incoming(c, doneWins)).0;
            && Points(s'.tables, ref) && s'.loop == Top
            && var r, r' := Objects(s.tables, ref.id)[ref.gen], Objects(s'.tables, ref.id)[ref.gen];
               r'.buf.data == r.buf.data && r'.taken == r.taken && r'.closed
  {
  }

  /** And its reader, after a local close, gets what was buffered, then EOF. */
  lemma {:induction false} LocalCloseDrains(r: Recv, k: nat, n: nat)
    requires k > 0 && n >= |r.buf.data|
    ensures var r' := ReadTimes(CloseHalf(r), k, n);
            CloseHalf(r).closed && r'.taken == r.taken + r.buf.data && AtEOF(r')
  {
    DrainsToEOF(CloseHalf(r), k, n);
  }

  /** A read and a local close reach the half they are for, and no other: a read
      takes the next bytes, as many as fit; a close marks it and its buffer. */
  lemma {:induction false} CallsReachTheirHalf(s: Session, ref: Ref, k: nat, other: Ref)
    requires Points(s.tables, ref) && Points(s.tables, other)
    ensures var r, t := Objects(s.tables, ref.id)[ref.gen], Step(s, ReadCall(ref, k)).0.tables;
            var n := if k < |r.buf.data| then k else |r.buf.data|;
            && Points(t, ref) && Points(t, other)
            && (other != ref ==> Objects(t, other.id)[other.gen] == Objects(s.tables, other.id)[other.gen])
            && var r' := Objects(t, ref.id)[ref.gen];
               && r'.taken == r.taken + r.buf.data[..n] && r'.buf == r.buf.(data := r.buf.data[n..])
               && r'.closed == r.closed && r'.id == r.id
    ensures var r, t := Objects(s.tables, ref.id)[ref.gen], Step(s, CloseRecvCall(ref)).0.tables;
            && Points(t, ref) && Points(t, other)
            && (other != ref ==> Objects(t, other.id)[other.gen] == Objects(s.tables, other.id)[other.gen])
            && var r' := Objects(t, ref.id)[ref.gen];
               r'.closed && r'.buf == r.buf.(closed := true) && r'.taken == r.taken && r'.id == r.id
  {
    var r := Objects(s.tables, ref.id)[ref.gen];
    assert r.buf.data == [] ==> r.taken + r.buf.data[..0] == r.taken && r.buf.data[0..] == r.buf.data;
  }

  /** An accept takes the oldest stream of its kind; Close stops the session. */
  lemma {:induction false} AcceptAndCloseAnswer(s: Session, bidi: bool)
    ensures var s' := Step(s, AcceptCall(bidi)).0;
            var queue, got := if bidi then s.incoming else s.incomingUni, if bidi then s.accepted else s.acceptedUni;
            var queue' := if bidi then s'.incoming else s'.incomingUni;
            var got' := if bidi then s'.accepted else s'.acceptedUni;
            if queue == [] then s' == s else got' == got + [queue[0]] && queue' == queue[1..]
    ensures Step(s, CloseCall).0.stop && (s.loop == Ended ==> Step(s, LoopClose).0.stop)
    ensures s.loop == Top ==> Step(s, LoopTest).0 == s.(loop := if s.stop then Ended else Reading)
  {
  }

  // ---------- why the session ended ----------

  /** What each capsule and the end of the connection record, if nothing was
      recorded before: the peer's code and message, a flow-control error, or only
      a reason. */
  lemma {:induction false} EndsForAReason(s: Session, c: Capsule, doneWins: bool, clean: bool)
    requires s.loop == Reading && s.closeErr.None? && s.closeReason.Unset?
    ensures var s' := Step(s, Incoming(c, doneWins)).0;
            CanRead(s, c) ==>
              match c
              case CloseSession(code, message) =>
                s'.closeErr == Some(Application(code, message, true)) && s'.closeReason == Unset
              case Limit(g) =>
                s'.closeReason == Unset && s'.closeErr == if s'.loop == Ended then Some(FlowControl) else None
              case Malformed(BadLimit) => s'.closeErr == None && s'.closeReason == ConnectFin
              case Malformed(BadClose) => s'.closeErr == None && s'.closeReason == Reason.Error
              case _ => s'.closeErr == None && s'.closeReason == Unset
    ensures var s' := Step(s, ConnectionEnd(clean)).0;
            s'.loop == Ended && s'.closeErr == None && s'.closeReason == if clean then ConnectFin else Reason.Error
  {
    if c.Stream? && CanRead(s, c) {
      HandleStreamTables(s, c.id, c.payload, c.fin, doneWins);
      StreamKeepsReason(s, c.id, c.payload, c.fin, doneWins);
    }
  }

  lemma StreamKeepsReason(s: Session, id: nat, payload: seq<Byte>, fin: bool, doneWins: bool)
    ensures HandleStream(s, id, payload, fin, doneWins).closeReason == s.closeReason
  {
  }

  lemma StepKeepsReason(s: Session, e: Event)
    requires !s.closeReason.Unset?
    ensures Step(s, e).0.closeReason == s.closeReason
  {
    if e.Incoming? && e.c.Stream? {
      StreamKeepsReason(s, e.c.id, e.c.payload, e.c.fin, e.doneWins);
    } else if !e.Incoming? && !Quiet(e) {
      match e
      case OpenCall(_, _) =>
      case WriteCall(_, _, _) =>
      case CloseSendCall(_, _) =>
      case ReadCall(_, _) =>
      case CloseRecvCall(_) =>
    }
  }

  /** The first reason stays, in every run. */
  lemma {:induction false} FirstReasonStays(s: Session, es: seq<Event>)
    requires !s.closeReason.Unset?
    ensures RunEvents(s, es).closeReason == s.closeReason
    decreases |es|
  {
    if es != [] {
      StepKeepsReason(s, es[0]);
      FirstReasonStays(Step(s, es[0]).0, es[1..]);
    }
  }

  /** A call of CloseWithError that nothing interleaves with: refused without effect
      when the message is too long or the session was stopped; without effect on
      the session when its capsule cannot be written; otherwise the capsule, the
      error unless one was set, and the stop. */
  lemma {:induction false} CloseWithErrorAlone(s: Session, code: nat, message: seq<Byte>, ok: bool)
    requires code < 0x1_0000_0000
    ensures var (s', out) := CloseWithError(s, code, message, ok);
            var refused := |message| > 1024 || s.stop;
            && out == (if refused || !ok then [] else [CloseSession(code, message)])
            && s'.stop == (s.stop || (!refused && ok))
            && s'.closeErr == (if refused || !ok || s.closeErr.Some? then s.closeErr
                               else Some(Application(code, message, false)))
            && (refused ==> s' == s)
            && s'.tables == s.tables && s'.limits == s.limits && s'.loop == s.loop
            && |s'.closes.calls| == |s.closes.calls| + (if refused then 0 else 1)
            && (!refused ==> s'.closes.calls[|s.closes.calls|].stage == Returned)
  {
    var k := |s.closes.calls|;
    var s1 := CloseStart(s, code, message);
    if s1 != s {
      assert s1.closes.calls[k] == Closer(code, message, Tested);
      var s2 := CloseAnnounce(s1, k, ok).0;
      if ok {
        assert s2.closes.calls[k] == Closer(code, message, Announced);
        assert CloseRecord(s2, k).closes.calls[k] == Closer(code, message, Recorded);
      }
    }
  }

  // ---------- sending ----------

  /** A send half is closed once, with a FIN if the connection takes it; and a
      datagram goes out as long as the session is not stopped. */
  lemma {:induction false} CloseAndDatagramAnswers(s: Session, id: nat, ok: bool, p: seq<Byte>)
    ensures var (s', out) := CloseSend(s, id, ok);
            var h, h' := SendHalf(s.tables, id), SendHalf(s'.tables, id);
            && (out == [Stream(id, [], true)] <==> HasSend(s.tables, id) && !h.closed && ok && id < TWO_62)
            && (out != [Stream(id, [], true)] ==> out == [])
            && (HasSend(s.tables, id) ==> h'.closed && h'.written == h.written)
            && (HasSend(s.tables, id) && !h.closed ==> (h'.fin <==> out != [])) && (h.closed ==> s' == s)
    ensures var (s', out) := SendDatagram(s, p, false, ok);
            && out == (if s.stop || !ok then [] else [Datagram(p)])
            && s'.datagrams == s.datagrams && s'.tables == s.tables && s'.limits == s.limits
  {
  }

  // ---------- accepting ----------

  function Ids(refs: seq<Ref>): seq<nat> {
    seq(|refs|, i requires 0 <= i < |refs| => refs[i].id)
  }

  /** The IDs of one kind, in order. */
  function OfKind(ids: seq<nat>, bidi: bool): seq<nat> {
    if ids == [] then [] else OfKind(ids[..|ids| - 1], bidi)
                              + if IsBidi(ids[|ids| - 1]) == bidi then [ids[|ids| - 1]] else []
  }

  /** What was accepted and what is queued is what was offered, in order, for each
      kind of stream; and no queue holds more than sixteen. */
  ghost predicate InOrder(s: Session) {
    && Ids(s.accepted + s.incoming) == OfKind(s.tables.offered, true)
    && Ids(s.acceptedUni + s.incomingUni) == OfKind(s.tables.offered, false)
    && |s.incoming| <= 16 && |s.incomingUni| <= 16
  }

  function QueueOf(s: Session, id: nat): seq<Ref> {
    if IsBidi(id) then s.incoming else s.incomingUni
  }

  /** An offered stream leads to its half. */
  lemma {:induction false} OfferedLeads(s: Session, c: Capsule, doneWins: bool)
    requires CanRead(s, c) && c.Stream? && Route(s.tables, c.id).None? && !Ours(s, c.id)
    requires !Unwanted(s, c.id, doneWins)
    ensures var s', ref := Step(s, Incoming(c, doneWins)).0, Ref(c.id, |Objects(s.tables, c.id)|);
            && QueueOf(s', c.id) == QueueOf(s, c.id) + [ref] && Points(s'.tables, ref)
            && s'.tables.offered == s.tables.offered + [c.id]
  {
    StreamOffers(s, c.id, c.payload, c.fin, doneWins);
  }

  lemma StreamOffers(s: Session, id: nat, payload: seq<Byte>, fin: bool, doneWins: bool)
    requires Route(s.tables, id).None? && !Ours(s, id) && !Unwanted(s, id, doneWins)
    ensures var s', ref := HandleStream(s, id, payload, fin, doneWins), Ref(id, |Objects(s.tables, id)|);
            && QueueOf(s', id) == QueueOf(s, id) + [ref] && Points(s'.tables, ref)
            && s'.tables.offered == s.tables.offered + [id]
  {
    var (t, ref) := Register(s.tables, id, s.bufferSize);
    RegisterPoints(s.tables, id, s.bufferSize);
    var s1 := s.(tables := t, limits := if IsBidi(id) then TrackSend(s.limits, id) else s.limits);
    DeliverKeepsQueues(Enqueue(s1, ref), ref, payload, fin);
    DeliverKeepsPoints(Enqueue(s1, ref), ref, payload, fin);
  }

  lemma RegisterPoints(t: Tables, id: nat, bufferSize: int)
    ensures var (t', ref) := Register(t, id, bufferSize);
            ref == Ref(id, |Objects(t, id)|) && Points(t', ref) && t'.offered == t.offered
  {
  }

  lemma DeliverKeepsPoints(s: Session, ref: Ref, payload: seq<Byte>, fin: bool)
    requires Points(s.tables, ref)
    ensures Points(Deliver(s, ref, payload, fin).tables, ref)
  {
  }

  lemma OfferedNext(offered: seq<nat>, id: nat, bidi: bool)
    ensures OfKind(offered + [id], bidi) == OfKind(offered, bidi) + if IsBidi(id) == bidi then [id] else []
  {
    assert (offered + [id])[..|offered|] == offered;
  }

  lemma EnqueueInOrder(s: Session, ref: Ref)
    requires InOrder(s) && !QueueFull(s, ref.id)
    ensures InOrder(Enqueue(s, ref))
  {
    OfferedNext(s.tables.offered, ref.id, true);
    OfferedNext(s.tables.offered, ref.id, false);
    if IsBidi(ref.id) {
      assert s.accepted + (s.incoming + [ref]) == s.accepted + s.incoming + [ref];
      assert Ids(s.accepted + s.incoming + [ref]) == Ids(s.accepted + s.incoming) + [ref.id];
    } else {
      assert s.acceptedUni + (s.incomingUni + [ref]) == s.acceptedUni + s.incomingUni + [ref];
      assert Ids(s.acceptedUni + s.incomingUni + [ref]) == Ids(s.acceptedUni + s.incomingUni) + [ref.id];
    }
  }

  lemma AcceptInOrder(s: Session, bidi: bool)
    requires InOrder(s)
    ensures InOrder(Accept(s, bidi))
  {
    if bidi && s.incoming != [] {
      assert s.accepted + [s.incoming[0]] + s.incoming[1..] == s.accepted + s.incoming;
    } else if !bidi && s.incomingUni != [] {
      assert s.acceptedUni + [s.incomingUni[0]] + s.incomingUni[1..] == s.acceptedUni + s.incomingUni;
    }
  }

  predicate SameQueues(s: Session, s': Session) {
    && s'.accepted == s.accepted && s'.incoming == s.incoming && s'.tables.offered == s.tables.offered
    && s'.acceptedUni == s.acceptedUni && s'.incomingUni == s.incomingUni
  }

  lemma DeliverKeepsQueues(s: Session, ref: Ref, payload: seq<Byte>, fin: bool)
    ensures SameQueues(s, Deliver(s, ref, payload, fin))
  {
  }

  lemma StreamInOrder(s: Session, id: nat, payload: seq<Byte>, fin: bool, doneWins: bool)
    requires InOrder(s) && !Waits(s, Stream(id, payload, fin))
    ensures InOrder(HandleStream(s, id, payload, fin, doneWins))
  {
    match Route(s.tables, id)
    case Some(ref) => DeliverKeepsQueues(s, ref, payload, fin);
    case None =>
      if !Ours(s, id) {
        var (t, ref) := Register(s.tables, id, s.bufferSize);
        var s1 := s.(tables := t, limits := if IsBidi(id) then TrackSend(s.limits, id) else s.limits);
        assert SameQueues(s, s1);
        if !Unwanted(s, id, doneWins) {
          EnqueueInOrder(s1, ref);
          DeliverKeepsQueues(Enqueue(s1, ref), ref, payload, fin);
        }
      }
  }

  lemma QuietKeepsQueues(s: Session, e: Event)
    requires Quiet(e) && !e.AcceptCall?
    ensures SameQueues(s, Step(s, e).0)
  {
    QuietStep(s, e);
  }

  lemma CallKeepsQueues(s: Session, e: Event)
    requires !e.Incoming? && !e.AcceptCall?
    ensures SameQueues(s, Step(s, e).0)
  {
    if Quiet(e) {
      QuietKeepsQueues(s, e);
    } else {
      match e
      case OpenCall(_, _) =>
      case WriteCall(_, _, _) =>
      case CloseSendCall(_, _) =>
      case ReadCall(_, _) =>
      case CloseRecvCall(_) =>
    }
  }

  lemma StepInOrder(s: Session, e: Event)
    requires InOrder(s)
    ensures InOrder(Step(s, e).0)
  {
    if e.AcceptCall? {
      AcceptInOrder(s, e.bidi);
    } else if !e.Incoming? {
      CallKeepsQueues(s, e);
    } else if CanRead(s, e.c) {
      if e.c.Stream? {
        StreamInOrder(s, e.c.id, e.c.payload, e.c.fin, e.doneWins);
      } else {
        ControlKeepsQueues(s, e.c, e.doneWins);
      }
    }
  }

  lemma ControlKeepsQueues(s: Session, c: Capsule, doneWins: bool)
    requires !c.Stream?
    ensures SameQueues(s, Handle(s, c, doneWins))
  {
  }

  lemma {:induction false} RunInOrder(s: Session, es: seq<Event>)
    requires InOrder(s)
    ensures InOrder(RunEvents(s, es))
    decreases |es|
  {
    if es != [] {
      StepInOrder(s, es[0]);
      RunInOrder(Step(s, es[0]).0, es[1..]);
    }
  }

  /** In every run, streams of each kind are accepted in the order in which their
      first capsules were read, none is lost in between, and at most sixteen of a
      kind wait for it. */
  lemma {:induction false} AcceptedInOrder(isServer: bool, peer: Option<PeerLimits>, bufferSize: int,
                                           datagramSize: int, es: seq<Event>)
    ensures var s := RunEvents(NewSession(isServer, peer, bufferSize, datagramSize), es);
            && Ids(s.accepted) + Ids(s.incoming) == OfKind(s.tables.offered, true)
            && Ids(s.acceptedUni) + Ids(s.incomingUni) == OfKind(s.tables.offered, false)
            && |s.incoming| <= 16 && |s.incomingUni| <= 16
  {
    RunInOrder(NewSession(isServer, peer, bufferSize, datagramSize), es);
    var s := RunEvents(NewSession(isServer, peer, bufferSize, datagramSize), es);
    assert Ids(s.accepted + s.incoming) == Ids(s.accepted) + Ids(s.incoming);
    assert Ids(s.acceptedUni + s.incomingUni) == Ids(s.acceptedUni) + Ids(s.incomingUni);
  }

  // ---------- without a snapshot ----------

  /** As long as nothing has switched enforcement on, an open in a running session
      succeeds, and so does every write on an open stream. */
  lemma {:induction false} NothingEnforced(isServer: bool, bufferSize: int, datagramSize: int, es: seq<Event>,
                                           bidi: bool, id: nat, p: seq<Byte>)
    requires forall i :: 0 <= i < |es| ==> !(es[i].Incoming? && es[i].c.Limit?)
    ensures var s := RunEvents(NewSession(isServer, None, bufferSize, datagramSize), es);
            && (OpenPast(s, bidi).1.Some?) && (Open(s, bidi).1.Some? <==> !s.stop)
            && (HasSend(s.tables, id) && !SendHalf(s.tables, id).closed && id < TWO_62 ==>
                  Write(s, id, p, true).1 == [Stream(id, p, false)])
  {
    StaysInactive(NewSession(isServer, None, bufferSize, datagramSize), es);
  }

  lemma {:induction false} StaysInactive(s: Session, es: seq<Event>)
    requires !s.limits.active && forall i :: 0 <= i < |es| ==> !(es[i].Incoming? && es[i].c.Limit?)
    ensures !RunEvents(s, es).limits.active
    decreases |es|
  {
    if es != [] {
      StepInactive(s, es[0]);
      StaysInactive(Step(s, es[0]).0, es[1..]);
    }
  }

  lemma StepInactive(s: Session, e: Event)
    requires !s.limits.active && !(e.Incoming? && e.c.Limit?)
    ensures !Step(s, e).0.limits.active
  {
    if Quiet(e) {
      QuietStep(s, e);
    } else if e.Incoming? && e.c.Stream? {
      StreamInactive(s, e.c.id, e.c.payload, e.c.fin, e.doneWins);
    } else if !e.Incoming? {
      match e
      case OpenCall(_, _) =>
      case WriteCall(_, _, _) =>
      case CloseSendCall(_, _) =>
      case ReadCall(_, _) =>
      case CloseRecvCall(_) =>
    }
  }

  lemma StreamInactive(s: Session, id: nat, payload: seq<Byte>, fin: bool, doneWins: bool)
    requires !s.limits.active
    ensures !HandleStream(s, id, payload, fin, doneWins).limits.active
  {
  }
}
