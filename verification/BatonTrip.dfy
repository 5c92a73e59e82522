/** What a delivery of the baton exchange stands for: the trip of one message
    through two sessions, their stream buffers and the reader's calls. */
module BatonTrip {
  import opened StreamIds
  import opened SendLimits
  import opened Varints
  import opened Capsules
  import opened Endpoint
  import opened Rows
  import opened Delivery
  import opened Demux
  import opened BatonCodec
  import BatonChain
  import Baton
  import BatonFailures
  import ReceiveBuffer

  /** In every run of two sessions, for a stream that carries one message: what the
      reader has is a prefix of it, and a proper prefix does not decode; at EOF it
      decodes to the message; and once the message and its FIN have left the
      channel, reading on, in pieces of any size, comes to EOF with all of it. */
  lemma {:induction false} MessageArrivesWhole(client: Setup, server: Setup, actions: seq<Action>,
                                               readerIsServer: bool, id: nat, padding: seq<Byte>, baton: Byte,
                                               k: nat, n: nat)
    requires NoWrap(client, actions) && NoWrap(server, actions) && |padding| < TWO_62 && k > 0
    requires var writer := At(RunSystem(NewSystem(client, server), actions), !readerIsServer).sess.tables;
             SendHalf(writer, id).written == EncodeBaton(padding, baton)
    ensures var w := RunSystem(NewSystem(client, server), actions);
            var reader, writer := At(w, readerIsServer).sess, At(w, !readerIsServer);
            var halves := Objects(reader.tables, id);
            var arrived := Alive(reader) && Proj(writer.out, id) == [] && SendHalf(writer.sess.tables, id).fin;
            && (arrived ==> halves != [])
            && (halves != [] ==>
                  var r := halves[0];
                  && r.taken <= EncodeBaton(padding, baton)
                  && (r.taken != EncodeBaton(padding, baton) ==> DecodeBaton(r.taken) == None)
                  && (AtEOF(r) && !r.closed ==> DecodeBaton(r.taken) == Some((padding, baton)))
                  && (arrived && !r.closed && n >= |r.buf.data| ==>
                        AtEOF(ReadTimes(r, k, n)) && DecodeBaton(ReadTimes(r, k, n).taken) == Some((padding, baton))))
  {
    StartOk(client, server, actions);
    RunKeepsOk(NewSystem(client, server), actions, |actions|);
    var w := RunSystem(NewSystem(client, server), actions);
    var reader, writer := At(w, readerIsServer).sess, At(w, !readerIsServer);
    LinkDelivers(writer.sess, writer.out, reader, id);
    assert LinkAt(writer.sess, writer.out, reader, id);
    if Objects(reader.tables, id) != [] {
      HalfDecodes(Objects(reader.tables, id)[0], padding, baton, k, n);
    }
  }

  /** A receive half with a prefix of one message. */
  lemma {:induction false} HalfDecodes(r: Recv, padding: seq<Byte>, baton: Byte, k: nat, n: nat)
    requires |padding| < TWO_62 && k > 0 && r.taken <= EncodeBaton(padding, baton)
    ensures r.taken != EncodeBaton(padding, baton) ==> DecodeBaton(r.taken) == None
    ensures r.taken == EncodeBaton(padding, baton) ==> DecodeBaton(r.taken) == Some((padding, baton))
    ensures r.buf.closed && n >= |r.buf.data| && r.taken + r.buf.data == EncodeBaton(padding, baton) ==>
            AtEOF(ReadTimes(r, k, n)) && DecodeBaton(ReadTimes(r, k, n).taken) == Some((padding, baton))
  {
    var msg := EncodeBaton(padding, baton);
    CodecRoundTrip(padding, baton, []);
    assert msg + [] == msg;
    if r.taken != msg {
      CodecRejectsPrefixes(padding, baton, |r.taken|);
      assert msg[..|r.taken|] == r.taken;
    }
    if r.buf.closed && n >= |r.buf.data| {
      DrainsToEOF(r, k, n);
    }
  }

  /** The receive half that a stream capsule for `id` will reach has nothing in
      it: a new one, or that of a stream that is waiting for its reply. */
  predicate Awaiting(s: Session, id: nat) {
    match Route(s.tables, id)
    case None => !Ours(s, id)
    case Some(ref) =>
      && ref.id == id && Points(s.tables, ref)
      && var r := Objects(s.tables, id)[ref.gen];
         !r.closed && r.buf == ReceiveBuffer.Buffer([], false, s.bufferSize)
  }

  /** A message is taken in exactly when the stream buffer holds it: otherwise the
      read loop returns. */
  lemma {:induction false} TakenInExactlyWhen(s: Session, id: nat, msg: seq<Byte>, doneWins: bool)
    requires CanRead(s, Stream(id, msg, false)) && Awaiting(s, id) && !Unwanted(s, id, doneWins)
    ensures var s' := Step(s, Incoming(Stream(id, msg, false), doneWins)).0;
            s'.loop == Ended <==> !Baton.Holds(s.bufferSize, |msg|)
  {
    if Route(s.tables, id).None? {
      var (t, ref) := Register(s.tables, id, s.bufferSize);
      var s1 := s.(tables := t, limits := if IsBidi(id) then TrackSend(s.limits, id) else s.limits);
      assert Objects(t, id)[ref.gen] == NewRecv(s.bufferSize, id);
      FreshDelivers(Enqueue(s1, ref), ref, msg);
    } else {
      FreshDelivers(s, Route(s.tables, id).value, msg);
    }
  }

  lemma FreshDelivers(s: Session, ref: Ref, msg: seq<Byte>)
    requires s.loop == Reading && Points(s.tables, ref)
    requires var r := Objects(s.tables, ref.id)[ref.gen];
             !r.closed && r.buf == ReceiveBuffer.Buffer([], false, s.bufferSize)
    ensures Deliver(s, ref, msg, false).loop == Ended <==> !Baton.Holds(s.bufferSize, |msg|)
  {
  }

  /** A receive half that has seen neither a FIN nor a local close. */
  predicate Unfinished(s: Session, ref: Ref) {
    && Points(s.tables, ref)
    && var r := Objects(s.tables, ref.id)[ref.gen]; !r.closed && !r.buf.closed
  }

  lemma AddedStays(t: Tables, ref: Ref, id: nat, bufferSize: int)
    requires Points(t, ref)
    ensures var t' := AddObject(t, id, bufferSize).0;
            Points(t', ref) && Objects(t', ref.id)[ref.gen] == Objects(t, ref.id)[ref.gen]
  {
  }

  lemma UnfinishedStays(s: Session, e: Event, ref: Ref)
    requires s.loop == Ended && Unfinished(s, ref) && e != CloseRecvCall(ref)
    ensures Step(s, e).0.loop == Ended && Unfinished(Step(s, e).0, ref)
  {
    if Quiet(e) {
      QuietStep(s, e);
    } else if e.OpenCall? {
      var id := Alloc(s.limits, e.bidi).1;
      if id.Some? {
        AddedStays(s.tables, ref, id.value, s.bufferSize);
      }
    } else if e.ReadCall? || e.CloseRecvCall? {
      if Points(s.tables, e.ref) {
        assert e.ref.id == ref.id && e.ref.gen == ref.gen ==> e.ref == ref;
      }
    } else if e.WriteCall? {
      assert Step(s, e).0.tables.objects == s.tables.objects;
    }
  }

  /** Once the read loop has returned, a half without a FIN never comes to EOF,
      unless it is closed locally: a handler that reads it to its end waits for
      ever, and is told nothing. */
  lemma {:induction false} HandlerWaitsForEver(s: Session, es: seq<Event>, ref: Ref)
    requires s.loop == Ended && Unfinished(s, ref)
    requires forall i :: 0 <= i < |es| ==> es[i] != CloseRecvCall(ref)
    ensures var s' := RunEvents(s, es);
            && Unfinished(s', ref) && !AtEOF(Objects(s'.tables, ref.id)[ref.gen])
            && s'.loop == Ended
    decreases |es|
  {
    if es != [] {
      UnfinishedStays(s, es[0], ref);
      HandlerWaitsForEver(Step(s, es[0]).0, es[1..], ref);
    }
  }

  // ---------- the parties act on the session's own limits ----------

  /** The party's open is OpenStream in a session that is closed once its loop has
      returned. */
  lemma {:induction false} PartyOpensInTheSession(s: Session, p: Baton.Party, bidi: bool)
    requires p.limits == s.limits && s.stop == p.deaf
    ensures Baton.PartyOpen(p, bidi).1 == Open(s, bidi).1
    ensures Baton.PartyOpen(p, bidi).0.limits == Open(s, bidi).0.limits
  {
  }

  /** Its send is SendStream.Write of the whole message: admitted when the session
      admits it, charged as the session charges it, refunded when the write fails
      on the connection and not when only the FIN does. */
  lemma {:induction false} PartySendsInTheSession(s: Session, p: Baton.Party, id: nat, baton: Byte,
                                                  o: BatonFailures.Outcome)
    requires p.limits == s.limits && p.padding < TWO_62 && id < TWO_62
    requires HasSend(s.tables, id) && !SendHalf(s.tables, id).closed
    ensures var msg := BatonChain.Message(p.padding, baton);
            var sent, wrote := BatonFailures.PartySend(p, id, baton, o), Write(s, id, msg, !o.WriteFails?);
            && sent.0.limits == wrote.0.limits
            && (o.Emitted? ==> (sent.1 == Some(msg) <==> wrote.1 == [Stream(id, msg, false)]))
            && (sent.1.None? ==> sent.0.failed)
  {
  }

  /** A message on a new stream of the peer's is tracked as the read loop tracks it,
      whether its buffer takes it or not. */
  lemma {:induction false} PartyIsSentTo(s: Session, p: Baton.Party, id: nat, msg: seq<Byte>, doneWins: bool)
    requires p.limits == s.limits && Route(s.tables, id).None? && !Ours(s, id) && IsBidi(id)
    ensures var l := HandleStream(s, id, msg, false, doneWins).limits;
            && l == Baton.PartyReceive(p, BatonChain.PeerBidi, id, msg).0.limits
            && l == Baton.PartyOverflow(p, BatonChain.PeerBidi, id).limits
  {
    TrackedOnArrival(s, id, msg, doneWins);
  }

  lemma TrackedOnArrival(s: Session, id: nat, msg: seq<Byte>, doneWins: bool)
    requires Route(s.tables, id).None? && !Ours(s, id) && IsBidi(id)
    ensures HandleStream(s, id, msg, false, doneWins).limits == TrackSend(s.limits, id)
  {
  }
}
