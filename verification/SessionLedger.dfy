/** The session keeps the ledger: every run of an endpoint with a peer snapshot is
    a run of the send ledger with the same limits, so its books balance, and each
    call's answer follows from what was granted and written. */
module SessionLedger {
  import opened StreamIds
  import opened SendLimits
  import opened Varints
  import opened Capsules
  import opened Endpoint
  import opened Rows
  import opened Demux
  import Ledger

  /** The session and the ledger agree on the limits, on which streams can be sent
      on, and on the bytes written on each of them. */
  ghost predicate SameBooks(s: Session, d: Ledger.Ledger) {
    && d.limits == s.limits && d.applied == |d.issued|
    && (forall id :: id in d.sendable <==> HasSend(s.tables, id))
    && (forall id :: 0 <= id < TWO_62 ==> Ledger.Bytes(d.emitted, id) == |SendHalf(s.tables, id).written|)
    && (forall id :: 0 <= id < TWO_62 ==> Ledger.Bytes(d.pending, id) == 0)
  }

  ghost predicate Sim(s: Session, d: Ledger.Ledger) {
    SameBooks(s, d) && d.stopped == s.stop && (d.loopEnded <==> s.loop == Ended)
  }

  /** Sizes are those of Go slices, and grants those of varints. */
  predicate Plausible(e: Event) {
    && (e.WriteCall? ==> |e.p| < TWO_64 / 2)
    && (e.Incoming? && e.c.Limit? ==> e.c.grant.max < TWO_62)
  }

  /** The WT_MAX_* capsules that the read loop of the run handles, in order. */
  function GrantsRead(s: Session, es: seq<Event>): seq<Grant>
    decreases |es|
  {
    if es == [] then []
    else GrantOf(s, es[0]) + GrantsRead(Step(s, es[0]).0, es[1..])
  }

  function GrantOf(s: Session, e: Event): seq<Grant> {
    if e.Incoming? && e.c.Limit? && CanRead(s, e.c) then [e.c.grant] else []
  }

  lemma RunOne(d: Ledger.Ledger, e: Ledger.Event)
    ensures Ledger.Run(d, [e]) == Ledger.Step(d, e)
  {
    assert [e][1..] == [];
  }

  lemma RunTwo(d: Ledger.Ledger, a: Ledger.Event, b: Ledger.Event)
    ensures Ledger.Run(d, [a, b]) == Ledger.Step(Ledger.Step(d, a), b)
  {
    assert [a, b][1..] == [b];
    RunOne(Ledger.Step(d, a), b);
  }

  /** A stop and the return of the loop, told to the ledger. */
  lemma {:induction false} TellFlags(s: Session, d: Ledger.Ledger) returns (ds: seq<Ledger.Event>)
    requires SameBooks(s, d) && (d.stopped ==> s.stop) && (d.loopEnded ==> s.loop == Ended)
    ensures Sim(s, Ledger.Run(d, ds)) && Ledger.Run(d, ds).issued == d.issued
  {
    if d.stopped != s.stop && !d.loopEnded && s.loop == Ended {
      ds := [Ledger.Close, Ledger.LoopReturn];
      RunTwo(d, Ledger.Close, Ledger.LoopReturn);
    } else if d.stopped != s.stop {
      ds := [Ledger.Close];
      RunOne(d, Ledger.Close);
    } else if !d.loopEnded && s.loop == Ended {
      ds := [Ledger.LoopReturn];
      RunOne(d, Ledger.LoopReturn);
    } else {
      ds := [];
    }
  }

  /** A write, as the ledger's reserve and what follows it. */
  function WriteEvents(s: Session, d: Ledger.Ledger, id: nat, p: seq<Byte>, ok: bool): seq<Ledger.Event> {
    var h := SendHalf(s.tables, id);
    if !HasSend(s.tables, id) || h.closed || ReserveVerdict(s.limits, id, |p|) != Ok then []
    else if id >= TWO_62 then [Ledger.StartWrite(id, |p|)]
    else [Ledger.StartWrite(id, |p|), if ok then Ledger.EmitOk(|d.pending|) else Ledger.EmitFail(|d.pending|)]
  }

  lemma StartedBooks(s: Session, d: Ledger.Ledger, id: nat, n: nat)
    requires SameBooks(s, d) && HasSend(s.tables, id) && n < TWO_64 / 2 && ReserveVerdict(s.limits, id, n) == Ok
    ensures var d' := Ledger.Step(d, Ledger.StartWrite(id, n));
            && d' == d.(limits := Reserve(s.limits, id, n), pending := d.pending + [Ledger.Charge(id, n)])
            && Ledger.Without(d'.pending, |d.pending|) == d.pending
            && (forall j :: Ledger.Bytes(d'.pending, j) == Ledger.Bytes(d.pending, j) + if j == id then n else 0)
  {
    forall j ensures Ledger.Bytes(d.pending + [Ledger.Charge(id, n)], j)
                     == Ledger.Bytes(d.pending, j) + if j == id then n else 0 {
      Ledger.BytesAppend(d.pending, Ledger.Charge(id, n), j);
    }
    assert (d.pending + [Ledger.Charge(id, n)])[..|d.pending|] == d.pending;
  }

  lemma EmittedBooks(s: Session, d: Ledger.Ledger, id: nat, p: seq<Byte>)
    requires SameBooks(s, d) && HasSend(s.tables, id) && id < TWO_62
    ensures var h := SendHalf(s.tables, id);
            var t := PutSend(s.tables, id, h.(written := h.written + p));
            var emitted := d.emitted + [Ledger.Charge(id, |p|)];
            forall j :: 0 <= j < TWO_62 ==> Ledger.Bytes(emitted, j) == |SendHalf(t, j).written|
  {
    forall j | 0 <= j < TWO_62
      ensures Ledger.Bytes(d.emitted + [Ledger.Charge(id, |p|)], j)
              == Ledger.Bytes(d.emitted, j) + if j == id then |p| else 0
    {
      Ledger.BytesAppend(d.emitted, Ledger.Charge(id, |p|), j);
    }
  }

  lemma {:induction false} WriteSim(s: Session, d: Ledger.Ledger, id: nat, p: seq<Byte>, ok: bool)
    requires Sim(s, d) && |p| < TWO_64 / 2
    ensures Sim(Write(s, id, p, ok).0, Ledger.Run(d, WriteEvents(s, d, id, p, ok)))
    ensures Ledger.Run(d, WriteEvents(s, d, id, p, ok)).issued == d.issued
  {
    var h := SendHalf(s.tables, id);
    if HasSend(s.tables, id) && !h.closed && ReserveVerdict(s.limits, id, |p|) == Ok {
      StartedBooks(s, d, id, |p|);
      var start := Ledger.StartWrite(id, |p|);
      if id >= TWO_62 {
        RunOne(d, start);
      } else if ok {
        RunTwo(d, start, Ledger.EmitOk(|d.pending|));
        EmittedBooks(s, d, id, p);
      } else {
        RunTwo(d, start, Ledger.EmitFail(|d.pending|));
      }
    }
  }

  lemma {:induction false} OpenSim(s: Session, d: Ledger.Ledger, bidi: bool, late: bool)
    requires Sim(s, d) && Ledger.Inv(d) && WellFormed(s)
    ensures Sim(Step(s, OpenCall(bidi, late)).0, Ledger.Run(d, [Ledger.Open(bidi, late)]))
    ensures Ledger.Run(d, [Ledger.Open(bidi, late)]).issued == d.issued
  {
    RunOne(d, Ledger.Open(bidi, late));
    CountedAlloc(s.limits, bidi);
    OpenNeverOverwrites(s, bidi);
    var id := Alloc(s.limits, bidi).1;
    if id.Some? {
      OpenedBooks(s, d, bidi, id.value);
    }
  }

  /** The new stream has a send half, in which nothing is written. */
  lemma OpenedBooks(s: Session, d: Ledger.Ledger, bidi: bool, id: nat)
    requires SameBooks(s, d) && Alloc(s.limits, bidi).1 == Some(id) && !HasSend(s.tables, id)
    ensures var t := OpenPast(s, bidi).0.tables;
            && (forall j :: HasSend(t, j) <==> HasSend(s.tables, j) || j == id)
            && (forall j :: SendHalf(t, j).written == SendHalf(s.tables, j).written)
  {
  }

  /** What stream data may do to the books: track a new bidirectional stream. */
  lemma {:induction false} StreamSim(s: Session, d: Ledger.Ledger, c: Capsule, doneWins: bool)
    returns (ds: seq<Ledger.Event>)
    requires Sim(s, d) && c.Stream? && s.loop == Reading && WellFormed(s)
    ensures SameBooks(Handle(s, c, doneWins), Ledger.Run(d, ds))
    ensures Ledger.Run(d, ds).stopped == d.stopped && Ledger.Run(d, ds).loopEnded == d.loopEnded
    ensures Ledger.Run(d, ds).issued == d.issued
  {
    var isNew := Route(s.tables, c.id).None? && !Ours(s, c.id) && IsBidi(c.id);
    StreamBooks(s, c.id, c.payload, c.fin, doneWins);
    assert RowOk(c.id, IsBidi(c.id), Ours(s, c.id), s.limits.created, RowOf(s.tables, c.id));
    if isNew {
      ds := [Ledger.PeerOpened(c.id)];
      RunOne(d, ds[0]);
    } else {
      ds := [];
    }
  }

  lemma DeliveredBooks(t: Tables, ref: Ref, payload: seq<Byte>, fin: bool)
    ensures var t' := DeliverTo(t, ref, payload, fin);
            t'.Some? ==> t'.value.streams == t.streams && t'.value.sendStreams == t.sendStreams
  {
  }

  lemma StreamBooks(s: Session, id: nat, payload: seq<Byte>, fin: bool, doneWins: bool)
    ensures var s' := HandleStream(s, id, payload, fin, doneWins);
            var isNew := Route(s.tables, id).None? && !Ours(s, id) && IsBidi(id);
            && s'.limits == (if isNew then TrackSend(s.limits, id) else s.limits)
            && (forall j :: HasSend(s'.tables, j) <==> HasSend(s.tables, j) || (isNew && j == id))
            && (forall j :: j != id || !isNew ==> SendHalf(s'.tables, j) == SendHalf(s.tables, j))
            && (isNew ==> SendHalf(s'.tables, id) == NewSend(id))
  {
    match Route(s.tables, id)
    case Some(ref) => DeliveredBooks(s.tables, ref, payload, fin);
    case None =>
      if !Ours(s, id) {
        var (t, ref) := Register(s.tables, id, s.bufferSize);
        DeliveredBooks(Offer(t, ref.id), ref, payload, fin);
      }
  }

  /** What a capsule that is not stream data does to the books. */
  lemma ControlBooks(s: Session, c: Capsule, doneWins: bool)
    requires !c.Stream?
    ensures var s' := Handle(s, c, doneWins);
            && s'.tables == s.tables && s'.limits == (if c.Limit? then Raise(s.limits, c.grant).0 else s.limits)
            && s'.stop == s.stop && (s'.loop == s.loop || s'.loop == Ended)
            && (c.Limit? && Raise(s.limits, c.grant).1 != Ok ==> s'.loop == Ended)
  {
  }

  lemma {:induction false} IncomingSim(s: Session, d: Ledger.Ledger, c: Capsule, doneWins: bool)
    returns (ds: seq<Ledger.Event>)
    requires Sim(s, d) && CanRead(s, c) && WellFormed(s) && Plausible(Incoming(c, doneWins))
    ensures Sim(Step(s, Incoming(c, doneWins)).0, Ledger.Run(d, ds))
    ensures Ledger.Run(d, ds).issued == d.issued + GrantOf(s, Incoming(c, doneWins))
  {
    var s' := Step(s, Incoming(c, doneWins)).0;
    var first: seq<Ledger.Event>;
    if c.Stream? {
      first := StreamSim(s, d, c, doneWins);
      HandleStreamTables(s, c.id, c.payload, c.fin, doneWins);
    } else if c.Limit? {
      first := [Ledger.Issue(c.grant), Ledger.Deliver];
      RunTwo(d, first[0], first[1]);
      ControlBooks(s, c, doneWins);
    } else {
      first := [];
      ControlBooks(s, c, doneWins);
    }
    var d1 := Ledger.Run(d, first);
    assert SameBooks(s', d1);
    var flags := TellFlags(s', d1);
    ds := first + flags;
    Ledger.RunConcat(d, first, flags);
  }

  /** The calls that touch neither limits nor what was written. */
  lemma OtherBooks(s: Session, e: Event)
    requires !e.Incoming? && !e.OpenCall? && !e.WriteCall?
    ensures var s' := Step(s, e).0;
            && s'.limits == s.limits && (s.stop ==> s'.stop) && (s.loop == Ended ==> s'.loop == Ended)
            && (forall j :: HasSend(s'.tables, j) <==> HasSend(s.tables, j))
            && (forall j :: SendHalf(s'.tables, j).written == SendHalf(s.tables, j).written)
  {
    if Quiet(e) {
      QuietStep(s, e);
    } else {
      match e
      case CloseSendCall(_, _) =>
      case ReadCall(_, _) =>
      case CloseRecvCall(_) =>
    }
  }

  lemma {:induction false} EventSim(s: Session, d: Ledger.Ledger, e: Event) returns (ds: seq<Ledger.Event>)
    requires Sim(s, d) && Ledger.Inv(d) && WellFormed(s) && Plausible(e)
    ensures Sim(Step(s, e).0, Ledger.Run(d, ds)) && Ledger.Run(d, ds).issued == d.issued + GrantOf(s, e)
  {
    if e.OpenCall? {
      OpenSim(s, d, e.bidi, e.late);
      ds := [Ledger.Open(e.bidi, e.late)];
    } else if e.WriteCall? {
      WriteSim(s, d, e.id, e.p, e.ok);
      ds := WriteEvents(s, d, e.id, e.p, e.ok);
    } else if !e.Incoming? {
      OtherBooks(s, e);
      ds := TellFlags(Step(s, e).0, d);
    } else if CanRead(s, e.c) {
      ds := IncomingSim(s, d, e.c, e.doneWins);
    } else {
      ds := [];
    }
  }

  ghost predicate Tracks(s: Session, d: Ledger.Ledger) {
    Sim(s, d) && Ledger.Inv(d) && WellFormed(s)
  }

  lemma {:induction false} StepSim(s: Session, d: Ledger.Ledger, e: Event) returns (ds: seq<Ledger.Event>)
    requires Tracks(s, d) && Plausible(e)
    ensures Tracks(Step(s, e).0, Ledger.Run(d, ds)) && Ledger.Run(d, ds).issued == d.issued + GrantOf(s, e)
  {
    ds := EventSim(s, d, e);
    StepKeepsTables(s, e);
    Ledger.RunKeepsInv(d, ds);
  }

  /** Every run of the session is a run of the ledger with the same limits. */
  lemma {:induction false} RunSim(s: Session, d: Ledger.Ledger, es: seq<Event>) returns (ds: seq<Ledger.Event>)
    requires Tracks(s, d) && forall i :: 0 <= i < |es| ==> Plausible(es[i])
    ensures Tracks(RunEvents(s, es), Ledger.Run(d, ds))
    ensures Ledger.Run(d, ds).issued == d.issued + GrantsRead(s, es)
    decreases |es|
  {
    if es == [] {
      ds := [];
      assert d.issued + [] == d.issued;
    } else {
      var first := StepSim(s, d, es[0]);
      var rest := RunSim(Step(s, es[0]).0, Ledger.Run(d, first), es[1..]);
      ds := Join(d, first, rest);
      GrantsJoin(d.issued, s, es);
    }
  }

  lemma {:induction false} Join(d: Ledger.Ledger, a: seq<Ledger.Event>, b: seq<Ledger.Event>)
    returns (ds: seq<Ledger.Event>)
    ensures Ledger.Run(d, ds) == Ledger.Run(Ledger.Run(d, a), b)
  {
    ds := a + b;
    Ledger.RunConcat(d, a, b);
  }

  lemma {:induction false} GrantsJoin(issued: seq<Grant>, s: Session, es: seq<Event>)
    requires es != []
    ensures issued + GrantOf(s, es[0]) + GrantsRead(Step(s, es[0]).0, es[1..]) == issued + GrantsRead(s, es)
  {
    var a, b := GrantOf(s, es[0]), GrantsRead(Step(s, es[0]).0, es[1..]);
    assert issued + a + b == issued + (a + b);
  }

  lemma {:induction false} SessionRunIsLedgerRun(isServer: bool, peer: PeerLimits, bufferSize: int, datagramSize: int,
                                                 es: seq<Event>) returns (ds: seq<Ledger.Event>)
    requires peer.Valid() && forall i :: 0 <= i < |es| ==> Plausible(es[i])
    ensures Sim(RunEvents(NewSession(isServer, Some(peer), bufferSize, datagramSize), es),
                Ledger.Run(Ledger.Init(isServer, peer), ds))
    ensures WellFormed(RunEvents(NewSession(isServer, Some(peer), bufferSize, datagramSize), es))
    ensures var d := Ledger.Run(Ledger.Init(isServer, peer), ds);
            && Ledger.Inv(d) && d.start == NewLimits(isServer, Some(peer))
            && d.issued == GrantsRead(NewSession(isServer, Some(peer), bufferSize, datagramSize), es)
  {
    var s := NewSession(isServer, Some(peer), bufferSize, datagramSize);
    assert forall j :: RowOf(s.tables, j) == EMPTY;
    Ledger.InitInv(isServer, peer);
    ds := RunSim(s, Ledger.Init(isServer, peer), es);
    Ledger.RunKeepsInv(Ledger.Init(isServer, peer), ds);
  }

  // ---------- what follows for the session ----------

  /** In every run of a session with a snapshot the books balance: each stream is
      charged what was written on it, the session the sum of that, both within the
      limits in force; and the limit that a write on an open stream is held to is
      the value in force for it. Streams whose ID no varint holds are apart: what
      was charged for them can never be written. */
  lemma {:induction false} SessionBooks(isServer: bool, peer: PeerLimits, bufferSize: int, datagramSize: int,
                                        es: seq<Event>, id: nat)
    requires peer.Valid() && forall i :: 0 <= i < |es| ==> Plausible(es[i])
    ensures var s := RunEvents(NewSession(isServer, Some(peer), bufferSize, datagramSize), es);
            && (id < TWO_62 ==> Get(s.limits.streamSent, id) == |SendHalf(s.tables, id).written|)
            && s.limits.dataSent == Ledger.Sum(s.limits.streamSent) <= s.limits.maxData
            && Get(s.limits.streamSent, id) <= Get(s.limits.streamMax, id)
            && (HasSend(s.tables, id) ==>
                  id in s.limits.streamMax && s.limits.streamMax[id] == StreamLimit(s, id))
  {
    var ds := SessionRunIsLedgerRun(isServer, peer, bufferSize, datagramSize, es);
    var d := Ledger.Run(Ledger.Init(isServer, peer), ds);
    assert Ledger.Books(d.limits, d.emitted, d.pending) && Ledger.Granted(d);
  }

  /** What stream `id` may send in all. */
  function StreamLimit(s: Session, id: nat): nat {
    Current(s.limits, MaxStreamData(id, 0))
  }

  /** The limits in force are the highest values granted, by the peer's SETTINGS or
      by the capsules read so far; once the loop has returned they are no higher. */
  lemma {:induction false} LimitsInForce(isServer: bool, peer: PeerLimits, bufferSize: int, datagramSize: int,
                                         es: seq<Event>, id: nat)
    requires peer.Valid() && forall i :: 0 <= i < |es| ==> Plausible(es[i])
    ensures var s0 := NewSession(isServer, Some(peer), bufferSize, datagramSize);
            var s, grants := RunEvents(s0, es), GrantsRead(s0, es);
            var data := Ledger.Highest(peer.maxData, grants, MaxData(0));
            var stream := Ledger.Highest(Ledger.Settings(isServer, peer, id), grants, MaxStreamData(id, 0));
            var uni := Ledger.Highest(peer.maxStreamsUni, grants, MaxStreams(false, 0));
            var bidi := Ledger.Highest(peer.maxStreamsBidi, grants, MaxStreams(true, 0));
            && s.limits.maxData <= data && StreamLimit(s, id) <= stream
            && s.limits.maxStreamsUni <= uni && s.limits.maxStreamsBidi <= bidi
            && (s.loop != Ended ==>
                  && s.limits.maxData == data && StreamLimit(s, id) == stream
                  && s.limits.maxStreamsUni == uni && s.limits.maxStreamsBidi == bidi)
  {
    var ds := SessionRunIsLedgerRun(isServer, peer, bufferSize, datagramSize, es);
    var d := Ledger.Run(Ledger.Init(isServer, peer), ds);
    assert d.issued[..d.applied] == d.issued;
    Ledger.SettingsApply(isServer, peer, id);
    forall what
      ensures Current(d.limits, what) <= Ledger.Highest(Current(d.start, what), d.issued, what)
      ensures !d.loopEnded ==> Current(d.limits, what) == Ledger.Highest(Current(d.start, what), d.issued, what)
    {
      assert Ledger.Granted(d);
    }
    assert Current(d.limits, MaxData(0)) == d.limits.maxData;
    assert Current(d.limits, MaxStreams(false, 0)) == d.limits.maxStreamsUni;
    assert Current(d.limits, MaxStreams(true, 0)) == d.limits.maxStreamsBidi;
  }

  /** So in every such run a write on an open stream is emitted exactly when it is
      empty or fits both what the session and what the stream may still send; a
      refused one changes nothing, and one that fails on the connection leaves
      every counter as it was. */
  lemma {:induction false} WriteAnswers(isServer: bool, peer: PeerLimits, bufferSize: int, datagramSize: int,
                                        es: seq<Event>, id: nat, p: seq<Byte>)
    requires peer.Valid() && (forall i :: 0 <= i < |es| ==> Plausible(es[i])) && id < TWO_62 && |p| < TWO_64 / 2
    ensures var s := RunEvents(NewSession(isServer, Some(peer), bufferSize, datagramSize), es);
            var sent, (s', out) := SendHalf(s.tables, id), Write(s, id, p, true);
            && (out == [Stream(id, p, false)] <==>
                  && HasSend(s.tables, id) && !sent.closed
                  && (p == [] || (&& s.limits.dataSent + |p| <= s.limits.maxData
                                  && |sent.written| + |p| <= StreamLimit(s, id))))
            && (out != [Stream(id, p, false)] ==> out == [] && s' == s)
            && var (f, none) := Write(s, id, p, false);
               && none == [] && f.tables == s.tables && f.limits.dataSent == s.limits.dataSent
               && Get(f.limits.streamSent, id) == Get(s.limits.streamSent, id)
  {
    var ds := SessionRunIsLedgerRun(isServer, peer, bufferSize, datagramSize, es);
    var d := Ledger.Run(Ledger.Init(isServer, peer), ds);
    SessionBooks(isServer, peer, bufferSize, datagramSize, es, id);
    var s := RunEvents(NewSession(isServer, Some(peer), bufferSize, datagramSize), es);
    assert Ledger.Books(d.limits, d.emitted, d.pending);
    ReserveExact(s.limits, id, |p|);
    if ReserveVerdict(s.limits, id, |p|) == Ok {
      RefundExact(Reserve(s.limits, id, |p|), id, |p|);
    }
  }

  /** In every such run an open returns an ID exactly when the session is open and
      its stream count is below the limit; the ID is in the table of its direction,
      with nothing written and nothing read, and a refused open changes nothing. */
  lemma {:induction false} OpenAnswers(isServer: bool, peer: PeerLimits, bufferSize: int, datagramSize: int,
                                       es: seq<Event>, bidi: bool)
    requires peer.Valid() && forall i :: 0 <= i < |es| ==> Plausible(es[i])
    ensures var s := RunEvents(NewSession(isServer, Some(peer), bufferSize, datagramSize), es);
            var (s', id) := Open(s, bidi);
            && (id.Some? <==> !s.stop && if bidi then s.limits.openedBidi < s.limits.maxStreamsBidi
                                         else s.limits.openedUni < s.limits.maxStreamsUni)
            && (id.None? ==> s' == s)
            && (id.Some? ==>
                  && IsBidi(id.value) == bidi && IsOurs(isServer, id.value) && !HasSend(s.tables, id.value)
                  && SendHalf(s'.tables, id.value) == NewSend(id.value)
                  && (if bidi then id.value in s'.tables.streams else id.value in s'.tables.sendStreams)
                  && Objects(s'.tables, id.value) == if bidi then [NewRecv(bufferSize, id.value)] else [])
  {
    var ds := SessionRunIsLedgerRun(isServer, peer, bufferSize, datagramSize, es);
    Ledger.RunKeepsRole(Ledger.Init(isServer, peer), ds);
    var s0 := NewSession(isServer, Some(peer), bufferSize, datagramSize);
    assert Ledger.Numbered(RunEvents(s0, es).limits, Ledger.Run(Ledger.Init(isServer, peer), ds).local);
    RunKeepsSize(s0, es);
    OpenRegisters(RunEvents(s0, es), bidi);
  }

  lemma OpenRegisters(s: Session, bidi: bool)
    requires WellFormed(s) && Counted(s.limits)
    ensures var (s', id) := Open(s, bidi);
            && (id.Some? <==> !s.stop && if bidi then s.limits.openedBidi < s.limits.maxStreamsBidi
                                         else s.limits.openedUni < s.limits.maxStreamsUni)
            && (id.None? ==> s' == s)
            && (id.Some? ==>
                  && IsBidi(id.value) == bidi && Ours(s, id.value) && !HasSend(s.tables, id.value)
                  && SendHalf(s'.tables, id.value) == NewSend(id.value)
                  && (if bidi then id.value in s'.tables.streams else id.value in s'.tables.sendStreams)
                  && Objects(s'.tables, id.value) == if bidi then [NewRecv(s.bufferSize, id.value)] else [])
  {
    CountedAlloc(s.limits, bidi);
    OpenNeverOverwrites(s, bidi);
  }

  lemma {:induction false} RunKeepsSize(s: Session, es: seq<Event>)
    ensures RunEvents(s, es).bufferSize == s.bufferSize
    decreases |es|
  {
    if es != [] {
      StepKeepsSize(s, es[0]);
      RunKeepsSize(Step(s, es[0]).0, es[1..]);
    }
  }

  lemma StepKeepsSize(s: Session, e: Event)
    ensures Step(s, e).0.bufferSize == s.bufferSize
  {
    if Quiet(e) {
      QuietStep(s, e);
    } else if e.Incoming? && CanRead(s, e.c) {
      HandleFrame(s, e.c, e.doneWins);
    }
  }
}
