/** The demultiplexer over whole capsule traces, from any peer: the tables stay
    well formed, each stream depends on its own capsules only, and capsules
    without meaning for streams can be deleted. */
module Demux {
  import opened StreamIds
  import opened SendLimits
  import opened Varints
  import opened Capsules
  import opened Endpoint
  import opened Rows
  import DatagramBuffer

  // ---------- well-formed tables over any run ----------

  function RunEvents(s: Session, es: seq<Event>): Session
    decreases |es|
  {
    if es == [] then s else RunEvents(Step(s, es[0]).0, es[1..])
  }

  lemma {:induction false} RunKeepsTables(s: Session, es: seq<Event>)
    requires WellFormed(s) && Room(s.limits, |es|)
    ensures WellFormed(RunEvents(s, es)) && RunEvents(s, es).limits.isServer == s.limits.isServer
    decreases |es|
  {
    if es != [] {
      StepFrame(s, es[0], |es|);
      StepKeepsTables(s, es[0]);
      RunKeepsTables(Step(s, es[0]).0, es[1..]);
    }
  }

  /** Whatever the application does and whatever the peer sends: the three
      tables have disjoint keys of the right direction and initiator, stored IDs
      equal their keys, and no bidirectional stream is offered twice. */
  lemma {:induction false} TablesStayWellFormed(isServer: bool, peer: Option<PeerLimits>, bufferSize: int,
                                                datagramSize: int, es: seq<Event>, k: nat)
    requires (peer.Some? && peer.value.Valid()) || |es| < TWO_62
    ensures var s := RunEvents(NewSession(isServer, peer, bufferSize, datagramSize), es);
            var t := s.tables;
            && (k in t.streams ==> IsBidi(k) && t.streams[k].id == t.streams[k].recv.id == t.streams[k].send.id == k
                                   && Points(t, t.streams[k].recv) && k !in t.receiveStreams && k !in t.sendStreams)
            && (k in t.receiveStreams ==> !IsBidi(k) && !IsOurs(isServer, k) && t.receiveStreams[k].id == k
                                          && Points(t, t.receiveStreams[k]) && k !in t.sendStreams)
            && (k in t.sendStreams ==> !IsBidi(k) && IsOurs(isServer, k) && t.sendStreams[k].id == k)
            && (IsOurs(isServer, k) ==> k !in t.offered)
            && (IsBidi(k) ==> multiset(t.offered)[k] <= 1)
  {
    var s0 := NewSession(isServer, peer, bufferSize, datagramSize);
    assert forall j :: RowOf(s0.tables, j) == EMPTY;
    RunKeepsTables(s0, es);
    var s := RunEvents(s0, es);
    assert RowOk(k, IsBidi(k), Ours(s, k), s.limits.created, RowOf(s.tables, k));
  }

  /** A local open never takes an ID that any table knows. */
  lemma {:induction false} OpenNeverOverwrites(s: Session, bidi: bool)
    requires WellFormed(s) && Room(s.limits, 1)
    ensures var id := OpenPast(s, bidi).1;
            id.Some? ==>
              && id.value !in s.tables.streams && id.value !in s.tables.sendStreams
              && id.value !in s.tables.receiveStreams && Objects(s.tables, id.value) == []
  {
    RoomAlloc(s.limits, bidi, 1);
    var id := OpenPast(s, bidi).1;
    if id.Some? {
      assert RowOk(id.value, IsBidi(id.value), Ours(s, id.value), s.limits.created, RowOf(s.tables, id.value));
    }
  }

  // ---------- traces of capsules, local opens and accepts ----------

  datatype Item = Cap(c: Capsule) | Opened(id: nat) | Accepted(bidi: bool)

  /** The read loop's body, or a call; nobody has closed the session. */
  function Do(s: Session, it: Item): Session {
    match it
    case Cap(c) => Handle(s, c, false)
    case Opened(id) => Open(s, IsBidi(id)).0
    case Accepted(bidi) => Accept(s, bidi)
  }

  function Trace(s: Session, items: seq<Item>): Session
    decreases |items|
  {
    if items == [] then s else Trace(Do(s, items[0]), items[1..])
  }

  /** The opens of the trace return the IDs it names, and the read loop neither
      waits for room in an accept queue nor returns. */
  predicate Proper(s: Session, items: seq<Item>)
    decreases |items|
  {
    && s.loop != Ended
    && (items != [] ==>
          && (items[0].Opened? ==> Open(s, IsBidi(items[0].id)).1 == Some(items[0].id))
          && (items[0].Cap? ==> !Waits(s, items[0].c))
          && Proper(Do(s, items[0]), items[1..]))
  }

  predicate About(it: Item, id: nat) {
    match it
    case Cap(c) => c.Stream? && c.id == id
    case Opened(j) => j == id
    case Accepted(_) => false
  }

  function Project(items: seq<Item>, id: nat): seq<Item> {
    if items == [] then []
    else (if About(items[0], id) then [items[0]] else []) + Project(items[1..], id)
  }

  /** One stream's machine on one stream's items. */
  function RowDo(row: Row, id: nat, ours: bool, size: int, it: Item): Row {
    match it
    case Cap(c) =>
      if c.Stream? then RowHandle(row, id, IsBidi(id), ours, size, c.payload, c.fin, false).0 else row
    case Opened(_) =>
      if IsBidi(id) then RowRegister(row, id, true, size).0 else row.(send := Some(NewSend(id)))
    case Accepted(_) => row
  }

  function RowTrace(row: Row, id: nat, ours: bool, size: int, items: seq<Item>): Row
    decreases |items|
  {
    if items == [] then row else RowTrace(RowDo(row, id, ours, size, items[0]), id, ours, size, items[1..])
  }

  lemma CapsuleKeepsRunning(s: Session, c: Capsule)
    requires s.loop != Ended
    ensures Handle(s, c, false).stop == s.stop
    ensures Handle(s, c, false).loop == Ended || Handle(s, c, false).loop == s.loop
  {
    if c.Stream? {
      HandleStreamTables(s, c.id, c.payload, c.fin, false);
    }
  }

  lemma CapsuleRow(s: Session, c: Capsule, id: nat)
    requires WellFormed(s) && s.loop != Ended && !s.stop
    ensures RowOf(Do(s, Cap(c)).tables, id) ==
            if About(Cap(c), id) then RowDo(RowOf(s.tables, id), id, Ours(s, id), s.bufferSize, Cap(c))
            else RowOf(s.tables, id)
  {
    HandleFrame(s, c, false);
    if c.Stream? {
      RouteOk(s, c.id);
      StreamRow(s, c, false, id);
    }
  }

  lemma OpenRow(s: Session, id: nat, k: nat)
    requires Open(s, IsBidi(id)).1 == Some(id)
    ensures RowOf(Do(s, Opened(id)).tables, k) ==
            if k == id then RowDo(RowOf(s.tables, id), id, Ours(s, id), s.bufferSize, Opened(id))
            else RowOf(s.tables, k)
  {
    AddBidiRow(s.tables, id, s.bufferSize, k);
  }

  lemma DoKeepsTables(s: Session, it: Item, n: nat)
    requires WellFormed(s) && Room(s.limits, n) && n > 0 && s.loop != Ended && !s.stop
    ensures var s' := Do(s, it);
            WellFormed(s') && Room(s'.limits, n - 1) && s'.limits.isServer == s.limits.isServer
            && s'.bufferSize == s.bufferSize
  {
    match it
    case Opened(id) =>
      StepFrame(s, OpenCall(IsBidi(id), false), n);
      StepKeepsTables(s, OpenCall(IsBidi(id), false));
    case Accepted(bidi) =>
    case Cap(c) =>
      HandleFrame(s, c, false);
      var s' := Handle(s, c, false);
      forall k ensures RowOk(k, IsBidi(k), Ours(s', k), s'.limits.created, RowOf(s'.tables, k)) {
        assert RowOk(k, IsBidi(k), Ours(s, k), s.limits.created, RowOf(s.tables, k));
        CapsuleRow(s, c, k);
        if c.Stream? && c.id == k {
          RowHandleOk(k, IsBidi(k), Ours(s, k), s.limits.created, RowOf(s.tables, k), s.bufferSize,
                      c.payload, c.fin, false);
        }
      }
  }

  /** The first item of a trace, as each stream sees it. */
  lemma {:induction false} HeadItem(s: Session, items: seq<Item>, id: nat)
    requires WellFormed(s) && Room(s.limits, |items|) && !s.stop && items != [] && Proper(s, items)
    ensures var it, s' := items[0], Do(s, items[0]);
            && WellFormed(s') && Room(s'.limits, |items[1..]|) && !s'.stop && Proper(s', items[1..])
            && Ours(s', id) == Ours(s, id) && s'.bufferSize == s.bufferSize
            && RowOf(s'.tables, id) ==
               (if About(it, id) then RowDo(RowOf(s.tables, id), id, Ours(s, id), s.bufferSize, it)
                else RowOf(s.tables, id))
            && Project(items, id) == (if About(it, id) then [it] + Project(items[1..], id) else Project(items[1..], id))
  {
    DoKeepsTables(s, items[0], |items|);
    match items[0]
    case Cap(c) =>
      CapsuleKeepsRunning(s, c);
      CapsuleRow(s, c, id);
    case Opened(j) => OpenRow(s, j, id);
    case Accepted(_) =>
  }

  /** After any trace, a stream is in the state that its own items alone put its
      own machine in. */
  lemma {:induction false} TraceProjects(s: Session, items: seq<Item>, id: nat)
    requires WellFormed(s) && Room(s.limits, |items|) && !s.stop && Proper(s, items)
    ensures RowOf(Trace(s, items).tables, id) ==
            RowTrace(RowOf(s.tables, id), id, Ours(s, id), s.bufferSize, Project(items, id))
    decreases |items|
  {
    if items != [] {
      HeadItem(s, items, id);
      TraceProjects(Do(s, items[0]), items[1..], id);
      assert About(items[0], id) ==> Project(items, id)[1..] == Project(items[1..], id);
    }
  }

  /** Two traces that agree on a stream's own items leave the stream with the
      same buffered bytes, FIN state, table entries and accept offers, however
      the rest of the traces differ. */
  lemma {:induction false} DemuxDependsOnProjection(s: Session, a: seq<Item>, b: seq<Item>, id: nat)
    requires WellFormed(s) && !s.stop && Proper(s, a) && Proper(s, b)
    requires Room(s.limits, |a|) && Room(s.limits, |b|)
    requires Project(a, id) == Project(b, id)
    ensures RowOf(Trace(s, a).tables, id) == RowOf(Trace(s, b).tables, id)
  {
    TraceProjects(s, a, id);
    TraceProjects(s, b, id);
  }

  // ---------- a proper trace is a run ----------

  function EventsOf(it: Item): seq<Event> {
    match it
    case Cap(c) => [LoopTest, Incoming(c, false)]
    case Opened(id) => [OpenCall(IsBidi(id), false)]
    case Accepted(bidi) => [AcceptCall(bidi)]
  }

  function TraceEvents(items: seq<Item>): seq<Event> {
    if items == [] then [] else EventsOf(items[0]) + TraceEvents(items[1..])
  }

  lemma {:induction false} RunConcat(s: Session, a: seq<Event>, b: seq<Event>)
    ensures RunEvents(s, a + b) == RunEvents(RunEvents(s, a), b)
    decreases |a|
  {
    if a == [] {
      assert a + b == b;
    } else {
      assert (a + b)[1..] == a[1..] + b;
      RunConcat(Step(s, a[0]).0, a[1..], b);
    }
  }

  lemma RunTwo(s: Session, a: Event, b: Event)
    ensures RunEvents(s, [a, b]) == Step(Step(s, a).0, b).0
  {
    assert [a, b][1..] == [b] && [b][1..] == [];
    assert RunEvents(Step(s, a).0, [b]) == RunEvents(Step(Step(s, a).0, b).0, []);
  }

  /** The body of the loop does not look at where the loop is. */
  lemma HandleWhileReading(s: Session, c: Capsule, doneWins: bool)
    requires s.loop == Top
    ensures var s', t' := Handle(s, c, doneWins), Handle(s.(loop := Reading), c, doneWins);
            if s'.loop == Ended then t' == s' else s'.loop == Top && t' == s'.(loop := Reading)
  {
    if c.Stream? {
      StreamWhileReading(s, c.id, c.payload, c.fin, doneWins);
    }
  }

  lemma StreamWhileReading(s: Session, id: nat, payload: seq<Byte>, fin: bool, doneWins: bool)
    requires s.loop == Top
    ensures var s', t' := HandleStream(s, id, payload, fin, doneWins),
                          HandleStream(s.(loop := Reading), id, payload, fin, doneWins);
            if s'.loop == Ended then t' == s' else s'.loop == Top && t' == s'.(loop := Reading)
  {
    if Route(s.tables, id).None? && !Ours(s, id) {
      var (t, ref) := Register(s.tables, id, s.bufferSize);
      var s1 := s.(tables := t, limits := if IsBidi(id) then TrackSend(s.limits, id) else s.limits);
      assert Enqueue(s1.(loop := Reading), ref) == Enqueue(s1, ref).(loop := Reading);
    }
  }

  lemma ItemIsRun(s: Session, it: Item)
    requires s.loop == Top && !s.stop && (it.Cap? ==> !Waits(s, it.c)) && Do(s, it).loop != Ended
    ensures RunEvents(s, EventsOf(it)) == Do(s, it) && Do(s, it).loop == Top && !Do(s, it).stop
  {
    match it
    case Cap(c) => CapsuleIsRun(s, c);
    case Opened(id) => assert EventsOf(it)[1..] == [];
    case Accepted(bidi) => assert EventsOf(it)[1..] == [];
  }

  lemma CapsuleIsRun(s: Session, c: Capsule)
    requires s.loop == Top && !s.stop && !Waits(s, c) && Handle(s, c, false).loop != Ended
    ensures var s' := Handle(s, c, false);
            RunEvents(s, [LoopTest, Incoming(c, false)]) == s' && s'.loop == Top && !s'.stop
  {
    var reading := s.(loop := Reading);
    RunTwo(s, LoopTest, Incoming(c, false));
    assert Step(s, LoopTest).0 == reading && CanRead(reading, c);
    HandleWhileReading(s, c, false);
    CapsuleKeepsRunning(s, c);
  }

  /** What the traces say holds of runs of the endpoint: a proper trace is the
      run that tests `stop` before each capsule. */
  lemma {:induction false} TraceIsRun(s: Session, items: seq<Item>)
    requires s.loop == Top && !s.stop && Proper(s, items)
    ensures Trace(s, items) == RunEvents(s, TraceEvents(items))
    ensures Trace(s, items).loop == Top && !Trace(s, items).stop
    decreases |items|
  {
    if items != [] {
      var it := items[0];
      RunConcat(s, EventsOf(it), TraceEvents(items[1..]));
      ItemIsRun(s, it);
      TraceIsRun(Do(s, it), items[1..]);
    }
  }

  // ---------- how often a peer's unidirectional stream is offered ----------

  /** Capsules that begin a stream: the first one, and any right after a FIN. */
  function Starts(items: seq<Item>, afterFin: bool): nat {
    if items == [] then 0
    else (if afterFin then 1 else 0) + Starts(items[1..], items[0].Cap? && items[0].c.Stream? && items[0].c.fin)
  }

  predicate StreamCapsules(items: seq<Item>, id: nat) {
    forall i :: 0 <= i < |items| ==> items[i].Cap? && About(items[i], id)
  }

  /** No capsule of the machine's stream makes the read loop return. */
  predicate NeverEnds(row: Row, id: nat, size: int, items: seq<Item>)
    requires StreamCapsules(items, id)
    decreases |items|
  {
    items != [] ==>
      && !RowHandle(row, id, false, false, size, items[0].c.payload, items[0].c.fin, false).1
      && NeverEnds(RowHandle(row, id, false, false, size, items[0].c.payload, items[0].c.fin, false).0, id, size,
                   items[1..])
  }

  lemma {:induction false} OffersCountStarts(row: Row, id: nat, size: int, items: seq<Item>)
    requires !IsBidi(id) && StreamCapsules(items, id) && NeverEnds(row, id, size, items)
    requires row.uni.Some? ==> row.uni.value.gen < |row.objects|
    ensures RowTrace(row, id, false, size, items).offers == row.offers + Starts(items, row.uni.None?)
    decreases |items|
  {
    if items != [] {
      var row1 := RowHandle(row, id, false, false, size, items[0].c.payload, items[0].c.fin, false).0;
      assert row1.uni.None? <==> items[0].c.fin;
      OffersCountStarts(row1, id, size, items[1..]);
    }
  }

  lemma {:induction false} StartsAtMostOne(items: seq<Item>, afterFin: bool)
    ensures Starts(items, afterFin) <= (if afterFin then 1 else 0) <==>
            forall i :: 0 <= i < |items| - 1 ==> !(items[i].Cap? && items[i].c.Stream? && items[i].c.fin)
    ensures !afterFin ==> Starts(items, true) == Starts(items, false) + if items == [] then 0 else 1
  {
    if items != [] {
      var fin := items[0].Cap? && items[0].c.Stream? && items[0].c.fin;
      StartsAtMostOne(items[1..], fin);
      assert forall i :: 1 <= i < |items| ==> items[i] == items[1..][i - 1];
      if |items| > 1 {
        assert fin ==> Starts(items[1..], true) >= 1;
      }
    }
  }

  /** The items of a peer's unidirectional stream are capsules, and none of
      them ended the loop. */
  lemma HeadNeverEnds(s: Session, it: Item, id: nat, n: nat)
    requires WellFormed(s) && s.loop != Ended && !s.stop && About(it, id) && !IsBidi(id) && !Ours(s, id)
    requires Room(s.limits, n) && n > 0
    requires it.Opened? ==> Open(s, IsBidi(it.id)).1 == Some(it.id)
    requires Do(s, it).loop != Ended
    ensures it.Cap? && !RowHandle(RowOf(s.tables, id), id, false, false, s.bufferSize, it.c.payload, it.c.fin, false).1
  {
    if it.Opened? {
      RoomAlloc(s.limits, IsBidi(it.id), n);
    } else {
      RouteOk(s, id);
      StreamRow(s, it.c, false, id);
    }
  }

  lemma {:induction false} ProperNeverEnds(s: Session, items: seq<Item>, id: nat)
    requires WellFormed(s) && Room(s.limits, |items|) && !s.stop && Proper(s, items)
    requires !IsBidi(id) && !Ours(s, id)
    ensures StreamCapsules(Project(items, id), id)
    ensures NeverEnds(RowOf(s.tables, id), id, s.bufferSize, Project(items, id))
    decreases |items|
  {
    if items != [] {
      HeadItem(s, items, id);
      ProperNeverEnds(Do(s, items[0]), items[1..], id);
      if About(items[0], id) {
        HeadNeverEnds(s, items[0], id, |items|);
        NeverEndsCons(RowOf(s.tables, id), id, s.bufferSize, items[0], Project(items[1..], id));
      }
    }
  }

  lemma {:induction false} NeverEndsCons(row: Row, id: nat, size: int, it: Item, rest: seq<Item>)
    requires it.Cap? && About(it, id) && StreamCapsules(rest, id)
    requires var (row', ended) := RowHandle(row, id, false, false, size, it.c.payload, it.c.fin, false);
             !ended && NeverEnds(row', id, size, rest)
    ensures StreamCapsules([it] + rest, id) && NeverEnds(row, id, size, [it] + rest)
  {
    assert ([it] + rest)[1..] == rest;
  }

  /** A peer's unidirectional stream is offered for accept at most once exactly
      when the peer sends nothing on it after its FIN. */
  lemma {:induction false} UniOfferedOnceExactlyWhen(s: Session, items: seq<Item>, id: nat)
    requires WellFormed(s) && Room(s.limits, |items|) && !s.stop && Proper(s, items)
    requires !IsBidi(id) && !Ours(s, id) && RowOf(s.tables, id) == EMPTY
    ensures multiset(Trace(s, items).tables.offered)[id] <= 1 <==>
            var own := Project(items, id);
            forall i :: 0 <= i < |own| - 1 ==> !(own[i].Cap? && own[i].c.Stream? && own[i].c.fin)
  {
    var own := Project(items, id);
    ProperNeverEnds(s, items, id);
    TraceProjects(s, items, id);
    OffersCountStarts(EMPTY, id, s.bufferSize, own);
    StartsAtMostOne(own, true);
  }

  /** A FIN on a stream that no table knows: offered, finished, forgotten. */
  lemma FinOffers(s: Session)
    requires s.limits.isServer && !s.stop && s.loop != Ended && 2 !in s.tables.receiveStreams
    requires s.bufferSize == 0 && |s.incomingUni| < ACCEPT_QUEUE
    ensures var s' := Do(s, Cap(Stream(2, [], true)));
            && s'.tables.offered == s.tables.offered + [2] && 2 !in s'.tables.receiveStreams
            && |Objects(s'.tables, 2)| == |Objects(s.tables, 2)| + 1
            && s'.limits == s.limits && s'.stop == s.stop && s'.loop == s.loop && s'.bufferSize == s.bufferSize
            && |s'.incomingUni| == |s.incomingUni| + 1
  {
    var half := NewRecv(0, 2);
    var (t, ref) := Register(s.tables, 2, 0);
    assert Objects(t, 2)[ref.gen] == half && Receive(half, [], true).Some?;
    var s1 := Enqueue(s.(tables := t), ref);
    assert Do(s, Cap(Stream(2, [], true))) == Deliver(s1, ref, [], true);
    assert DeliverTo(t, ref, [], true).Some?;
  }

  /** And the peer can send more: a FIN sent twice makes two streams of one ID,
      and both are offered. */
  lemma {:induction false} FinTwiceOffersTwice(peer: Option<PeerLimits>, datagramSize: int)
    ensures var s := NewSession(true, peer, 0, datagramSize);
            var fin := Cap(Stream(2, [], true));
            && Proper(s, [fin, fin]) && multiset(Trace(s, [fin, fin]).tables.offered)[2] == 2
            && |Objects(Trace(s, [fin, fin]).tables, 2)| == 2
  {
    var s := NewSession(true, peer, 0, datagramSize);
    var fin := Cap(Stream(2, [], true));
    var s1 := Do(s, fin);
    FinOffers(s);
    FinOffers(s1);
    assert [fin, fin][1..] == [fin] && [fin][1..] == [];
    assert Trace(s1, [fin]) == Trace(Do(s1, fin), []);
    assert Proper(Do(s1, fin), []) && Proper(s1, [fin]);
    assert Do(s1, fin).tables.offered == [2, 2];
  }

  // ---------- capsules that do not matter ----------

  predicate Noise(it: Item) {
    it.Cap? && (it.c.Padding? || it.c.Datagram? || it.c.Drain? || it.c.Other?)
  }

  function Strip(items: seq<Item>): seq<Item> {
    if items == [] then [] else (if Noise(items[0]) then [] else [items[0]]) + Strip(items[1..])
  }

  /** Everything but the datagram buffer. */
  function Core(s: Session): Session {
    s.(datagrams := DatagramBuffer.Start(0))
  }

  lemma DeliverCore(s: Session, d: DatagramBuffer.World, ref: Ref, payload: seq<Byte>, fin: bool)
    ensures Core(Deliver(s.(datagrams := d), ref, payload, fin)) == Core(Deliver(s, ref, payload, fin))
  {
  }

  lemma StreamCore(s: Session, d: DatagramBuffer.World, id: nat, payload: seq<Byte>, fin: bool)
    ensures Core(HandleStream(s.(datagrams := d), id, payload, fin, false))
         == Core(HandleStream(s, id, payload, fin, false))
  {
    if Route(s.tables, id).Some? {
      DeliverCore(s, d, Route(s.tables, id).value, payload, fin);
    } else if !Ours(s, id) {
      var (t, ref) := Register(s.tables, id, s.bufferSize);
      var s1 := s.(tables := t, limits := if IsBidi(id) then TrackSend(s.limits, id) else s.limits);
      var s2 := Enqueue(s1, ref);
      assert Enqueue(s1.(datagrams := d), ref) == s2.(datagrams := d);
      DeliverCore(s2, d, ref, payload, fin);
    }
  }

  lemma OpenCore(s: Session, d: DatagramBuffer.World, bidi: bool)
    ensures Open(s.(datagrams := d), bidi).0 == Open(s, bidi).0.(datagrams := d)
    ensures Open(s, bidi).0.datagrams == s.datagrams && Open(s.(datagrams := d), bidi).1 == Open(s, bidi).1
  {
  }

  lemma NoiseCore(s: Session, c: Capsule)
    requires Noise(Cap(c))
    ensures Core(Handle(s, c, false)) == Core(s)
  {
  }

  lemma LimitCore(s: Session, d: DatagramBuffer.World, g: Grant)
    ensures Core(Handle(s.(datagrams := d), Limit(g), false)) == Core(Handle(s, Limit(g), false))
  {
    ErrorCore(s.(limits := Raise(s.limits, g).0), d, FlowControl);
  }

  lemma ErrorCore(s: Session, d: DatagramBuffer.World, e: CloseError)
    ensures SetCloseErr(s.(datagrams := d), e, ReadLoop) == SetCloseErr(s, e, ReadLoop).(datagrams := d)
  {
  }

  lemma ReasonCore(s: Session, d: DatagramBuffer.World, r: Reason)
    ensures SetCloseReason(s.(datagrams := d), r) == SetCloseReason(s, r).(datagrams := d)
  {
  }

  lemma ControlCore(s: Session, d: DatagramBuffer.World, c: Capsule)
    requires !c.Stream? && !Noise(Cap(c))
    ensures Core(Handle(s.(datagrams := d), c, false)) == Core(Handle(s, c, false))
  {
    if c.Limit? {
      LimitCore(s, d, c.grant);
    } else if c.CloseSession? {
      ErrorCore(s, d, Application(c.code, c.message, true));
    } else {
      ReasonCore(s, d, ConnectFin);
      ReasonCore(s, d, Reason.Error);
    }
  }

  lemma DoCore(s: Session, d: DatagramBuffer.World, it: Item)
    ensures Core(Do(s.(datagrams := d), it)) == Core(Do(s, it))
    ensures Noise(it) ==> Core(Do(s, it)) == Core(s)
  {
    match it
    case Opened(id) => OpenCore(s, d, IsBidi(id));
    case Accepted(_) =>
    case Cap(c) =>
      if c.Stream? {
        StreamCore(s, d, c.id, c.payload, c.fin);
      } else if Noise(it) {
        NoiseCore(s, c);
        NoiseCore(s.(datagrams := d), c);
      } else {
        ControlCore(s, d, c);
      }
  }

  lemma {:induction false} TraceCore(s: Session, d: DatagramBuffer.World, items: seq<Item>)
    ensures Core(Trace(s.(datagrams := d), items)) == Core(Trace(s, items))
    ensures Proper(s.(datagrams := d), items) <==> Proper(s, items)
    decreases |items|
  {
    if items != [] {
      DoCore(s, d, items[0]);
      var a, b := Do(s.(datagrams := d), items[0]), Do(s, items[0]);
      assert a == b.(datagrams := a.datagrams);
      TraceCore(b, a.datagrams, items[1..]);
      if items[0].Opened? {
        OpenCore(s, d, IsBidi(items[0].id));
      }
    }
  }

  /** Deleting every PADDING, DATAGRAM, WT_DRAIN_SESSION and unknown capsule from
      a trace changes nothing but the datagram buffer: no stream, no accept
      queue, no limit, no close state, nor whether the loop waits or returns. */
  lemma {:induction false} NoiseIsIrrelevant(s: Session, items: seq<Item>)
    ensures Core(Trace(s, items)) == Core(Trace(s, Strip(items)))
    ensures Proper(s, items) <==> Proper(s, Strip(items))
    decreases |items|
  {
    if items != [] {
      var it, rest := items[0], items[1..];
      NoiseIsIrrelevant(Do(s, it), rest);
      if Noise(it) {
        DoCore(s, s.datagrams, it);
        assert Do(s, it) == s.(datagrams := Do(s, it).datagrams);
        TraceCore(s, Do(s, it).datagrams, Strip(rest));
        assert Strip(items) == Strip(rest);
        assert Proper(Do(s, it), Strip(rest)) ==> s.loop != Ended;
      } else {
        assert Strip(items)[1..] == Strip(rest);
      }
    }
  }
}
