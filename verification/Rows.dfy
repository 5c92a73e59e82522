/** An endpoint seen one stream at a time: what the tables hold for one ID, and
    what each step does to that row alone. */
module Rows {
  import opened StreamIds
  import opened SendLimits
  import opened Varints
  import opened Capsules
  import opened Endpoint

  /** The entries of the three tables for one ID, its receive halves, and how
      often the ID was put on an accept queue. */
  datatype Row = Row(bidi: Option<Bidi>, uni: Option<Ref>, send: Option<Send>, objects: seq<Recv>, offers: nat)

  function Lookup<T>(m: map<nat, T>, k: nat): Option<T> {
    if k in m then Some(m[k]) else None
  }

  function RowOf(t: Tables, k: nat): Row {
    Row(Lookup(t.streams, k), Lookup(t.receiveStreams, k), Lookup(t.sendStreams, k), Objects(t, k),
        multiset(t.offered)[k])
  }

  const EMPTY: Row := Row(None, None, None, [], 0)

  // ---------- the receiving side of a single stream ----------

  function RowRoute(row: Row, isBidi: bool): Option<Ref> {
    if isBidi then (if row.bidi.Some? then Some(row.bidi.value.recv) else None) else row.uni
  }

  /** One stream capsule at a known receive half; the flag says that the read
      loop returns. */
  function RowDeliver(row: Row, gen: nat, isBidi: bool, payload: seq<Byte>, fin: bool): (Row, bool) {
    if gen >= |row.objects| then (row, false)
    else
      match Receive(row.objects[gen], payload, fin)
      case None => (row, true)
      case Some(r) =>
        var row1 := row.(objects := row.objects[gen := r]);
        (if fin && !isBidi then row1.(uni := None) else row1, false)
  }

  function RowRegister(row: Row, id: nat, isBidi: bool, bufferSize: int): (Row, Ref) {
    var ref := Ref(id, |row.objects|);
    var row1 := row.(objects := row.objects + [NewRecv(bufferSize, id)]);
    (if isBidi then row1.(bidi := Some(Bidi(id, ref, NewSend(id)))) else row1.(uni := Some(ref)), ref)
  }

  /** The receiver of one stream as a machine of its own. */
  function RowHandle(row: Row, id: nat, isBidi: bool, ours: bool, bufferSize: int, payload: seq<Byte>, fin: bool,
                     unwanted: bool): (Row, bool)
  {
    match RowRoute(row, isBidi)
    case Some(ref) => RowDeliver(row, ref.gen, isBidi, payload, fin)
    case None =>
      if ours then (row, false)
      else
        var (row1, ref) := RowRegister(row, id, isBidi, bufferSize);
        if unwanted then (row1, true)
        else RowDeliver(row1.(offers := row1.offers + 1), ref.gen, isBidi, payload, fin)
  }

  // ---------- each step touches one row ----------

  lemma PutRow(t: Tables, ref: Ref, r: Recv, k: nat)
    requires Points(t, ref)
    ensures RowOf(Put(t, ref, r), k) ==
            if k == ref.id then RowOf(t, k).(objects := RowOf(t, k).objects[ref.gen := r]) else RowOf(t, k)
  {
  }

  lemma DeliverRow(t: Tables, ref: Ref, payload: seq<Byte>, fin: bool, k: nat)
    ensures var t' := DeliverTo(t, ref, payload, fin);
            var (row, ended) := RowDeliver(RowOf(t, ref.id), ref.gen, IsBidi(ref.id), payload, fin);
            && (t'.None? <==> ended) && (ended ==> row == RowOf(t, ref.id))
            && (t'.Some? ==> RowOf(t'.value, k) == if k == ref.id then row else RowOf(t, k))
  {
    if Points(t, ref) && Receive(Objects(t, ref.id)[ref.gen], payload, fin).Some? {
      PutRow(t, ref, Receive(Objects(t, ref.id)[ref.gen], payload, fin).value, k);
    }
  }

  lemma AddBidiRow(t: Tables, id: nat, bufferSize: int, k: nat)
    ensures var (t', ref) := AddBidi(t, id, bufferSize);
            && ref == Ref(id, |RowOf(t, id).objects|)
            && RowOf(t', k) == if k != id then RowOf(t, k) else
                 RowOf(t, id).(objects := RowOf(t, id).objects + [NewRecv(bufferSize, id)],
                               bidi := Some(Bidi(id, ref, NewSend(id))))
  {
  }

  lemma RegisterRow(t: Tables, id: nat, bufferSize: int, k: nat)
    ensures var (t', ref) := Register(t, id, bufferSize);
            && ref == RowRegister(RowOf(t, id), id, IsBidi(id), bufferSize).1
            && RowOf(t', k) == if k == id then RowRegister(RowOf(t, id), id, IsBidi(id), bufferSize).0 else RowOf(t, k)
  {
    AddBidiRow(t, id, bufferSize, k);
  }

  lemma OfferRow(t: Tables, id: nat, k: nat)
    ensures RowOf(Offer(t, id), k) ==
            if k == id then RowOf(t, k).(offers := RowOf(t, k).offers + 1) else RowOf(t, k)
  {
  }

  lemma RegisterDeliverRow(t: Tables, id: nat, bufferSize: int, payload: seq<Byte>, fin: bool, k: nat)
    ensures var (t1, ref) := Register(t, id, bufferSize);
            var t' := DeliverTo(Offer(t1, id), ref, payload, fin);
            var (row1, ref1) := RowRegister(RowOf(t, id), id, IsBidi(id), bufferSize);
            var (row, ended) := RowDeliver(row1.(offers := row1.offers + 1), ref1.gen, IsBidi(id), payload, fin);
            && ref == ref1
            && (t'.None? <==> ended)
            && (ended ==> RowOf(Offer(t1, id), k) == if k == id then row else RowOf(t, k))
            && (t'.Some? ==> RowOf(t'.value, k) == if k == id then row else RowOf(t, k))
  {
    RegisterRow(t, id, bufferSize, id);
    RegisterRow(t, id, bufferSize, k);
    var (t1, ref) := Register(t, id, bufferSize);
    OfferRow(t1, id, id);
    OfferRow(t1, id, k);
    DeliverRow(Offer(t1, id), ref, payload, fin, k);
  }

  /** What a stream capsule does to the tables, and whether the loop returns. */
  function HandleTables(t: Tables, id: nat, ours: bool, bufferSize: int, payload: seq<Byte>, fin: bool, unwanted: bool)
    : (Tables, bool)
  {
    match Route(t, id)
    case Some(ref) =>
      (match DeliverTo(t, ref, payload, fin) case None => (t, true) case Some(t1) => (t1, false))
    case None =>
      if ours then (t, false)
      else
        var (t1, ref) := Register(t, id, bufferSize);
        if unwanted then (t1, true)
        else
          match DeliverTo(Offer(t1, id), ref, payload, fin)
          case None => (Offer(t1, id), true)
          case Some(t2) => (t2, false)
  }

  ghost predicate ActsOnRow(t: Tables, id: nat, ours: bool, bufferSize: int, payload: seq<Byte>, fin: bool,
                            unwanted: bool, k: nat) {
    var (t', ended) := HandleTables(t, id, ours, bufferSize, payload, fin, unwanted);
    var (row, ended1) := RowHandle(RowOf(t, id), id, IsBidi(id), ours, bufferSize, payload, fin, unwanted);
    ended == ended1 && RowOf(t', k) == if k == id then row else RowOf(t, k)
  }

  lemma KnownActsOnRow(t: Tables, id: nat, ours: bool, bufferSize: int, payload: seq<Byte>, fin: bool,
                       unwanted: bool, k: nat)
    requires Route(t, id).Some? && Route(t, id).value.id == id
    ensures ActsOnRow(t, id, ours, bufferSize, payload, fin, unwanted, k)
  {
    DeliverRow(t, Route(t, id).value, payload, fin, k);
  }

  lemma NewActsOnRow(t: Tables, id: nat, bufferSize: int, payload: seq<Byte>, fin: bool, k: nat)
    requires Route(t, id).None?
    ensures ActsOnRow(t, id, false, bufferSize, payload, fin, false, k)
  {
    RegisterDeliverRow(t, id, bufferSize, payload, fin, k);
  }

  lemma UnwantedActsOnRow(t: Tables, id: nat, bufferSize: int, payload: seq<Byte>, fin: bool, k: nat)
    requires Route(t, id).None?
    ensures ActsOnRow(t, id, false, bufferSize, payload, fin, true, k)
  {
    RegisterRow(t, id, bufferSize, k);
  }

  lemma RejectActsOnRow(t: Tables, id: nat, bufferSize: int, payload: seq<Byte>, fin: bool, unwanted: bool, k: nat)
    requires Route(t, id).None?
    ensures ActsOnRow(t, id, true, bufferSize, payload, fin, unwanted, k)
  {
  }

  /** A stream capsule acts on its own row only, as the single-stream machine. */
  lemma {:induction false} HandleTablesRow(t: Tables, id: nat, ours: bool, bufferSize: int, payload: seq<Byte>,
                                           fin: bool, unwanted: bool, k: nat)
    requires Route(t, id).Some? ==> Route(t, id).value.id == id
    ensures ActsOnRow(t, id, ours, bufferSize, payload, fin, unwanted, k)
  {
    if Route(t, id).Some? {
      KnownActsOnRow(t, id, ours, bufferSize, payload, fin, unwanted, k);
    } else if ours {
      RejectActsOnRow(t, id, bufferSize, payload, fin, unwanted, k);
    } else if unwanted {
      UnwantedActsOnRow(t, id, bufferSize, payload, fin, k);
    } else {
      NewActsOnRow(t, id, bufferSize, payload, fin, k);
    }
  }

  /** The parts of the state that stream data leaves alone. */
  predicate SameFrame(a: Session, b: Session) {
    && a.limits.isServer == b.limits.isServer && a.limits.created == b.limits.created
    && a.bufferSize == b.bufferSize
  }

  /** Stream data closes nothing. */
  predicate SameCloses(a: Session, b: Session) {
    a.stop == b.stop && a.closeErr == b.closeErr && a.closes == b.closes && a.datagrams == b.datagrams
  }

  lemma TrackFrame(l: Limits, id: nat)
    ensures TrackSend(l, id).isServer == l.isServer && TrackSend(l, id).created == l.created
  {
  }

  ghost predicate ActsOnTables(s: Session, id: nat, payload: seq<Byte>, fin: bool, doneWins: bool) {
    var s' := HandleStream(s, id, payload, fin, doneWins);
    var (t, ended) := HandleTables(s.tables, id, Ours(s, id), s.bufferSize, payload, fin, Unwanted(s, id, doneWins));
    && s'.tables == t && SameFrame(s, s') && SameCloses(s, s')
    && (s'.loop == Ended <==> ended) && (!ended ==> s'.loop == s.loop)
  }

  lemma DeliverActsOnTables(s: Session, ref: Ref, payload: seq<Byte>, fin: bool)
    requires s.loop != Ended
    ensures var s', t := Deliver(s, ref, payload, fin), DeliverTo(s.tables, ref, payload, fin);
            && s'.tables == (if t.Some? then t.value else s.tables) && s'.limits == s.limits
            && s'.bufferSize == s.bufferSize && SameCloses(s, s')
            && (s'.loop == Ended <==> t.None?) && (t.Some? ==> s'.loop == s.loop)
  {
  }

  lemma NewActsOnTables(s: Session, id: nat, payload: seq<Byte>, fin: bool, doneWins: bool)
    requires s.loop != Ended && Route(s.tables, id).None? && !Ours(s, id)
    ensures ActsOnTables(s, id, payload, fin, doneWins)
  {
    TrackFrame(s.limits, id);
    var (t, ref) := Register(s.tables, id, s.bufferSize);
    var l := if IsBidi(id) then TrackSend(s.limits, id) else s.limits;
    DeliverActsOnTables(Enqueue(s.(tables := t, limits := l), ref), ref, payload, fin);
  }

  lemma HandleStreamTables(s: Session, id: nat, payload: seq<Byte>, fin: bool, doneWins: bool)
    requires s.loop != Ended
    ensures ActsOnTables(s, id, payload, fin, doneWins)
  {
    if Route(s.tables, id).None? && !Ours(s, id) {
      NewActsOnTables(s, id, payload, fin, doneWins);
    }
  }

  // ---------- the application's calls on one row ----------

  predicate RowHasSend(row: Row) {
    row.bidi.Some? || row.send.Some?
  }

  function RowSend(row: Row, id: nat): Send {
    if row.bidi.Some? then row.bidi.value.send
    else if row.send.Some? then row.send.value
    else NewSend(id)
  }

  function RowPutSend(row: Row, h: Send): Row
    requires RowHasSend(row)
  {
    if row.bidi.Some? then row.(bidi := Some(row.bidi.value.(send := h))) else row.(send := Some(h))
  }

  predicate WriteMove(id: nat, row: Row, row': Row, out: seq<Capsule>) {
    && RowHasSend(row) && !RowSend(row, id).closed
    && |out| == 1 && out[0].Stream? && out == [Stream(id, out[0].payload, false)]
    && row' == RowPutSend(row, RowSend(row, id).(written := RowSend(row, id).written + out[0].payload))
  }

  predicate CloseMove(id: nat, row: Row, row': Row, out: seq<Capsule>) {
    && RowHasSend(row) && !RowSend(row, id).closed
    && row' == RowPutSend(row, RowSend(row, id).(closed := true, fin := out != []))
    && (out == [] || out == [Stream(id, [], true)])
  }

  predicate ReadMove(row: Row, row': Row, out: seq<Capsule>, gen: nat, k: nat) {
    && gen < |row.objects| && out == []
    && row' == row.(objects := row.objects[gen := ReadHalf(row.objects[gen], k)])
  }

  predicate CloseRecvMove(row: Row, row': Row, out: seq<Capsule>, gen: nat) {
    && gen < |row.objects| && out == []
    && row' == row.(objects := row.objects[gen := CloseHalf(row.objects[gen])])
  }

  predicate OpenMove(id: nat, isBidi: bool, bufferSize: int, row: Row, row': Row, out: seq<Capsule>) {
    && out == []
    && row' == if isBidi then RowRegister(row, id, true, bufferSize).0 else row.(send := Some(NewSend(id)))
  }

  /** What a call may do to the row of `id`, and what it writes about `id`. */
  ghost predicate Move(id: nat, isBidi: bool, mayOpen: bool, bufferSize: int, row: Row, row': Row, out: seq<Capsule>) {
    || (row' == row && out == [])
    || WriteMove(id, row, row', out)
    || CloseMove(id, row, row', out)
    || (exists gen, k :: ReadMove(row, row', out, gen, k))
    || (exists gen :: CloseRecvMove(row, row', out, gen))
    || (mayOpen && OpenMove(id, isBidi, bufferSize, row, row', out))
  }

  /** The stream capsules of `id`, in order. */
  function Proj(cs: seq<Capsule>, id: nat): seq<Capsule> {
    if cs == [] then []
    else (if cs[0].Stream? && cs[0].id == id then [cs[0]] else []) + Proj(cs[1..], id)
  }

  lemma {:induction false} ProjConcat(a: seq<Capsule>, b: seq<Capsule>, id: nat)
    ensures Proj(a + b, id) == Proj(a, id) + Proj(b, id)
  {
    if a == [] {
      assert a + b == b;
    } else {
      assert (a + b)[1..] == a[1..] + b;
      ProjConcat(a[1..], b, id);
    }
  }

  lemma ProjOne(c: Capsule, id: nat)
    ensures Proj([c], id) == if c.Stream? && c.id == id then [c] else []
  {
    assert [c][1..] == [];
  }

  lemma PutSendRow(t: Tables, id: nat, h: Send, k: nat)
    requires HasSend(t, id)
    ensures RowHasSend(RowOf(t, id)) && RowSend(RowOf(t, id), id) == SendHalf(t, id)
    ensures RowOf(PutSend(t, id, h), k) == if k == id then RowPutSend(RowOf(t, id), h) else RowOf(t, k)
  {
  }

  predicate MayOpen(a: Session, b: Session, id: nat) {
    a.limits.created <= id < b.limits.created && Ours(a, id)
  }

  ghost predicate StepMoves(s: Session, e: Event, k: nat) {
    var (s', out) := Step(s, e);
    Move(k, IsBidi(k), MayOpen(s, s', k), s.bufferSize, RowOf(s.tables, k), RowOf(s'.tables, k), Proj(out, k))
  }

  lemma ReserveFrame(l: Limits, id: nat, n: int)
    ensures var l' := Reserve(l, id, n); l'.isServer == l.isServer && l'.created == l.created
    ensures var l' := Refund(Reserve(l, id, n), id, n); l'.isServer == l.isServer && l'.created == l.created
  {
  }

  lemma WriteStepMoves(s: Session, id: nat, p: seq<Byte>, ok: bool, k: nat)
    ensures StepMoves(s, WriteCall(id, p, ok), k)
  {
    var (s', out) := Write(s, id, p, ok);
    if out != [] {
      PutSendRow(s.tables, id, SendHalf(s.tables, id).(written := SendHalf(s.tables, id).written + p), k);
      ProjOne(out[0], k);
    }
  }

  lemma CloseStepMoves(s: Session, id: nat, ok: bool, k: nat)
    ensures StepMoves(s, CloseSendCall(id, ok), k)
  {
    var (s', out) := CloseSend(s, id, ok);
    if s' != s {
      PutSendRow(s.tables, id, SendHalf(s.tables, id).(closed := true, fin := out != []), k);
      ProjOne(Stream(id, [], true), k);
    }
  }

  lemma ReadStepMoves(s: Session, ref: Ref, n: nat, k: nat)
    ensures StepMoves(s, ReadCall(ref, n), k) && StepMoves(s, CloseRecvCall(ref), k)
  {
    if Points(s.tables, ref) {
      var r := Objects(s.tables, ref.id)[ref.gen];
      PutRow(s.tables, ref, ReadHalf(r, n), k);
      PutRow(s.tables, ref, CloseHalf(r), k);
      if k == ref.id {
        assert ReadMove(RowOf(s.tables, k), RowOf(Read(s.tables, ref, n), k), [], ref.gen, n);
        assert CloseRecvMove(RowOf(s.tables, k), RowOf(CloseRecv(s.tables, ref), k), [], ref.gen);
      }
    }
  }

  /** Room for `n` more opens before the ID counter wraps. A session with a peer
      snapshot always has room: its stream counts are bounded. */
  predicate Room(l: Limits, n: nat) {
    l.created % 4 == 0 && (Counted(l) || l.created + 4 * n < TWO_64)
  }

  lemma RoomAlloc(l: Limits, bidi: bool, n: nat)
    requires Room(l, n) && n > 0
    ensures var (l', id) := Alloc(l, bidi);
            && Room(l', n - 1)
            && l'.isServer == l.isServer
            && (id.Some? ==> && l'.created == l.created + 4 && l.created <= id.value < l'.created
                             && IsBidi(id.value) == bidi && IsOurs(l.isServer, id.value))
            && (id.None? ==> l' == l)
  {
    if Counted(l) {
      CountedAlloc(l, bidi);
    } else {
      IdFromClassifies(l.isServer, l.created, bidi);
      UncountedAlloc(l, bidi);
    }
    NextBlock(l.created);
  }

  lemma UncountedAlloc(l: Limits, bidi: bool)
    requires l.created + 4 < TWO_64
    ensures var (l', id) := Alloc(l, bidi);
            && l'.isServer == l.isServer
            && (id.Some? ==> l'.created == l.created + 4 && id.value == IdFrom(l.isServer, l.created, bidi))
            && (id.None? ==> l' == l)
  {
  }

  lemma NextBlock(n: nat)
    requires n % 4 == 0
    ensures (n + 4) % 4 == 0
  {
  }

  lemma OpenStepMoves(s: Session, bidi: bool, late: bool, k: nat)
    requires Room(s.limits, 1)
    ensures StepMoves(s, OpenCall(bidi, late), k)
  {
    RoomAlloc(s.limits, bidi, 1);
    var (s', id) := OpenPast(s, bidi);
    if id.Some? {
      AddBidiRow(s.tables, id.value, s.bufferSize, k);
    }
  }

  predicate Quiet(e: Event) {
    || e.AcceptCall? || e.CloseCall? || e.DatagramCall? || e.DatagramRead?
    || e.LoopTest? || e.ConnectionEnd? || e.LoopClose?
    || e.CloseStartCall? || e.CloseAnnounceCall? || e.CloseRecordCall? || e.CloseReturnCall?
  }

  /** These calls leave the tables alone and write at most one capsule, not
      about a stream. */
  lemma QuietStep(s: Session, e: Event)
    requires Quiet(e)
    ensures var (s', out) := Step(s, e);
            s'.tables == s.tables && s'.limits == s.limits && s'.bufferSize == s.bufferSize
            && (out == [] || (|out| == 1 && !out[0].Stream?))
  {
  }

  lemma QuietStepMoves(s: Session, e: Event, k: nat)
    requires Quiet(e)
    ensures StepMoves(s, e, k)
  {
    QuietStep(s, e);
    var (s', out) := Step(s, e);
    if out != [] {
      assert out == [out[0]];
      ProjOne(out[0], k);
    }
  }

  /** Every call moves at most one row, in one of the listed ways. */
  lemma {:induction false} LocalStepMoves(s: Session, e: Event, k: nat)
    requires Room(s.limits, 1) && !e.Incoming?
    ensures StepMoves(s, e, k)
  {
    match e
    case OpenCall(bidi, late) => OpenStepMoves(s, bidi, late, k);
    case WriteCall(id, p, ok) => WriteStepMoves(s, id, p, ok, k);
    case CloseSendCall(id, ok) => CloseStepMoves(s, id, ok, k);
    case ReadCall(ref, n) => ReadStepMoves(s, ref, n, k);
    case CloseRecvCall(ref) => ReadStepMoves(s, ref, 0, k);
    case _ => QuietStepMoves(s, e, k);
  }

  lemma HandleFrame(s: Session, c: Capsule, doneWins: bool)
    requires s.loop != Ended
    ensures var s' := Handle(s, c, doneWins); SameFrame(s, s')
    ensures !c.Stream? ==> Handle(s, c, doneWins).tables == s.tables
    ensures Counted(s.limits) ==> Counted(Handle(s, c, doneWins).limits)
  {
    if c.Stream? {
      HandleStreamTables(s, c.id, c.payload, c.fin, doneWins);
    }
    if Counted(s.limits) {
      HandleCounted(s, c, doneWins);
    }
  }

  lemma HandleCounted(s: Session, c: Capsule, doneWins: bool)
    requires Counted(s.limits)
    ensures Counted(Handle(s, c, doneWins).limits)
  {
    if c.Stream? {
      CountedOthers(s.limits, c.id, 0, MaxData(0));
    } else if c.Limit? {
      CountedOthers(s.limits, 0, 0, c.grant);
    }
  }

  /** What no step changes, and how the ID counter moves. */
  lemma StepFrame(s: Session, e: Event, n: nat)
    requires Room(s.limits, n) && n > 0
    ensures var s' := Step(s, e).0;
            && s'.limits.isServer == s.limits.isServer && s'.bufferSize == s.bufferSize
            && s'.limits.created >= s.limits.created && Room(s'.limits, n - 1)
            && (!e.OpenCall? ==> s'.limits.created == s.limits.created)
  {
    match e
    case OpenCall(bidi, _) => RoomAlloc(s.limits, bidi, n);
    case WriteCall(id, p, ok) =>
      ReserveFrame(s.limits, id, |p|);
      CountedWrite(s.limits, id, |p|);
    case CloseSendCall(id, ok) =>
    case ReadCall(ref, k) =>
    case CloseRecvCall(ref) =>
    case Incoming(c, doneWins) =>
      if s.loop != Ended { HandleFrame(s, c, doneWins); }
    case _ => QuietStep(s, e);
  }

  lemma CountedWrite(l: Limits, id: nat, n: int)
    ensures Counted(l) ==> Counted(Reserve(l, id, n)) && Counted(Refund(Reserve(l, id, n), id, n))
  {
    if Counted(l) {
      CountedOthers(l, id, n, MaxData(0));
      CountedOthers(Reserve(l, id, n), id, n, MaxData(0));
    }
  }

  // ---------- well-formed tables ----------

  /** One row of well-formed tables: entries sit in the table of their direction
      and initiator under their own ID, point at existing halves, local IDs are
      below the counter, and a stream is offered at most once per half. */
  predicate RowOk(k: nat, isBidi: bool, ours: bool, created: nat, row: Row) {
    && (row.bidi.Some? ==>
          && isBidi && row.bidi.value.id == k && row.bidi.value.send.id == k
          && row.bidi.value.recv.id == k && row.bidi.value.recv.gen < |row.objects|
          && (ours ==> k < created))
    && (row.send.Some? ==> !isBidi && ours && row.send.value.id == k && k < created)
    && (row.uni.Some? ==> !isBidi && !ours && row.uni.value.id == k && row.uni.value.gen < |row.objects|)
    && (forall j :: 0 <= j < |row.objects| ==> row.objects[j].id == k)
    && (row.objects != [] && (ours || isBidi) ==> row.bidi.Some?)
    && (isBidi ==> |row.objects| <= 1)
    && row.offers <= |row.objects|
    && (ours ==> row.offers == 0)
  }

  ghost predicate WellFormed(s: Session) {
    forall k :: RowOk(k, IsBidi(k), Ours(s, k), s.limits.created, RowOf(s.tables, k))
  }

  lemma RowHandleOk(k: nat, isBidi: bool, ours: bool, created: nat, row: Row, bufferSize: int, payload: seq<Byte>,
                    fin: bool, unwanted: bool)
    requires RowOk(k, isBidi, ours, created, row)
    ensures RowOk(k, isBidi, ours, created, RowHandle(row, k, isBidi, ours, bufferSize, payload, fin, unwanted).0)
  {
  }

  lemma {:induction false} MoveOk(k: nat, isBidi: bool, ours: bool, created: nat, created': nat, mayOpen: bool,
                                  bufferSize: int, row: Row, row': Row, out: seq<Capsule>)
    requires RowOk(k, isBidi, ours, created, row) && created <= created'
    requires mayOpen ==> created <= k < created' && ours
    requires Move(k, isBidi, mayOpen, bufferSize, row, row', out)
    ensures RowOk(k, isBidi, ours, created', row')
  {
  }

  lemma IncomingTables(s: Session, c: Capsule, doneWins: bool)
    requires CanRead(s, c)
    ensures var s' := Step(s, Incoming(c, doneWins)).0;
            s'.tables == Handle(s, c, doneWins).tables && (s'.loop == Ended <==> Handle(s, c, doneWins).loop == Ended)
  {
  }

  lemma {:induction false} IncomingRow(s: Session, c: Capsule, doneWins: bool, k: nat)
    requires WellFormed(s) && CanRead(s, c)
    ensures var s' := Step(s, Incoming(c, doneWins)).0;
            if c.Stream? && c.id == k then
              (RowOf(s'.tables, k), s'.loop == Ended) ==
              RowHandle(RowOf(s.tables, k), k, IsBidi(k), Ours(s, k), s.bufferSize, c.payload, c.fin,
                        Unwanted(s, k, doneWins))
            else RowOf(s'.tables, k) == RowOf(s.tables, k)
  {
    IncomingTables(s, c, doneWins);
    if c.Stream? {
      RouteOk(s, c.id);
      StreamRow(s, c, doneWins, k);
    } else {
      HandleFrame(s, c, doneWins);
    }
  }

  lemma StreamRow(s: Session, c: Capsule, doneWins: bool, k: nat)
    requires s.loop != Ended && c.Stream?
    requires Route(s.tables, c.id).Some? ==> Route(s.tables, c.id).value.id == c.id
    ensures var s' := Handle(s, c, doneWins);
            var (row, ended) := RowHandle(RowOf(s.tables, c.id), c.id, IsBidi(c.id), Ours(s, c.id), s.bufferSize,
                                          c.payload, c.fin, Unwanted(s, c.id, doneWins));
            RowOf(s'.tables, k) == (if k == c.id then row else RowOf(s.tables, k)) && (s'.loop == Ended <==> ended)
  {
    HandleStreamTables(s, c.id, c.payload, c.fin, doneWins);
    HandleTablesRow(s.tables, c.id, Ours(s, c.id), s.bufferSize, c.payload, c.fin, Unwanted(s, c.id, doneWins), k);
  }

  lemma RouteOk(s: Session, id: nat)
    requires WellFormed(s)
    ensures Route(s.tables, id).Some? ==> Route(s.tables, id).value.id == id
  {
    assert RowOk(id, IsBidi(id), Ours(s, id), s.limits.created, RowOf(s.tables, id));
  }

  /** Any event, any capsule, keeps the tables well formed. */
  lemma {:induction false} StepKeepsTables(s: Session, e: Event)
    requires WellFormed(s) && Room(s.limits, 1)
    ensures WellFormed(Step(s, e).0)
  {
    var s' := Step(s, e).0;
    StepFrame(s, e, 1);
    forall k ensures RowOk(k, IsBidi(k), Ours(s', k), s'.limits.created, RowOf(s'.tables, k)) {
      assert RowOk(k, IsBidi(k), Ours(s, k), s.limits.created, RowOf(s.tables, k));
      if e.Incoming? {
        if CanRead(s, e.c) {
          IncomingRow(s, e.c, e.doneWins, k);
          if e.c.Stream? && e.c.id == k {
            RowHandleOk(k, IsBidi(k), Ours(s, k), s.limits.created, RowOf(s.tables, k), s.bufferSize,
                        e.c.payload, e.c.fin, Unwanted(s, k, e.doneWins));
          }
        }
      } else {
        LocalStepMoves(s, e, k);
        MoveOk(k, IsBidi(k), Ours(s, k), s.limits.created, s'.limits.created, MayOpen(s, s', k), s.bufferSize,
               RowOf(s.tables, k), RowOf(s'.tables, k), Proj(Step(s, e).1, k));
      }
    }
  }
}
