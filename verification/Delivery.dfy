/** Two endpoints joined by an ordered channel of capsules in each direction:
    what a reader gets is what the writer at the other end wrote. */
module Delivery {
  import opened StreamIds
  import opened SendLimits
  import opened Varints
  import opened Capsules
  import opened Endpoint
  import opened Rows
  import ReceiveBuffer

  // ---------- one stream in one direction ----------

  predicate IsFin(c: Capsule) {
    c.Stream? && c.fin
  }

  function Bytes(p: seq<Capsule>): seq<Byte> {
    if p == [] then [] else (if p[0].Stream? then p[0].payload else []) + Bytes(p[1..])
  }

  lemma {:induction false} BytesAppend(p: seq<Capsule>, c: Capsule)
    requires c.Stream?
    ensures Bytes(p + [c]) == Bytes(p) + c.payload
  {
    if p == [] {
      assert p + [c] == [c];
      assert Bytes([c]) == c.payload + Bytes([]);
    } else {
      var head, rest := if p[0].Stream? then p[0].payload else [], p[1..];
      BytesAppend(rest, c);
      assert p + [c] == [p[0]] + (rest + [c]);
      assert Bytes([p[0]] + (rest + [c])) == head + Bytes(rest + [c]) by {
        assert ([p[0]] + (rest + [c]))[1..] == rest + [c];
      }
      assert head + (Bytes(rest) + c.payload) == head + Bytes(rest) + c.payload;
    }
  }

  /** A receive half, given the sender's half and the capsules in between.
      `routed`: the tables still lead to it; `alive`: the read loop runs. */
  predicate HalfOk(snd: Send, p: seq<Capsule>, alive: bool, routed: bool, r: Recv) {
    && r.taken + r.buf.data <= snd.written
    && (alive && !r.closed ==> r.taken + r.buf.data + Bytes(p) == snd.written)
    && (r.buf.closed && !r.closed ==> snd.closed && p == [] && r.taken + r.buf.data == snd.written)
    && (alive && !routed ==> snd.closed && p == [])
  }

  /** A FIN that was written is on its way, or has closed the receive buffer. */
  predicate FinOk(snd: Send, p: seq<Capsule>, alive: bool, objects: seq<Recv>) {
    && (snd.fin ==> snd.closed)
    && (alive && snd.fin ==> (p != [] && IsFin(p[|p| - 1])) || (objects != [] && objects[0].buf.closed))
    && (alive && !snd.fin ==> p == [] || !IsFin(p[|p| - 1]))
  }

  predicate StreamOk(snd: Send, p: seq<Capsule>, alive: bool, routed: bool, objects: seq<Recv>) {
    && |objects| <= 1
    && (forall i :: 0 <= i < |p| - 1 ==> !IsFin(p[i]))
    && (p != [] && IsFin(p[|p| - 1]) ==> snd.closed)
    && (objects == [] && alive ==> Bytes(p) == snd.written)
    && (objects != [] ==> HalfOk(snd, p, alive, routed, objects[0]))
    && FinOk(snd, p, alive, objects)
  }

  lemma {:induction false} SenderWrites(snd: Send, p: seq<Capsule>, alive: bool, routed: bool, objects: seq<Recv>,
                                        c: Capsule)
    requires StreamOk(snd, p, alive, routed, objects) && !snd.closed && c.Stream? && !c.fin
    ensures StreamOk(snd.(written := snd.written + c.payload), p + [c], alive, routed, objects)
  {
    BytesAppend(p, c);
    if objects != [] {
      var r := objects[0];
      assert r.taken + r.buf.data + (Bytes(p) + c.payload) == r.taken + r.buf.data + Bytes(p) + c.payload;
    }
  }

  lemma {:induction false} SenderCloses(snd: Send, p: seq<Capsule>, alive: bool, routed: bool, objects: seq<Recv>,
                                        id: nat)
    requires StreamOk(snd, p, alive, routed, objects) && !snd.closed
    ensures StreamOk(snd.(closed := true), p, alive, routed, objects)
    ensures StreamOk(snd.(closed := true, fin := true), p + [Stream(id, [], true)], alive, routed, objects)
  {
    BytesAppend(p, Stream(id, [], true));
    assert Bytes(p) + [] == Bytes(p);
  }

  lemma {:induction false} ReaderReads(snd: Send, p: seq<Capsule>, alive: bool, routed: bool, objects: seq<Recv>,
                                       k: nat)
    requires StreamOk(snd, p, alive, routed, objects) && objects != []
    ensures StreamOk(snd, p, alive, routed, objects[0 := ReadHalf(objects[0], k)])
  {
    ReadMovesBytes(objects[0], k);
  }

  /** A read moves bytes from the buffer to the reader and changes no flag. */
  lemma ReadMovesBytes(r: Recv, k: nat)
    ensures var r' := ReadHalf(r, k);
            r'.taken + r'.buf.data == r.taken + r.buf.data && r'.closed == r.closed && r'.buf.closed == r.buf.closed
  {
    var n := if k < |r.buf.data| then k else |r.buf.data|;
    assert r.buf.data == r.buf.data[..n] + r.buf.data[n..];
    assert r.taken + r.buf.data == r.taken + r.buf.data[..n] + r.buf.data[n..];
  }

  lemma {:induction false} ReaderCloses(snd: Send, p: seq<Capsule>, alive: bool, routed: bool, objects: seq<Recv>)
    requires StreamOk(snd, p, alive, routed, objects) && objects != []
    ensures StreamOk(snd, p, alive, routed, objects[0 := CloseHalf(objects[0])])
  {
  }

  lemma {:induction false} LoopReturns(snd: Send, p: seq<Capsule>, alive: bool, routed: bool, objects: seq<Recv>)
    requires StreamOk(snd, p, alive, routed, objects)
    ensures StreamOk(snd, p, false, routed, objects)
  {
  }

  /** The next capsule reaches a receive half that the tables lead to. */
  lemma {:induction false} HalfReceives(snd: Send, c: Capsule, p: seq<Capsule>, r: Recv, isBidi: bool)
    requires c.Stream? && StreamOk(snd, [c] + p, true, true, [r])
    ensures match Receive(r, c.payload, c.fin)
            case None => StreamOk(snd, p, false, true, [r])
            case Some(r') => StreamOk(snd, p, true, !(c.fin && !isBidi), [r'])
  {
    assert ([c] + p)[0] == c && ([c] + p)[1..] == p;
    assert Bytes([c] + p) == c.payload + Bytes(p);
    assert c.fin ==> p == [];
    assert forall i :: 0 <= i < |p| ==> p[i] == ([c] + p)[i + 1];
    assert r.taken + r.buf.data + (c.payload + Bytes(p)) == r.taken + (r.buf.data + c.payload) + Bytes(p);
  }

  /** The first capsule of a stream makes its receive half. */
  lemma {:induction false} FirstCapsule(snd: Send, c: Capsule, p: seq<Capsule>, r: Recv)
    requires c.Stream? && StreamOk(snd, [c] + p, true, false, [])
    requires !r.closed && !r.buf.closed && r.buf.data == [] && r.taken == []
    ensures StreamOk(snd, [c] + p, true, true, [r]) && StreamOk(snd, p, false, true, [r])
  {
    assert r.taken + r.buf.data + Bytes([c] + p) == Bytes([c] + p);
    assert forall i :: 0 <= i < |p| ==> p[i] == ([c] + p)[i + 1];
    assert ([c] + p)[1..] == p;
  }

  // ---------- one stream in one direction, as two rows ----------

  /** `x` sends, `y` receives; `ours` is from `x`'s point of view. */
  predicate LinkOk(id: nat, isBidi: bool, ours: bool, x: Row, p: seq<Capsule>, alive: bool, y: Row) {
    && StreamOk(RowSend(x, id), p, alive, RowRoute(y, isBidi).Some?, y.objects)
    && (p != [] ==> RowHasSend(x))
    && (!ours && x.bidi.Some? ==> y.bidi.Some?)
  }

  lemma {:induction false} SenderMoves(id: nat, isBidi: bool, ours: bool, created: nat, mayOpen: bool, size: int,
                                       x: Row, x': Row, out: seq<Capsule>, p: seq<Capsule>, alive: bool, y: Row)
    requires LinkOk(id, isBidi, ours, x, p, alive, y) && RowOk(id, isBidi, ours, created, x)
    requires Move(id, isBidi, mayOpen, size, x, x', out) && (mayOpen ==> ours && created <= id)
    ensures LinkOk(id, isBidi, ours, x', p + out, alive, y)
  {
    var routed := RowRoute(y, isBidi).Some?;
    assert p + [] == p;
    if WriteMove(id, x, x', out) {
      SenderWrites(RowSend(x, id), p, alive, routed, y.objects, out[0]);
    } else if CloseMove(id, x, x', out) {
      SenderCloses(RowSend(x, id), p, alive, routed, y.objects, id);
    }
  }

  /** The receiver itself opens the stream: the sender cannot have used it. */
  lemma {:induction false} ReceiverOpens(id: nat, isBidi: bool, ours: bool, createdX: nat, createdY: nat, size: int,
                                         x: Row, p: seq<Capsule>, alive: bool, y: Row, y': Row)
    requires LinkOk(id, isBidi, ours, x, p, alive, y)
    requires RowOk(id, isBidi, ours, createdX, x) && RowOk(id, isBidi, !ours, createdY, y)
    requires !ours && createdY <= id && OpenMove(id, isBidi, size, y, y', [])
    ensures LinkOk(id, isBidi, ours, x, p, alive, y')
  {
    assert y.bidi.None? && y.objects == [] && p == [] && RowSend(x, id) == NewSend(id);
  }

  lemma {:induction false} ReceiverReads(id: nat, isBidi: bool, ours: bool, x: Row, p: seq<Capsule>, alive: bool,
                                         y: Row, y': Row, gen: nat, k: nat)
    requires LinkOk(id, isBidi, ours, x, p, alive, y) && ReadMove(y, y', [], gen, k)
    ensures LinkOk(id, isBidi, ours, x, p, alive, y')
  {
    ReaderReads(RowSend(x, id), p, alive, RowRoute(y, isBidi).Some?, y.objects, k);
  }

  lemma {:induction false} ReceiverCloses(id: nat, isBidi: bool, ours: bool, x: Row, p: seq<Capsule>, alive: bool,
                                          y: Row, y': Row, gen: nat)
    requires LinkOk(id, isBidi, ours, x, p, alive, y) && CloseRecvMove(y, y', [], gen)
    ensures LinkOk(id, isBidi, ours, x, p, alive, y')
  {
    ReaderCloses(RowSend(x, id), p, alive, RowRoute(y, isBidi).Some?, y.objects);
  }

  /** What the receiver sends does not disturb what it receives. */
  lemma {:induction false} ReceiverSends(id: nat, isBidi: bool, ours: bool, x: Row, p: seq<Capsule>, alive: bool,
                                         y: Row, y': Row, out: seq<Capsule>)
    requires LinkOk(id, isBidi, ours, x, p, alive, y)
    requires (y' == y && out == []) || WriteMove(id, y, y', out) || CloseMove(id, y, y', out)
    ensures LinkOk(id, isBidi, ours, x, p, alive, y')
  {
  }

  lemma {:induction false} ReceiverMoves(id: nat, isBidi: bool, ours: bool, createdX: nat, createdY: nat,
                                         mayOpen: bool, size: int, x: Row, p: seq<Capsule>, alive: bool, alive': bool,
                                         y: Row, y': Row, out: seq<Capsule>)
    requires LinkOk(id, isBidi, ours, x, p, alive, y) && (alive' ==> alive)
    requires RowOk(id, isBidi, ours, createdX, x) && RowOk(id, isBidi, !ours, createdY, y)
    requires Move(id, isBidi, mayOpen, size, y, y', out) && (mayOpen ==> !ours && createdY <= id)
    ensures LinkOk(id, isBidi, ours, x, p, alive', y')
  {
    LoopReturns(RowSend(x, id), p, alive, RowRoute(y, isBidi).Some?, y.objects);
    assert LinkOk(id, isBidi, ours, x, p, alive', y);
    if (y' == y && out == []) || WriteMove(id, y, y', out) || CloseMove(id, y, y', out) {
      ReceiverSends(id, isBidi, ours, x, p, alive', y, y', out);
    } else if mayOpen && OpenMove(id, isBidi, size, y, y', out) {
      ReceiverOpens(id, isBidi, ours, createdX, createdY, size, x, p, alive', y, y');
    } else if k, gen :| ReadMove(y, y', out, gen, k) {
      ReceiverReads(id, isBidi, ours, x, p, alive', y, y', gen, k);
    } else if gen :| CloseRecvMove(y, y', out, gen) {
      ReceiverCloses(id, isBidi, ours, x, p, alive', y, y', gen);
    }
  }

  lemma {:induction false} KnownHandles(id: nat, isBidi: bool, ours: bool, createdY: nat, size: int, x: Row,
                                        c: Capsule, p: seq<Capsule>, y: Row, unwanted: bool)
    requires c.Stream? && c.id == id && LinkOk(id, isBidi, ours, x, [c] + p, true, y)
    requires RowOk(id, isBidi, !ours, createdY, y) && RowRoute(y, isBidi).Some?
    ensures var (y', ended) := RowHandle(y, id, isBidi, !ours, size, c.payload, c.fin, unwanted);
            LinkOk(id, isBidi, ours, x, p, !ended, y')
  {
    assert [c] + p != [] && y.objects == [y.objects[0]];
    HalfReceives(RowSend(x, id), c, p, y.objects[0], isBidi);
  }

  lemma {:induction false} NewHandles(id: nat, isBidi: bool, size: int, x: Row, c: Capsule, p: seq<Capsule>, y: Row,
                                      unwanted: bool)
    requires c.Stream? && c.id == id && LinkOk(id, isBidi, true, x, [c] + p, true, y)
    requires RowRoute(y, isBidi).None? && y.objects == []
    ensures var (y', ended) := RowHandle(y, id, isBidi, false, size, c.payload, c.fin, unwanted);
            LinkOk(id, isBidi, true, x, p, !ended, y')
  {
    var snd, r := RowSend(x, id), NewRecv(size, id);
    assert [c] + p != [] && y.objects + [r] == [r];
    FirstCapsule(snd, c, p, r);
    HalfReceives(snd, c, p, r, isBidi);
  }

  lemma {:induction false} ReceiverHandles(id: nat, isBidi: bool, ours: bool, createdX: nat, createdY: nat, size: int,
                                           x: Row, c: Capsule, p: seq<Capsule>, y: Row, unwanted: bool)
    requires c.Stream? && c.id == id && LinkOk(id, isBidi, ours, x, [c] + p, true, y)
    requires RowOk(id, isBidi, ours, createdX, x) && RowOk(id, isBidi, !ours, createdY, y)
    ensures var (y', ended) := RowHandle(y, id, isBidi, !ours, size, c.payload, c.fin, unwanted);
            LinkOk(id, isBidi, ours, x, p, !ended, y')
  {
    assert [c] + p != [];
    if RowRoute(y, isBidi).Some? {
      KnownHandles(id, isBidi, ours, createdY, size, x, c, p, y, unwanted);
    } else {
      assert y.objects == [] && ours;
      NewHandles(id, isBidi, size, x, c, p, y, unwanted);
    }
  }

  /** Handling a capsule may give the receiver a send half of its own. */
  lemma {:induction false} HandlerSends(id: nat, isBidi: bool, ours: bool, createdX: nat, createdY: nat, size: int,
                                        x: Row, y: Row, q: seq<Capsule>, aliveX: bool, payload: seq<Byte>, fin: bool,
                                        unwanted: bool)
    requires LinkOk(id, isBidi, !ours, y, q, aliveX, x) && RowHasSend(x)
    requires RowOk(id, isBidi, ours, createdX, x) && RowOk(id, isBidi, !ours, createdY, y)
    ensures LinkOk(id, isBidi, !ours, RowHandle(y, id, isBidi, !ours, size, payload, fin, unwanted).0, q, aliveX, x)
  {
  }

  // ---------- the two endpoints ----------

  /** An endpoint and what it has written that the other has not yet read. */
  datatype Side = Side(sess: Session, out: seq<Capsule>)

  datatype System = System(client: Side, server: Side)

  datatype Action =
    | Call(atServer: bool, e: Event)                  // anything but a capsule
    | ReadNext(atServer: bool, doneWins: bool)        // the next capsule from the other side
    | Issue(atServer: bool, g: Grant)                 // a WT_MAX_* capsule to the other side

  function At(w: System, server: bool): Side {
    if server then w.server else w.client
  }

  function Update(w: System, server: bool, mine: Side, other: Side): System {
    if server then System(other, mine) else System(mine, other)
  }

  function Act(w: System, a: Action): System {
    var mine, other := At(w, a.atServer), At(w, !a.atServer);
    match a
    case Call(_, e) =>
      if e.Incoming? then w
      else var (s, out) := Step(mine.sess, e); Update(w, a.atServer, Side(s, mine.out + out), other)
    case ReadNext(_, doneWins) =>
      if other.out == [] || !CanRead(mine.sess, other.out[0]) then w
      else Update(w, a.atServer, mine.(sess := Step(mine.sess, Incoming(other.out[0], doneWins)).0),
                  other.(out := other.out[1..]))
    case Issue(_, g) => Update(w, a.atServer, mine.(out := mine.out + [Limit(g)]), other)
  }

  function RunSystem(w: System, actions: seq<Action>): System
    decreases |actions|
  {
    if actions == [] then w else RunSystem(Act(w, actions[0]), actions[1..])
  }

  /** How each endpoint is set up: a peer snapshot or none, and buffer sizes. */
  datatype Setup = Setup(peer: Option<PeerLimits>, bufferSize: int, datagramSize: int)

  function NewSystem(client: Setup, server: Setup): System {
    System(Side(NewSession(false, client.peer, client.bufferSize, client.datagramSize), []),
           Side(NewSession(true, server.peer, server.bufferSize, server.datagramSize), []))
  }

  predicate Alive(s: Session) {
    s.loop != Ended
  }

  predicate LinkAt(x: Session, ch: seq<Capsule>, y: Session, id: nat) {
    LinkOk(id, IsBidi(id), Ours(x, id), RowOf(x.tables, id), Proj(ch, id), Alive(y), RowOf(y.tables, id))
  }

  ghost predicate Connected(x: Session, ch: seq<Capsule>, y: Session) {
    forall id :: LinkAt(x, ch, y, id)
  }

  ghost predicate SystemOk(w: System, n: nat) {
    && !w.client.sess.limits.isServer && w.server.sess.limits.isServer
    && WellFormed(w.client.sess) && WellFormed(w.server.sess)
    && Room(w.client.sess.limits, n) && Room(w.server.sess.limits, n)
    && Connected(w.client.sess, w.client.out, w.server.sess)
    && Connected(w.server.sess, w.server.out, w.client.sess)
  }

  /** A call at `x`, seen by both directions at stream `id`. */
  lemma {:induction false} CallKeepsLinks(x: Session, chX: seq<Capsule>, y: Session, chY: seq<Capsule>, e: Event,
                                          id: nat)
    requires x.limits.isServer != y.limits.isServer && Room(x.limits, 1) && !e.Incoming?
    requires WellFormed(x) && WellFormed(y)
    requires LinkAt(x, chX, y, id) && LinkAt(y, chY, x, id)
    ensures var (x', out) := Step(x, e); LinkAt(x', chX + out, y, id) && LinkAt(y, chY, x', id)
  {
    var (x', out) := Step(x, e);
    var isBidi, ours := IsBidi(id), Ours(x, id);
    var rx, rx', ry := RowOf(x.tables, id), RowOf(x'.tables, id), RowOf(y.tables, id);
    assert RowOk(id, isBidi, ours, x.limits.created, rx) && RowOk(id, isBidi, Ours(y, id), y.limits.created, ry);
    StepFrame(x, e, 1);
    LocalStepMoves(x, e, id);
    ProjConcat(chX, out, id);
    SenderMoves(id, isBidi, ours, x.limits.created, MayOpen(x, x', id), x.bufferSize, rx, rx', Proj(out, id),
                Proj(chX, id), Alive(y), ry);
    LoopOnlyEnds(x, e);
    ReceiverMoves(id, isBidi, Ours(y, id), y.limits.created, x.limits.created, MayOpen(x, x', id), x.bufferSize,
                  ry, Proj(chY, id), Alive(x), Alive(x'), rx, rx', Proj(out, id));
  }

  lemma LoopOnlyEnds(s: Session, e: Event)
    ensures Alive(Step(s, e).0) ==> Alive(s)
  {
    if e.Incoming? || Alive(s) {
    } else if Quiet(e) {
    } else {
      match e
      case OpenCall(_, _) =>
      case WriteCall(_, _, _) =>
      case CloseSendCall(_, _) =>
      case ReadCall(_, _) =>
      case CloseRecvCall(_) =>
    }
  }

  /** The next capsule from `x` is read at `y` and concerns stream `id`. */
  lemma {:induction false} StreamReadKeepsLinks(x: Session, c: Capsule, p: seq<Capsule>, y: Session,
                                                chY: seq<Capsule>, doneWins: bool, id: nat, y': Session)
    requires x.limits.isServer != y.limits.isServer && c.Stream? && c.id == id && CanRead(y, c)
    requires WellFormed(x) && WellFormed(y)
    requires LinkOk(id, IsBidi(id), Ours(x, id), RowOf(x.tables, id), [c] + p, true, RowOf(y.tables, id))
    requires LinkAt(y, chY, x, id)
    requires y'.limits.isServer == y.limits.isServer
    requires (RowOf(y'.tables, id), y'.loop == Ended) ==
             RowHandle(RowOf(y.tables, id), id, IsBidi(id), Ours(y, id), y.bufferSize, c.payload, c.fin,
                       Unwanted(y, id, doneWins))
    ensures LinkOk(id, IsBidi(id), Ours(x, id), RowOf(x.tables, id), p, Alive(y'), RowOf(y'.tables, id))
    ensures LinkAt(y', chY, x, id)
  {
    var rx, ry := RowOf(x.tables, id), RowOf(y.tables, id);
    assert RowOk(id, IsBidi(id), Ours(x, id), x.limits.created, rx);
    assert RowOk(id, IsBidi(id), Ours(y, id), y.limits.created, ry);
    assert [c] + p != [];
    ReceiverHandles(id, IsBidi(id), Ours(x, id), x.limits.created, y.limits.created, y.bufferSize,
                    rx, c, p, ry, Unwanted(y, id, doneWins));
    HandlerSends(id, IsBidi(id), Ours(x, id), x.limits.created, y.limits.created, y.bufferSize,
                 rx, ry, Proj(chY, id), Alive(x), c.payload, c.fin, Unwanted(y, id, doneWins));
  }

  /** The next capsule from `x` is read at `y`. */
  lemma {:induction false} ReadKeepsLinks(x: Session, chX: seq<Capsule>, y: Session, chY: seq<Capsule>,
                                          doneWins: bool, id: nat)
    requires x.limits.isServer != y.limits.isServer && chX != [] && CanRead(y, chX[0]) && Room(y.limits, 1)
    requires WellFormed(x) && WellFormed(y)
    requires LinkAt(x, chX, y, id) && LinkAt(y, chY, x, id)
    ensures var y' := Step(y, Incoming(chX[0], doneWins)).0;
            LinkAt(x, chX[1..], y', id) && LinkAt(y', chY, x, id)
  {
    var c, p := chX[0], Proj(chX[1..], id);
    var y' := Step(y, Incoming(c, doneWins)).0;
    StepFrame(y, Incoming(c, doneWins), 1);
    IncomingRow(y, c, doneWins, id);
    if c.Stream? && c.id == id {
      assert Proj(chX, id) == [c] + p;
      StreamReadKeepsLinks(x, c, p, y, chY, doneWins, id, y');
    } else {
      assert Proj(chX, id) == p;
      OtherReadKeepsLinks(x, chX, y, chY, id, y');
    }
  }

  /** Another stream's capsule leaves the rows of `id` alone; at most the loop
      returns. */
  lemma {:induction false} OtherReadKeepsLinks(x: Session, chX: seq<Capsule>, y: Session, chY: seq<Capsule>, id: nat,
                                               y': Session)
    requires chX != [] && Alive(y) && LinkAt(x, chX, y, id) && LinkAt(y, chY, x, id)
    requires Proj(chX, id) == Proj(chX[1..], id)
    requires y'.limits.isServer == y.limits.isServer && RowOf(y'.tables, id) == RowOf(y.tables, id)
    ensures LinkAt(x, chX[1..], y', id) && LinkAt(y', chY, x, id)
  {
    var rx, ry := RowOf(x.tables, id), RowOf(y.tables, id);
    LoopReturns(RowSend(rx, id), Proj(chX, id), true, RowRoute(ry, IsBidi(id)).Some?, ry.objects);
  }

  lemma {:induction false} ActKeepsOk(w: System, a: Action, n: nat)
    requires SystemOk(w, n) && n > 0
    ensures SystemOk(Act(w, a), n - 1)
  {
    var mine, other := At(w, a.atServer), At(w, !a.atServer);
    var x, y := mine.sess, other.sess;
    var w' := Act(w, a);
    RoomLess(x.limits, n);
    RoomLess(y.limits, n);
    match a
    case Call(_, e) =>
      if !e.Incoming? {
        StepFrame(x, e, n);
        StepKeepsTables(x, e);
        var (x', out) := Step(x, e);
        forall id ensures LinkAt(x', mine.out + out, y, id) && LinkAt(y, other.out, x', id) {
          CallKeepsLinks(x, mine.out, y, other.out, e, id);
        }
      }
    case ReadNext(_, doneWins) =>
      if other.out != [] && CanRead(x, other.out[0]) {
        var e := Incoming(other.out[0], doneWins);
        StepFrame(x, e, n);
        StepKeepsTables(x, e);
        var x' := Step(x, e).0;
        forall id ensures LinkAt(y, other.out[1..], x', id) && LinkAt(x', mine.out, y, id) {
          ReadKeepsLinks(y, other.out, x, mine.out, doneWins, id);
        }
      }
    case Issue(_, g) =>
      forall id ensures LinkAt(x, mine.out + [Limit(g)], y, id) && LinkAt(y, other.out, x, id) {
        assert LinkAt(x, mine.out, y, id);
        ProjConcat(mine.out, [Limit(g)], id);
        ProjOne(Limit(g), id);
        assert Proj(mine.out + [Limit(g)], id) == Proj(mine.out, id);
      }
  }

  lemma RoomLess(l: Limits, n: nat)
    requires Room(l, n) && n > 0
    ensures Room(l, n - 1) && Room(l, 1)
  {
  }

  lemma {:induction false} RunKeepsOk(w: System, actions: seq<Action>, n: nat)
    requires SystemOk(w, n) && |actions| <= n
    ensures SystemOk(RunSystem(w, actions), n - |actions|)
    decreases |actions|
  {
    if actions != [] {
      ActKeepsOk(w, actions[0], n);
      RunKeepsOk(Act(w, actions[0]), actions[1..], n - 1);
    }
  }

  /** The ID counter cannot wrap: a peer snapshot bounds the opens, or the run
      is shorter than the 2^62 opens that wrapping takes. */
  predicate NoWrap(u: Setup, actions: seq<Action>) {
    (u.peer.Some? && u.peer.value.Valid()) || |actions| < TWO_62
  }

  lemma {:induction false} StartOk(client: Setup, server: Setup, actions: seq<Action>)
    requires NoWrap(client, actions) && NoWrap(server, actions)
    ensures SystemOk(NewSystem(client, server), |actions|)
  {
    var w := NewSystem(client, server);
    assert forall id :: Proj([], id) == [] && RowOf(w.client.sess.tables, id) == EMPTY
                        && RowOf(w.server.sess.tables, id) == EMPTY;
  }

  /** `io.EOF` is what the next Read of this half returns. */
  predicate AtEOF(r: Recv) {
    ReceiveBuffer.ReadFrom(r.buf, 1).1.EOF?
  }

  /** Both halves of the delivery of stream `id` from `x` through `ch` to `y`. What
      the reader has is sound: at most one receive half, offered at most once,
      with a prefix of what was written, and EOF only after all of it, from a
      writer that has closed. And it is complete: as long as the read loop runs,
      what has left the channel is there, all of it is taken or buffered, and a
      FIN that was written makes the drained half answer EOF. */
  ghost predicate Delivered(x: Session, ch: seq<Capsule>, y: Session, id: nat) {
    var halves, sent := Objects(y.tables, id), SendHalf(x.tables, id);
    var arrived := Alive(y) && Proj(ch, id) == [];
    && multiset(y.tables.offered)[id] <= |halves| <= 1
    && (arrived && (sent.written != [] || sent.fin) ==> halves != [])
    && (halves != [] ==>
          var r := halves[0];
          && r.id == id && r.taken <= sent.written
          && (AtEOF(r) && !r.closed ==> sent.closed && r.taken == sent.written)
          && (arrived && !r.closed ==> r.taken + r.buf.data == sent.written)
          && (arrived && !r.closed && sent.fin && r.taken == sent.written ==> AtEOF(r)))
  }

  /** End-to-end delivery, in every run of two endpoints, under any interleaving of
      opens, writes, failed writes, closes, limit capsules, reads, session ends
      and capsule steps. */
  lemma {:induction false} EndToEndDelivery(client: Setup, server: Setup, actions: seq<Action>, readerIsServer: bool,
                                            id: nat)
    requires NoWrap(client, actions) && NoWrap(server, actions)
    ensures var w := RunSystem(NewSystem(client, server), actions);
            var reader, writer := At(w, readerIsServer), At(w, !readerIsServer);
            Delivered(writer.sess, writer.out, reader.sess, id)
  {
    StartOk(client, server, actions);
    RunKeepsOk(NewSystem(client, server), actions, |actions|);
    var w := RunSystem(NewSystem(client, server), actions);
    var y, x := At(w, readerIsServer), At(w, !readerIsServer);
    LinkDelivers(x.sess, x.out, y.sess, id);
  }

  lemma {:induction false} LinkDelivers(x: Session, ch: seq<Capsule>, y: Session, id: nat)
    requires Connected(x, ch, y) && WellFormed(y)
    ensures Delivered(x, ch, y, id)
  {
    assert LinkAt(x, ch, y, id);
    assert RowOk(id, IsBidi(id), Ours(y, id), y.limits.created, RowOf(y.tables, id));
    if Objects(y.tables, id) != [] {
      var r := Objects(y.tables, id)[0];
      assert r.taken <= r.taken + r.buf.data;
      assert r.taken + [] == r.taken;
      assert Proj(ch, id) == [] ==> r.taken + r.buf.data + Bytes(Proj(ch, id)) == r.taken + r.buf.data;
      assert r.taken + r.buf.data == r.taken ==> |r.buf.data| == 0;
    }
  }

  /** `n` reads into slices of length `k`. */
  function ReadTimes(r: Recv, k: nat, n: nat): Recv
    decreases n
  {
    if n == 0 then r else ReadTimes(ReadHalf(r, k), k, n - 1)
  }

  /** Reading on gets everything: once the buffer is closed, as many reads as there
      are bytes, of any size but zero, take them all and come to EOF. */
  lemma {:induction false} DrainsToEOF(r: Recv, k: nat, n: nat)
    requires r.buf.closed && k > 0 && n >= |r.buf.data|
    ensures ReadTimes(r, k, n).taken == r.taken + r.buf.data && AtEOF(ReadTimes(r, k, n))
    decreases n
  {
    ReadMovesBytes(r, k);
    if n > 0 {
      DrainsToEOF(ReadHalf(r, k), k, n - 1);
    } else {
      assert r.taken + r.buf.data == r.taken;
    }
  }

  // ---------- the channel as bytes ----------

  /** Sizes and grants that fit the varint range, as any Go slice's do. */
  predicate Sized(a: Action) {
    && (a.Call? ==> (a.e.WriteCall? ==> |a.e.p| + 8 < TWO_62) && (a.e.DatagramCall? ==> |a.e.p| < TWO_62))
    && (a.Issue? ==> Encodable(Limit(a.g)))
  }

  predicate AllEncodable(cs: seq<Capsule>) {
    forall i :: 0 <= i < |cs| ==> Encodable(cs[i])
  }

  /** The calls of CloseWithError under way passed its length check. */
  predicate CallsFit(s: Session) {
    forall k :: 0 <= k < |s.closes.calls| ==> Encodable(CloseSession(s.closes.calls[k].code, s.closes.calls[k].message))
  }

  lemma StepWritesEncodable(s: Session, a: Action)
    requires a.Call? && !a.e.Incoming? && Sized(a) && CallsFit(s)
    ensures AllEncodable(Step(s, a.e).1) && CallsFit(Step(s, a.e).0)
  {
    var e := a.e;
    if Quiet(e) {
    } else {
      match e
      case OpenCall(_, _) =>
      case WriteCall(_, _, _) =>
      case CloseSendCall(_, _) =>
      case ReadCall(_, _) =>
      case CloseRecvCall(_) =>
    }
  }

  lemma ReadKeepsCalls(s: Session, c: Capsule, doneWins: bool)
    requires CanRead(s, c)
    ensures Step(s, Incoming(c, doneWins)).0.closes.calls == s.closes.calls
  {
    if c.Stream? {
      HandleStreamTables(s, c.id, c.payload, c.fin, doneWins);
    }
  }

  lemma {:induction false} RunWritesEncodable(w: System, actions: seq<Action>)
    requires forall i :: 0 <= i < |actions| ==> Sized(actions[i])
    requires AllEncodable(w.client.out) && AllEncodable(w.server.out)
    requires CallsFit(w.client.sess) && CallsFit(w.server.sess)
    ensures AllEncodable(RunSystem(w, actions).client.out) && AllEncodable(RunSystem(w, actions).server.out)
    decreases |actions|
  {
    if actions != [] {
      var a := actions[0];
      var mine, other := At(w, a.atServer), At(w, !a.atServer);
      if a.Call? && !a.e.Incoming? {
        StepWritesEncodable(mine.sess, a);
      } else if a.ReadNext? && other.out != [] && CanRead(mine.sess, other.out[0]) {
        ReadKeepsCalls(mine.sess, other.out[0], a.doneWins);
      }
      RunWritesEncodable(Act(w, a), actions[1..]);
    }
  }

  /** Whatever is under way in either direction survives its trip as bytes: the
      reader parses exactly the capsules that the writer wrote. */
  lemma {:induction false} ChannelSurvivesWire(client: Setup, server: Setup, actions: seq<Action>, fromServer: bool)
    requires forall i :: 0 <= i < |actions| ==> Sized(actions[i])
    ensures var out := At(RunSystem(NewSystem(client, server), actions), fromServer).out;
            AllEncodable(out) && ParseAll(EncodeAll(out)) == Parsed(out, [])
  {
    RunWritesEncodable(NewSystem(client, server), actions);
    WireRoundTrip(At(RunSystem(NewSystem(client, server), actions), fromServer).out);
  }
}
