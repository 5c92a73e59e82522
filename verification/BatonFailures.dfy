/** The exchange when the connection fails under it: capsule writes and FINs may
    fail and a read loop may return at any time, and the other chains and the
    other side go on. */
module BatonFailures {
  import opened StreamIds
  import opened SendLimits
  import opened Varints
  import opened BatonCodec
  import opened BatonChain
  import opened Baton

  /** What becomes of a message whose bytes the limits admit. */
  datatype Outcome = Emitted | WriteFails | FinFails

  datatype Turn =
    | TryOpen(c: nat)
    | TrySend(c: nat, o: Outcome)
    | TakeIn(c: nat)
    | Swamp(c: nat)                // the receiver's stream buffer refuses the message
    | LoopEnds(x: Side)            // the read loop of `x` returns for a reason of its own

  /** `gaveUp`: the handler of that side on that chain has called `fail`. */
  datatype Faulty = Faulty(s: State, gaveUp: set<(nat, Side)>)

  /** A message, its FIN and, for a zero, the completion: a failed write is
      refunded, a failed FIN is not. */
  function PartySend(p: Party, id: nat, baton: Byte, o: Outcome): (Party, Option<seq<Byte>>)
    requires p.padding < TWO_62
  {
    var n := |Message(p.padding, baton)|;
    var l := Reserve(p.limits, id, n);
    if o.Emitted? || ReserveVerdict(p.limits, id, n) != Ok then PartyWrite(p, id, baton)
    else (Fail(p.(limits := if o.WriteFails? then Refund(l, id, n) else l)), None)
  }

  /** Whose step is next on a chain. */
  function Mover(pos: Position): Option<Side> {
    match pos
    case ToOpen(at, _, _) => Some(at)
    case ToWrite(at, _, _, _) => Some(at)
    case Flight(to, _, _, _) => Some(to)
    case Over => None
  }

  /** As in the exchange without failures, but a side that has failed may or may
      not go on accepting, and an open is tried in a closed session too. A stream
      buffer gives only bytes or EOF, so no read fails: a side whose read loop has
      returned takes nothing in, and nothing tells its handlers. */
  predicate Ready(f: Faulty, t: Turn) {
    match t
    case LoopEnds(x) => !At(f.s, x).deaf
    case TryOpen(c) =>
      c < |f.s.chains| && var pos := f.s.chains[c].pos; pos.ToOpen? && (c, pos.at) !in f.gaveUp
    case TrySend(c, _) =>
      c < |f.s.chains| && var pos := f.s.chains[c].pos; pos.ToWrite? && (c, pos.at) !in f.gaveUp
    case TakeIn(c) =>
      && c < |f.s.chains|
      && var pos := f.s.chains[c].pos;
         && pos.Flight? && (c, pos.to) !in f.gaveUp
         && !At(f.s, pos.to).deaf && Holds(At(f.s, pos.to).buffer, |pos.msg|)
         && (pos.kind == SelfBidi || !At(f.s, pos.to).done || At(f.s, pos.to).failed)
    case Swamp(c) =>
      && c < |f.s.chains|
      && var pos := f.s.chains[c].pos;
         pos.Flight? && !At(f.s, pos.to).deaf && !Holds(At(f.s, pos.to).buffer, |pos.msg|)
  }

  function Next(f: Faulty, t: Turn): Faulty
    requires Padded(f.s)
  {
    if !Ready(f, t) then f
    else if t.LoopEnds? then f.(s := Put(f.s, t.x, At(f.s, t.x).(deaf := true)))
    else
      var c, pos := t.c, f.s.chains[t.c].pos;
      match t
      case TryOpen(_) =>
        var refused := PartyOpen(At(f.s, pos.at), pos.bidi).1.None?;
        Faulty(OpenStep(f.s, c), if refused then f.gaveUp + {(c, pos.at)} else f.gaveUp)
      case TrySend(_, o) =>
        var (p, msg) := PartySend(At(f.s, pos.at), pos.id, pos.baton, o);
        if msg.None? then Faulty(Put(f.s, pos.at, p), f.gaveUp + {(c, pos.at)})
        else Faulty(PutChain(Put(f.s, pos.at, p), c, Wrote(f.s.chains[c], msg.value)), f.gaveUp)
      case TakeIn(_) =>
        Faulty(DeliverStep(f.s, c), if DecodeBaton(pos.msg).None? then f.gaveUp + {(c, pos.to)} else f.gaveUp)
      case Swamp(_) => f.(s := OverflowStep(f.s, c))
  }

  lemma NextKeepsPadding(f: Faulty, t: Turn)
    requires Padded(f.s)
    ensures Next(f, t).s.client.padding == f.s.client.padding && Next(f, t).s.server.padding == f.s.server.padding
    ensures Next(f, t).s.client.buffer == f.s.client.buffer && Next(f, t).s.server.buffer == f.s.server.buffer
    ensures |Next(f, t).s.chains| == |f.s.chains| && Next(f, t).s.first == f.s.first
  {
    if Ready(f, t) && t.TrySend? {
      var pos := f.s.chains[t.c].pos;
      SendKeepsPadding(At(f.s, pos.at), pos.id, pos.baton, t.o);
    } else if Ready(f, t) && t.TakeIn? {
      var pos := f.s.chains[t.c].pos;
      ReceiveKeepsPadding(At(f.s, pos.to), pos.kind, pos.id, pos.msg);
    }
  }

  lemma SendKeepsPadding(p: Party, id: nat, baton: Byte, o: Outcome)
    requires p.padding < TWO_62
    ensures var p' := PartySend(p, id, baton, o).0;
            p'.padding == p.padding && p'.buffer == p.buffer && p'.deaf == p.deaf
  {
  }

  function RunTurns(f: Faulty, ts: seq<Turn>): Faulty
    requires Padded(f.s)
    decreases |ts|
  {
    if ts == [] then f
    else
      NextKeepsPadding(f, ts[0]);
      RunTurns(Next(f, ts[0]), ts[1..])
  }

  // ---------- the invariant, side by side ----------

  /** A side that failed has its error set, and has given up a chain whose zero it
      will never see. */
  ghost predicate SideOk(f: Faulty, x: Side) {
    && At(f.s, x).failed == At(f.s, x).err && (At(f.s, x).failed ==> At(f.s, x).done)
    && (At(f.s, x).failed ==> exists c :: (c, x) in f.gaveUp)
    && (forall c :: (c, x) in f.gaveUp ==> At(f.s, x).failed)
  }

  ghost predicate Unseen(f: Faulty) {
    forall c, x :: (c, x) in f.gaveUp ==> c < |f.s.chains| && !HasSeen(f.s.first, x, f.s.chains[c])
  }

  ghost predicate FaultyOk(f: Faulty) {
    Exchange(f.s) && SideOk(f, Client) && SideOk(f, Server) && Unseen(f)
  }

  /** A side that has not seen every zero still counts. */
  lemma StillCounts(s: State, x: Side, c: nat)
    requires Exchange(s) && c < |s.chains| && !HasSeen(s.first, x, s.chains[c])
    ensures At(s, x).active > 0
  {
    SeenAll(s, x);
  }

  /** Whoever is next to move a chain has not seen its zero. */
  lemma MoverUnseen(first: Byte, ch: Chain, x: Side)
    requires ChainOk(first, ch) && Mover(ch.pos) == Some(x)
    ensures !HasSeen(first, x, ch)
  {
    ZeroAtLastHop(first, LastHop(first));
  }

  /** So a failure comes before the side is done, unless it failed before. */
  lemma FailReports(f: Faulty, c: nat, x: Side, l: Limits)
    requires FaultyOk(f) && c < |f.s.chains| && Mover(f.s.chains[c].pos) == Some(x)
    requires Counted(l) && l.isServer == (x == Server)
    ensures FaultyOk(Faulty(Put(f.s, x, Fail(At(f.s, x).(limits := l))), f.gaveUp + {(c, x)}))
  {
    var f' := Faulty(Put(f.s, x, Fail(At(f.s, x).(limits := l))), f.gaveUp + {(c, x)});
    FailKeeps(f.s, x, l);
    MoverUnseen(f.s.first, f.s.chains[c], x);
    StillCounts(f.s, x, c);
    assert (c, x) in f'.gaveUp;
    assert SideOk(f', x) && SideOk(f', Other(x));
  }

  /** A step of `x` that does not fail shows no zero to the other side. */
  lemma MoveReports(f: Faulty, s': State, c: nat, x: Side)
    requires FaultyOk(f) && Moved(f.s, s', c, x) && Mover(f.s.chains[c].pos) == Some(x) && (c, x) !in f.gaveUp
    ensures FaultyOk(Faulty(s', f.gaveUp))
  {
    var f' := Faulty(s', f.gaveUp);
    forall d, y | (d, y) in f.gaveUp ensures d < |s'.chains| && !HasSeen(s'.first, y, s'.chains[d]) {
      if d == c {
        assert y == Other(x);
      }
    }
    assert SideOk(f', Client) && SideOk(f', Server);
  }

  lemma OpenReports(f: Faulty, c: nat)
    requires FaultyOk(f) && Ready(f, TryOpen(c))
    ensures FaultyOk(Next(f, TryOpen(c)))
  {
    var pos := f.s.chains[c].pos;
    var p := At(f.s, pos.at);
    OpenKeeps(f.s, c);
    if PartyOpen(p, pos.bidi).1.None? {
      FailReports(f, c, pos.at, p.limits);
      assert p.(limits := p.limits) == p;
    } else {
      MoveReports(f, OpenStep(f.s, c), c, pos.at);
    }
  }

  lemma TakeReports(f: Faulty, c: nat)
    requires FaultyOk(f) && Ready(f, TakeIn(c))
    ensures FaultyOk(Next(f, TakeIn(c)))
  {
    TakeMoves(f.s, c);
    MoveReports(f, DeliverStep(f.s, c), c, f.s.chains[c].pos.to);
  }

  /** What a step of `x` on chain `c` that does not fail does to the rest. */
  ghost predicate Moved(s: State, s': State, c: nat, x: Side) {
    && Exchange(s') && c < |s.chains| == |s'.chains| && s'.first == s.first
    && s'.chains == s.chains[c := s'.chains[c]]
    && (HasSeen(s'.first, Other(x), s'.chains[c]) <==> HasSeen(s'.first, Other(x), s.chains[c]))
    && s'.client.failed == s.client.failed && s'.client.err == s.client.err && (s.client.done ==> s'.client.done)
    && s'.server.failed == s.server.failed && s'.server.err == s.server.err && (s.server.done ==> s'.server.done)
  }

  lemma TakeMoves(s: State, c: nat)
    requires Exchange(s) && c < |s.chains| && s.chains[c].pos.Flight?
    ensures Moved(s, DeliverStep(s, c), c, s.chains[c].pos.to) && DecodeBaton(s.chains[c].pos.msg).Some?
  {
    var ch := s.chains[c];
    assert ChainOk(s.first, ch);
    DeliverKeeps(s, c);
    SeenAfterReceive(s.first, ch);
    QuietParties(At(s, ch.pos.to), ch.pos.kind, ch.pos.id, ch.pos.msg, 0);
  }

  lemma SendMoves(s: State, c: nat)
    requires Exchange(s) && c < |s.chains| && s.chains[c].pos.ToWrite?
    requires var pos := s.chains[c].pos;
             ReserveVerdict(At(s, pos.at).limits, pos.id, |Message(At(s, pos.at).padding, pos.baton)|) == Ok
    ensures Moved(s, SendStep(s, c), c, s.chains[c].pos.at)
  {
    var ch := s.chains[c];
    var p := At(s, ch.pos.at);
    assert ChainOk(s.first, ch);
    SendKeeps(s, c);
    SeenAfterSend(s.first, ch, Message(p.padding, ch.pos.baton));
    QuietParties(p, ch.pos.kind, ch.pos.id, [], ch.pos.baton);
  }

  lemma EmitReports(f: Faulty, c: nat)
    requires FaultyOk(f) && Ready(f, TrySend(c, Emitted))
    requires var pos := f.s.chains[c].pos;
             ReserveVerdict(At(f.s, pos.at).limits, pos.id, |Message(At(f.s, pos.at).padding, pos.baton)|) == Ok
    ensures FaultyOk(Next(f, TrySend(c, Emitted)))
  {
    SendMoves(f.s, c);
    assert Next(f, TrySend(c, Emitted)) == Faulty(SendStep(f.s, c), f.gaveUp);
    MoveReports(f, SendStep(f.s, c), c, f.s.chains[c].pos.at);
  }

  lemma SendReports(f: Faulty, c: nat, o: Outcome)
    requires FaultyOk(f) && Ready(f, TrySend(c, o))
    ensures FaultyOk(Next(f, TrySend(c, o)))
  {
    var pos := f.s.chains[c].pos;
    var p := At(f.s, pos.at);
    var n := |Message(p.padding, pos.baton)|;
    var l := Reserve(p.limits, pos.id, n);
    assert PartyOk(f.s, pos.at);
    if ReserveVerdict(p.limits, pos.id, n) != Ok {
      FailReports(f, c, pos.at, p.limits);
      assert p.(limits := p.limits) == p;
    } else if o.Emitted? {
      EmitReports(f, c);
    } else {
      ChargeCounted(p.limits, pos.id, n);
      FailReports(f, c, pos.at, if o.WriteFails? then Refund(l, pos.id, n) else l);
    }
  }

  lemma ChargeCounted(l: Limits, id: nat, n: nat)
    requires Counted(l)
    ensures Counted(Reserve(l, id, n)) && Counted(Refund(Reserve(l, id, n), id, n))
    ensures Reserve(l, id, n).isServer == l.isServer && Refund(Reserve(l, id, n), id, n).isServer == l.isServer
  {
    CountedOthers(l, id, n, MaxData(0));
    CountedOthers(Reserve(l, id, n), id, n, MaxData(0));
  }

  /** A read loop that returns reports nothing and moves no chain. */
  lemma DeafReports(f: Faulty, s': State)
    requires FaultyOk(f) && Exchange(s') && s'.chains == f.s.chains && s'.first == f.s.first
    requires s'.client.failed == f.s.client.failed && s'.client.err == f.s.client.err
    requires s'.server.failed == f.s.server.failed && s'.server.err == f.s.server.err
    requires (f.s.client.done ==> s'.client.done) && (f.s.server.done ==> s'.server.done)
    ensures FaultyOk(f.(s := s'))
  {
    var f' := f.(s := s');
    assert SideOk(f', Client) && SideOk(f', Server);
  }

  lemma {:induction false} NextReports(f: Faulty, t: Turn)
    requires FaultyOk(f)
    ensures FaultyOk(Next(f, t))
  {
    if Ready(f, t) {
      match t
      case TryOpen(c) => OpenReports(f, c);
      case TrySend(c, o) => SendReports(f, c, o);
      case TakeIn(c) => TakeReports(f, c);
      case Swamp(c) =>
        OverflowKeeps(f.s, c);
        DeafReports(f, OverflowStep(f.s, c));
      case LoopEnds(x) =>
        MarkKeeps(f.s, x, At(f.s, x).(deaf := true));
        DeafReports(f, Put(f.s, x, At(f.s, x).(deaf := true)));
    }
  }

  lemma {:induction false} RunReports(f: Faulty, ts: seq<Turn>)
    requires FaultyOk(f)
    ensures FaultyOk(RunTurns(f, ts))
    ensures RunTurns(f, ts).s.first == f.s.first && |RunTurns(f, ts).s.chains| == |f.s.chains|
    decreases |ts|
  {
    if ts != [] {
      NextKeepsPadding(f, ts[0]);
      NextReports(f, ts[0]);
      RunReports(Next(f, ts[0]), ts[1..]);
    }
  }

  function Begun(cfg: Config): Faulty {
    Faulty(Start(cfg), {})
  }

  /** Every open, write and FIN that fails is reported, however many do and
      whatever goes on beside them: a side has called `fail` exactly when its error is set, so
      ignoring errors after `done` hides none; a side that failed still counts a
      baton, so no side both fails and completes; and it is done exactly when
      the one or the other has happened. Its counter is, as without failures, the
      number of chains less those whose zero it has sent or received. */
  lemma {:induction false} FailuresAreReported(cfg: Config, ts: seq<Turn>, x: Side)
    requires cfg.Valid()
    ensures var s := RunTurns(Begun(cfg), ts).s;
            var p := At(s, x);
            && 0 <= p.active == |s.chains| - Sum(Seen(x), s.first, s.chains)
            && (p.failed <==> p.err)
            && (p.failed ==> p.active > 0)
            && (p.done ==> p.err || p.active == 0) && (p.err ==> p.done)
            && (cfg.count > 0 && p.active == 0 ==> p.done && !p.err)
  {
    StartOk(cfg);
    RunReports(Begun(cfg), ts);
    var f := RunTurns(Begun(cfg), ts);
    SeenAll(f.s, x);
    if At(f.s, x).failed {
      var c :| (c, x) in f.gaveUp;
      StillCounts(f.s, x, c);
    }
  }

  /** Failures bend no chain: in every run, message k of a chain still carries
      first + k modulo 256, from the side, on the kind of stream and with the
      initiator that k fixes. */
  lemma {:induction false} ShapeSurvivesFailures(cfg: Config, ts: seq<Turn>, c: nat, k: nat)
    requires cfg.Valid()
    requires c < |RunTurns(Begun(cfg), ts).s.chains| && k < |RunTurns(Begun(cfg), ts).s.chains[c].log|
    ensures Shaped(cfg.first, RunTurns(Begun(cfg), ts).s.chains[c].log, k)
  {
    StartOk(cfg);
    RunReports(Begun(cfg), ts);
    LogShape(cfg.first, RunTurns(Begun(cfg), ts).s.chains[c], k);
  }

  /** `fail` ends the exchange and sets the error, unless the exchange was done: an
      error that comes after is ignored. */
  lemma {:induction false} LateErrorsIgnored(p: Party)
    ensures var p' := Fail(p);
            && p'.done && p'.active == p.active && p'.limits == p.limits
            && (p.done ==> p'.err == p.err) && (!p.done ==> p'.err)
  {
  }

  // ---------- what is not reported ----------

  /** Side `x` has an open or a write to try. */
  predicate Busy(f: Faulty, x: Side) {
    exists c :: 0 <= c < |f.s.chains| && !f.s.chains[c].pos.Flight? && Mover(f.s.chains[c].pos) == Some(x)
  }

  /** Whatever happens, `x` will be neither done nor failed. */
  ghost predicate Hangs(f: Faulty, x: Side)
    requires Padded(f.s)
  {
    forall ts: seq<Turn> :: !At(RunTurns(f, ts).s, x).done && !At(RunTurns(f, ts).s, x).failed
  }

  lemma IdleStays(f: Faulty, t: Turn, x: Side)
    requires Padded(f.s) && At(f.s, x).deaf && !Busy(f, x)
    ensures var f' := Next(f, t); At(f'.s, x) == At(f.s, x) && !Busy(f', x)
  {
    if Ready(f, t) && !t.LoopEnds? {
      var pos := f.s.chains[t.c].pos;
      assert pos.Flight? || Mover(pos) != Some(x);
      assert forall d :: 0 <= d < |f.s.chains| && d != t.c ==> Next(f, t).s.chains[d] == f.s.chains[d];
    }
  }

  lemma {:induction false} IdleRuns(f: Faulty, ts: seq<Turn>, x: Side)
    requires Padded(f.s) && At(f.s, x).deaf && !Busy(f, x)
    ensures At(RunTurns(f, ts).s, x) == At(f.s, x)
    decreases |ts|
  {
    if ts != [] {
      NextKeepsPadding(f, ts[0]);
      IdleStays(f, ts[0], x);
      IdleRuns(Next(f, ts[0]), ts[1..], x);
    }
  }

  /** A side with something to try in a closed session, or on a connection that
      fails, can fail. */
  lemma BusyCanFail(f: Faulty, x: Side) returns (t: Turn)
    requires FaultyOk(f) && At(f.s, x).deaf && !At(f.s, x).failed && Busy(f, x)
    ensures At(Next(f, t).s, x).failed
  {
    var c :| 0 <= c < |f.s.chains| && !f.s.chains[c].pos.Flight? && Mover(f.s.chains[c].pos) == Some(x);
    assert SideOk(f, x);
    t := if f.s.chains[c].pos.ToOpen? then TryOpen(c) else TrySend(c, WriteFails);
    assert Ready(f, t);
  }

  /** Exactly which sides hang without a word: of the sides whose read loop has
      returned and that are neither done nor failed, those whose next step on
      every chain is a read, or the other side's. */
  lemma {:induction false} SilentExactlyWhen(cfg: Config, ts: seq<Turn>, x: Side)
    requires cfg.Valid()
    ensures var f := RunTurns(Begun(cfg), ts);
            && Padded(f.s)
            && (At(f.s, x).deaf && !At(f.s, x).done && !At(f.s, x).failed ==> (Hangs(f, x) <==> !Busy(f, x)))
  {
    StartOk(cfg);
    RunReports(Begun(cfg), ts);
    var f := RunTurns(Begun(cfg), ts);
    if At(f.s, x).deaf && !At(f.s, x).done && !At(f.s, x).failed {
      if Busy(f, x) {
        var t := BusyCanFail(f, x);
        NextKeepsPadding(f, t);
        assert [t][1..] == [] && RunTurns(f, [t]) == RunTurns(Next(f, t), []);
        assert At(RunTurns(f, [t]).s, x).failed;
      } else {
        forall more: seq<Turn> ensures !At(RunTurns(f, more).s, x).done && !At(RunTurns(f, more).s, x).failed {
          IdleRuns(f, more, x);
        }
      }
    }
  }

  /** The witness: the client's connection is lost at once. Whatever the server
      does then, the client is never done and never has an error. */
  lemma {:induction false} LostConnectionIsSilent(cfg: Config, ts: seq<Turn>)
    requires cfg.Valid()
    ensures var p := RunTurns(Begun(cfg), [LoopEnds(Client)] + ts).s.client; !p.done && !p.failed && !p.err
  {
    var f := Begun(cfg);
    var f1 := Next(f, LoopEnds(Client));
    NextKeepsPadding(f, LoopEnds(Client));
    assert ([LoopEnds(Client)] + ts)[1..] == ts;
    assert forall c :: 0 <= c < |f1.s.chains| ==> f1.s.chains[c] == Begin(cfg.first);
    IdleRuns(f1, ts, Client);
  }

  /** Nothing is left to try or to take in. */
  ghost predicate Quiet(f: Faulty) {
    forall t :: Ready(f, t) ==> t.LoopEnds?
  }

  /** A chain that will not move: it waits for a side whose read loop has returned,
      or for one that has given it up. */
  predicate Blocked(f: Faulty, c: nat)
    requires c < |f.s.chains|
  {
    var pos := f.s.chains[c].pos;
    (pos.Flight? && At(f.s, pos.to).deaf) || (Mover(pos).Some? && (c, Mover(pos).value) in f.gaveUp)
  }

  /** Where a run ends, a side that is not done waits for zeros on chains that
      are blocked; without read loops returning and without failures, there are
      none. */
  lemma {:induction false} SidesAtTheEnd(cfg: Config, ts: seq<Turn>, x: Side, c: nat)
    requires cfg.Valid() && Quiet(RunTurns(Begun(cfg), ts)) && c < |RunTurns(Begun(cfg), ts).s.chains|
    ensures var f := RunTurns(Begun(cfg), ts);
            && (!HasSeen(f.s.first, x, f.s.chains[c]) ==> Blocked(f, c))
            && (Blocked(f, c) ==> f.s.client.deaf || f.s.server.deaf || Failed(f.s))
  {
    StartOk(cfg);
    RunReports(Begun(cfg), ts);
    var f := RunTurns(Begun(cfg), ts);
    var pos := f.s.chains[c].pos;
    assert ChainOk(f.s.first, f.s.chains[c]) && SideOk(f, Client) && SideOk(f, Server);
    if !pos.Over? && !Blocked(f, c) {
      UnblockedMoves(f, c);
      assert false;
    }
  }

  lemma UnblockedMoves(f: Faulty, c: nat)
    requires FaultyOk(f) && c < |f.s.chains| && !f.s.chains[c].pos.Over? && !Blocked(f, c)
    ensures Ready(f, TryOpen(c)) || Ready(f, TrySend(c, Emitted)) || Ready(f, TakeIn(c)) || Ready(f, Swamp(c))
  {
    if f.s.chains[c].pos.Flight? {
      MoverUnseen(f.s.first, f.s.chains[c], f.s.chains[c].pos.to);
      StillCounts(f.s, f.s.chains[c].pos.to, c);
    }
  }

  // ---------- without failures it is the exchange ----------

  /** A turn that fails only if the limits refuse it. */
  predicate SmoothOne(s: State, t: Turn) {
    match t
    case TryOpen(c) => c < |s.chains| && s.chains[c].pos.ToOpen? ==> !At(s, s.chains[c].pos.at).deaf
    case TrySend(_, o) => o.Emitted?
    case LoopEnds(_) => false
    case _ => true
  }

  predicate Smooth(s: State, ts: seq<Turn>)
    requires Padded(s)
    decreases |ts|
  {
    ts == [] || (SmoothOne(s, ts[0]) && (StepKeepsPadding(s, PlainOne(ts[0]));
                                         Smooth(Step(s, PlainOne(ts[0])), ts[1..])))
  }

  function PlainOne(t: Turn): Event
    requires !t.LoopEnds?
  {
    match t
    case TryOpen(c) => Open(c)
    case TrySend(c, _) => Send(c)
    case TakeIn(c) => Deliver(c)
    case Swamp(c) => Overflow(c)
  }

  function Plain(s: State, ts: seq<Turn>): seq<Event>
    requires Padded(s) && Smooth(s, ts)
    decreases |ts|
  {
    if ts == [] then []
    else
      StepKeepsPadding(s, PlainOne(ts[0]));
      [PlainOne(ts[0])] + Plain(Step(s, PlainOne(ts[0])), ts[1..])
  }

  lemma SmoothStep(s: State, t: Turn)
    requires Padded(s) && !Failed(s) && SmoothOne(s, t)
    ensures Next(Faulty(s, {}), t).s == Step(s, PlainOne(t))
    ensures !Failed(Step(s, PlainOne(t))) ==> Next(Faulty(s, {}), t).gaveUp == {}
  {
  }

  /** As long as nothing fails, neither the connection nor the limits, the two
      machines are one. */
  lemma {:induction false} SmoothRunIsRun(s: State, ts: seq<Turn>)
    requires Padded(s) && Smooth(s, ts) && !Failed(Run(s, Plain(s, ts)))
    ensures RunTurns(Faulty(s, {}), ts) == Faulty(Run(s, Plain(s, ts)), {})
    decreases |ts|
  {
    if ts != [] {
      var e := PlainOne(ts[0]);
      StepKeepsPadding(s, e);
      NextKeepsPadding(Faulty(s, {}), ts[0]);
      var rest := Plain(Step(s, e), ts[1..]);
      assert Plain(s, ts) == [e] + rest && ([e] + rest)[1..] == rest;
      if Failed(s) {
        FailureIsFinal(s, Plain(s, ts));
      } else {
        SmoothStep(s, ts[0]);
        if Failed(Step(s, e)) {
          FailureIsFinal(Step(s, e), rest);
        } else {
          SmoothRunIsRun(Step(s, e), ts[1..]);
        }
      }
    }
  }
}
