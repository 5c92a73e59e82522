/** Credit when the connection fails under the exchange: the closed-form grants
    stay enough, and stay exact. */
module BatonFaultCredit {
  import opened StreamIds
  import opened SendLimits
  import opened BatonCodec
  import opened BatonChain
  import opened Baton
  import opened BatonCredit
  import opened BatonFailures

  /** An open or a write that the send limits refuse. */
  predicate Starved(f: Faulty, t: Turn)
    requires Padded(f.s)
  {
    match t
    case TryOpen(c) =>
      && Ready(f, t)
      && var pos := f.s.chains[c].pos;
         !At(f.s, pos.at).deaf && Alloc(At(f.s, pos.at).limits, pos.bidi).1.None?
    case TrySend(c, _) =>
      && Ready(f, t)
      && var pos := f.s.chains[c].pos;
         var p := At(f.s, pos.at);
         ReserveVerdict(p.limits, pos.id, |Message(p.padding, pos.baton)|) != Ok
    case _ => false
  }

  /** The same limits, but for entries that a refund has left at zero. */
  ghost predicate Alike(a: Limits, b: Limits) {
    a == b.(streamSent := a.streamSent) && forall id :: Get(a.streamSent, id) == Get(b.streamSent, id)
  }

  lemma AlikeAlloc(a: Limits, b: Limits, bidi: bool)
    requires Alike(a, b)
    ensures Alloc(a, bidi).1 == Alloc(b, bidi).1 && Alike(Alloc(a, bidi).0, Alloc(b, bidi).0)
  {
    assert Alike(Bumped(a, bidi), Bumped(b, bidi));
  }

  lemma AlikeTrack(a: Limits, b: Limits, id: nat)
    requires Alike(a, b)
    ensures Alike(TrackSend(a, id), TrackSend(b, id))
  {
  }

  lemma AlikeReserve(a: Limits, b: Limits, id: nat, n: nat)
    requires Alike(a, b)
    ensures ReserveVerdict(a, id, n) == ReserveVerdict(b, id, n) && Alike(Reserve(a, id, n), Reserve(b, id, n))
  {
    assert Get(a.streamSent, id) == Get(b.streamSent, id);
    var a', b' := Reserve(a, id, n), Reserve(b, id, n);
    forall j ensures Get(a'.streamSent, j) == Get(b'.streamSent, j) {
      assert Get(a.streamSent, j) == Get(b.streamSent, j);
    }
    assert a' == b'.(streamSent := a'.streamSent);
  }

  /** A charge that is refunded leaves no trace but its entry. */
  lemma AlikeRefund(a: Limits, b: Limits, id: nat, n: nat)
    requires Alike(a, b) && ReserveVerdict(b, id, n) == Ok && b.active && n < TWO_64 / 2
    requires b.dataSent <= b.maxData < TWO_64 && Get(b.streamSent, id) <= Get(b.streamMax, id) < TWO_64
    ensures Alike(Refund(Reserve(a, id, n), id, n), b)
  {
    ReserveExact(a, id, n);
    if n > 0 {
      RefundExact(Reserve(a, id, n), id, n);
    }
  }

  /** How a chain stands to its image in an exchange without failures: it is its
      image, or its message went out without a FIN. */
  predicate ChainImage(f: Faulty, img: State, c: nat)
    requires Padded(f.s) && c < |f.s.chains| == |img.chains|
  {
    var ch := f.s.chains[c];
    || img.chains[c] == ch
    || (&& ch.pos.ToWrite? && (c, ch.pos.at) in f.gaveUp
        && img.chains[c] == Wrote(ch, Message(At(f.s, ch.pos.at).padding, ch.pos.baton)))
  }

  ghost predicate Linked(f: Faulty, img: State) {
    && Padded(f.s) && img.first == f.s.first && |img.chains| == |f.s.chains|
    && img.client.padding == f.s.client.padding && img.server.padding == f.s.server.padding
    && img.client.buffer == f.s.client.buffer && img.server.buffer == f.s.server.buffer
    && (img.client.deaf ==> f.s.client.deaf) && (img.server.deaf ==> f.s.server.deaf)
    && Alike(f.s.client.limits, img.client.limits) && Alike(f.s.server.limits, img.server.limits)
    && forall c :: 0 <= c < |f.s.chains| ==> ChainImage(f, img, c)
  }

  // ---------- the image has credit ----------

  lemma CreditOpens(img: State, c: nat)
    requires Credit(img) && Enabled(img, Open(c))
    ensures Alloc(At(img, img.chains[c].pos.at).limits, img.chains[c].pos.bidi).1.Some?
  {
    OpenGranted(img, c);
  }

  /** What the limits say of a write. */
  lemma CreditWrites(img: State, c: nat)
    requires Credit(img) && Enabled(img, Send(c))
    ensures var pos := img.chains[c].pos;
            var b, n := At(img, pos.at).limits, |Message(At(img, pos.at).padding, pos.baton)|;
            && ReserveVerdict(b, pos.id, n) == Ok && b.active && n < TWO_64 / 2
            && b.dataSent <= b.maxData < TWO_64 && Get(b.streamSent, pos.id) <= Get(b.streamMax, pos.id) < TWO_64
  {
    var pos := img.chains[c].pos;
    MessageDecodes(At(img, pos.at).padding, pos.baton);
    SendGranted(img, c);
    assert DataCounted(img, pos.at) && PartyStreams(img, pos.at) && ChainLive(img, img.chains[c]);
    assert WillWrite(img.chains[c], pos.at, pos.id);
  }

  // ---------- the two take their steps together ----------

  /** What a step of `x` on chain `c` leaves alone. */
  predicate Framed(s: State, s': State, c: nat, x: Side) {
    && s'.first == s.first && |s'.chains| == |s.chains| && c < |s.chains| && s'.chains == s.chains[c := s'.chains[c]]
    && s'.client.padding == s.client.padding && s'.server.padding == s.server.padding
    && s'.client.buffer == s.client.buffer && s'.server.buffer == s.server.buffer
    && At(s', Other(x)).limits == At(s, Other(x)).limits
  }

  /** A step that both take keeps them together. */
  lemma MovedLink(f: Faulty, img: State, f': Faulty, img': State, c: nat, x: Side)
    requires Linked(f, img) && c < |f.s.chains| && f.gaveUp <= f'.gaveUp
    requires Framed(f.s, f'.s, c, x) && Framed(img, img', c, x)
    requires (img'.client.deaf ==> f'.s.client.deaf) && (img'.server.deaf ==> f'.s.server.deaf)
    requires Alike(At(f'.s, x).limits, At(img', x).limits)
    requires ChainImage(f', img', c)
    ensures Linked(f', img')
  {
    forall d | 0 <= d < |f'.s.chains| ensures ChainImage(f', img', d) {
      if d != c {
        assert ChainImage(f, img, d);
      }
    }
  }

  lemma SendFrame(s: State, c: nat)
    requires s.client.padding < TWO_62 && s.server.padding < TWO_62 && c < |s.chains| && s.chains[c].pos.ToWrite?
    requires var pos := s.chains[c].pos;
             ReserveVerdict(At(s, pos.at).limits, pos.id, |Message(At(s, pos.at).padding, pos.baton)|) == Ok
    ensures var pos, s' := s.chains[c].pos, SendStep(s, c);
            var msg := Message(At(s, pos.at).padding, pos.baton);
            && Framed(s, s', c, pos.at) && s'.chains[c] == Wrote(s.chains[c], msg)
            && s'.client.deaf == s.client.deaf && s'.server.deaf == s.server.deaf
            && At(s', pos.at).limits == Reserve(At(s, pos.at).limits, pos.id, |msg|)
  {
  }

  lemma TakeFrame(s: State, c: nat)
    requires c < |s.chains| && s.chains[c].pos.Flight? && DecodeBaton(s.chains[c].pos.msg).Some?
    ensures var pos, s' := s.chains[c].pos, DeliverStep(s, c);
            && Framed(s, s', c, pos.to) && s'.chains[c] == Received(s.chains[c], DecodeBaton(pos.msg).value.1)
            && s'.client.deaf == s.client.deaf && s'.server.deaf == s.server.deaf
            && At(s', pos.to).limits ==
               if pos.kind == PeerBidi then TrackSend(At(s, pos.to).limits, pos.id) else At(s, pos.to).limits
  {
  }

  lemma FinFrame(f: Faulty, c: nat)
    requires Padded(f.s) && Ready(f, TrySend(c, FinFails)) && !Starved(f, TrySend(c, FinFails))
    ensures var pos, f' := f.s.chains[c].pos, Next(f, TrySend(c, FinFails));
            var n := |Message(At(f.s, pos.at).padding, pos.baton)|;
            && Framed(f.s, f'.s, c, pos.at) && f'.s.chains == f.s.chains && f'.gaveUp == f.gaveUp + {(c, pos.at)}
            && f'.s.client.deaf == f.s.client.deaf && f'.s.server.deaf == f.s.server.deaf
            && At(f'.s, pos.at).limits == Reserve(At(f.s, pos.at).limits, pos.id, n)
  {
  }

  /** The chain of a turn that is ready is its image's, and the image is ready. */
  lemma SameChain(f: Faulty, img: State, t: Turn)
    requires Linked(f, img) && Exchange(img) && !Failed(img) && Ready(f, t) && !t.LoopEnds?
    requires t.TryOpen? ==> !At(f.s, f.s.chains[t.c].pos.at).deaf
    ensures img.chains[t.c] == f.s.chains[t.c] && Enabled(img, PlainOne(t))
  {
    assert ChainImage(f, img, t.c);
    if t.TakeIn? {
      var x := f.s.chains[t.c].pos.to;
      if At(img, x).done {
        NothingLeft(img, x, t.c);
      }
    }
  }

  lemma OpenFrame(s: State, c: nat)
    requires Padded(s) && c < |s.chains| && s.chains[c].pos.ToOpen? && !At(s, s.chains[c].pos.at).deaf
    requires Alloc(At(s, s.chains[c].pos.at).limits, s.chains[c].pos.bidi).1.Some?
    ensures var pos, s' := s.chains[c].pos, OpenStep(s, c);
            var (l, id) := Alloc(At(s, pos.at).limits, pos.bidi);
            && Framed(s, s', c, pos.at) && s'.chains[c] == BatonChain.Opened(s.chains[c], id.value)
            && s'.client.deaf == s.client.deaf && s'.server.deaf == s.server.deaf && At(s', pos.at).limits == l
  {
  }

  lemma OpenLink(f: Faulty, img: State, c: nat)
    requires Linked(f, img) && Ready(f, TryOpen(c)) && img.chains[c] == f.s.chains[c]
    requires var pos := img.chains[c].pos;
             !At(f.s, pos.at).deaf && !At(img, pos.at).deaf && Alloc(At(img, pos.at).limits, pos.bidi).1.Some?
    ensures !Starved(f, TryOpen(c)) && Linked(Next(f, TryOpen(c)), OpenStep(img, c))
  {
    var pos := f.s.chains[c].pos;
    AlikeAlloc(At(f.s, pos.at).limits, At(img, pos.at).limits, pos.bidi);
    OpenFrame(f.s, c);
    OpenFrame(img, c);
    assert Next(f, TryOpen(c)) == f.(s := OpenStep(f.s, c));
    MovedLink(f, img, Next(f, TryOpen(c)), OpenStep(img, c), c, pos.at);
  }

  lemma TakeLink(f: Faulty, img: State, c: nat)
    requires Linked(f, img) && Ready(f, TakeIn(c)) && img.chains[c] == f.s.chains[c]
    requires DecodeBaton(img.chains[c].pos.msg).Some?
    ensures Linked(Next(f, TakeIn(c)), DeliverStep(img, c))
  {
    var pos := f.s.chains[c].pos;
    AlikeTrack(At(f.s, pos.to).limits, At(img, pos.to).limits, pos.id);
    TakeFrame(f.s, c);
    TakeFrame(img, c);
    assert Next(f, TakeIn(c)) == f.(s := DeliverStep(f.s, c));
    MovedLink(f, img, Next(f, TakeIn(c)), DeliverStep(img, c), c, pos.to);
  }

  lemma SwampLink(f: Faulty, img: State, c: nat)
    requires Linked(f, img) && Ready(f, Swamp(c)) && img.chains[c] == f.s.chains[c]
    ensures Linked(Next(f, Swamp(c)), OverflowStep(img, c))
  {
    var pos := f.s.chains[c].pos;
    AlikeTrack(At(f.s, pos.to).limits, At(img, pos.to).limits, pos.id);
    OverflowEffect(f.s, c);
    OverflowEffect(img, c);
    MovedLink(f, img, Next(f, Swamp(c)), OverflowStep(img, c), c, pos.to);
  }

  /** A write that the image's limits admit. */
  ghost predicate Admitted(f: Faulty, img: State, c: nat)
    requires Padded(f.s) && c < |f.s.chains| && f.s.chains[c].pos.ToWrite?
  {
    var pos := f.s.chains[c].pos;
    var b, n := At(img, pos.at).limits, |Message(At(f.s, pos.at).padding, pos.baton)|;
    && ReserveVerdict(b, pos.id, n) == Ok && b.active && n < TWO_64 / 2
    && b.dataSent <= b.maxData < TWO_64 && Get(b.streamSent, pos.id) <= Get(b.streamMax, pos.id) < TWO_64
  }

  lemma EmittedLink(f: Faulty, img: State, c: nat)
    requires Linked(f, img) && Ready(f, TrySend(c, Emitted)) && img.chains[c] == f.s.chains[c] && Admitted(f, img, c)
    ensures Padded(img) && Linked(Next(f, TrySend(c, Emitted)), SendStep(img, c))
  {
    var pos := f.s.chains[c].pos;
    AlikeReserve(At(f.s, pos.at).limits, At(img, pos.at).limits, pos.id, |Message(At(f.s, pos.at).padding, pos.baton)|);
    SendFrame(img, c);
    SendFrame(f.s, c);
    assert Next(f, TrySend(c, Emitted)) == Faulty(SendStep(f.s, c), f.gaveUp);
    MovedLink(f, img, Next(f, TrySend(c, Emitted)), SendStep(img, c), c, pos.at);
  }

  lemma FinLostLink(f: Faulty, img: State, c: nat)
    requires Linked(f, img) && Ready(f, TrySend(c, FinFails)) && img.chains[c] == f.s.chains[c] && Admitted(f, img, c)
    ensures Padded(img) && Linked(Next(f, TrySend(c, FinFails)), SendStep(img, c))
  {
    var pos := f.s.chains[c].pos;
    AlikeReserve(At(f.s, pos.at).limits, At(img, pos.at).limits, pos.id, |Message(At(f.s, pos.at).padding, pos.baton)|);
    SendFrame(img, c);
    FinFrame(f, c);
    assert ChainImage(Next(f, TrySend(c, FinFails)), SendStep(img, c), c);
    MovedLink(f, img, Next(f, TrySend(c, FinFails)), SendStep(img, c), c, pos.at);
  }

  /** A failed write, refunded, in plain terms. */
  lemma RefundFrame(f: Faulty, c: nat)
    requires Padded(f.s) && Ready(f, TrySend(c, WriteFails)) && !Starved(f, TrySend(c, WriteFails))
    ensures var pos, f' := f.s.chains[c].pos, Next(f, TrySend(c, WriteFails));
            var l, n := At(f.s, pos.at).limits, |Message(At(f.s, pos.at).padding, pos.baton)|;
            && Framed(f.s, f'.s, c, pos.at) && f'.s.chains == f.s.chains && f.gaveUp <= f'.gaveUp
            && f'.s.client.deaf == f.s.client.deaf && f'.s.server.deaf == f.s.server.deaf
            && At(f'.s, pos.at).limits == Refund(Reserve(l, pos.id, n), pos.id, n)
  {
  }

  lemma RefundLink(f: Faulty, img: State, c: nat)
    requires Linked(f, img) && Ready(f, TrySend(c, WriteFails)) && img.chains[c] == f.s.chains[c] && Admitted(f, img, c)
    ensures Linked(Next(f, TrySend(c, WriteFails)), img)
  {
    var pos := f.s.chains[c].pos;
    var n := |Message(At(f.s, pos.at).padding, pos.baton)|;
    AlikeReserve(At(f.s, pos.at).limits, At(img, pos.at).limits, pos.id, n);
    AlikeRefund(At(f.s, pos.at).limits, At(img, pos.at).limits, pos.id, n);
    RefundFrame(f, c);
    MovedLink(f, img, Next(f, TrySend(c, WriteFails)), img, c, pos.at);
  }

  /** A step of the failing exchange that its image does not take. */
  lemma StayLink(f: Faulty, img: State, f': Faulty)
    requires Linked(f, img) && f.gaveUp <= f'.gaveUp
    requires f'.s.first == f.s.first && f'.s.chains == f.s.chains
    requires f'.s.client.padding == f.s.client.padding && f'.s.server.padding == f.s.server.padding
    requires f'.s.client.buffer == f.s.client.buffer && f'.s.server.buffer == f.s.server.buffer
    requires f'.s.client.limits == f.s.client.limits && f'.s.server.limits == f.s.server.limits
    requires (f.s.client.deaf ==> f'.s.client.deaf) && (f.s.server.deaf ==> f'.s.server.deaf)
    ensures Linked(f', img)
  {
    forall d | 0 <= d < |f'.s.chains| ensures ChainImage(f', img, d) {
      assert ChainImage(f, img, d);
    }
  }

  // ---------- whole runs ----------

  ghost predicate Imaged(f: Faulty, img: State) {
    Linked(f, img) && Credit(img)
  }

  lemma SendSteps(f: Faulty, img: State, c: nat, o: Outcome) returns (img': State)
    requires Imaged(f, img) && Ready(f, TrySend(c, o))
    ensures !Starved(f, TrySend(c, o)) && Imaged(Next(f, TrySend(c, o)), img')
  {
    SameChain(f, img, TrySend(c, o));
    CreditWrites(img, c);
    var pos := f.s.chains[c].pos;
    AlikeReserve(At(f.s, pos.at).limits, At(img, pos.at).limits, pos.id, |Message(At(f.s, pos.at).padding, pos.baton)|);
    match o
    case WriteFails =>
      RefundLink(f, img, c);
      img' := img;
    case Emitted =>
      EmittedLink(f, img, c);
      CreditStep(img, Send(c));
      img' := SendStep(img, c);
    case FinFails =>
      FinLostLink(f, img, c);
      CreditStep(img, Send(c));
      img' := SendStep(img, c);
  }

  lemma {:induction false} ImageSteps(f: Faulty, img: State, t: Turn) returns (img': State)
    requires Imaged(f, img)
    ensures !Starved(f, t) && Imaged(Next(f, t), img')
  {
    img' := img;
    if !Ready(f, t) {
    } else if t.LoopEnds? || (t.TryOpen? && At(f.s, f.s.chains[t.c].pos.at).deaf) {
      StayLink(f, img, Next(f, t));
    } else if t.TrySend? {
      img' := SendSteps(f, img, t.c, t.o);
    } else {
      SameChain(f, img, t);
      CreditStep(img, PlainOne(t));
      img' := Step(img, PlainOne(t));
      if t.TryOpen? {
        CreditOpens(img, t.c);
        OpenLink(f, img, t.c);
      } else if t.TakeIn? {
        assert ChainOk(img.first, img.chains[t.c]);
        TakeLink(f, img, t.c);
      } else {
        SwampLink(f, img, t.c);
      }
    }
  }

  lemma {:induction false} ImageRuns(f: Faulty, img: State, ts: seq<Turn>) returns (img': State)
    requires Imaged(f, img)
    ensures Imaged(RunTurns(f, ts), img')
    decreases |ts|
  {
    img' := img;
    if ts != [] {
      NextKeepsPadding(f, ts[0]);
      var one := ImageSteps(f, img, ts[0]);
      img' := ImageRuns(Next(f, ts[0]), one, ts[1..]);
    }
  }

  /** With the closed-form grants no open and no write of any run returns
      ErrSendLimit, whatever the connection does: refunded writes, charges whose
      FIN was lost and chains given up included. */
  lemma {:induction false} GrantsSufficeUnderFailures(cfg: Config, ts: seq<Turn>, t: Turn)
    requires cfg.Valid() && Grants(cfg)
    ensures Padded(RunTurns(Begun(cfg), ts).s) && !Starved(RunTurns(Begun(cfg), ts), t)
  {
    StartAccounts(cfg);
    StartOk(cfg);
    GrantsAreEnough(cfg);
    var img := ImageRuns(Begun(cfg), Start(cfg), ts);
    var one := ImageSteps(RunTurns(Begun(cfg), ts), img, t);
  }

  predicate StarvedAfter(cfg: Config, ts: seq<Turn>, t: Turn)
    requires cfg.Valid()
  {
    var f := RunTurns(Begun(cfg), ts);
    Padded(f.s) && Starved(f, t)
  }

  ghost predicate NeverStarved(cfg: Config)
    requires cfg.Valid()
  {
    forall ts: seq<Turn>, t: Turn :: !StarvedAfter(cfg, ts, t)
  }

  function Lift(e: Event): Turn {
    match e
    case Open(c) => TryOpen(c)
    case Send(c) => TrySend(c, Emitted)
    case Deliver(c) => TakeIn(c)
    case Overflow(c) => Swamp(c)
  }

  /** Within the exchange the only failure is a refusal by the limits. */
  lemma FailureIsStarvation(s: State, e: Event)
    requires Exchange(s) && !Failed(s) && Failed(Step(s, e))
    ensures Starved(Faulty(s, {}), Lift(e))
  {
    if e.Deliver? {
      DeliverKeeps(s, e.c);
    } else if e.Overflow? {
      OverflowKeeps(s, e.c);
    }
  }

  /** An event of the exchange is a turn that leads to the same state, unless the
      limits refuse it; a step the exchange does not take needs no turn. */
  lemma LiftedStep(s: State, e: Event)
    requires Padded(s) && Enabled(s, e)
    ensures SmoothOne(s, Lift(e)) && PlainOne(Lift(e)) == e
    ensures Next(Faulty(s, {}), Lift(e)).s == Step(s, e)
    ensures !Failed(Step(s, e)) ==> Next(Faulty(s, {}), Lift(e)).gaveUp == {}
  {
    SmoothStep(s, Lift(e));
  }

  /** So every run of the exchange is one with failures in which none happens, or
      some turn of it is starved. */
  lemma {:induction false} LiftedRun(s: State, es: seq<Event>) returns (ts: seq<Turn>, t: Turn)
    requires Exchange(s) && !Failed(s)
    ensures Padded(RunTurns(Faulty(s, {}), ts).s)
    ensures if Failed(Run(s, es)) then Starved(RunTurns(Faulty(s, {}), ts), t)
            else RunTurns(Faulty(s, {}), ts) == Faulty(Run(s, es), {})
    decreases |es|
  {
    ts, t := [], LoopEnds(Client);
    if es != [] {
      var e := es[0];
      StepKeepsPadding(s, e);
      if !Enabled(s, e) {
        ts, t := LiftedRun(s, es[1..]);
      } else {
        LiftedStep(s, e);
        NextKeepsPadding(Faulty(s, {}), Lift(e));
        StepKeeps(s, e);
        if Failed(Step(s, e)) {
          FailureIsFinal(Step(s, e), es[1..]);
          FailureIsStarvation(s, e);
          t := Lift(e);
        } else {
          var rest;
          rest, t := LiftedRun(Step(s, e), es[1..]);
          ts := [Lift(e)] + rest;
          assert ts[1..] == rest;
        }
      }
    }
  }

  /** And no less is enough: the grants are exact under failures too. */
  lemma {:induction false} GrantsExactUnderFailures(cfg: Config)
    requires cfg.Valid()
    ensures Grants(cfg) <==> NeverStarved(cfg)
  {
    if Grants(cfg) {
      forall ts: seq<Turn>, t: Turn ensures !StarvedAfter(cfg, ts, t) {
        GrantsSufficeUnderFailures(cfg, ts, t);
      }
    } else if NeverStarved(cfg) {
      StartOk(cfg);
      forall es: seq<Event> ensures !Failed(Run(Start(cfg), es)) {
        var ts, t := LiftedRun(Start(cfg), es);
        assert !StarvedAfter(cfg, ts, t);
      }
      GrantsExactlyWhen(cfg);
    }
  }
}
