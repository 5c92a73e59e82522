/** The Devious Baton exchange between two parties: any number of chains, any
    order of handler steps and deliveries, on the send limits of flow.go. */
module Baton {
  import opened StreamIds
  import opened SendLimits
  import opened Varints
  import opened BatonCodec
  import opened BatonChain

  /** One party of the exchange. */
  datatype Party = Party(
    active: int,
    done: bool,
    failed: bool,                       // `fail` was called, ever
    err: bool,                          // the error that `Run` will return is set
    padding: nat,
    buffer: int,                        // the session's StreamReceiveBufferSize
    deaf: bool,                         // the session's read loop has returned, and so closed the session
    limits: Limits)

  datatype State = State(first: Byte, chains: seq<Chain>, client: Party, server: Party)

  /** `Overflow`: a message arrives that the receiver's stream buffer refuses. */
  datatype Event = Open(c: nat) | Send(c: nat) | Deliver(c: nat) | Overflow(c: nat)

  function At(s: State, x: Side): Party {
    if x == Client then s.client else s.server
  }

  function Put(s: State, x: Side, p: Party): State {
    if x == Client then s.(client := p) else s.(server := p)
  }

  function PutChain(s: State, c: nat, ch: Chain): State
    requires c < |s.chains|
  {
    s.(chains := s.chains[c := ch])
  }

  predicate Failed(s: State) {
    s.client.failed || s.server.failed
  }

  /** `fail`: an error after `done` is ignored. */
  function Fail(p: Party): Party {
    p.(failed := true, done := true, err := p.err || !p.done)
  }

  /** `completeOne` */
  function CompleteOne(p: Party): Party {
    p.(active := p.active - 1, done := p.done || p.active - 1 <= 0)
  }

  /** The parameters of an exchange between two sessions with peer snapshots:
      `peerC` is what the client may send, `peerS` what the server may send. */
  datatype Config = Config(
    first: Byte, count: nat, padC: nat, padS: nat, bufC: int, bufS: int, peerC: PeerLimits, peerS: PeerLimits)
  {
    predicate Valid() {
      1 <= first && padC < TWO_62 && padS < TWO_62 && peerC.Valid() && peerS.Valid()
    }

    /** Each side's stream buffers hold the other side's messages. */
    predicate Fits()
      requires Valid()
    {
      count > 0 ==> Holds(bufC, MessageLength(padS)) && Holds(bufS, MessageLength(padC))
    }
  }

  function NewParty(x: Side, count: nat, padding: nat, buffer: int, peer: PeerLimits): Party {
    Party(count, false, false, false, padding, buffer, false, NewLimits(x == Server, Some(peer)))
  }

  function Start(cfg: Config): State {
    State(cfg.first, seq(cfg.count, i => Begin(cfg.first)),
          NewParty(Client, cfg.count, cfg.padC, cfg.bufC, cfg.peerC),
          NewParty(Server, cfg.count, cfg.padS, cfg.bufS, cfg.peerS))
  }

  /** A stream buffer takes `n` bytes at once; a size that is not positive is no
      bound. Each side writes one message, in one capsule, per stream. */
  predicate Holds(buffer: int, n: nat) {
    buffer <= 0 || n <= buffer
  }

  predicate Padded(s: State) {
    s.client.padding < TWO_62 && s.server.padding < TWO_62
  }

  /** An accept loop takes a new stream only until the party is done; a reply on
      a stream of its own has its handler waiting already. A side whose read loop
      has returned takes nothing in, and opens nothing: what becomes of such an
      open is in BatonFailures. */
  predicate Enabled(s: State, e: Event) {
    && e.c < |s.chains| && !Failed(s)
    && var pos := s.chains[e.c].pos;
       match e
       case Open(_) => pos.ToOpen? && !At(s, pos.at).deaf
       case Send(_) => pos.ToWrite?
       case Deliver(_) =>
         && pos.Flight? && !At(s, pos.to).deaf && Holds(At(s, pos.to).buffer, |pos.msg|)
         && (pos.kind == SelfBidi || !At(s, pos.to).done)
       case Overflow(_) => pos.Flight? && !At(s, pos.to).deaf && !Holds(At(s, pos.to).buffer, |pos.msg|)
  }

  /** Opening a stream: a refusal, or a closed session, is the error DA_YAMN. */
  function PartyOpen(p: Party, bidi: bool): (Party, Option<nat>) {
    if p.deaf then (Fail(p), None)
    else
      match Alloc(p.limits, bidi)
      case (_, None) => (Fail(p), None)
      case (l, Some(id)) => (p.(limits := l), Some(id))
  }

  /** Writing and finishing a message; the sender of a zero has completed. */
  function PartyWrite(p: Party, id: nat, baton: Byte): (Party, Option<seq<Byte>>)
    requires p.padding < TWO_62
  {
    var msg := Message(p.padding, baton);
    if ReserveVerdict(p.limits, id, |msg|) != Ok then (Fail(p), None)
    else
      var p1 := p.(limits := Reserve(p.limits, id, |msg|));
      (if baton == 0 then CompleteOne(p1) else p1, Some(msg))
  }

  /** A message arrives: its stream is tracked, it is decoded, and a zero
      completes the chain. A message that does not decode is BRUH. */
  function PartyReceive(p: Party, kind: Kind, id: nat, msg: seq<Byte>): (Party, Option<Byte>) {
    var p1 := if kind == PeerBidi then p.(limits := TrackSend(p.limits, id)) else p;
    match DecodeBaton(msg)
    case None => (Fail(p1), None)
    case Some((_, baton)) => (if baton == 0 then CompleteOne(p1) else p1, Some(baton))
  }

  /** A message that the stream buffer refuses: its stream is tracked, and the
      read loop returns. No handler gets to see it. */
  function PartyOverflow(p: Party, kind: Kind, id: nat): Party {
    (if kind == PeerBidi then p.(limits := TrackSend(p.limits, id)) else p).(deaf := true)
  }

  function OpenStep(s: State, c: nat): State
    requires c < |s.chains| && s.chains[c].pos.ToOpen?
  {
    var pos := s.chains[c].pos;
    var (p, id) := PartyOpen(At(s, pos.at), pos.bidi);
    if id.None? then Put(s, pos.at, p)
    else PutChain(Put(s, pos.at, p), c, BatonChain.Opened(s.chains[c], id.value))
  }

  function SendStep(s: State, c: nat): State
    requires c < |s.chains| && s.chains[c].pos.ToWrite?
    requires Padded(s)
  {
    var pos := s.chains[c].pos;
    var (p, msg) := PartyWrite(At(s, pos.at), pos.id, pos.baton);
    if msg.None? then Put(s, pos.at, p) else PutChain(Put(s, pos.at, p), c, Wrote(s.chains[c], msg.value))
  }

  function DeliverStep(s: State, c: nat): State
    requires c < |s.chains| && s.chains[c].pos.Flight?
  {
    var pos := s.chains[c].pos;
    var (p, baton) := PartyReceive(At(s, pos.to), pos.kind, pos.id, pos.msg);
    if baton.None? then Put(s, pos.to, p) else PutChain(Put(s, pos.to, p), c, Received(s.chains[c], baton.value))
  }

  function OverflowStep(s: State, c: nat): State
    requires c < |s.chains| && s.chains[c].pos.Flight?
  {
    var pos := s.chains[c].pos;
    Put(s, pos.to, PartyOverflow(At(s, pos.to), pos.kind, pos.id))
  }

  function Step(s: State, e: Event): State
    requires Padded(s)
  {
    if !Enabled(s, e) then s
    else
      match e
      case Open(c) => OpenStep(s, c)
      case Send(c) => SendStep(s, c)
      case Deliver(c) => DeliverStep(s, c)
      case Overflow(c) => OverflowStep(s, c)
  }

  lemma StepKeepsPadding(s: State, e: Event)
    requires Padded(s)
    ensures Step(s, e).client.padding == s.client.padding && Step(s, e).server.padding == s.server.padding
    ensures Step(s, e).client.buffer == s.client.buffer && Step(s, e).server.buffer == s.server.buffer
    ensures |Step(s, e).chains| == |s.chains| && Step(s, e).first == s.first
  {
    if Enabled(s, e) && e.Send? {
      var pos := s.chains[e.c].pos;
      WriteKeepsPadding(At(s, pos.at), pos.id, pos.baton);
    } else if Enabled(s, e) && e.Deliver? {
      var pos := s.chains[e.c].pos;
      ReceiveKeepsPadding(At(s, pos.to), pos.kind, pos.id, pos.msg);
    }
  }

  lemma WriteKeepsPadding(p: Party, id: nat, baton: Byte)
    requires p.padding < TWO_62
    ensures var p' := PartyWrite(p, id, baton).0; p'.padding == p.padding && p'.buffer == p.buffer && p'.deaf == p.deaf
  {
  }

  lemma ReceiveKeepsPadding(p: Party, kind: Kind, id: nat, msg: seq<Byte>)
    ensures var p' := PartyReceive(p, kind, id, msg).0;
            p'.padding == p.padding && p'.buffer == p.buffer && p'.deaf == p.deaf
  {
  }

  /** Neither sending nor taking in touches the error of a party that does not
      fail. */
  lemma QuietParties(p: Party, kind: Kind, id: nat, msg: seq<Byte>, baton: Byte)
    requires p.padding < TWO_62
    ensures DecodeBaton(msg).Some? ==>
              var p' := PartyReceive(p, kind, id, msg).0;
              p'.failed == p.failed && p'.err == p.err && (p.done ==> p'.done)
    ensures ReserveVerdict(p.limits, id, |Message(p.padding, baton)|) == Ok ==>
              var p' := PartyWrite(p, id, baton).0; p'.failed == p.failed && p'.err == p.err && (p.done ==> p'.done)
  {
  }

  function Run(s: State, es: seq<Event>): State
    requires Padded(s)
    decreases |es|
  {
    if es == [] then s
    else
      StepKeepsPadding(s, es[0]);
      Run(Step(s, es[0]), es[1..])
  }

  // ---------- meters: sums over the chains ----------

  datatype Meter =
    | Seen(x: Side)        // chains whose zero the side has sent or received
    | Opens(residue: nat)  // opens made for hops of this residue modulo six
    | Messages(x: Side)    // messages the side has sent
    | Hops                 // messages sent
    | Work                 // upper bound on the steps that remain

  predicate HasSeen(first: Byte, x: Side, ch: Chain) {
    |ch.log| == LastHop(first) + 1 && (ch.pos.Over? || ch.log[LastHop(first)].from == x)
  }

  function Weigh(m: Meter, first: Byte, ch: Chain): nat {
    var h := |ch.log|;
    var n := if ch.pos.ToWrite? then h + 1 else h;
    match m
    case Seen(x) => if HasSeen(first, x, ch) then 1 else 0
    case Opens(r) => if r > 5 then 0 else (n + 5 - r) / 6
    case Messages(x) => if x == Server then (h + 1) / 2 else h / 2
    case Hops => h
    case Work =>
      var left := if h <= LastHop(first) then 3 * (LastHop(first) + 1 - h) else 0;
      match ch.pos
      case ToOpen(_, _, _) => left
      case ToWrite(_, _, _, _) => if left > 0 then left - 1 else 0
      case Flight(_, _, _, _) => left + 1
      case Over => 0
  }

  function Sum(m: Meter, first: Byte, chains: seq<Chain>): nat {
    if chains == [] then 0 else Weigh(m, first, chains[0]) + Sum(m, first, chains[1..])
  }

  lemma {:induction false} SumUpdate(m: Meter, first: Byte, chains: seq<Chain>, c: nat, ch: Chain)
    requires c < |chains|
    ensures Sum(m, first, chains[c := ch]) + Weigh(m, first, chains[c]) == Sum(m, first, chains) + Weigh(m, first, ch)
  {
    if c == 0 {
      assert chains[c := ch][1..] == chains[1..];
    } else {
      assert chains[c := ch][1..] == chains[1..][c - 1 := ch];
      SumUpdate(m, first, chains[1..], c - 1, ch);
    }
  }

  lemma OneMore(n: nat, g: nat)
    ensures (n + 1) * g == n * g + g
  {
  }

  lemma {:induction false} SumBound(m: Meter, first: Byte, chains: seq<Chain>, g: nat)
    requires forall i :: 0 <= i < |chains| ==> Weigh(m, first, chains[i]) <= g
    ensures Sum(m, first, chains) <= |chains| * g
    ensures Sum(m, first, chains) == |chains| * g ==> forall i :: 0 <= i < |chains| ==> Weigh(m, first, chains[i]) == g
  {
    if chains != [] {
      SumBound(m, first, chains[1..], g);
      OneMore(|chains| - 1, g);
      assert forall i :: 1 <= i < |chains| ==> chains[i] == chains[1..][i - 1];
    }
  }

  lemma {:induction false} SumExact(m: Meter, first: Byte, chains: seq<Chain>, g: nat)
    requires forall i :: 0 <= i < |chains| ==> Weigh(m, first, chains[i]) == g
    ensures Sum(m, first, chains) == |chains| * g
  {
    if chains != [] {
      SumExact(m, first, chains[1..], g);
      OneMore(|chains| - 1, g);
    }
  }

  // ---------- the exchange invariant ----------

  ghost predicate PartyOk(s: State, x: Side) {
    var p := At(s, x);
    && p.padding < TWO_62
    && p.limits.isServer == (x == Server)
    && p.active == |s.chains| - Sum(Seen(x), s.first, s.chains)
    && (p.done && !p.failed ==> p.active == 0) && (p.active <= 0 && s.chains != [] ==> p.done)
    && Counted(p.limits)
  }

  /** A message in flight has the length of its sender's messages. */
  predicate Sized(s: State, ch: Chain) {
    ch.pos.Flight? ==>
      var p := At(s, Other(ch.pos.to)).padding;
      p < TWO_62 && |ch.pos.msg| == MessageLength(p)
  }

  ghost predicate Exchange(s: State) {
    && (forall c :: 0 <= c < |s.chains| ==> ChainOk(s.first, s.chains[c]) && Sized(s, s.chains[c]))
    && PartyOk(s, Client) && PartyOk(s, Server)
  }

  /** What `x` has seen never exceeds the number of chains, and reaches it only
      when every chain has shown `x` its zero. */
  lemma SeenAll(s: State, x: Side)
    ensures Sum(Seen(x), s.first, s.chains) <= |s.chains|
    ensures Sum(Seen(x), s.first, s.chains) == |s.chains| ==>
            forall c :: 0 <= c < |s.chains| ==> HasSeen(s.first, x, s.chains[c])
  {
    SumBound(Seen(x), s.first, s.chains, 1);
  }

  /** A step of party `x` on chain `c` keeps the exchange if its counter moves
      with what `x` has seen and the other side sees nothing new. */
  lemma PutKeeps(s: State, c: nat, ch: Chain, x: Side, p: Party)
    requires Exchange(s) && c < |s.chains| && ChainOk(s.first, ch) && Sized(s, ch)
    requires p.padding == At(s, x).padding && p.limits.isServer == (x == Server) && Counted(p.limits)
    requires p.active == At(s, x).active + Weigh(Seen(x), s.first, s.chains[c]) - Weigh(Seen(x), s.first, ch)
    requires Weigh(Seen(Other(x)), s.first, ch) == Weigh(Seen(Other(x)), s.first, s.chains[c])
    requires (p.active <= 0 ==> p.done) && (p.done && !p.failed ==> p.active <= 0)
    ensures Exchange(PutChain(Put(s, x, p), c, ch))
  {
    var s' := PutChain(Put(s, x, p), c, ch);
    SumUpdate(Seen(x), s.first, s.chains, c, ch);
    SumUpdate(Seen(Other(x)), s.first, s.chains, c, ch);
    SeenAll(s', x);
    assert PartyOk(s', x);
    assert PartyOk(s', Other(x));
    SizedAfter(s, s', ch);
    forall d | 0 <= d < |s'.chains| ensures Sized(s', s'.chains[d]) {
      assert d != c ==> s'.chains[d] == s.chains[d] && Sized(s, s.chains[d]);
      SizedAfter(s, s', s'.chains[d]);
    }
  }

  lemma SizedAfter(s: State, s': State, ch: Chain)
    requires Sized(s, ch) && s'.client.padding == s.client.padding && s'.server.padding == s.server.padding
    ensures Sized(s', ch)
  {
  }

  lemma OpenKeeps(s: State, c: nat)
    requires Exchange(s) && c < |s.chains| && s.chains[c].pos.ToOpen?
    ensures Exchange(OpenStep(s, c))
  {
    var ch := s.chains[c];
    var p := At(s, ch.pos.at);
    var (l, id) := Alloc(p.limits, ch.pos.bidi);
    CountedAlloc(p.limits, ch.pos.bidi);
    if !p.deaf && id.Some? {
      OpenedOk(s.first, ch, id.value);
      PutKeeps(s, c, BatonChain.Opened(ch, id.value), ch.pos.at, p.(limits := l));
    } else {
      FailKeeps(s, ch.pos.at, p.limits);
    }
  }

  /** A failure, with whatever it did to the send limits. */
  lemma FailKeeps(s: State, x: Side, l: Limits)
    requires Exchange(s) && Counted(l) && l.isServer == (x == Server)
    ensures Exchange(Put(s, x, Fail(At(s, x).(limits := l))))
  {
    MarkKeeps(s, x, Fail(At(s, x).(limits := l)));
  }

  /** A change that no chain sees. */
  lemma MarkKeeps(s: State, x: Side, p: Party)
    requires Exchange(s) && Counted(p.limits) && p.limits.isServer == (x == Server)
    requires p.active == At(s, x).active && p.padding == At(s, x).padding
    requires p.failed || (p.done == At(s, x).done && p.failed == At(s, x).failed)
    requires At(s, x).done ==> p.done
    ensures Exchange(Put(s, x, p))
  {
    var s' := Put(s, x, p);
    assert PartyOk(s, x) && PartyOk(s, Other(x));
    assert PartyOk(s', x) && PartyOk(s', Other(x));
    forall d | 0 <= d < |s'.chains| ensures Sized(s', s'.chains[d]) {
      SizedAfter(s, s', s.chains[d]);
    }
  }

  /** Sending the zero is seen by the sender alone. */
  lemma SeenAfterSend(first: Byte, ch: Chain, msg: seq<Byte>)
    requires ChainOk(first, ch) && ch.pos.ToWrite?
    ensures var zero := if ch.pos.baton == 0 then 1 else 0;
            && Weigh(Seen(Client), first, ch) == Weigh(Seen(Server), first, ch) == 0
            && Weigh(Seen(ch.pos.at), first, Wrote(ch, msg)) == zero
            && Weigh(Seen(Other(ch.pos.at)), first, Wrote(ch, msg)) == 0
  {
    ZeroAtLastHop(first, |ch.log|);
  }

  /** Receiving the zero is seen by the receiver; the sender had seen it. */
  lemma SeenAfterReceive(first: Byte, ch: Chain)
    requires ChainOk(first, ch) && ch.pos.Flight?
    ensures var baton := DecodeBaton(ch.pos.msg).value.1;
            var ch' := Received(ch, baton);
            && Weigh(Seen(ch.pos.to), first, ch) == 0
            && Weigh(Seen(ch.pos.to), first, ch') == (if baton == 0 then 1 else 0)
            && Weigh(Seen(Other(ch.pos.to)), first, ch') == Weigh(Seen(Other(ch.pos.to)), first, ch)
  {
    ReceivedOk(first, ch);
  }

  lemma SendKeeps(s: State, c: nat)
    requires Exchange(s) && c < |s.chains| && s.chains[c].pos.ToWrite?
    ensures Exchange(SendStep(s, c))
  {
    var ch := s.chains[c];
    var p := At(s, ch.pos.at);
    var msg := Message(p.padding, ch.pos.baton);
    var p1 := p.(limits := Reserve(p.limits, ch.pos.id, |msg|));
    WroteOk(s.first, ch, p.padding);
    MessageDecodes(p.padding, ch.pos.baton);
    SeenAfterSend(s.first, ch, msg);
    CountedOthers(p.limits, ch.pos.id, |msg|, MaxData(0));
    ReserveRole(p.limits, ch.pos.id, |msg|);
    if ReserveVerdict(p.limits, ch.pos.id, |msg|) == Ok {
      PutKeeps(s, c, Wrote(ch, msg), ch.pos.at, if ch.pos.baton == 0 then CompleteOne(p1) else p1);
    } else {
      FailKeeps(s, ch.pos.at, p.limits);
    }
  }

  lemma ReserveRole(l: Limits, id: nat, n: int)
    ensures Reserve(l, id, n).isServer == l.isServer && TrackSend(l, id).isServer == l.isServer
  {
  }

  /** The receiving party, once the message is known to decode. */
  lemma ReceivedParty(p: Party, kind: Kind, id: nat, msg: seq<Byte>, baton: Byte)
    requires Counted(p.limits) && DecodeBaton(msg).Some? && DecodeBaton(msg).value.1 == baton
    ensures var p' := PartyReceive(p, kind, id, msg).0;
            var zero := if baton == 0 then 1 else 0;
            && p'.padding == p.padding && p'.failed == p.failed && p'.active == p.active - zero
            && p'.done == (p.done || (baton == 0 && p.active - 1 <= 0))
            && Counted(p'.limits) && p'.limits.isServer == p.limits.isServer
  {
    CountedOthers(p.limits, id, 0, MaxData(0));
    ReserveRole(p.limits, id, 0);
  }

  lemma DeliverKeeps(s: State, c: nat)
    requires Exchange(s) && c < |s.chains| && s.chains[c].pos.Flight?
    ensures Exchange(DeliverStep(s, c)) && (Failed(DeliverStep(s, c)) <==> Failed(s))
  {
    var ch := s.chains[c];
    var p := At(s, ch.pos.to);
    assert ChainOk(s.first, ch) && PartyOk(s, ch.pos.to);
    var baton: Byte := DecodeBaton(ch.pos.msg).value.1;
    var p' := PartyReceive(p, ch.pos.kind, ch.pos.id, ch.pos.msg).0;
    ReceivedOk(s.first, ch);
    SeenAfterReceive(s.first, ch);
    ReceivedParty(p, ch.pos.kind, ch.pos.id, ch.pos.msg, baton);
    PutKeeps(s, c, Received(ch, baton), ch.pos.to, p');
  }

  lemma OverflowKeeps(s: State, c: nat)
    requires Exchange(s) && c < |s.chains| && s.chains[c].pos.Flight?
    ensures Exchange(OverflowStep(s, c)) && (Failed(OverflowStep(s, c)) <==> Failed(s))
  {
    var pos := s.chains[c].pos;
    var p := At(s, pos.to);
    CountedOthers(p.limits, pos.id, 0, MaxData(0));
    ReserveRole(p.limits, pos.id, 0);
    MarkKeeps(s, pos.to, PartyOverflow(p, pos.kind, pos.id));
  }

  lemma StepKeeps(s: State, e: Event)
    requires Exchange(s)
    ensures Exchange(Step(s, e))
  {
    if Enabled(s, e) {
      match e
      case Open(c) => OpenKeeps(s, c);
      case Send(c) => SendKeeps(s, c);
      case Deliver(c) => DeliverKeeps(s, c);
      case Overflow(c) => OverflowKeeps(s, c);
    }
  }

  // ---------- theorems over whole runs ----------

  lemma StartOk(cfg: Config)
    requires cfg.Valid()
    ensures Exchange(Start(cfg)) && !Failed(Start(cfg))
  {
    var s := Start(cfg);
    SumExact(Seen(Client), s.first, s.chains, 0);
    SumExact(Seen(Server), s.first, s.chains, 0);
  }

  lemma {:induction false} FailureIsFinal(s: State, es: seq<Event>)
    requires Padded(s) && Failed(s)
    ensures Run(s, es) == s
    decreases |es|
  {
    if es != [] {
      FailureIsFinal(s, es[1..]);
    }
  }

  lemma {:induction false} RunKeeps(s: State, es: seq<Event>)
    requires Exchange(s)
    ensures Exchange(Run(s, es)) && Run(s, es).first == s.first && |Run(s, es).chains| == |s.chains|
    decreases |es|
  {
    if es != [] {
      StepKeepsPadding(s, es[0]);
      StepKeeps(s, es[0]);
      RunKeeps(Step(s, es[0]), es[1..]);
    }
  }

  /** The shape of every run: in every chain, message k carries
      first + k modulo 256, is sent by the server exactly when k is even, and its
      stream's kind and initiator are fixed by k mod 6. */
  lemma {:induction false} RunShape(cfg: Config, es: seq<Event>, c: nat, k: nat)
    requires cfg.Valid()
    requires c < |Run(Start(cfg), es).chains| && k < |Run(Start(cfg), es).chains[c].log|
    ensures Shaped(cfg.first, Run(Start(cfg), es).chains[c].log, k)
  {
    StartOk(cfg);
    RunKeeps(Start(cfg), es);
    LogShape(cfg.first, Run(Start(cfg), es).chains[c], k);
  }

  /** Each side's counter is the number of chains less those whose zero it has
      sent or received, never negative; and once it is zero, nothing in flight
      is addressed to that side and nothing waits there, so the accept loops
      that `done` stops have nothing left to take. */
  lemma {:induction false} CompletionAgreement(cfg: Config, es: seq<Event>, x: Side)
    requires cfg.Valid() && !Failed(Run(Start(cfg), es))
    ensures var w := Run(Start(cfg), es);
            && 0 <= At(w, x).active == |w.chains| - Sum(Seen(x), w.first, w.chains)
            && (cfg.count > 0 ==> (At(w, x).done <==> At(w, x).active == 0))
            && (At(w, x).active == 0 ==>
                  forall c :: 0 <= c < |w.chains| ==>
                    match w.chains[c].pos
                    case ToOpen(_, _, _) => false
                    case ToWrite(_, _, _, _) => false
                    case Flight(to, _, _, _) => to != x
                    case Over => true)
  {
    StartOk(cfg);
    RunKeeps(Start(cfg), es);
    var w := Run(Start(cfg), es);
    SeenAll(w, x);
    if At(w, x).active == 0 {
      forall c | 0 <= c < |w.chains|
        ensures !w.chains[c].pos.ToOpen? && !w.chains[c].pos.ToWrite?
        ensures w.chains[c].pos.Flight? ==> w.chains[c].pos.to != x
      {
        NothingLeft(w, x, c);
      }
    }
  }

  /** A side whose counter is zero has nothing left to do on any chain. */
  lemma NothingLeft(s: State, x: Side, c: nat)
    requires Exchange(s) && At(s, x).active == 0 && c < |s.chains|
    ensures !s.chains[c].pos.ToOpen? && !s.chains[c].pos.ToWrite?
    ensures s.chains[c].pos.Flight? ==> s.chains[c].pos.to != x
  {
    SeenAll(s, x);
    assert ChainOk(s.first, s.chains[c]) && HasSeen(s.first, x, s.chains[c]);
  }

  lemma WorkDrops(first: Byte, ch: Chain)
    requires ChainOk(first, ch)
    ensures ch.pos.ToOpen? ==> forall id :: Weigh(Work, first, BatonChain.Opened(ch, id)) < Weigh(Work, first, ch)
    ensures ch.pos.ToWrite? ==> forall msg :: Weigh(Work, first, Wrote(ch, msg)) < Weigh(Work, first, ch)
    ensures ch.pos.Flight? ==>
            Weigh(Work, first, Received(ch, DecodeBaton(ch.pos.msg).value.1)) < Weigh(Work, first, ch)
  {
    if ch.pos.Flight? {
      ReceivedOk(first, ch);
    }
  }

  /** The sides whose read loop still runs. */
  function Ears(s: State): nat {
    (if s.client.deaf then 0 else 1) + if s.server.deaf then 0 else 1
  }

  /** What is left to do: work on the chains, and read loops that may return. */
  function Left(s: State): nat {
    Sum(Work, s.first, s.chains) + Ears(s)
  }

  /** Every step makes progress: what is left strictly decreases. */
  lemma {:induction false} WorkDecreases(s: State, e: Event)
    requires Exchange(s) && Enabled(s, e) && !Failed(Step(s, e))
    ensures Left(Step(s, e)) < Left(s)
  {
    if !e.Overflow? {
      WorkDrops(s.first, s.chains[e.c]);
      SumUpdate(Work, s.first, s.chains, e.c, Step(s, e).chains[e.c]);
      StepChain(s, e);
      StepKeepsEars(s, e);
    }
  }

  lemma StepKeepsEars(s: State, e: Event)
    requires Padded(s)
    ensures !(e.Overflow? && Enabled(s, e)) ==>
              Step(s, e).client.deaf == s.client.deaf && Step(s, e).server.deaf == s.server.deaf
  {
  }

  /** What a step other than an overflow does to its chain. */
  lemma StepChain(s: State, e: Event)
    requires Exchange(s) && Enabled(s, e) && !Failed(Step(s, e)) && !e.Overflow?
    ensures var ch, s' := s.chains[e.c], Step(s, e);
            && s'.chains == s.chains[e.c := s'.chains[e.c]]
            && (e.Open? ==> exists id :: s'.chains[e.c] == BatonChain.Opened(ch, id))
            && (e.Send? ==> exists msg :: s'.chains[e.c] == Wrote(ch, msg))
            && (e.Deliver? ==> s'.chains[e.c] == Received(ch, DecodeBaton(ch.pos.msg).value.1))
  {
    var ch := s.chains[e.c];
    if e.Open? {
      var p := At(s, ch.pos.at);
      assert Step(s, e).chains[e.c] == BatonChain.Opened(ch, Alloc(p.limits, ch.pos.bidi).1.value);
    } else if e.Send? {
      var p := At(s, ch.pos.at);
      assert Step(s, e).chains[e.c] == Wrote(ch, Message(p.padding, ch.pos.baton));
    } else {
      assert ChainOk(s.first, ch);
    }
  }

  /** Every event was enabled when its turn came. */
  predicate AllEnabled(s: State, es: seq<Event>)
    requires Padded(s)
    decreases |es|
  {
    es == [] || (Enabled(s, es[0]) && (StepKeepsPadding(s, es[0]); AllEnabled(Step(s, es[0]), es[1..])))
  }

  lemma {:induction false} StepsBounded(s: State, es: seq<Event>)
    requires Exchange(s) && AllEnabled(s, es) && !Failed(Run(s, es))
    ensures |es| + Left(Run(s, es)) <= Left(s)
    decreases |es|
  {
    if es != [] {
      StepKeepsPadding(s, es[0]);
      if Failed(Step(s, es[0])) {
        FailureIsFinal(Step(s, es[0]), es[1..]);
      } else {
        StepKeeps(s, es[0]);
        WorkDecreases(s, es[0]);
        StepsBounded(Step(s, es[0]), es[1..]);
      }
    }
  }

  /** Termination: a failure-free run takes at most three steps per message, and
      one more for each read loop that returns. */
  lemma {:induction false} RunTerminates(cfg: Config, es: seq<Event>)
    requires cfg.Valid() && AllEnabled(Start(cfg), es) && !Failed(Run(Start(cfg), es))
    ensures |es| <= cfg.count * (3 * (257 - cfg.first)) + 2
  {
    StartOk(cfg);
    StepsBounded(Start(cfg), es);
    SumExact(Work, cfg.first, Start(cfg).chains, 3 * (257 - cfg.first));
  }

  // ---------- how far a chain gets ----------

  function Length(s: State, x: Side): nat
    requires At(s, x).padding < TWO_62
  {
    MessageLength(At(s, x).padding)
  }

  /** The stream buffers of `x` hold the other side's messages. */
  predicate Hears(s: State, x: Side)
    requires Padded(s)
  {
    Holds(At(s, x).buffer, Length(s, Other(x)))
  }

  /** The last hop that is ever sent: the first one to a side that cannot hear. */
  function Reach(s: State): nat
    requires Padded(s)
  {
    if !Hears(s, Client) then 0 else if !Hears(s, Server) then 1 else LastHop(s.first)
  }

  predicate InReach(s: State, ch: Chain)
    requires Padded(s)
  {
    && |ch.log| <= Reach(s) + 1 && (ch.pos.ToOpen? || ch.pos.ToWrite? ==> |ch.log| <= Reach(s))
    && (ch.pos.Over? ==> Hears(s, Client) && Hears(s, Server))
  }

  /** Read loops return only for messages they cannot hold, and no chain gets
      beyond the reach. */
  ghost predicate Confined(s: State)
    requires Padded(s)
  {
    && (s.client.deaf ==> !Hears(s, Client)) && (s.server.deaf ==> !Hears(s, Server))
    && forall c :: 0 <= c < |s.chains| ==> InReach(s, s.chains[c])
  }

  /** A message can be taken in only by a side that hears. */
  lemma DeliveredInReach(s: State, c: nat)
    requires Exchange(s) && Confined(s) && Enabled(s, Deliver(c))
    ensures InReach(s, Received(s.chains[c], DecodeBaton(s.chains[c].pos.msg).value.1))
  {
    var ch := s.chains[c];
    assert ChainOk(s.first, ch) && Sized(s, ch) && InReach(s, ch);
    ReceivedOk(s.first, ch);
    assert Hears(s, ch.pos.to);
    assert HopOk(s.first, |ch.log| - 1, ch.log[|ch.log| - 1]);
  }

  lemma SameReach(s: State, s': State)
    requires Padded(s) && s'.first == s.first
    requires s'.client.padding == s.client.padding && s'.server.padding == s.server.padding
    requires s'.client.buffer == s.client.buffer && s'.server.buffer == s.server.buffer
    ensures Padded(s') && Reach(s') == Reach(s) && Hears(s', Client) == Hears(s, Client)
    ensures Hears(s', Server) == Hears(s, Server)
  {
  }

  lemma OverflowConfined(s: State, c: nat)
    requires Exchange(s) && Confined(s) && Enabled(s, Overflow(c))
    ensures Confined(OverflowStep(s, c))
  {
    StepKeepsPadding(s, Overflow(c));
    SameReach(s, OverflowStep(s, c));
    assert Sized(s, s.chains[c]);
    assert !Hears(s, s.chains[c].pos.to);
  }

  lemma StepConfined(s: State, e: Event)
    requires Exchange(s) && Confined(s) && !Failed(Step(s, e))
    ensures Padded(Step(s, e)) && Confined(Step(s, e))
  {
    StepKeepsPadding(s, e);
    if Enabled(s, e) {
      SameReach(s, Step(s, e));
      if e.Overflow? {
        OverflowConfined(s, e.c);
      } else {
        StepChain(s, e);
        StepKeepsEars(s, e);
        if e.Deliver? {
          DeliveredInReach(s, e.c);
        }
        assert InReach(s, s.chains[e.c]);
        assert InReach(s, Step(s, e).chains[e.c]);
      }
    }
  }

  lemma {:induction false} RunConfined(s: State, es: seq<Event>)
    requires Exchange(s) && Confined(s) && !Failed(Run(s, es))
    ensures Padded(Run(s, es)) && Confined(Run(s, es)) && Reach(Run(s, es)) == Reach(s)
    ensures Hears(Run(s, es), Client) == Hears(s, Client) && Hears(Run(s, es), Server) == Hears(s, Server)
    decreases |es|
  {
    if es != [] {
      StepKeepsPadding(s, es[0]);
      if Failed(Step(s, es[0])) {
        FailureIsFinal(Step(s, es[0]), es[1..]);
      } else {
        StepKeeps(s, es[0]);
        StepConfined(s, es[0]);
        SameReach(s, Step(s, es[0]));
        RunConfined(Step(s, es[0]), es[1..]);
      }
    }
  }

  // ---------- deadlock and completion ----------

  /** A chain that waits for a side whose read loop has returned. */
  predicate Stuck(s: State, c: nat)
    requires c < |s.chains|
  {
    var pos := s.chains[c].pos;
    (pos.ToOpen? && At(s, pos.at).deaf) || (pos.Flight? && At(s, pos.to).deaf)
  }

  /** No deadlock but one: a chain that is not over has a step to take exactly
      when it does not wait for a side whose read loop has returned. */
  lemma {:induction false} SomeStepEnabled(s: State, c: nat)
    requires Exchange(s) && !Failed(s) && c < |s.chains| && !s.chains[c].pos.Over?
    ensures Enabled(s, Open(c)) || Enabled(s, Send(c)) || Enabled(s, Deliver(c)) || Enabled(s, Overflow(c)) <==>
            !Stuck(s, c)
  {
    if s.chains[c].pos.Flight? {
      var x := s.chains[c].pos.to;
      SeenAll(s, x);
      assert ChainOk(s.first, s.chains[c]) && !HasSeen(s.first, x, s.chains[c]);
      assert !At(s, x).done;
    }
  }

  ghost predicate Quiescent(s: State) {
    forall e :: !Enabled(s, e)
  }

  /** Every chain is over. */
  predicate Complete(s: State) {
    forall c :: 0 <= c < |s.chains| ==> s.chains[c].pos.Over?
  }

  /** A complete exchange has sent all its messages, and both counters are zero. */
  lemma CompleteCounts(s: State)
    requires Exchange(s) && Complete(s)
    ensures forall c :: 0 <= c < |s.chains| ==> |s.chains[c].log| == LastHop(s.first) + 1
    ensures Sum(Hops, s.first, s.chains) == |s.chains| * (LastHop(s.first) + 1)
    ensures s.client.active == 0 && s.server.active == 0
  {
    forall c | 0 <= c < |s.chains|
      ensures |s.chains[c].log| == LastHop(s.first) + 1
    {
      assert ChainOk(s.first, s.chains[c]);
    }
    SumExact(Hops, s.first, s.chains, LastHop(s.first) + 1);
    SumExact(Seen(Client), s.first, s.chains, 1);
    SumExact(Seen(Server), s.first, s.chains, 1);
  }

  lemma QuiescentCompletes(s: State)
    requires Exchange(s) && Confined(s) && !Failed(s) && Quiescent(s)
    requires s.chains != [] ==> Hears(s, Client) && Hears(s, Server)
    ensures Complete(s)
  {
    forall c | 0 <= c < |s.chains| ensures s.chains[c].pos.Over? {
      if !s.chains[c].pos.Over? {
        SomeStepEnabled(s, c);
      }
    }
  }

  lemma StartConfined(cfg: Config)
    requires cfg.Valid()
    ensures Confined(Start(cfg))
  {
  }

  /** A failure-free run that can go no further, between sides that hear each
      other, has sent exactly count times 257 - first stream messages, and both
      sides have completed. */
  lemma {:induction false} CompleteRun(cfg: Config, es: seq<Event>)
    requires cfg.Valid() && cfg.Fits() && !Failed(Run(Start(cfg), es)) && Quiescent(Run(Start(cfg), es))
    ensures var w := Run(Start(cfg), es);
            && |w.chains| == cfg.count && Complete(w)
            && (forall c :: 0 <= c < cfg.count ==> |w.chains[c].log| == 257 - cfg.first)
            && Sum(Hops, w.first, w.chains) == cfg.count * (257 - cfg.first)
            && w.client.active == 0 && w.server.active == 0
  {
    StartOk(cfg);
    StartConfined(cfg);
    RunKeeps(Start(cfg), es);
    RunConfined(Start(cfg), es);
    QuiescentCompletes(Run(Start(cfg), es));
    CompleteCounts(Run(Start(cfg), es));
  }

  /** A side that cannot hear never completes anything. */
  lemma DeafNeverCompletes(s: State, c: nat)
    requires Exchange(s) && Confined(s) && c < |s.chains| && (!Hears(s, Client) || !Hears(s, Server))
    ensures !s.chains[c].pos.Over?
  {
    assert InReach(s, s.chains[c]);
  }
}
