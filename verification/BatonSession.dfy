/** The batonSession object (internal/baton/session.go): the counter, the done
    and error state in place, the setup loop and the message handler. */
module BatonObject {
  import opened StreamIds
  import opened SendLimits
  import opened Varints
  import opened BatonCodec
  import opened BatonChain
  import opened Baton
  import opened BatonFailures

  /** A stream opened for a message and the message written on it. */
  function SendNew(p: Party, bidi: bool, baton: Byte, o: Outcome): (Party, Option<(nat, seq<Byte>)>)
    requires p.padding < TWO_62
  {
    var (p1, id) := PartyOpen(p, bidi);
    if id.None? then (p1, None)
    else
      var (p2, msg) := PartySend(p1, id.value, baton, o);
      (p2, if msg.None? then None else Some((id.value, msg.value)))
  }

  /** The baton that `setup` starts with: as configured, or drawn, but never 0. */
  function FirstBaton(configured: Byte, drawn: Byte): (first: Byte)
    ensures configured != 0 ==> first == configured
    ensures configured == 0 ==> first == if drawn != 0 then drawn else 1
  {
    if configured != 0 then configured else if drawn != 0 then drawn else 1
  }

  /** `setup`: a first baton per outcome, each on a stream of its own, until one
      fails; and the messages that went out. */
  function SetupSends(p: Party, first: Byte, os: seq<Outcome>): (r: (Party, seq<(nat, seq<Byte>)>))
    requires p.padding < TWO_62
    ensures |r.1| <= |os|
    decreases |os|
  {
    if os == [] then (p, [])
    else
      var (p1, sent) := SendNew(p, false, first, os[0]);
      if sent.None? then (p1, [])
      else
        var (p2, more) := SetupSends(p1, first, os[1..]);
        (p2, [sent.value] + more)
  }

  /** The rest of the setup loop, after the messages in `sent`. */
  ghost function SetupRest(p: Party, first: Byte, os: seq<Outcome>, sent: seq<(nat, seq<Byte>)>)
    : (Party, seq<(nat, seq<Byte>)>)
    requires p.padding < TWO_62
  {
    var (p1, more) := SetupSends(p, first, os);
    (p1, sent + more)
  }

  lemma SetupTurn(p: Party, first: Byte, os: seq<Outcome>, sent: seq<(nat, seq<Byte>)>)
    requires p.padding < TWO_62 && os != []
    ensures var (p1, one) := SendNew(p, false, first, os[0]);
            && p1.padding < TWO_62
            && SetupRest(p, first, os, sent) ==
               if one.None? then (p1, sent) else SetupRest(p1, first, os[1..], sent + [one.value])
  {
    var (p1, one) := SendNew(p, false, first, os[0]);
    if one.None? {
      assert sent + [] == sent;
    } else {
      var more := SetupSends(p1, first, os[1..]).1;
      assert sent + ([one.value] + more) == sent + [one.value] + more;
    }
  }

  /** `sendNext`: the stream to pass a baton on, by the kind it came on. */
  function PassedOn(p: Party, kind: Kind, id: nat, next: Byte, o: Outcome): (Party, Option<(nat, seq<Byte>)>)
    requires p.padding < TWO_62
  {
    match kind
    case Uni => SendNew(p, true, next, o)
    case SelfBidi => SendNew(p, false, next, o)
    case PeerBidi =>
      var (p2, reply) := PartySend(p, id, next, o);
      (p2, if reply.None? then None else Some((id, reply.value)))
  }

  /** `afterReceive`, once a zero has been counted. */
  function Answered(p: Party, baton: Option<Byte>, kind: Kind, id: nat, o: Outcome): (Party, Option<(nat, seq<Byte>)>)
    requires p.padding < TWO_62
  {
    if baton.None? || baton.value == 0 then (p, None) else PassedOn(p, kind, id, (baton.value + 1) % 256, o)
  }

  /** `handleIncoming`: receive, then complete or pass the baton on. */
  function Handled(p: Party, kind: Kind, id: nat, msg: seq<Byte>, o: Outcome): (Party, Option<(nat, seq<Byte>)>)
    requires p.padding < TWO_62
  {
    var (p1, baton) := PartyReceive(p, kind, id, msg);
    Answered(p1, baton, kind, id, o)
  }

  /** Which batons a side mirrors in a datagram. */
  predicate Mirrored(isServer: bool, baton: Byte) {
    if isServer then baton % 7 == 0 else baton % 7 == 1
  }

  /** Which messages of a chain are mirrored, by their place in it: the server, who
      receives the odd hops, mirrors multiples of seven; the client, who receives
      the even ones, mirrors what is one more than such a multiple. */
  lemma {:induction false} MirroredHops(first: Byte, ch: Chain, k: nat)
    requires ChainOk(first, ch) && k < |ch.log|
    ensures var receiver, b := Other(ch.log[k].from), (first + k) % 256;
            && (receiver == Server <==> k % 2 == 1)
            && (Mirrored(receiver == Server, ch.log[k].baton) <==>
                  b == if k % 2 == 1 then 7 * (b / 7) else 7 * (b / 7) + 1)
  {
    LogShape(first, ch, k);
  }

  class BatonSession {
    const padding: nat
    const buffer: int
    const limits: SendLimits
    var active: int
    var done: bool
    var failed: bool
    var err: bool
    var deaf: bool

    ghost function State(): Party
      reads this, limits
    {
      Party(active, done, failed, err, padding, buffer, deaf, limits.State())
    }

    /** `Run` stores the count; the limits are the session's. */
    constructor (count: nat, padding: nat, buffer: int, limits: SendLimits)
      ensures State() == Party(count, false, false, false, padding, buffer, false, limits.State())
      ensures this.limits == limits
    {
      this.padding, this.buffer, this.limits := padding, buffer, limits;
      active, done, failed, err, deaf := count, false, false, false, false;
    }

    /** The session's read loop has returned and closed the session. */
    method SessionEnds()
      modifies this`deaf
      ensures State() == old(State()).(deaf := true)
    {
      deaf := true;
    }

    method CompleteOne()
      modifies this`active, this`done
      ensures State() == Baton.CompleteOne(old(State()))
    {
      active := active - 1;
      if active <= 0 {
        done := true;
      }
    }

    method FailWith()
      modifies this`failed, this`done, this`err
      ensures State() == Fail(old(State()))
    {
      failed := true;
      if !done {
        err, done := true, true;
      }
    }

    method OpenFor(bidi: bool) returns (id: Option<nat>)
      modifies this, limits
      ensures (State(), id) == PartyOpen(old(State()), bidi)
    {
      if deaf {
        FailWith();
        return None;
      }
      id := limits.AllocLocalStream(bidi);
      if id.None? {
        FailWith();
      }
    }

    /** Message, FIN and completion; a failed write is refunded. */
    method WriteOn(id: nat, baton: Byte, o: Outcome) returns (msg: Option<seq<Byte>>)
      requires padding < TWO_62
      modifies this, limits
      ensures (State(), msg) == PartySend(old(State()), id, baton, o)
    {
      var m := Message(padding, baton);
      var v := limits.ReserveSendData(id, |m|);
      if v != Ok {
        FailWith();
        return None;
      }
      if o.WriteFails? {
        limits.RefundSendData(id, |m|);
      }
      if !o.Emitted? {
        FailWith();
        return None;
      }
      if baton == 0 {
        CompleteOne();
      }
      return Some(m);
    }

    /** `sendUniMsg` and `sendOnNewBidi` */
    method SendOnNew(bidi: bool, baton: Byte, o: Outcome) returns (sent: Option<(nat, seq<Byte>)>)
      requires padding < TWO_62
      modifies this, limits
      ensures (State(), sent) == SendNew(old(State()), bidi, baton, o)
    {
      var id := OpenFor(bidi);
      if id.None? {
        return None;
      }
      var msg := WriteOn(id.value, baton, o);
      if msg.None? {
        return None;
      }
      return Some((id.value, msg.value));
    }

    /** `os[i]` is what becomes of the i-th message. */
    method Setup(configured: Byte, drawn: Byte, os: seq<Outcome>) returns (first: Byte, sent: seq<(nat, seq<Byte>)>)
      requires padding < TWO_62
      modifies this, limits
      ensures first == FirstBaton(configured, drawn)
      ensures (State(), sent) == SetupSends(old(State()), first, os)
    {
      first := configured;
      if first == 0 {
        first := drawn;
        if first == 0 {
          first := 1;
        }
      }
      sent := [];
      var i := 0;
      assert os[0..] == os;
      ghost var all := SetupRest(State(), first, os, []);
      assert [] + SetupSends(State(), first, os).1 == SetupSends(State(), first, os).1;
      while i < |os|
        invariant 0 <= i <= |os|
        invariant all == SetupRest(State(), first, os[i..], sent)
      {
        SetupTurn(State(), first, os[i..], sent);
        assert os[i..][1..] == os[i + 1..];
        var one := SendOnNew(false, first, os[i]);
        if one.None? {
          return;
        }
        sent := sent + [one.value];
        i := i + 1;
      }
      assert sent + [] == sent;
    }

    method SendNext(kind: Kind, id: nat, next: Byte, o: Outcome) returns (sent: Option<(nat, seq<Byte>)>)
      requires padding < TWO_62
      modifies this, limits
      ensures (State(), sent) == PassedOn(old(State()), kind, id, next, o)
    {
      match kind
      case Uni => sent := SendOnNew(true, next, o);
      case SelfBidi => sent := SendOnNew(false, next, o);
      case PeerBidi =>
        var reply := WriteOn(id, next, o);
        sent := if reply.None? then None else Some((id, reply.value));
    }

    /** The session tracks the stream, the handler decodes what it carried. */
    method ReceiveMessage(kind: Kind, id: nat, msg: seq<Byte>) returns (baton: Option<Byte>)
      modifies this, limits
      ensures (State(), baton) == PartyReceive(old(State()), kind, id, msg)
    {
      if kind == PeerBidi {
        limits.TrackSendStream(id);
      }
      var decoded := DecodeBaton(msg);
      if decoded.None? {
        FailWith();
        return None;
      }
      if decoded.value.1 == 0 {
        CompleteOne();
      }
      return Some(decoded.value.1);
    }

    method AfterReceive(received: Option<Byte>, kind: Kind, id: nat, msg: seq<Byte>, o: Outcome)
      returns (sent: Option<(nat, seq<Byte>)>, mirror: Option<seq<Byte>>, closes: bool)
      requires padding < TWO_62
      modifies this, limits
      ensures (State(), sent) == Answered(old(State()), received, kind, id, o)
      ensures mirror == if received.Some? && Mirrored(limits.isServer, received.value) then Some(msg) else None
      ensures closes <==> received == Some(0) && kind == PeerBidi
    {
      sent, mirror, closes := None, None, false;
      if received.None? {
        return;
      }
      var baton: Byte := received.value;
      if Mirrored(limits.isServer, baton) {
        mirror := Some(msg);
      }
      if baton == 0 {
        closes := kind == PeerBidi;
        return;
      }
      sent := SendNext(kind, id, (baton + 1) % 256, o);
    }

    /** `mirror` is the datagram sent beside the answer; `closes` says that the
        stream of a received zero is closed. */
    method HandleIncoming(kind: Kind, id: nat, msg: seq<Byte>, o: Outcome)
      returns (sent: Option<(nat, seq<Byte>)>, mirror: Option<seq<Byte>>, closes: bool)
      requires padding < TWO_62
      modifies this, limits
      ensures (State(), sent) == Handled(old(State()), kind, id, msg, o)
      ensures var baton := PartyReceive(old(State()), kind, id, msg).1;
              && (mirror.Some? <==> baton.Some? && baton.value % 7 == if limits.isServer then 0 else 1)
              && (mirror.Some? ==> mirror.value == msg)
              && (closes <==> baton == Some(0) && kind == PeerBidi)
    {
      var received: Option<Byte> := ReceiveMessage(kind, id, msg);
      sent, mirror, closes := AfterReceive(received, kind, id, msg, o);
    }
  }

  // ---------- the handlers are runs of the exchange's steps ----------

  lemma {:induction false} TurnsConcat(f: Faulty, a: seq<Turn>, b: seq<Turn>)
    requires Padded(f.s)
    ensures Padded(RunTurns(f, a).s) && RunTurns(f, a + b) == RunTurns(RunTurns(f, a), b)
    decreases |a|
  {
    if a == [] {
      assert a + b == b;
    } else {
      NextKeepsPadding(f, a[0]);
      assert (a + b)[1..] == a[1..] + b;
      TurnsConcat(Next(f, a[0]), a[1..], b);
    }
  }

  lemma TwoTurns(f: Faulty, a: Turn, b: Turn)
    requires Padded(f.s)
    ensures Padded(Next(f, a).s) && RunTurns(f, [a, b]) == Next(Next(f, a), b)
  {
    NextKeepsPadding(f, a);
    var f1 := Next(f, a);
    NextKeepsPadding(f1, b);
    assert [a, b][1..] == [b] && [b][1..] == [];
    assert RunTurns(f1, [b]) == RunTurns(Next(f1, b), []);
  }

  /** The open of a chain, in the party's terms. */
  lemma OpenTurn(f: Faulty, c: nat)
    requires Padded(f.s) && Ready(f, TryOpen(c))
    ensures var pos, f' := f.s.chains[c].pos, Next(f, TryOpen(c));
            var (p, id) := PartyOpen(At(f.s, pos.at), pos.bidi);
            && At(f'.s, pos.at) == p && f'.s.first == f.s.first && |f'.s.chains| == |f.s.chains|
            && f'.s.chains == f.s.chains[c := f'.s.chains[c]]
            && (id.None? ==> f'.s.chains[c] == f.s.chains[c])
            && (id.Some? ==> f'.s.chains[c] == BatonChain.Opened(f.s.chains[c], id.value) && f'.gaveUp == f.gaveUp)
  {
  }

  lemma SendTurn(f: Faulty, c: nat, o: Outcome)
    requires Padded(f.s) && Ready(f, TrySend(c, o))
    ensures var ch, f' := f.s.chains[c], Next(f, TrySend(c, o));
            var (p, msg) := PartySend(At(f.s, ch.pos.at), ch.pos.id, ch.pos.baton, o);
            && At(f'.s, ch.pos.at) == p && f'.s.first == f.s.first && |f'.s.chains| == |f.s.chains|
            && f'.s.chains == f.s.chains[c := f'.s.chains[c]]
            && (msg.Some? ==> f'.gaveUp == f.gaveUp && f'.s.chains[c] == Wrote(ch, msg.value))
            && (msg.None? ==> f'.s.chains[c] == ch)
  {
  }

  /** The chain after a call that sent `sent`: the message is in flight to the
      other side, on its stream, and is the next of the log; without a message
      the log is what it was. */
  predicate Carries(ch: Chain, ch': Chain, x: Side, sent: Option<(nat, seq<Byte>)>) {
    if sent.None? then ch'.log == ch.log
    else
      && ch'.pos.Flight? && ch'.pos.to == Other(x) && ch'.pos.id == sent.value.0 && ch'.pos.msg == sent.value.1
      && |ch'.log| == |ch.log| + 1 && ch'.log[..|ch.log|] == ch.log
      && ch'.log[|ch.log|].from == x && ch'.log[|ch.log|].id == sent.value.0
  }

  /** An open and the send that follows it, as one call of the object. */
  lemma OpenSendTurns(f: Faulty, c: nat, o: Outcome)
    requires Padded(f.s) && Ready(f, TryOpen(c))
    ensures var ch, f' := f.s.chains[c], RunTurns(f, [TryOpen(c), TrySend(c, o)]);
            var (p, sent) := SendNew(At(f.s, ch.pos.at), ch.pos.bidi, ch.pos.baton, o);
            && At(f'.s, ch.pos.at) == p && f'.s.first == f.s.first && |f'.s.chains| == |f.s.chains|
            && f'.s.chains == f.s.chains[c := f'.s.chains[c]]
            && (sent.Some? ==> f'.gaveUp == f.gaveUp) && Carries(ch, f'.s.chains[c], ch.pos.at, sent)
  {
    TwoTurns(f, TryOpen(c), TrySend(c, o));
    OpenTurn(f, c);
    var f1 := Next(f, TryOpen(c));
    if PartyOpen(At(f.s, f.s.chains[c].pos.at), f.s.chains[c].pos.bidi).1.Some? {
      SendTurn(f1, c, o);
    } else {
      assert !Ready(f1, TrySend(c, o));
    }
  }

  /** The turns of the setup loop, chain after chain, up to the first failure. */
  function SetupTurns(p: Party, first: Byte, c: nat, os: seq<Outcome>): seq<Turn>
    requires p.padding < TWO_62
    decreases |os|
  {
    if os == [] then []
    else
      var (p1, sent) := SendNew(p, false, first, os[0]);
      [TryOpen(c), TrySend(c, os[0])] + if sent.None? then [] else SetupTurns(p1, first, c + 1, os[1..])
  }

  /** From chain `c` on: the messages in `sent` are in flight, chain by chain, and
      the chains after them have sent nothing. */
  ghost predicate AllCarry(first: Byte, chains: seq<Chain>, c: nat, sent: seq<(nat, seq<Byte>)>)
    requires c + |sent| <= |chains|
  {
    && (forall d :: 0 <= d < |sent| ==> Carries(Begin(first), chains[c + d], Server, Some(sent[d])))
    && (forall d :: c + |sent| <= d < |chains| ==> chains[d].log == [])
  }

  lemma OneMoreCarries(first: Byte, chains: seq<Chain>, c: nat, one: (nat, seq<Byte>), more: seq<(nat, seq<Byte>)>)
    requires c + 1 + |more| <= |chains| && AllCarry(first, chains, c + 1, more)
    requires Carries(Begin(first), chains[c], Server, Some(one))
    ensures AllCarry(first, chains, c, [one] + more)
  {
    var sent := [one] + more;
    forall d | 0 <= d < |sent| ensures Carries(Begin(first), chains[c + d], Server, Some(sent[d])) {
      if d > 0 {
        assert sent[d] == more[d - 1];
        assert Carries(Begin(first), chains[c + 1 + (d - 1)], Server, Some(more[d - 1]));
      }
    }
  }

  /** Chains that the setup loop has not come to. */
  ghost predicate Fresh(f: Faulty, c: nat) {
    forall d :: c <= d < |f.s.chains| ==> f.s.chains[d] == Begin(f.s.first) && (d, Server) !in f.gaveUp
  }

  /** The setup loop is the run of those turns, whatever its outcomes; and the
      messages it returns are the ones that its chains have in flight. */
  lemma {:induction false} SetupIsRun(f: Faulty, c: nat, os: seq<Outcome>)
    requires Padded(f.s) && c + |os| == |f.s.chains| && Fresh(f, c)
    ensures var f' := RunTurns(f, SetupTurns(f.s.server, f.s.first, c, os));
            var (p, sent) := SetupSends(f.s.server, f.s.first, os);
            && f'.s.server == p && |f'.s.chains| == |f.s.chains|
            && (forall d :: 0 <= d < c ==> f'.s.chains[d] == f.s.chains[d])
            && AllCarry(f.s.first, f'.s.chains, c, sent)
    decreases |os|
  {
    if os != [] {
      var turns := [TryOpen(c), TrySend(c, os[0])];
      SetupOne(f, c, os[0]);
      var f1 := RunTurns(f, turns);
      var (p1, sent) := SendNew(f.s.server, false, f.s.first, os[0]);
      if sent.None? {
        assert turns + [] == turns;
      } else {
        var more := SetupSends(p1, f.s.first, os[1..]).1;
        TurnsConcat(f, turns, SetupTurns(p1, f.s.first, c + 1, os[1..]));
        SetupIsRun(f1, c + 1, os[1..]);
        var f' := RunTurns(f1, SetupTurns(p1, f.s.first, c + 1, os[1..]));
        OneMoreCarries(f.s.first, f'.s.chains, c, sent.value, more);
      }
    }
  }

  /** The first of the loop's messages. */
  lemma SetupOne(f: Faulty, c: nat, o: Outcome)
    requires Padded(f.s) && c < |f.s.chains| && Fresh(f, c)
    ensures var f1 := RunTurns(f, [TryOpen(c), TrySend(c, o)]);
            var (p1, sent) := SendNew(f.s.server, false, f.s.first, o);
            && Padded(f1.s) && f1.s.server == p1 && f1.s.first == f.s.first && |f1.s.chains| == |f.s.chains|
            && (forall d :: 0 <= d < c ==> f1.s.chains[d] == f.s.chains[d])
            && Carries(Begin(f.s.first), f1.s.chains[c], Server, sent)
            && (sent.None? ==> forall d :: c <= d < |f1.s.chains| ==> f1.s.chains[d].log == [])
            && (sent.Some? ==> Fresh(f1, c + 1))
  {
    assert Ready(f, TryOpen(c));
    OpenSendTurns(f, c, o);
    TwoTurns(f, TryOpen(c), TrySend(c, o));
    NextKeepsPadding(Next(f, TryOpen(c)), TrySend(c, o));
  }

  /** Handling a message is the run take in, open, send on its chain; a step the
      handler does not take is one the chain does not allow; and the message the
      handler returns is the one that the chain has in flight. */
  lemma {:induction false} HandlerIsRun(f: Faulty, c: nat, o: Outcome)
    requires Padded(f.s) && Ready(f, TakeIn(c))
    ensures var ch, f' := f.s.chains[c], RunTurns(f, [TakeIn(c), TryOpen(c), TrySend(c, o)]);
            var (p, sent) := Handled(At(f.s, ch.pos.to), ch.pos.kind, ch.pos.id, ch.pos.msg, o);
            At(f'.s, ch.pos.to) == p && c < |f'.s.chains| && Carries(ch, f'.s.chains[c], ch.pos.to, sent)
  {
    NextKeepsPadding(f, TakeIn(c));
    var f1 := Next(f, TakeIn(c));
    var pos := f.s.chains[c].pos;
    assert [TakeIn(c), TryOpen(c), TrySend(c, o)][1..] == [TryOpen(c), TrySend(c, o)];
    TakeTurn(f, c);
    var (p, baton) := PartyReceive(At(f.s, pos.to), pos.kind, pos.id, pos.msg);
    if baton.Some? && baton.value != 0 {
      AnswerTurns(f1, c, pos.to, pos.kind, pos.id, (baton.value + 1) % 256, o);
    } else {
      TwoTurns(f1, TryOpen(c), TrySend(c, o));
    }
  }

  /** The answer to a message, as the chain after it asks for it. */
  lemma AnswerTurns(f: Faulty, c: nat, x: Side, kind: Kind, id: nat, next: Byte, o: Outcome)
    requires Padded(f.s) && c < |f.s.chains| && (c, x) !in f.gaveUp
    requires f.s.chains[c].pos == match kind
                                  case Uni => ToOpen(x, true, next)
                                  case PeerBidi => ToWrite(x, SelfBidi, id, next)
                                  case SelfBidi => ToOpen(x, false, next)
    ensures var f' := RunTurns(f, [TryOpen(c), TrySend(c, o)]);
            var (p, sent) := PassedOn(At(f.s, x), kind, id, next, o);
            At(f'.s, x) == p && c < |f'.s.chains| && Carries(f.s.chains[c], f'.s.chains[c], x, sent)
  {
    if kind == PeerBidi {
      TwoTurns(f, TryOpen(c), TrySend(c, o));
      SendTurn(f, c, o);
    } else {
      OpenSendTurns(f, c, o);
    }
  }

  /** Taking a message in, in the party's terms. */
  lemma TakeTurn(f: Faulty, c: nat)
    requires Padded(f.s) && Ready(f, TakeIn(c))
    ensures var ch, f' := f.s.chains[c], Next(f, TakeIn(c));
            var (p, baton) := PartyReceive(At(f.s, ch.pos.to), ch.pos.kind, ch.pos.id, ch.pos.msg);
            && At(f'.s, ch.pos.to) == p && |f'.s.chains| == |f.s.chains|
            && (baton.None? ==> f'.s.chains[c] == ch)
            && (baton.Some? ==> f'.s.chains[c] == Received(ch, baton.value) && f'.gaveUp == f.gaveUp)
  {
  }
}
