/** One baton chain of the Devious Baton exchange (internal/baton/session.go):
    where its baton is, what was sent so far, and what each handler step does. */
module BatonChain {
  import opened StreamIds
  import opened SendLimits
  import opened Varints
  import opened BatonCodec

  datatype Side = Client | Server

  function Other(x: Side): Side {
    if x == Client then Server else Client
  }

  /** How the receiver of a message sees the stream it came on. */
  datatype Kind = Uni | PeerBidi | SelfBidi

  /** Where a chain's baton is. Setup's first send is an open like any other. */
  datatype Position =
    | ToOpen(at: Side, bidi: bool, baton: Byte)              // about to open a stream for it
    | ToWrite(at: Side, kind: Kind, id: nat, baton: Byte)    // stream in hand, about to write
    | Flight(to: Side, kind: Kind, id: nat, msg: seq<Byte>)  // written and FINed
    | Over                                                   // the zero was received

  /** A message that was sent; `kind` is how its receiver sees the stream. */
  datatype Sent = Sent(from: Side, kind: Kind, id: nat, baton: Byte)

  datatype Chain = Chain(pos: Position, log: seq<Sent>)

  function Begin(first: Byte): Chain {
    Chain(ToOpen(Server, false, first), [])
  }

  // ---------- the steps ----------

  function Opened(ch: Chain, id: nat): Chain
    requires ch.pos.ToOpen?
  {
    ch.(pos := ToWrite(ch.pos.at, if ch.pos.bidi then PeerBidi else Uni, id, ch.pos.baton))
  }

  function Zeros(n: nat): seq<Byte> {
    seq(n, i => 0)
  }

  /** The message for a baton; every send of a side has the same length. */
  function Message(padding: nat, baton: Byte): seq<Byte>
    requires padding < TWO_62
  {
    EncodeBaton(Zeros(padding), baton)
  }

  function MessageLength(padding: nat): (n: nat)
    requires padding < TWO_62
    ensures 2 <= n <= padding + 9
  {
    |Varints.Encode(padding)| + padding + 1
  }

  function Wrote(ch: Chain, msg: seq<Byte>): Chain
    requires ch.pos.ToWrite?
  {
    var p := ch.pos;
    Chain(Flight(Other(p.at), p.kind, p.id, msg), ch.log + [Sent(p.at, p.kind, p.id, p.baton)])
  }

  /** `afterReceive`: what the baton and the kind of stream lead to. */
  function Received(ch: Chain, baton: Byte): Chain
    requires ch.pos.Flight?
  {
    if baton == 0 then ch.(pos := Over)
    else
      var next: Byte := (baton + 1) % 256;
      ch.(pos := match ch.pos.kind
                 case Uni => ToOpen(ch.pos.to, true, next)
                 case PeerBidi => ToWrite(ch.pos.to, SelfBidi, ch.pos.id, next)
                 case SelfBidi => ToOpen(ch.pos.to, false, next))
  }

  // ---------- the shape of a chain ----------

  /** The hop that carries the zero. */
  function LastHop(first: Byte): nat {
    256 - first
  }

  function BatonOf(first: Byte, hop: nat): Byte {
    (first + hop) % 256
  }

  function SenderOf(hop: nat): Side {
    if hop % 2 == 0 then Server else Client
  }

  function KindOf(hop: nat): Kind {
    if hop % 3 == 0 then Uni else if hop % 3 == 1 then PeerBidi else SelfBidi
  }

  /** Whose stream a hop uses. */
  function InitiatorOf(hop: nat): Side {
    if hop % 6 == 1 || hop % 6 == 2 || hop % 6 == 3 then Client else Server
  }

  /** The stream of a hop has the direction and initiator that its place in the
      six-hop rotation fixes. */
  predicate IdOf(hop: nat, id: nat) {
    IsBidi(id) == (hop % 3 != 0) && IsOurs(InitiatorOf(hop) == Server, id)
  }

  predicate HopOk(first: Byte, hop: nat, m: Sent) {
    m.baton == BatonOf(first, hop) && m.from == SenderOf(hop) && m.kind == KindOf(hop) && IdOf(hop, m.id)
  }

  predicate PosOk(first: Byte, pos: Position, log: seq<Sent>) {
    match pos
    case ToOpen(at, bidi, baton) =>
      && |log| <= LastHop(first) && baton == BatonOf(first, |log|) && at == SenderOf(|log|)
      && |log| % 3 != 2 && bidi == (|log| % 3 == 1)
    case ToWrite(at, kind, id, baton) =>
      && |log| <= LastHop(first) && HopOk(first, |log|, Sent(at, kind, id, baton))
      && (|log| % 3 == 2 ==> id == log[|log| - 1].id)
    case Flight(to, kind, id, msg) =>
      && 1 <= |log| <= LastHop(first) + 1
      && var m := log[|log| - 1];
         && to == Other(m.from) && kind == m.kind && id == m.id
         && DecodeBaton(msg).Some? && DecodeBaton(msg).value.1 == m.baton
    case Over => |log| == LastHop(first) + 1
  }

  /** Hop k carries first + k modulo 256, is the server's exactly when k is
      even, and uses the stream kind and initiator that k mod 6 fixes; a reply
      on a bidirectional stream uses the stream it answers. */
  predicate ChainOk(first: Byte, ch: Chain) {
    && 1 <= first
    && (forall k :: 0 <= k < |ch.log| ==> HopOk(first, k, ch.log[k]))
    && (forall k :: 1 <= k < |ch.log| && k % 3 == 2 ==> ch.log[k].id == ch.log[k - 1].id)
    && PosOk(first, ch.pos, ch.log)
  }

  /** Message k of a log, spelled out: its baton, its sender, its kind of stream,
      the stream's direction and initiator; the third of three is a reply on the
      stream of the second; and no message comes after the zero. */
  predicate Shaped(first: Byte, log: seq<Sent>, k: nat)
    requires k < |log|
  {
    var m := log[k];
    && m.baton == (first + k) % 256 && k <= 256 - first
    && (m.from == Server <==> k % 2 == 0)
    && (m.kind == Uni <==> k % 3 == 0) && (m.kind == PeerBidi <==> k % 3 == 1)
    && IsBidi(m.id) == (k % 3 != 0) && (IsOurs(true, m.id) <==> k % 6 in {0, 4, 5})
    && (k % 3 == 2 ==> m.id == log[k - 1].id)
  }

  lemma LogShape(first: Byte, ch: Chain, k: nat)
    requires ChainOk(first, ch) && k < |ch.log|
    ensures Shaped(first, ch.log, k)
  {
    assert HopOk(first, k, ch.log[k]);
  }

  /** Within a chain the baton is zero exactly at the last hop. */
  lemma ZeroAtLastHop(first: Byte, hop: nat)
    requires 1 <= first && hop <= LastHop(first)
    ensures BatonOf(first, hop) == 0 <==> hop == LastHop(first)
  {
  }

  lemma OpenedOk(first: Byte, ch: Chain, id: nat)
    requires ChainOk(first, ch) && ch.pos.ToOpen?
    requires IsBidi(id) == ch.pos.bidi && IsOurs(ch.pos.at == Server, id)
    ensures ChainOk(first, Opened(ch, id))
  {
    var h := |ch.log|;
    assert h % 3 == 0 ==> h % 6 == 0 || h % 6 == 3;
    assert h % 3 == 1 ==> h % 6 == 1 || h % 6 == 4;
  }

  lemma MessageDecodes(padding: nat, baton: Byte)
    requires padding < TWO_62
    ensures DecodeBaton(Message(padding, baton)) == Some((Zeros(padding), baton))
    ensures |Message(padding, baton)| == MessageLength(padding)
    ensures |Zeros(padding)| == padding && forall i :: 0 <= i < padding ==> Zeros(padding)[i] == 0
  {
    CodecRoundTrip(Zeros(padding), baton, []);
    assert Message(padding, baton) + [] == Message(padding, baton);
  }

  lemma WroteOk(first: Byte, ch: Chain, padding: nat)
    requires ChainOk(first, ch) && ch.pos.ToWrite? && padding < TWO_62
    ensures ChainOk(first, Wrote(ch, Message(padding, ch.pos.baton)))
  {
    MessageDecodes(padding, ch.pos.baton);
  }

  lemma ReplyIds(hop: nat, id: nat)
    requires IdOf(hop, id) && hop % 3 == 1
    ensures IdOf(hop + 1, id)
  {
    assert hop % 6 == 1 || hop % 6 == 4;
  }

  /** A nonzero baton moves on by one, and the other side has it. */
  lemma NextHop(first: Byte, k: nat)
    requires 1 <= first && k < LastHop(first)
    ensures BatonOf(first, k) != 0 && BatonOf(first, k + 1) == (BatonOf(first, k) + 1) % 256
    ensures SenderOf(k + 1) == Other(SenderOf(k))
    ensures (k + 1) % 3 == if k % 3 == 2 then 0 else k % 3 + 1
  {
  }

  lemma {:induction false} ReceivedOk(first: Byte, ch: Chain)
    requires ChainOk(first, ch) && ch.pos.Flight?
    ensures ChainOk(first, Received(ch, DecodeBaton(ch.pos.msg).value.1))
    ensures DecodeBaton(ch.pos.msg).value.1 == 0 <==> |ch.log| == LastHop(first) + 1
  {
    var k := |ch.log| - 1;
    ZeroAtLastHop(first, k);
    assert HopOk(first, k, ch.log[k]);
    if k < LastHop(first) {
      NextHop(first, k);
      if k % 3 == 1 {
        ReplyIds(k, ch.pos.id);
      }
    }
  }
}
