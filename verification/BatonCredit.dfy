/** What a baton exchange costs in stream and data credit, and that grants of
    that size are enough: no open and no write of any run is refused. */
module BatonCredit {
  import opened StreamIds
  import opened SendLimits
  import opened Varints
  import opened BatonCodec
  import opened BatonChain
  import opened Baton

  // ---------- closed forms, by the last hop that is sent ----------

  /** Opens that one chain needs for the hops of one residue modulo six. */
  function OpensPerChain(last: nat, residue: nat): nat
    requires residue <= 5
  {
    (last + 6 - residue) / 6
  }

  /** Messages that one chain makes a side send. */
  function MessagesPerChain(last: nat, x: Side): nat {
    if x == Server then last / 2 + 1 else (last + 1) / 2
  }

  // ---------- the accounts ----------

  ghost predicate OpensCounted(s: State) {
    && s.server.limits.openedUni == Sum(Opens(0), s.first, s.chains)
    && s.client.limits.openedBidi == Sum(Opens(1), s.first, s.chains)
    && s.client.limits.openedUni == Sum(Opens(3), s.first, s.chains)
    && s.server.limits.openedBidi == Sum(Opens(4), s.first, s.chains)
  }

  ghost predicate DataCounted(s: State, x: Side)
    requires At(s, x).padding < TWO_62
  {
    Charged(At(s, x).limits, Length(s, x), Sum(Messages(x), s.first, s.chains))
  }

  /** `m` messages of `n` bytes have been charged, within the session grant. */
  predicate Charged(l: Limits, n: nat, m: nat) {
    l.dataSent == n * m && l.dataSent <= l.maxData < TWO_64
  }

  lemma ChargedOnce(n: nat, m: nat)
    ensures n * m + n == n * (m + 1)
  {
  }

  // ---------- one chain's effect on the meters ----------

  lemma OpenedWeighs(first: Byte, ch: Chain, id: nat, r: nat)
    requires ch.pos.ToOpen? && r <= 5
    ensures Weigh(Opens(r), first, BatonChain.Opened(ch, id)) ==
            Weigh(Opens(r), first, ch) + if |ch.log| % 6 == r then 1 else 0
    ensures forall x :: Weigh(Messages(x), first, BatonChain.Opened(ch, id)) == Weigh(Messages(x), first, ch)
  {
  }

  lemma WroteWeighs(first: Byte, ch: Chain, msg: seq<Byte>, r: nat)
    requires ChainOk(first, ch) && ch.pos.ToWrite? && r <= 5
    ensures Weigh(Opens(r), first, Wrote(ch, msg)) == Weigh(Opens(r), first, ch)
    ensures forall x :: Weigh(Messages(x), first, Wrote(ch, msg)) ==
                        Weigh(Messages(x), first, ch) + if x == ch.pos.at then 1 else 0
  {
  }

  lemma ReplyResidue(first: Byte, ch: Chain)
    requires ChainOk(first, ch) && ch.pos.Flight? && ch.pos.kind == PeerBidi
    ensures |ch.log| % 6 == 2 || |ch.log| % 6 == 5
  {
    assert HopOk(first, |ch.log| - 1, ch.log[|ch.log| - 1]);
  }

  lemma NoOpen(n: nat, r: nat)
    requires r <= 5 && n % 6 != r
    ensures (n + 6 - r) / 6 == (n + 5 - r) / 6
  {
  }

  lemma ReceivedWeighs(first: Byte, ch: Chain, r: nat)
    requires ChainOk(first, ch) && ch.pos.Flight? && r in {0, 1, 3, 4}
    ensures var ch' := Received(ch, DecodeBaton(ch.pos.msg).value.1);
            && Weigh(Opens(r), first, ch') == Weigh(Opens(r), first, ch)
            && forall x :: Weigh(Messages(x), first, ch') == Weigh(Messages(x), first, ch)
  {
    if ch.pos.kind == PeerBidi {
      ReplyResidue(first, ch);
      NoOpen(|ch.log|, r);
    }
  }

  // ---------- streams are written once per side ----------

  function Owner(id: nat): Side {
    if IsOurs(true, id) then Server else Client
  }

  predicate Issued(s: State, id: nat) {
    id < At(s, Owner(id)).limits.created
  }

  /** The stream a chain will still write on. */
  function Live(ch: Chain): Option<nat> {
    match ch.pos
    case ToWrite(_, _, id, _) => Some(id)
    case Flight(_, kind, id, _) => if kind == PeerBidi then Some(id) else None
    case _ => None
  }

  predicate WillWrite(ch: Chain, x: Side, id: nat) {
    match ch.pos
    case ToWrite(at, kind, i, _) => i == id && (at == x || kind == PeerBidi)
    case Flight(to, kind, i, _) => i == id && kind == PeerBidi && to == x
    case _ => false
  }

  ghost predicate ChainLive(s: State, ch: Chain) {
    && (Live(ch).Some? ==> Issued(s, Live(ch).value))
    && (forall x, id :: WillWrite(ch, x, id) ==> id !in At(s, x).limits.streamSent)
    && (ch.pos.ToWrite? ==> ch.pos.id in At(s, ch.pos.at).limits.streamMax)
  }

  predicate Apart(a: Chain, b: Chain) {
    Live(a).Some? && Live(b).Some? ==> Live(a) != Live(b)
  }

  ghost predicate PartyStreams(s: State, x: Side) {
    var l := At(s, x).limits;
    && l.streamDataUni < TWO_62 && l.streamDataBidiLocal < TWO_62 && l.streamDataBidiRemote < TWO_62
    && (forall id :: id in l.streamSent ==> Issued(s, id))
    && (forall id :: id in l.streamMax ==> l.streamMax[id] == InitialLimit(l, id))
  }

  ghost predicate StreamsOnce(s: State) {
    && (forall c :: 0 <= c < |s.chains| ==> ChainLive(s, s.chains[c]))
    && (forall c, d :: 0 <= c < d < |s.chains| ==> Apart(s.chains[c], s.chains[d]))
    && PartyStreams(s, Client) && PartyStreams(s, Server)
  }

  /** Every message that was sent fitted its stream's initial limit. */
  ghost predicate Paid(s: State)
    requires Padded(s)
  {
    forall c, k :: 0 <= c < |s.chains| && 0 <= k < |s.chains[c].log| ==>
      var m := s.chains[c].log[k];
      Length(s, m.from) <= InitialLimit(At(s, m.from).limits, m.id)
  }

  ghost predicate Accounts(s: State) {
    && Exchange(s) && Confined(s) && OpensCounted(s) && DataCounted(s, Client) && DataCounted(s, Server)
    && StreamsOnce(s) && Paid(s)
  }

  // ---------- steps keep the accounts ----------

  lemma OpenMeters(s: State, c: nat, id: nat)
    requires c < |s.chains| && s.chains[c].pos.ToOpen?
    ensures var ch, ch' := s.chains[c], BatonChain.Opened(s.chains[c], id);
            && (forall r :: r in {0, 1, 3, 4} ==>
                  Sum(Opens(r), s.first, s.chains[c := ch']) ==
                  Sum(Opens(r), s.first, s.chains) + if |ch.log| % 6 == r then 1 else 0)
            && (forall x :: Sum(Messages(x), s.first, s.chains[c := ch']) == Sum(Messages(x), s.first, s.chains))
  {
    var ch, ch' := s.chains[c], BatonChain.Opened(s.chains[c], id);
    forall r | r in {0, 1, 3, 4}
      ensures Sum(Opens(r), s.first, s.chains[c := ch']) ==
              Sum(Opens(r), s.first, s.chains) + if |ch.log| % 6 == r then 1 else 0
    {
      OpenedWeighs(s.first, ch, id, r);
      SumUpdate(Opens(r), s.first, s.chains, c, ch');
    }
    forall x ensures Sum(Messages(x), s.first, s.chains[c := ch']) == Sum(Messages(x), s.first, s.chains) {
      OpenedWeighs(s.first, ch, id, 0);
      SumUpdate(Messages(x), s.first, s.chains, c, ch');
    }
  }

  /** The state after an open. */
  lemma OpenEffect(s: State, c: nat)
    requires Exchange(s) && Enabled(s, Open(c)) && !Failed(OpenStep(s, c))
    ensures var ch, s' := s.chains[c], OpenStep(s, c);
            var (l, id) := Alloc(At(s, ch.pos.at).limits, ch.pos.bidi);
            && id.Some? && s'.chains == s.chains[c := BatonChain.Opened(ch, id.value)] && s'.first == s.first
            && At(s', Other(ch.pos.at)) == At(s, Other(ch.pos.at))
            && At(s', ch.pos.at) == At(s, ch.pos.at).(limits := l)
  {
  }

  lemma OpenKeepsCounts(s: State, c: nat)
    requires Accounts(s) && Enabled(s, Open(c)) && !Failed(OpenStep(s, c))
    ensures Padded(OpenStep(s, c))
    ensures OpensCounted(OpenStep(s, c)) && DataCounted(OpenStep(s, c), Client) && DataCounted(OpenStep(s, c), Server)
  {
    var ch, s' := s.chains[c], OpenStep(s, c);
    var p := At(s, ch.pos.at);
    assert ChainOk(s.first, ch) && PartyOk(s, ch.pos.at);
    OpenEffect(s, c);
    CountedAlloc(p.limits, ch.pos.bidi);
    OpenResidue(s.first, ch);
    OpenMeters(s, c, Alloc(p.limits, ch.pos.bidi).1.value);
    AllocCounts(p.limits, ch.pos.bidi);
    assert DataCounted(s, ch.pos.at) && DataCounted(s, Other(ch.pos.at));
    assert DataCounted(s', ch.pos.at) && DataCounted(s', Other(ch.pos.at));
  }

  /** Which counter an open at a given hop moves. */
  lemma OpenResidue(first: Byte, ch: Chain)
    requires ChainOk(first, ch) && ch.pos.ToOpen?
    ensures var r := |ch.log| % 6;
            && (r == 0 <==> ch.pos.at == Server && !ch.pos.bidi) && (r == 1 <==> ch.pos.at == Client && ch.pos.bidi)
            && (r == 3 <==> ch.pos.at == Client && !ch.pos.bidi) && (r == 4 <==> ch.pos.at == Server && ch.pos.bidi)
  {
    var h := |ch.log|;
    assert h % 3 == (h % 6) % 3 && h % 2 == (h % 6) % 2;
  }

  lemma AllocCounts(l: Limits, bidi: bool)
    requires Counted(l) && !OpenRefused(l, bidi)
    ensures Alloc(l, bidi).0.dataSent == l.dataSent && Alloc(l, bidi).0.maxData == l.maxData
  {
  }

  lemma SendMeters(s: State, c: nat, msg: seq<Byte>)
    requires c < |s.chains| && ChainOk(s.first, s.chains[c]) && s.chains[c].pos.ToWrite?
    ensures var ch' := Wrote(s.chains[c], msg);
            && (forall r :: r in {0, 1, 3, 4} ==>
                  Sum(Opens(r), s.first, s.chains[c := ch']) == Sum(Opens(r), s.first, s.chains))
            && (forall x :: Sum(Messages(x), s.first, s.chains[c := ch']) ==
                            Sum(Messages(x), s.first, s.chains) + if x == s.chains[c].pos.at then 1 else 0)
  {
    var ch := s.chains[c];
    var ch' := Wrote(ch, msg);
    forall r | r in {0, 1, 3, 4}
      ensures Sum(Opens(r), s.first, s.chains[c := ch']) == Sum(Opens(r), s.first, s.chains)
    {
      WroteWeighs(s.first, ch, msg, r);
      SumUpdate(Opens(r), s.first, s.chains, c, ch');
    }
    forall x ensures Sum(Messages(x), s.first, s.chains[c := ch']) ==
                     Sum(Messages(x), s.first, s.chains) + if x == ch.pos.at then 1 else 0 {
      WroteWeighs(s.first, ch, msg, 0);
      SumUpdate(Messages(x), s.first, s.chains, c, ch');
    }
  }

  /** A write that is the stream's first from this side charges its length. */
  lemma FirstWriteExact(s: State, c: nat)
    requires Accounts(s) && c < |s.chains| && s.chains[c].pos.ToWrite?
    ensures var pos := s.chains[c].pos;
            var l, n := At(s, pos.at).limits, Length(s, pos.at);
            && (ReserveVerdict(l, pos.id, n) == Ok <==> l.dataSent + n <= l.maxData && n <= InitialLimit(l, pos.id))
            && (ReserveVerdict(l, pos.id, n) == Ok ==>
                  Reserve(l, pos.id, n) == l.(dataSent := l.dataSent + n, streamSent := l.streamSent[pos.id := n]))
  {
    var pos := s.chains[c].pos;
    var l := At(s, pos.at).limits;
    assert ChainLive(s, s.chains[c]);
    assert WillWrite(s.chains[c], pos.at, pos.id);
    assert PartyStreams(s, pos.at);
    ReserveExact(l, pos.id, Length(s, pos.at));
  }

  /** The state after a send, in plain arithmetic. */
  lemma SendEffect(s: State, c: nat)
    requires Accounts(s) && Enabled(s, Send(c)) && !Failed(SendStep(s, c))
    ensures var ch, s' := s.chains[c], SendStep(s, c);
            var at := ch.pos.at;
            var l, n := At(s, at).limits, Length(s, at);
            && s'.chains == s.chains[c := Wrote(ch, Message(At(s, at).padding, ch.pos.baton))]
            && s'.first == s.first && At(s', Other(at)) == At(s, Other(at)) && At(s', at).padding == At(s, at).padding
            && At(s', at).limits == l.(dataSent := l.dataSent + n, streamSent := l.streamSent[ch.pos.id := n])
            && l.dataSent + n <= l.maxData && n <= InitialLimit(l, ch.pos.id)
  {
    MessageDecodes(At(s, s.chains[c].pos.at).padding, s.chains[c].pos.baton);
    FirstWriteExact(s, c);
  }

  lemma DataAfterSend(s: State, s': State, at: Side)
    requires Padded(s)
    requires DataCounted(s, at) && DataCounted(s, Other(at))
    requires At(s', Other(at)) == At(s, Other(at)) && At(s', at).padding == At(s, at).padding
    requires At(s', at).limits.maxData == At(s, at).limits.maxData >= At(s', at).limits.dataSent
    requires At(s', at).limits.dataSent == At(s, at).limits.dataSent + Length(s, at)
    requires Sum(Messages(at), s'.first, s'.chains) == Sum(Messages(at), s.first, s.chains) + 1
    requires Sum(Messages(Other(at)), s'.first, s'.chains) == Sum(Messages(Other(at)), s.first, s.chains)
    ensures DataCounted(s', Client) && DataCounted(s', Server)
  {
    ChargedOnce(Length(s, at), Sum(Messages(at), s.first, s.chains));
    assert DataCounted(s', at) && DataCounted(s', Other(at));
  }

  lemma SendKeepsCounts(s: State, c: nat)
    requires Accounts(s) && Enabled(s, Send(c)) && !Failed(SendStep(s, c))
    ensures Padded(SendStep(s, c))
    ensures OpensCounted(SendStep(s, c)) && DataCounted(SendStep(s, c), Client) && DataCounted(SendStep(s, c), Server)
  {
    var ch := s.chains[c];
    SendEffect(s, c);
    SendMeters(s, c, Message(At(s, ch.pos.at).padding, ch.pos.baton));
    DataAfterSend(s, SendStep(s, c), ch.pos.at);
  }

  /** The state after a delivery. */
  lemma DeliverEffect(s: State, c: nat)
    requires c < |s.chains| && s.chains[c].pos.Flight? && ChainOk(s.first, s.chains[c])
    ensures var ch, s' := s.chains[c], DeliverStep(s, c);
            var x := ch.pos.to;
            && s'.chains == s.chains[c := Received(ch, DecodeBaton(ch.pos.msg).value.1)]
            && s'.first == s.first && At(s', Other(x)) == At(s, Other(x)) && At(s', x).padding == At(s, x).padding
            && At(s', x).limits ==
               (if ch.pos.kind == PeerBidi then TrackSend(At(s, x).limits, ch.pos.id) else At(s, x).limits)
  {
    ReceivedOk(s.first, s.chains[c]);
  }

  lemma DeliverMeters(s: State, c: nat)
    requires c < |s.chains| && ChainOk(s.first, s.chains[c]) && s.chains[c].pos.Flight?
    ensures var ch' := Received(s.chains[c], DecodeBaton(s.chains[c].pos.msg).value.1);
            && (forall r :: r in {0, 1, 3, 4} ==>
                  Sum(Opens(r), s.first, s.chains[c := ch']) == Sum(Opens(r), s.first, s.chains))
            && (forall x :: Sum(Messages(x), s.first, s.chains[c := ch']) == Sum(Messages(x), s.first, s.chains))
  {
    var ch := s.chains[c];
    var ch' := Received(ch, DecodeBaton(ch.pos.msg).value.1);
    forall r | r in {0, 1, 3, 4}
      ensures Sum(Opens(r), s.first, s.chains[c := ch']) == Sum(Opens(r), s.first, s.chains)
    {
      ReceivedWeighs(s.first, ch, r);
      SumUpdate(Opens(r), s.first, s.chains, c, ch');
    }
    forall x ensures Sum(Messages(x), s.first, s.chains[c := ch']) == Sum(Messages(x), s.first, s.chains) {
      ReceivedWeighs(s.first, ch, 0);
      SumUpdate(Messages(x), s.first, s.chains, c, ch');
    }
  }

  /** The counts after a step that sends nothing and opens nothing. */
  lemma CountsAfter(s: State, s': State, x: Side)
    requires Padded(s) && OpensCounted(s) && DataCounted(s, Client) && DataCounted(s, Server)
    requires forall r :: r in {0, 1, 3, 4} ==> Sum(Opens(r), s'.first, s'.chains) == Sum(Opens(r), s.first, s.chains)
    requires forall y :: Sum(Messages(y), s'.first, s'.chains) == Sum(Messages(y), s.first, s.chains)
    requires At(s', Other(x)) == At(s, Other(x)) && At(s', x).padding == At(s, x).padding
    requires var l, l' := At(s, x).limits, At(s', x).limits;
             && l'.openedUni == l.openedUni && l'.openedBidi == l.openedBidi
             && l'.dataSent == l.dataSent && l'.maxData == l.maxData
    ensures OpensCounted(s') && DataCounted(s', Client) && DataCounted(s', Server)
  {
    assert DataCounted(s', x) && DataCounted(s', Other(x));
  }

  lemma DeliverKeepsCounts(s: State, c: nat)
    requires Accounts(s) && Enabled(s, Deliver(c))
    ensures Padded(DeliverStep(s, c)) && OpensCounted(DeliverStep(s, c))
    ensures DataCounted(DeliverStep(s, c), Client) && DataCounted(DeliverStep(s, c), Server)
  {
    var ch := s.chains[c];
    DeliverMeters(s, c);
    DeliverEffect(s, c);
    TrackKeepsCounts(At(s, ch.pos.to).limits, ch.pos.id);
    CountsAfter(s, DeliverStep(s, c), ch.pos.to);
  }

  lemma TrackKeepsCounts(l: Limits, id: nat)
    ensures var l' := TrackSend(l, id);
            && l'.openedUni == l.openedUni && l'.openedBidi == l.openedBidi && l'.created == l.created
            && l'.dataSent == l.dataSent && l'.maxData == l.maxData && l'.streamSent == l.streamSent
  {
  }

  // ---------- steps keep streams written once ----------

  /** Party `x` moves its limits forward and chain `c` its position: other chains
      are undisturbed if the IDs that `x` newly wrote on are not theirs. */
  lemma OthersUndisturbed(s: State, c: nat, ch: Chain, x: Side, p: Party)
    requires StreamsOnce(s) && c < |s.chains|
    requires p.limits.created >= At(s, x).limits.created
    requires At(s, x).limits.streamMax.Keys <= p.limits.streamMax.Keys
    requires forall id :: id in p.limits.streamSent && id !in At(s, x).limits.streamSent ==>
               Live(s.chains[c]) == Some(id)
    ensures var s' := PutChain(Put(s, x, p), c, ch);
            forall d :: 0 <= d < |s.chains| && d != c ==> ChainLive(s', s.chains[d])
  {
    var s' := PutChain(Put(s, x, p), c, ch);
    forall d | 0 <= d < |s.chains| && d != c ensures ChainLive(s', s.chains[d]) {
      assert ChainLive(s, s.chains[d]);
      assert Apart(s.chains[c], s.chains[d]);
      forall y, id | WillWrite(s.chains[d], y, id) ensures id !in At(s', y).limits.streamSent {
        assert Live(s.chains[d]) == Some(id);
      }
    }
  }

  /** The chains stay apart if chain `c` keeps its stream, drops it, or takes one
      that was not issued before. */
  lemma StillApart(s: State, c: nat, ch: Chain)
    requires StreamsOnce(s) && c < |s.chains|
    requires Live(ch).None? || Live(ch) == Live(s.chains[c]) || !Issued(s, Live(ch).value)
    ensures var chains := s.chains[c := ch];
            forall i, j :: 0 <= i < j < |chains| ==> Apart(chains[i], chains[j])
  {
    var chains := s.chains[c := ch];
    forall i, j | 0 <= i < j < |chains| ensures Apart(chains[i], chains[j]) {
      assert Apart(s.chains[i], s.chains[j]);
      assert ChainLive(s, s.chains[i]) && ChainLive(s, s.chains[j]);
    }
  }

  lemma OpenKeepsStreams(s: State, c: nat)
    requires Accounts(s) && Enabled(s, Open(c)) && !Failed(OpenStep(s, c))
    ensures StreamsOnce(OpenStep(s, c))
  {
    var ch := s.chains[c];
    var x := ch.pos.at;
    var p := At(s, x);
    var (l, id) := Alloc(p.limits, ch.pos.bidi);
    CountedAlloc(p.limits, ch.pos.bidi);
    var ch' := BatonChain.Opened(ch, id.value);
    var s' := OpenStep(s, c);
    assert Owner(id.value) == x && !Issued(s, id.value);
    OpenLimits(p.limits, ch.pos.bidi);
    assert ChainLive(s', ch') by {
      assert PartyStreams(s, Client) && PartyStreams(s, Server);
    }
    StreamsAfter(s, s', c, x);
  }

  lemma OpenLimits(l: Limits, bidi: bool)
    requires Counted(l) && !OpenRefused(l, bidi)
    ensures var (l', id) := Alloc(l, bidi);
            && l'.streamSent == l.streamSent && l.streamMax.Keys <= l'.streamMax.Keys
            && SameSettings(l, l')
            && (forall j :: j in l'.streamMax ==>
                  l'.streamMax[j] == if j in l.streamMax then l.streamMax[j] else InitialLimit(l, j))
  {
  }

  predicate SameSettings(a: Limits, b: Limits) {
    && a.isServer == b.isServer && a.streamDataUni == b.streamDataUni
    && a.streamDataBidiLocal == b.streamDataBidiLocal && a.streamDataBidiRemote == b.streamDataBidiRemote
    && a.maxData == b.maxData && a.maxStreamsUni == b.maxStreamsUni && a.maxStreamsBidi == b.maxStreamsBidi
  }

  /** The parties' own conditions after a step of `x`. */
  lemma PartiesAfter(s: State, s': State, x: Side)
    requires PartyStreams(s, Client) && PartyStreams(s, Server)
    requires At(s', Other(x)) == At(s, Other(x))
    requires var l, l' := At(s, x).limits, At(s', x).limits;
             && SameSettings(l, l') && l'.created >= l.created
             && (forall id :: id in l'.streamSent && id !in l.streamSent ==> Issued(s, id))
             && (forall j :: j in l'.streamMax ==>
                   l'.streamMax[j] == if j in l.streamMax then l.streamMax[j] else InitialLimit(l, j))
    ensures PartyStreams(s', Client) && PartyStreams(s', Server)
  {
    var l, l' := At(s, x).limits, At(s', x).limits;
    assert forall j :: InitialLimit(l', j) == InitialLimit(l, j);
    assert forall id :: Issued(s, id) ==> Issued(s', id);
    assert PartyStreams(s', x);
    assert PartyStreams(s', Other(x));
  }

  /** Putting the parts together for a step of `x` on chain `c`. */
  lemma StreamsAfter(s: State, s': State, c: nat, x: Side)
    requires StreamsOnce(s) && c < |s.chains| == |s'.chains|
    requires s' == PutChain(Put(s, x, At(s', x)), c, s'.chains[c])
    requires var l, l' := At(s, x).limits, At(s', x).limits;
             && SameSettings(l, l') && l'.created >= l.created && l.streamMax.Keys <= l'.streamMax.Keys
             && (forall id :: id in l'.streamSent && id !in l.streamSent ==> Live(s.chains[c]) == Some(id))
             && (forall j :: j in l'.streamMax ==>
                   l'.streamMax[j] == if j in l.streamMax then l.streamMax[j] else InitialLimit(l, j))
    requires var ch' := s'.chains[c];
             && (Live(ch').None? || Live(ch') == Live(s.chains[c]) || !Issued(s, Live(ch').value))
             && ChainLive(s', ch')
    ensures StreamsOnce(s')
  {
    assert ChainLive(s, s.chains[c]);
    OthersUndisturbed(s, c, s'.chains[c], x, At(s', x));
    StillApart(s, c, s'.chains[c]);
    PartiesAfter(s, s', x);
  }

  lemma SendKeepsStreams(s: State, c: nat)
    requires Accounts(s) && Enabled(s, Send(c)) && !Failed(SendStep(s, c))
    ensures StreamsOnce(SendStep(s, c))
  {
    var ch, s' := s.chains[c], SendStep(s, c);
    SendEffect(s, c);
    assert ChainLive(s, ch);
    assert ch.pos.kind == PeerBidi ==> WillWrite(ch, Other(ch.pos.at), ch.pos.id);
    StreamsAfter(s, s', c, ch.pos.at);
  }

  lemma DeliverKeepsStreams(s: State, c: nat)
    requires StreamsOnce(s) && c < |s.chains| && s.chains[c].pos.Flight? && ChainOk(s.first, s.chains[c])
    requires Counted(At(s, s.chains[c].pos.to).limits)
    ensures StreamsOnce(DeliverStep(s, c))
  {
    var ch, s' := s.chains[c], DeliverStep(s, c);
    DeliverEffect(s, c);
    TrackLimits(At(s, ch.pos.to).limits, ch.pos.id);
    DeliveredLive(s, c);
    StreamsAfter(s, s', c, ch.pos.to);
  }

  /** A reply finds its stream tracked and not yet written by the replier. */
  lemma DeliveredLive(s: State, c: nat)
    requires StreamsOnce(s) && c < |s.chains| && s.chains[c].pos.Flight? && ChainOk(s.first, s.chains[c])
    requires Counted(At(s, s.chains[c].pos.to).limits)
    ensures ChainLive(DeliverStep(s, c), DeliverStep(s, c).chains[c])
  {
    var ch, s' := s.chains[c], DeliverStep(s, c);
    DeliverEffect(s, c);
    TrackLimits(At(s, ch.pos.to).limits, ch.pos.id);
    assert ChainOk(s.first, ch) && ChainLive(s, ch);
    ReplyLive(s, s', ch);
  }

  lemma ReplyLive(s: State, s': State, ch: Chain)
    requires ChainOk(s.first, ch) && ch.pos.Flight? && ChainLive(s, ch)
    requires At(s', Client).limits.created == At(s, Client).limits.created
    requires At(s', Server).limits.created == At(s, Server).limits.created
    requires At(s', ch.pos.to).limits.streamSent == At(s, ch.pos.to).limits.streamSent
    requires ch.pos.kind == PeerBidi && IsBidi(ch.pos.id) ==> ch.pos.id in At(s', ch.pos.to).limits.streamMax
    ensures ChainLive(s', Received(ch, DecodeBaton(ch.pos.msg).value.1))
  {
    assert HopOk(s.first, |ch.log| - 1, ch.log[|ch.log| - 1]);
    assert ch.pos.kind == PeerBidi ==> WillWrite(ch, ch.pos.to, ch.pos.id);
  }

  lemma TrackLimits(l: Limits, id: nat)
    requires Counted(l)
    ensures var l' := TrackSend(l, id);
            && l'.streamSent == l.streamSent && l'.created == l.created && l.streamMax.Keys <= l'.streamMax.Keys
            && (IsBidi(id) ==> id in l'.streamMax)
            && SameSettings(l, l')
            && (forall j :: j in l'.streamMax ==>
                  l'.streamMax[j] == if j in l.streamMax then l.streamMax[j] else InitialLimit(l, j))
  {
  }

  /** No step changes what was granted, the paddings or the number of chains. */
  predicate SameGrants(a: State, b: State) {
    && a.first == b.first && |a.chains| == |b.chains|
    && SameSettings(a.client.limits, b.client.limits) && SameSettings(a.server.limits, b.server.limits)
    && a.client.padding == b.client.padding && a.server.padding == b.server.padding
    && a.client.buffer == b.client.buffer && a.server.buffer == b.server.buffer
  }

  /** Messages stay paid when a chain keeps its log or adds a paid message. */
  lemma StillPaid(s: State, s': State, c: nat)
    requires Padded(s)
    requires Paid(s) && SameGrants(s, s') && c < |s.chains| && s'.chains == s.chains[c := s'.chains[c]]
    requires var log, log' := s.chains[c].log, s'.chains[c].log;
             || log' == log
             || (exists m :: log' == log + [m] && Length(s, m.from) <= InitialLimit(At(s, m.from).limits, m.id))
    ensures Paid(s')
  {
    forall d, k | 0 <= d < |s'.chains| && 0 <= k < |s'.chains[d].log|
      ensures var m := s'.chains[d].log[k]; Length(s', m.from) <= InitialLimit(At(s', m.from).limits, m.id)
    {
      var m := s'.chains[d].log[k];
      assert InitialLimit(At(s', m.from).limits, m.id) == InitialLimit(At(s, m.from).limits, m.id);
      if k < |s.chains[d].log| {
        assert s.chains[d].log[k] == m;
      }
    }
  }

  lemma StepKeepsAccounts(s: State, e: Event)
    requires Accounts(s) && !Failed(Step(s, e))
    ensures Accounts(Step(s, e)) && SameGrants(s, Step(s, e))
  {
    if Enabled(s, e) {
      match e
      case Open(c) => OpenKeepsAccounts(s, c);
      case Send(c) => SendKeepsAccounts(s, c);
      case Deliver(c) => DeliverKeepsAccounts(s, c);
      case Overflow(c) => OverflowKeepsAccounts(s, c);
    }
  }

  lemma OpenKeepsAccounts(s: State, c: nat)
    requires Accounts(s) && Enabled(s, Open(c)) && !Failed(OpenStep(s, c))
    ensures Accounts(OpenStep(s, c)) && SameGrants(s, OpenStep(s, c))
  {
    OpenKeeps(s, c);
    StepConfined(s, Open(c));
    StepKeepsPadding(s, Open(c));
    OpenKeepsCounts(s, c);
    OpenKeepsStreams(s, c);
    OpenLimits(At(s, s.chains[c].pos.at).limits, s.chains[c].pos.bidi);
    StillPaid(s, OpenStep(s, c), c);
  }

  lemma SendKeepsAccounts(s: State, c: nat)
    requires Accounts(s) && Enabled(s, Send(c)) && !Failed(SendStep(s, c))
    ensures Accounts(SendStep(s, c)) && SameGrants(s, SendStep(s, c))
  {
    SendKeeps(s, c);
    StepConfined(s, Send(c));
    StepKeepsPadding(s, Send(c));
    SendKeepsCounts(s, c);
    SendKeepsStreams(s, c);
    SendEffect(s, c);
    var pos := s.chains[c].pos;
    assert SendStep(s, c).chains[c].log == s.chains[c].log + [Sent(pos.at, pos.kind, pos.id, pos.baton)];
    StillPaid(s, SendStep(s, c), c);
  }

  lemma DeliverKeepsAccounts(s: State, c: nat)
    requires Accounts(s) && Enabled(s, Deliver(c))
    ensures Accounts(DeliverStep(s, c)) && SameGrants(s, DeliverStep(s, c))
  {
    DeliverKeeps(s, c);
    StepConfined(s, Deliver(c));
    StepKeepsPadding(s, Deliver(c));
    DeliverKeepsCounts(s, c);
    DeliverKeepsStreams(s, c);
    DeliverEffect(s, c);
    TrackLimits(At(s, s.chains[c].pos.to).limits, s.chains[c].pos.id);
    StillPaid(s, DeliverStep(s, c), c);
  }

  /** The state after an overflow: no chain moves. */
  lemma OverflowEffect(s: State, c: nat)
    requires c < |s.chains| && s.chains[c].pos.Flight?
    ensures var pos, s' := s.chains[c].pos, OverflowStep(s, c);
            var x := pos.to;
            && s'.chains == s.chains && s'.first == s.first && At(s', Other(x)) == At(s, Other(x))
            && At(s', x).padding == At(s, x).padding && At(s', x).buffer == At(s, x).buffer
            && At(s', x).limits == if pos.kind == PeerBidi then TrackSend(At(s, x).limits, pos.id) else At(s, x).limits
  {
  }

  lemma OverflowKeepsStreams(s: State, c: nat)
    requires StreamsOnce(s) && c < |s.chains| && s.chains[c].pos.Flight? && Counted(At(s, s.chains[c].pos.to).limits)
    ensures StreamsOnce(OverflowStep(s, c))
  {
    var ch, s' := s.chains[c], OverflowStep(s, c);
    OverflowEffect(s, c);
    TrackLimits(At(s, ch.pos.to).limits, ch.pos.id);
    assert ChainLive(s, ch);
    assert ChainLive(s', ch);
    StreamsAfter(s, s', c, ch.pos.to);
  }

  lemma OverflowKeepsAccounts(s: State, c: nat)
    requires Accounts(s) && Enabled(s, Overflow(c))
    ensures Accounts(OverflowStep(s, c)) && SameGrants(s, OverflowStep(s, c)) && !Failed(OverflowStep(s, c))
  {
    var x, s' := s.chains[c].pos.to, OverflowStep(s, c);
    OverflowKeeps(s, c);
    OverflowConfined(s, c);
    OverflowEffect(s, c);
    TrackKeepsCounts(At(s, x).limits, s.chains[c].pos.id);
    TrackLimits(At(s, x).limits, s.chains[c].pos.id);
    CountsAfter(s, s', x);
    OverflowKeepsStreams(s, c);
    StillPaid(s, s', c);
  }

  // ---------- grants that are large enough ----------

  predicate StreamGrants(last: nat, count: nat, client: Limits, server: Limits) {
    && count * OpensPerChain(last, 0) <= server.maxStreamsUni
    && count * OpensPerChain(last, 1) <= client.maxStreamsBidi
    && count * OpensPerChain(last, 3) <= client.maxStreamsUni
    && count * OpensPerChain(last, 4) <= server.maxStreamsBidi
  }

  predicate DataGrants(last: nat, count: nat, x: Side, n: nat, l: Limits) {
    n * (count * MessagesPerChain(last, x)) <= l.maxData
  }

  /** Each side writes one message per stream; which stream kinds it writes on
      depends on how many hops a chain has. */
  predicate PerStreamGrants(last: nat, count: nat, x: Side, n: nat, uni: nat, bidiLocal: nat, bidiRemote: nat) {
    count > 0 ==>
      if x == Server then
        n <= uni && (last >= 2 ==> n <= bidiLocal) && (last >= 4 ==> n <= bidiRemote)
      else
        (last >= 1 ==> n <= bidiRemote) && (last >= 3 ==> n <= uni) && (last >= 5 ==> n <= bidiLocal)
  }

  predicate StreamDataGrants(last: nat, count: nat, x: Side, n: nat, l: Limits) {
    PerStreamGrants(last, count, x, n, l.streamDataUni, l.streamDataBidiLocal, l.streamDataBidiRemote)
  }

  /** The grants, in terms of the state that holds them. */
  predicate Enough(s: State)
    requires Padded(s)
  {
    && StreamGrants(Reach(s), |s.chains|, s.client.limits, s.server.limits)
    && DataGrants(Reach(s), |s.chains|, Client, Length(s, Client), s.client.limits)
    && DataGrants(Reach(s), |s.chains|, Server, Length(s, Server), s.server.limits)
    && StreamDataGrants(Reach(s), |s.chains|, Client, Length(s, Client), s.client.limits)
    && StreamDataGrants(Reach(s), |s.chains|, Server, Length(s, Server), s.server.limits)
  }

  /** The initial limit that governs a hop's stream at its sender. */
  lemma HopLimit(first: Byte, hop: nat, m: Sent, l: Limits)
    requires HopOk(first, hop, m) && l.isServer == (m.from == Server)
    ensures InitialLimit(l, m.id) ==
            if hop % 3 == 0 then l.streamDataUni
            else if hop % 3 == 1 then l.streamDataBidiRemote else l.streamDataBidiLocal
  {
    assert hop % 2 == (hop % 6) % 2 && hop % 3 == (hop % 6) % 3;
  }

  lemma OpensWithin(first: Byte, ch: Chain, last: nat, r: nat)
    requires ChainOk(first, ch) && r <= 5
    requires |ch.log| <= last + 1 && (ch.pos.ToOpen? || ch.pos.ToWrite? ==> |ch.log| <= last)
    ensures Weigh(Opens(r), first, ch) <= OpensPerChain(last, r)
    ensures ch.pos.ToOpen? && |ch.log| % 6 == r ==> Weigh(Opens(r), first, ch) < OpensPerChain(last, r)
  {
  }

  lemma MessagesWithin(first: Byte, ch: Chain, last: nat, x: Side)
    requires ChainOk(first, ch)
    requires |ch.log| <= last + 1 && (ch.pos.ToOpen? || ch.pos.ToWrite? ==> |ch.log| <= last)
    ensures Weigh(Messages(x), first, ch) <= MessagesPerChain(last, x)
    ensures ch.pos.ToWrite? && ch.pos.at == x ==> Weigh(Messages(x), first, ch) < MessagesPerChain(last, x)
  {
  }

  /** An open that a chain is about to make is still unspent. */
  lemma OpenUnspent(s: State, c: nat)
    requires Exchange(s) && Confined(s) && c < |s.chains| && s.chains[c].pos.ToOpen?
    ensures var r := |s.chains[c].log| % 6;
            Sum(Opens(r), s.first, s.chains) < |s.chains| * OpensPerChain(Reach(s), r)
  {
    var r := |s.chains[c].log| % 6;
    forall d | 0 <= d < |s.chains| ensures Weigh(Opens(r), s.first, s.chains[d]) <= OpensPerChain(Reach(s), r) {
      assert ChainOk(s.first, s.chains[d]) && InReach(s, s.chains[d]);
      OpensWithin(s.first, s.chains[d], Reach(s), r);
    }
    OpensWithin(s.first, s.chains[c], Reach(s), r);
    SumBound(Opens(r), s.first, s.chains, OpensPerChain(Reach(s), r));
  }

  lemma MessageUnspent(s: State, c: nat)
    requires Exchange(s) && Confined(s) && c < |s.chains| && s.chains[c].pos.ToWrite?
    ensures var x := s.chains[c].pos.at;
            Sum(Messages(x), s.first, s.chains) < |s.chains| * MessagesPerChain(Reach(s), x)
  {
    var x := s.chains[c].pos.at;
    forall d | 0 <= d < |s.chains| ensures Weigh(Messages(x), s.first, s.chains[d]) <= MessagesPerChain(Reach(s), x) {
      assert ChainOk(s.first, s.chains[d]) && InReach(s, s.chains[d]);
      MessagesWithin(s.first, s.chains[d], Reach(s), x);
    }
    MessagesWithin(s.first, s.chains[c], Reach(s), x);
    SumBound(Messages(x), s.first, s.chains, MessagesPerChain(Reach(s), x));
  }

  lemma OpenGranted(s: State, c: nat)
    requires Accounts(s) && Enough(s) && Enabled(s, Open(c))
    ensures !Failed(OpenStep(s, c))
  {
    var ch := s.chains[c];
    assert ChainOk(s.first, ch);
    OpenResidue(s.first, ch);
    OpenUnspent(s, c);
    assert !OpenRefused(At(s, ch.pos.at).limits, ch.pos.bidi);
  }

  lemma {:induction false} RoomForOneMore(n: nat, m: nat, total: nat)
    requires m < total
    ensures n * m + n <= n * total
    decreases total
  {
    ChargedOnce(n, total - 1);
    if m + 1 < total {
      RoomForOneMore(n, m, total - 1);
    }
  }

  /** The first hop of each stream kind at each side. */
  lemma HopSender(hop: nat)
    ensures SenderOf(hop) == Client ==> hop >= 1
    ensures SenderOf(hop) == Server && hop % 3 == 1 ==> hop >= 4
    ensures SenderOf(hop) == Server && hop % 3 == 2 ==> hop >= 2
    ensures SenderOf(hop) == Client && hop % 3 == 0 ==> hop >= 3
    ensures SenderOf(hop) == Client && hop % 3 == 2 ==> hop >= 5
  {
  }

  lemma StreamGranted(s: State, c: nat)
    requires Exchange(s) && Confined(s) && Enough(s) && c < |s.chains| && s.chains[c].pos.ToWrite?
    ensures var pos := s.chains[c].pos; Length(s, pos.at) <= InitialLimit(At(s, pos.at).limits, pos.id)
  {
    var pos, hop := s.chains[c].pos, |s.chains[c].log|;
    assert ChainOk(s.first, s.chains[c]) && InReach(s, s.chains[c]);
    HopLimit(s.first, hop, Sent(pos.at, pos.kind, pos.id, pos.baton), At(s, pos.at).limits);
    HopSender(hop);
  }

  lemma DataGranted(s: State, c: nat)
    requires Accounts(s) && Enough(s) && c < |s.chains| && s.chains[c].pos.ToWrite?
    ensures var x := s.chains[c].pos.at; At(s, x).limits.dataSent + Length(s, x) <= At(s, x).limits.maxData
  {
    var x := s.chains[c].pos.at;
    MessageUnspent(s, c);
    RoomForOneMore(Length(s, x), Sum(Messages(x), s.first, s.chains), |s.chains| * MessagesPerChain(Reach(s), x));
    assert DataCounted(s, x) && DataGrants(Reach(s), |s.chains|, x, Length(s, x), At(s, x).limits);
  }

  lemma SendGranted(s: State, c: nat)
    requires Accounts(s) && Enough(s) && Enabled(s, Send(c))
    ensures !Failed(SendStep(s, c))
  {
    var pos := s.chains[c].pos;
    MessageDecodes(At(s, pos.at).padding, pos.baton);
    DataGranted(s, c);
    StreamGranted(s, c);
    FirstWriteExact(s, c);
    assert ReserveVerdict(At(s, pos.at).limits, pos.id, Length(s, pos.at)) == Ok;
  }

  /** Accounts in order, with grants enough for all that is still to come. */
  ghost predicate Credit(s: State) {
    !Failed(s) && Accounts(s) && Enough(s)
  }

  lemma CreditAdmits(s: State, e: Event)
    requires Credit(s)
    ensures !Failed(Step(s, e))
  {
    if Enabled(s, e) {
      match e
      case Open(c) => OpenGranted(s, c);
      case Send(c) => SendGranted(s, c);
      case Deliver(c) => DeliverKeeps(s, c);
      case Overflow(c) => OverflowKeeps(s, c);
    }
  }

  lemma CreditStep(s: State, e: Event)
    requires Credit(s)
    ensures Padded(Step(s, e)) && Credit(Step(s, e))
  {
    CreditAdmits(s, e);
    StepKeepsAccounts(s, e);
    EnoughTransfers(s, Step(s, e));
  }

  lemma {:induction false} CreditRun(s: State, es: seq<Event>)
    requires Credit(s)
    ensures Credit(Run(s, es))
    decreases |es|
  {
    if es != [] {
      CreditStep(s, es[0]);
      CreditRun(Step(s, es[0]), es[1..]);
    }
  }

  lemma StartAccounts(cfg: Config)
    requires cfg.Valid()
    ensures Accounts(Start(cfg))
  {
    var s := Start(cfg);
    StartOk(cfg);
    StartConfined(cfg);
    SumExact(Opens(0), s.first, s.chains, 0);
    SumExact(Opens(1), s.first, s.chains, 0);
    SumExact(Opens(3), s.first, s.chains, 0);
    SumExact(Opens(4), s.first, s.chains, 0);
    SumExact(Messages(Client), s.first, s.chains, 0);
    SumExact(Messages(Server), s.first, s.chains, 0);
  }

  /** The last hop that is ever sent: 256 - first, unless a message does not fit
      the receiver's stream buffers. */
  function LastSent(cfg: Config): nat
    requires cfg.Valid()
  {
    if !Holds(cfg.bufC, MessageLength(cfg.padS)) then 0
    else if !Holds(cfg.bufS, MessageLength(cfg.padC)) then 1
    else 256 - cfg.first
  }

  /** The closed-form grants. With K the last hop that is ever sent, per chain:
      K/6 + 1 server uni, (K+5)/6 client bidi, (K+3)/6 client uni and (K+2)/6
      server bidi streams; K/2 + 1 server and (K+1)/2 client messages of session
      data; and one message of data for each kind of stream a side writes on. */
  predicate Grants(cfg: Config)
    requires cfg.Valid()
  {
    var k := LastSent(cfg);
    && cfg.count * (k / 6 + 1) <= cfg.peerS.maxStreamsUni
    && cfg.count * ((k + 5) / 6) <= cfg.peerC.maxStreamsBidi
    && cfg.count * ((k + 3) / 6) <= cfg.peerC.maxStreamsUni
    && cfg.count * ((k + 2) / 6) <= cfg.peerS.maxStreamsBidi
    && MessageLength(cfg.padS) * (cfg.count * (k / 2 + 1)) <= cfg.peerS.maxData
    && MessageLength(cfg.padC) * (cfg.count * ((k + 1) / 2)) <= cfg.peerC.maxData
    && PerStreamGrants(k, cfg.count, Client, MessageLength(cfg.padC),
                       cfg.peerC.streamDataUni, cfg.peerC.streamDataBidiLocal, cfg.peerC.streamDataBidiRemote)
    && PerStreamGrants(k, cfg.count, Server, MessageLength(cfg.padS),
                       cfg.peerS.streamDataUni, cfg.peerS.streamDataBidiLocal, cfg.peerS.streamDataBidiRemote)
  }

  /** The closed forms per chain. */
  lemma PerChain(k: nat)
    ensures OpensPerChain(k, 0) == k / 6 + 1 && OpensPerChain(k, 1) == (k + 5) / 6
    ensures OpensPerChain(k, 3) == (k + 3) / 6 && OpensPerChain(k, 4) == (k + 2) / 6
    ensures MessagesPerChain(k, Server) == k / 2 + 1 && MessagesPerChain(k, Client) == (k + 1) / 2
  {
  }

  lemma SameStreamGrants(k: nat, count: nat, client: Limits, server: Limits)
    ensures StreamGrants(k, count, client, server) <==>
            && count * (k / 6 + 1) <= server.maxStreamsUni && count * ((k + 5) / 6) <= client.maxStreamsBidi
            && count * ((k + 3) / 6) <= client.maxStreamsUni && count * ((k + 2) / 6) <= server.maxStreamsBidi
  {
    PerChain(k);
    var a, b, c, d := OpensPerChain(k, 0), OpensPerChain(k, 1), OpensPerChain(k, 3), OpensPerChain(k, 4);
    assert a == k / 6 + 1 && b == (k + 5) / 6 && c == (k + 3) / 6 && d == (k + 2) / 6;
  }

  lemma SameDataGrants(k: nat, count: nat, n: nat, l: Limits)
    ensures DataGrants(k, count, Server, n, l) <==> n * (count * (k / 2 + 1)) <= l.maxData
    ensures DataGrants(k, count, Client, n, l) <==> n * (count * ((k + 1) / 2)) <= l.maxData
  {
    PerChain(k);
    var a, b := MessagesPerChain(k, Server), MessagesPerChain(k, Client);
    assert a == k / 2 + 1 && b == (k + 1) / 2;
  }

  lemma GrantsAreEnough(cfg: Config)
    requires cfg.Valid()
    ensures Grants(cfg) <==> Enough(Start(cfg))
  {
    var s, k := Start(cfg), LastSent(cfg);
    assert |s.chains| == cfg.count && Length(s, Client) == MessageLength(cfg.padC);
    assert Length(s, Server) == MessageLength(cfg.padS) && Reach(s) == k;
    SameStreamGrants(k, cfg.count, s.client.limits, s.server.limits);
    SameDataGrants(k, cfg.count, MessageLength(cfg.padC), s.client.limits);
    SameDataGrants(k, cfg.count, MessageLength(cfg.padS), s.server.limits);
  }

  /** Enough credit: no open and no write of any run returns ErrSendLimit. */
  lemma {:induction false} GrantsSuffice(cfg: Config, es: seq<Event>)
    requires cfg.Valid() && Grants(cfg)
    ensures !Failed(Run(Start(cfg), es))
  {
    StartAccounts(cfg);
    GrantsAreEnough(cfg);
    StartOk(cfg);
    CreditRun(Start(cfg), es);
  }

  lemma {:induction false} RunKeepsAccounts(s: State, es: seq<Event>)
    requires Accounts(s) && !Failed(Run(s, es))
    ensures Accounts(Run(s, es)) && SameGrants(s, Run(s, es))
    decreases |es|
  {
    if es != [] {
      StepKeepsPadding(s, es[0]);
      if Failed(Step(s, es[0])) {
        FailureIsFinal(Step(s, es[0]), es[1..]);
      } else {
        StepKeepsAccounts(s, es[0]);
        RunKeepsAccounts(Step(s, es[0]), es[1..]);
      }
    }
  }

  /** Every chain got as far as it can. */
  predicate Finished(s: State)
    requires Padded(s)
  {
    && (forall c :: 0 <= c < |s.chains| ==> |s.chains[c].log| == Reach(s) + 1)
    && (forall c :: 0 <= c < |s.chains| ==> !s.chains[c].pos.ToWrite?)
  }

  /** A finished exchange has used every open and every message. */
  lemma FinishedStreams(s: State)
    requires Accounts(s) && Finished(s)
    ensures StreamGrants(Reach(s), |s.chains|, s.client.limits, s.server.limits)
  {
    SumExact(Opens(0), s.first, s.chains, OpensPerChain(Reach(s), 0));
    SumExact(Opens(1), s.first, s.chains, OpensPerChain(Reach(s), 1));
    SumExact(Opens(3), s.first, s.chains, OpensPerChain(Reach(s), 3));
    SumExact(Opens(4), s.first, s.chains, OpensPerChain(Reach(s), 4));
  }

  lemma FinishedData(s: State, x: Side)
    requires Accounts(s) && Finished(s)
    ensures DataGrants(Reach(s), |s.chains|, x, Length(s, x), At(s, x).limits)
  {
    SumExact(Messages(x), s.first, s.chains, MessagesPerChain(Reach(s), x));
    assert DataCounted(s, x);
  }

  /** Each hop was paid for by its sender's limit for its kind of stream. */
  lemma FinishedHop(s: State, hop: nat, x: Side, limit: nat)
    requires Accounts(s) && Finished(s) && s.chains != [] && hop <= Reach(s) && SenderOf(hop) == x
    requires limit == if hop % 3 == 0 then At(s, x).limits.streamDataUni
                      else if hop % 3 == 1 then At(s, x).limits.streamDataBidiRemote
                      else At(s, x).limits.streamDataBidiLocal
    ensures Length(s, x) <= limit
  {
    var m := s.chains[0].log[hop];
    assert ChainOk(s.first, s.chains[0]) && HopOk(s.first, hop, m);
    HopLimit(s.first, hop, m, At(s, m.from).limits);
  }

  lemma FinishedPerStream(s: State)
    requires Accounts(s) && Finished(s)
    ensures StreamDataGrants(Reach(s), |s.chains|, Client, Length(s, Client), s.client.limits)
    ensures StreamDataGrants(Reach(s), |s.chains|, Server, Length(s, Server), s.server.limits)
  {
    if s.chains != [] {
      var k, c, v := Reach(s), s.client.limits, s.server.limits;
      FinishedHop(s, 0, Server, v.streamDataUni);
      if k >= 1 { FinishedHop(s, 1, Client, c.streamDataBidiRemote); }
      if k >= 2 { FinishedHop(s, 2, Server, v.streamDataBidiLocal); }
      if k >= 3 { FinishedHop(s, 3, Client, c.streamDataUni); }
      if k >= 4 { FinishedHop(s, 4, Server, v.streamDataBidiRemote); }
      if k >= 5 { FinishedHop(s, 5, Client, c.streamDataBidiLocal); }
    }
  }

  lemma FinishedEnough(s: State)
    requires Accounts(s) && Finished(s)
    ensures Enough(s)
  {
    FinishedStreams(s);
    FinishedData(s, Client);
    FinishedData(s, Server);
    FinishedPerStream(s);
  }

  /** A failure-free run in which every chain got as far as it can was granted at
      least that much. */
  lemma {:induction false} GrantsNecessary(cfg: Config, es: seq<Event>)
    requires cfg.Valid() && !Failed(Run(Start(cfg), es))
    requires Padded(Run(Start(cfg), es)) && Finished(Run(Start(cfg), es))
    ensures Grants(cfg)
  {
    StartAccounts(cfg);
    RunKeepsAccounts(Start(cfg), es);
    FinishedEnough(Run(Start(cfg), es));
    EnoughTransfers(Start(cfg), Run(Start(cfg), es));
    GrantsAreEnough(cfg);
  }

  lemma EnoughTransfers(s: State, w: State)
    requires Padded(s) && SameGrants(s, w)
    ensures Enough(s) <==> Enough(w)
  {
    SameReach(s, w);
  }

  lemma {:induction false} RunOne(s: State, e: Event, es: seq<Event>)
    requires Padded(s)
    ensures Padded(Step(s, e)) && Run(s, [e] + es) == Run(Step(s, e), es)
  {
    StepKeepsPadding(s, e);
    assert ([e] + es)[1..] == es;
  }

  ghost predicate NeverFails(s: State)
    requires Padded(s)
  {
    forall es: seq<Event> :: !Failed(Run(s, es))
  }

  /** Nothing but an overflow is left to happen, and none has happened. */
  ghost predicate Spent(s: State) {
    !s.client.deaf && !s.server.deaf && forall e :: Enabled(s, e) ==> e.Overflow?
  }

  /** Who a message is for, by its place in the log. */
  lemma FlightParity(first: Byte, ch: Chain)
    requires ChainOk(first, ch) && ch.pos.Flight?
    ensures ch.pos.to == Client <==> |ch.log| % 2 == 1
  {
    var last := |ch.log| - 1;
    Parity(last);
    assert ch.log[last].from == SenderOf(last);
  }

  lemma Parity(n: nat)
    ensures (n + 1) % 2 == 1 - n % 2
  {
  }

  /** A message to a side that cannot hear is the last that its chain gets to. */
  lemma LastMessage(s: State, ch: Chain)
    requires Padded(s) && ChainOk(s.first, ch) && InReach(s, ch) && ch.pos.Flight? && !Hears(s, ch.pos.to)
    ensures |ch.log| == Reach(s) + 1
  {
    FlightParity(s.first, ch);
  }

  lemma SpentFinished(s: State)
    requires Exchange(s) && Confined(s) && !Failed(s) && Spent(s)
    ensures Finished(s)
  {
    forall c | 0 <= c < |s.chains| ensures |s.chains[c].log| == Reach(s) + 1 && !s.chains[c].pos.ToWrite? {
      var ch := s.chains[c];
      assert ChainOk(s.first, ch) && Sized(s, ch) && InReach(s, ch);
      if !ch.pos.Over? {
        SomeStepEnabled(s, c);
        assert Enabled(s, Overflow(c)) && !Hears(s, ch.pos.to);
        LastMessage(s, ch);
      }
    }
  }

  /** An exchange that cannot fail can be run until every chain got as far as it
      can. */
  lemma {:induction false} CanFinish(s: State) returns (es: seq<Event>)
    requires Exchange(s) && Confined(s) && !s.client.deaf && !s.server.deaf && !Failed(s) && NeverFails(s)
    ensures Padded(Run(s, es)) && Finished(Run(s, es))
    decreases Left(s)
  {
    if e :| Enabled(s, e) && !e.Overflow? {
      var s1 := Step(s, e);
      StepKeepsPadding(s, e);
      RunOne(s, e, []);
      assert Run(s1, []) == s1;
      StepKeeps(s, e);
      StepConfined(s, e);
      StepKeepsEars(s, e);
      WorkDecreases(s, e);
      forall rest: seq<Event> ensures !Failed(Run(s1, rest)) {
        RunOne(s, e, rest);
      }
      var rest := CanFinish(s1);
      RunOne(s, e, rest);
      es := [e] + rest;
    } else {
      SpentFinished(s);
      es := [];
    }
  }

  /** The closed forms are exact: an exchange is safe from ErrSendLimit in every
      run if and only if both sides were granted at least that much. */
  lemma {:induction false} GrantsExactlyWhen(cfg: Config)
    requires cfg.Valid()
    ensures Grants(cfg) <==> NeverFails(Start(cfg))
  {
    if Grants(cfg) {
      forall es: seq<Event> ensures !Failed(Run(Start(cfg), es)) {
        GrantsSuffice(cfg, es);
      }
    } else if NeverFails(Start(cfg)) {
      StartOk(cfg);
      StartConfined(cfg);
      var es := CanFinish(Start(cfg));
      GrantsNecessary(cfg, es);
    }
  }

  // ---------- exactly when the exchange completes ----------

  /** Wherever a run ends, it ends without failure and with every chain over.
      Every run does end: no run is longer than `Baton.RunTerminates` says. */
  ghost predicate AlwaysCompletes(s: State)
    requires Padded(s)
  {
    forall es: seq<Event> :: Quiescent(Run(s, es)) ==> !Failed(Run(s, es)) && Complete(Run(s, es))
  }

  /** From any state a run can be taken to its end. */
  lemma {:induction false} CanEnd(s: State) returns (es: seq<Event>)
    requires Exchange(s)
    ensures Quiescent(Run(s, es))
    decreases Left(s)
  {
    if e :| Enabled(s, e) {
      StepKeepsPadding(s, e);
      StepKeeps(s, e);
      RunOne(s, e, []);
      assert Run(Step(s, e), []) == Step(s, e);
      if Failed(Step(s, e)) {
        es := [e];
        assert [e] + [] == [e];
      } else {
        WorkDecreases(s, e);
        var rest := CanEnd(Step(s, e));
        RunOne(s, e, rest);
        es := [e] + rest;
      }
    } else {
      es := [];
    }
  }

  /** A failed run is at its end. */
  lemma FailedEnds(s: State)
    requires Failed(s)
    ensures Quiescent(s)
  {
  }

  /** The exchange completes in every run if and only if both sides were granted
      the closed forms and each side's messages fit the other's stream buffers. */
  lemma {:induction false} CompletesExactlyWhen(cfg: Config)
    requires cfg.Valid()
    ensures Grants(cfg) && cfg.Fits() <==> AlwaysCompletes(Start(cfg))
  {
    StartOk(cfg);
    StartConfined(cfg);
    if Grants(cfg) && cfg.Fits() {
      forall es: seq<Event> | Quiescent(Run(Start(cfg), es))
        ensures !Failed(Run(Start(cfg), es)) && Complete(Run(Start(cfg), es))
      {
        GrantsSuffice(cfg, es);
        CompleteRun(cfg, es);
      }
    } else if AlwaysCompletes(Start(cfg)) {
      forall es: seq<Event> ensures !Failed(Run(Start(cfg), es)) {
        if Failed(Run(Start(cfg), es)) {
          FailedEnds(Run(Start(cfg), es));
        }
      }
      GrantsExactlyWhen(cfg);
      var es := CanEnd(Start(cfg));
      RunKeeps(Start(cfg), es);
      RunConfined(Start(cfg), es);
      DeafNeverCompletes(Run(Start(cfg), es), 0);
    }
  }

  // ---------- messages that do not fit ----------

  /** A side that cannot hear never sees a zero; and if the client cannot, nobody
      does. */
  lemma UnheardCounts(s: State, x: Side)
    requires Exchange(s) && Confined(s) && s.chains != [] && (!Hears(s, x) || !Hears(s, Client))
    ensures At(s, x).active > 0
  {
    var ch := s.chains[0];
    assert ChainOk(s.first, ch) && InReach(s, ch);
    assert |ch.log| == LastHop(s.first) + 1 ==> HopOk(s.first, LastHop(s.first), ch.log[LastHop(s.first)]);
    assert !HasSeen(s.first, x, ch);
    SeenAll(s, x);
  }

  /** With credit enough, a side whose stream buffers cannot hold the other side's
      messages never completes; and if that side is the client, neither side is
      ever done or has an error, in any run: both wait for ever. */
  lemma {:induction false} OversizeStalls(cfg: Config, es: seq<Event>, x: Side)
    requires cfg.Valid() && Grants(cfg) && cfg.count > 0
    requires if x == Client then !Holds(cfg.bufC, MessageLength(cfg.padS))
             else !Holds(cfg.bufS, MessageLength(cfg.padC))
    ensures var w := Run(Start(cfg), es);
            && At(w, x).active > 0
            && (x == Client ==> !w.client.done && !w.client.err && !w.server.done && !w.server.err)
  {
    GrantsSuffice(cfg, es);
    StartOk(cfg);
    StartConfined(cfg);
    RunKeeps(Start(cfg), es);
    RunConfined(Start(cfg), es);
    UnheardCounts(Run(Start(cfg), es), x);
    if x == Client {
      UnheardCounts(Run(Start(cfg), es), Server);
      SilentErr(Start(cfg), es);
    }
  }

  lemma {:induction false} SilentErr(s: State, es: seq<Event>)
    requires Padded(s) && !Failed(Run(s, es)) && !s.client.err && !s.server.err
    ensures !Run(s, es).client.err && !Run(s, es).server.err
    decreases |es|
  {
    if es != [] {
      StepKeepsPadding(s, es[0]);
      if Failed(Step(s, es[0])) {
        FailureIsFinal(Step(s, es[0]), es[1..]);
      } else {
        SilentStep(s, es[0]);
        SilentErr(Step(s, es[0]), es[1..]);
      }
    }
  }

  lemma SilentStep(s: State, e: Event)
    requires Padded(s) && !Failed(Step(s, e))
    ensures Step(s, e).client.err == s.client.err && Step(s, e).server.err == s.server.err
  {
    if Enabled(s, e) {
      var pos := s.chains[e.c].pos;
      if e.Send? {
        QuietParties(At(s, pos.at), pos.kind, pos.id, [], pos.baton);
      } else if e.Deliver? {
        QuietParties(At(s, pos.to), pos.kind, pos.id, pos.msg, 0);
      }
    }
  }

  /** The repository's own settings: 1 MiB of data, 100 streams, 64 KiB buffers. */
  function DefaultLimits(): PeerLimits {
    PeerLimits(0x10_0000, 100, 100, 0x10_0000, 0x10_0000, 0x10_0000)
  }

  function DefaultConfig(first: Byte, padding: nat): Config {
    Config(first, 1, padding, padding, 0x1_0000, 0x1_0000, DefaultLimits(), DefaultLimits())
  }

  /** An input: one chain from 250 with 70000 bytes of padding. The credit is there
      for all of it, yet in no run is either side ever done, or has an error. */
  lemma {:induction false} PaddedExchangeStalls(es: seq<Event>)
    ensures var cfg := DefaultConfig(250, 70000);
            var w := Run(Start(cfg), es);
            && cfg.Valid() && Grants(cfg) && Grants(cfg.(bufC := 0, bufS := 0)) && !cfg.Fits()
            && !w.client.done && !w.client.err && !w.server.done && !w.server.err
  {
    var cfg := DefaultConfig(250, 70000);
    assert MessageLength(70000) == 70005;
    OversizeStalls(cfg, es, Client);
  }
}
