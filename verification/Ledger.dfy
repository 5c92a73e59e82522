/** Runs of the send side: every interleaving of opens, split writes (reserve,
    then emit or refund), peer streams, grants in flight and session end, for
    a session that was created with a peer snapshot. */
module Ledger {
  import opened StreamIds
  import opened SendLimits

  /** `n` payload bytes on stream `id`. */
  datatype Charge = Charge(id: nat, n: nat)

  /** A local open that returned `id` when asked for direction `bidi`. */
  datatype LocalStream = LocalStream(id: nat, bidi: bool)

  datatype Ledger = Ledger(
    start: Limits,             // the limits at creation
    limits: Limits,
    pending: seq<Charge>,      // reserved, capsule not yet written
    emitted: seq<Charge>,      // WT_STREAM capsules written, in order
    local: seq<LocalStream>,   // local opens that succeeded, in order
    sendable: set<nat>,        // streams this endpoint holds a send half of
    issued: seq<Grant>,        // limit capsules the peer has written, in order
    applied: nat,              // how many of them the read loop has handled
    stopped: bool,             // Close was called
    loopEnded: bool)           // the read loop has returned

  /** `late`: the test of `stop` in OpenStream came before a Close that the
      allocation comes after. Close does not stop the read loop at once: it may
      be inside a capsule. */
  datatype Event =
    | Open(bidi: bool, late: bool)
    | PeerOpened(id: nat)
    | StartWrite(id: nat, n: nat)
    | EmitOk(k: nat)
    | EmitFail(k: nat)
    | Issue(g: Grant)
    | Deliver
    | LoopReturn
    | Close

  function Init(isServer: bool, peer: PeerLimits): Ledger {
    var l := NewLimits(isServer, Some(peer));
    Ledger(l, l, [], [], [], {}, [], 0, false, false)
  }

  function Without(s: seq<Charge>, k: nat): seq<Charge>
    requires k < |s|
  {
    s[..k] + s[k + 1..]
  }

  /** An event that the current state does not allow changes nothing. */
  function Step(s: Ledger, e: Event): Ledger {
    match e
    case Open(bidi, late) =>
      var (l, id) := Alloc(s.limits, bidi);
      if (s.stopped && !late) || id.None? then s
      else s.(limits := l, local := s.local + [LocalStream(id.value, bidi)],
                  sendable := s.sendable + {id.value})
    case PeerOpened(id) =>
      if s.loopEnded || !IsBidi(id) || IsOurs(s.limits.isServer, id) then s
      else s.(limits := TrackSend(s.limits, id), sendable := s.sendable + {id})
    case StartWrite(id, n) =>
      if id !in s.sendable || n >= TWO_64 / 2 || ReserveVerdict(s.limits, id, n) != Ok then s
      else s.(limits := Reserve(s.limits, id, n), pending := s.pending + [Charge(id, n)])
    case EmitOk(k) =>
      if k >= |s.pending| then s
      else s.(pending := Without(s.pending, k), emitted := s.emitted + [s.pending[k]])
    case EmitFail(k) =>
      if k >= |s.pending| then s
      else s.(pending := Without(s.pending, k), limits := Refund(s.limits, s.pending[k].id, s.pending[k].n))
    case Issue(g) =>
      if g.max >= TWO_62 then s else s.(issued := s.issued + [g])
    case Deliver =>
      if s.loopEnded || s.applied >= |s.issued| then s
      else
        var (l, v) := Raise(s.limits, s.issued[s.applied]);
        s.(limits := l, applied := s.applied + 1, loopEnded := v != Ok)
    case LoopReturn => s.(loopEnded := true)
    case Close => s.(stopped := true)
  }

  function Run(s: Ledger, es: seq<Event>): Ledger
    decreases |es|
  {
    if es == [] then s else Run(Step(s, es[0]), es[1..])
  }

  // ---------- sums ----------

  function Bytes(cs: seq<Charge>, id: nat): nat {
    if cs == [] then 0 else (if cs[0].id == id then cs[0].n else 0) + Bytes(cs[1..], id)
  }

  function Total(cs: seq<Charge>): nat {
    if cs == [] then 0 else cs[0].n + Total(cs[1..])
  }

  lemma {:induction false} BytesConcat(a: seq<Charge>, b: seq<Charge>, id: nat)
    ensures Bytes(a + b, id) == Bytes(a, id) + Bytes(b, id)
  {
    if a == [] {
      assert a + b == b;
    } else {
      assert (a + b)[1..] == a[1..] + b;
      BytesConcat(a[1..], b, id);
    }
  }

  lemma {:induction false} BytesAppend(a: seq<Charge>, c: Charge, id: nat)
    ensures Bytes(a + [c], id) == Bytes(a, id) + (if c.id == id then c.n else 0)
  {
    BytesConcat(a, [c], id);
  }

  lemma {:induction false} BytesWithout(a: seq<Charge>, k: nat, id: nat)
    requires k < |a|
    ensures Bytes(a, id) == Bytes(Without(a, k), id) + (if a[k].id == id then a[k].n else 0)
  {
    assert a == a[..k] + ([a[k]] + a[k + 1..]);
    BytesConcat(a[..k], [a[k]] + a[k + 1..], id);
    BytesConcat(a[..k], a[k + 1..], id);
  }

  lemma {:induction false} TotalConcat(a: seq<Charge>, b: seq<Charge>)
    ensures Total(a + b) == Total(a) + Total(b)
  {
    if a == [] {
      assert a + b == b;
    } else {
      assert (a + b)[1..] == a[1..] + b;
      TotalConcat(a[1..], b);
    }
  }

  lemma {:induction false} TotalWithout(a: seq<Charge>, k: nat)
    requires k < |a|
    ensures Total(a) == Total(Without(a, k)) + a[k].n
  {
    assert a == a[..k] + ([a[k]] + a[k + 1..]);
    TotalConcat(a[..k], [a[k]] + a[k + 1..]);
    TotalConcat(a[..k], a[k + 1..]);
  }

  ghost function Sum(m: map<nat, nat>): nat {
    if m == map[] then 0 else var k :| k in m; m[k] + Sum(m - {k})
  }

  lemma {:induction false} SumRemove(m: map<nat, nat>, k: nat)
    requires k in m
    ensures Sum(m) == m[k] + Sum(m - {k})
    decreases |m|
  {
    var j :| j in m && Sum(m) == m[j] + Sum(m - {j});
    if j != k {
      SumRemove(m - {j}, k);
      SumRemove(m - {k}, j);
      assert m - {j} - {k} == m - {k} - {j};
    }
  }

  lemma SumUpdate(m: map<nat, nat>, k: nat, v: nat)
    ensures Sum(m[k := v]) == Sum(m) - Get(m, k) + v
  {
    SumRemove(m[k := v], k);
    assert m[k := v] - {k} == m - {k};
    if k in m {
      SumRemove(m, k);
    } else {
      assert m - {k} == m;
    }
  }

  // ---------- the money invariant ----------

  /** Both totals are what was emitted plus what is in progress, and both are
      within the grants in force. */
  ghost predicate Books(l: Limits, emitted: seq<Charge>, pending: seq<Charge>) {
    && l.active
    && l.dataSent == Sum(l.streamSent) == Total(emitted) + Total(pending)
    && (forall id :: Get(l.streamSent, id) == Bytes(emitted, id) + Bytes(pending, id))
    && l.dataSent <= l.maxData < TWO_64
    && (forall id :: Get(l.streamSent, id) <= Get(l.streamMax, id))
    && (forall id :: Get(l.streamMax, id) < TWO_64)
    && l.streamDataUni < TWO_64 && l.streamDataBidiLocal < TWO_64 && l.streamDataBidiRemote < TWO_64
  }

  ghost predicate Balanced(s: Ledger) {
    && Books(s.limits, s.emitted, s.pending)
    && (forall i :: 0 <= i < |s.issued| ==> s.issued[i].max < TWO_62)
  }

  /** A stream's total never exceeds the session total. */
  lemma StreamWithinSession(m: map<nat, nat>, id: nat)
    ensures Get(m, id) <= Sum(m)
  {
    if id in m {
      SumRemove(m, id);
    }
  }

  /** Both guards in `refundSendData` hold for every write in progress. */
  lemma {:induction false} RefundGuardsHold(l: Limits, emitted: seq<Charge>, pending: seq<Charge>, k: nat)
    requires Books(l, emitted, pending) && k < |pending|
    ensures l.dataSent >= pending[k].n && Get(l.streamSent, pending[k].id) >= pending[k].n
  {
    BytesWithout(pending, k, pending[k].id);
    StreamWithinSession(l.streamSent, pending[k].id);
  }

  lemma {:induction false} BooksReserve(l: Limits, emitted: seq<Charge>, pending: seq<Charge>, id: nat, n: nat)
    requires Books(l, emitted, pending) && n < TWO_64 / 2 && ReserveVerdict(l, id, n) == Ok
    ensures Books(Reserve(l, id, n), emitted, pending + [Charge(id, n)])
  {
    var pending' := pending + [Charge(id, n)];
    ReserveExact(l, id, n);
    SumUpdate(l.streamSent, id, Get(l.streamSent, id) + n);
    TotalConcat(pending, [Charge(id, n)]);
    forall j ensures Bytes(pending', j) == Bytes(pending, j) + (if id == j then n else 0) {
      BytesAppend(pending, Charge(id, n), j);
    }
  }

  lemma {:induction false} BooksEmit(l: Limits, emitted: seq<Charge>, pending: seq<Charge>, k: nat)
    requires Books(l, emitted, pending) && k < |pending|
    ensures Books(l, emitted + [pending[k]], Without(pending, k))
  {
    TotalConcat(emitted, [pending[k]]);
    TotalWithout(pending, k);
    forall j ensures Bytes(emitted + [pending[k]], j) + Bytes(Without(pending, k), j)
                     == Bytes(emitted, j) + Bytes(pending, j) {
      BytesAppend(emitted, pending[k], j);
      BytesWithout(pending, k, j);
    }
  }

  lemma {:induction false} BooksRefund(l: Limits, emitted: seq<Charge>, pending: seq<Charge>, k: nat)
    requires Books(l, emitted, pending) && k < |pending|
    ensures Books(Refund(l, pending[k].id, pending[k].n), emitted, Without(pending, k))
  {
    var c := pending[k];
    RefundGuardsHold(l, emitted, pending, k);
    TotalWithout(pending, k);
    SumUpdate(l.streamSent, c.id, Get(l.streamSent, c.id) - c.n);
    RefundExact(l, c.id, c.n);
    forall j ensures Bytes(pending, j) == Bytes(Without(pending, k), j) + (if c.id == j then c.n else 0) {
      BytesWithout(pending, k, j);
    }
  }

  lemma {:induction false} BooksEnsure(l: Limits, emitted: seq<Charge>, pending: seq<Charge>, id: nat)
    requires Books(l, emitted, pending)
    ensures Books(EnsureStream(l, id), emitted, pending)
  {
  }

  lemma {:induction false} BooksRaise(l: Limits, emitted: seq<Charge>, pending: seq<Charge>, g: Grant)
    requires Books(l, emitted, pending) && g.max < TWO_62
    ensures Books(Raise(l, g).0, emitted, pending)
  {
  }

  lemma BalancedStep(s: Ledger, e: Event)
    requires Balanced(s)
    ensures Balanced(Step(s, e))
  {
    match e
    case StartWrite(id, n) =>
      if Step(s, e) != s { BooksReserve(s.limits, s.emitted, s.pending, id, n); }
    case EmitOk(k) => if k < |s.pending| { BooksEmit(s.limits, s.emitted, s.pending, k); }
    case EmitFail(k) => if k < |s.pending| { BooksRefund(s.limits, s.emitted, s.pending, k); }
    case Deliver =>
      if s.applied < |s.issued| { BooksRaise(s.limits, s.emitted, s.pending, s.issued[s.applied]); }
    case PeerOpened(id) => BooksEnsure(s.limits, s.emitted, s.pending, id);
    case Open(bidi, _) =>
      assert Books(Bumped(s.limits, bidi), s.emitted, s.pending);
      BooksEnsure(Bumped(s.limits, bidi), s.emitted, s.pending, IdFrom(s.limits.isServer, s.limits.created, bidi));
    case _ =>
  }

  // ---------- stream IDs ----------

  /** The i-th successful open owns the i-th block of four IDs. */
  ghost predicate Numbered(l: Limits, local: seq<LocalStream>) {
    && Counted(l)
    && |local| == l.openedUni + l.openedBidi
    && forall i :: 0 <= i < |local| ==>
         && local[i].id / 4 == i
         && IsBidi(local[i].id) == local[i].bidi
         && IsOurs(l.isServer, local[i].id)
         && !IsOurs(!l.isServer, local[i].id)
  }

  lemma NumberedAlloc(l: Limits, local: seq<LocalStream>, bidi: bool)
    requires Numbered(l, local) && !OpenRefused(l, bidi)
    ensures Numbered(Alloc(l, bidi).0, local + [LocalStream(Alloc(l, bidi).1.value, bidi)])
  {
    CountedAlloc(l, bidi);
  }

  /** No event but an open touches the stream counts. */
  lemma CountedStep(s: Ledger, e: Event)
    requires Counted(s.limits) && !e.Open?
    ensures var l := Step(s, e).limits;
            && Counted(l) && l.isServer == s.limits.isServer && Step(s, e).local == s.local
            && l.openedUni + l.openedBidi == s.limits.openedUni + s.limits.openedBidi
  {
    match e
    case PeerOpened(id) => CountsStay(s.limits, id, 0, MaxData(0));
    case StartWrite(id, n) => CountsStay(s.limits, id, n, MaxData(0));
    case EmitFail(k) => if k < |s.pending| { CountsStay(s.limits, s.pending[k].id, s.pending[k].n, MaxData(0)); }
    case Deliver => if s.applied < |s.issued| { CountsStay(s.limits, 0, 0, s.issued[s.applied]); }
    case _ =>
  }

  lemma CountsStay(l: Limits, id: nat, n: int, g: Grant)
    requires Counted(l)
    ensures Counted(TrackSend(l, id)) && Counted(Reserve(l, id, n)) && Counted(Refund(l, id, n))
    ensures Counted(Raise(l, g).0)
    ensures SameCounts(l, TrackSend(l, id)) && SameCounts(l, Reserve(l, id, n)) && SameCounts(l, Refund(l, id, n))
    ensures SameCounts(l, Raise(l, g).0)
  {
    CountedOthers(l, id, n, g);
    CountsKept(l, id, n, g);
  }

  lemma NumberedStep(s: Ledger, e: Event)
    requires Numbered(s.limits, s.local)
    ensures Numbered(Step(s, e).limits, Step(s, e).local)
  {
    if e.Open? {
      if !OpenRefused(s.limits, e.bidi) {
        NumberedAlloc(s.limits, s.local, e.bidi);
      }
    } else {
      CountedStep(s, e);
    }
  }

  // ---------- limits in force and grants in flight ----------

  /** The highest value granted for `what`'s target, by SETTINGS or capsule. */
  function Highest(settings: nat, gs: seq<Grant>, what: Grant): nat {
    if gs == [] then settings
    else
      var before := Highest(settings, gs[..|gs| - 1], what);
      var g := gs[|gs| - 1];
      if SameTarget(g, what) && g.max > before then g.max else before
  }

  ghost predicate Granted(s: Ledger) {
    && s.applied <= |s.issued|
    && s.sendable <= s.limits.streamMax.Keys
    && s.limits.active
    && forall what :: var settings := Current(s.start, what);
         && Current(s.limits, what) <= Highest(settings, s.issued[..s.applied], what)
         && (!s.loopEnded ==> Current(s.limits, what) == Highest(settings, s.issued[..s.applied], what))
  }

  lemma {:induction false} HighestMonotone(settings: nat, gs: seq<Grant>, k: nat, what: Grant)
    requires k <= |gs|
    ensures Highest(settings, gs[..k], what) <= Highest(settings, gs, what)
    decreases |gs|
  {
    if k == |gs| {
      assert gs[..k] == gs;
    } else {
      assert gs[..|gs| - 1][..k] == gs[..k];
      HighestMonotone(settings, gs[..|gs| - 1], k, what);
    }
  }

  lemma GrantedDeliver(s: Ledger)
    requires Granted(s) && !s.loopEnded && s.applied < |s.issued|
    ensures Granted(Step(s, Deliver))
  {
    var g := s.issued[s.applied];
    var s' := Step(s, Deliver);
    assert s.issued[..s.applied + 1][..s.applied] == s.issued[..s.applied];
    forall what
      ensures Current(s'.limits, what) <= Highest(Current(s.start, what), s.issued[..s.applied + 1], what)
      ensures !s'.loopEnded ==>
                Current(s'.limits, what) == Highest(Current(s.start, what), s.issued[..s.applied + 1], what)
    {
      RaiseCurrent(s.limits, g, what);
      assert SameTarget(g, what) ==> Current(s.limits, g) == Current(s.limits, what);
    }
  }

  /** Only a delivered grant moves a limit. */
  lemma OthersKeepLimits(s: Ledger, e: Event, what: Grant)
    requires !(e.Deliver? && !s.loopEnded && s.applied < |s.issued|)
    ensures Current(Step(s, e).limits, what) == Current(s.limits, what)
  {
    match e
    case Open(bidi, _) => OtherOpsKeepCurrent(s.limits, 0, 0, bidi, what);
    case PeerOpened(id) => OtherOpsKeepCurrent(s.limits, id, 0, true, what);
    case StartWrite(id, n) => OtherOpsKeepCurrent(s.limits, id, n, true, what);
    case EmitFail(k) =>
      if k < |s.pending| { OtherOpsKeepCurrent(s.limits, s.pending[k].id, s.pending[k].n, true, what); }
    case _ =>
  }

  /** Every stream that can be sent on is in the map. */
  lemma SendableStep(s: Ledger, e: Event)
    requires s.sendable <= s.limits.streamMax.Keys && s.limits.active && s.applied <= |s.issued|
    ensures var s' := Step(s, e);
            s'.sendable <= s'.limits.streamMax.Keys && s'.limits.active && s'.applied <= |s'.issued|
  {
    match e
    case Open(bidi, _) => AllocKeeps(s.limits, bidi);
    case PeerOpened(id) => OpsKeep(s.limits, id, 0, MaxData(0));
    case StartWrite(id, n) => OpsKeep(s.limits, id, n, MaxData(0));
    case EmitFail(k) => if k < |s.pending| { OpsKeep(s.limits, s.pending[k].id, s.pending[k].n, MaxData(0)); }
    case Deliver => if s.applied < |s.issued| { OpsKeep(s.limits, 0, 0, s.issued[s.applied]); }
    case _ =>
  }

  lemma AllocKeeps(l: Limits, bidi: bool)
    requires l.active
    ensures var (l', id) := Alloc(l, bidi);
            l'.active && l.streamMax.Keys <= l'.streamMax.Keys && (id.Some? ==> id.value in l'.streamMax)
  {
  }

  lemma OpsKeep(l: Limits, id: nat, n: int, g: Grant)
    requires l.active
    ensures var l' := TrackSend(l, id);
            && l'.active && l.streamMax.Keys <= l'.streamMax.Keys
            && (IsBidi(id) || IsOurs(l.isServer, id) ==> id in l'.streamMax)
    ensures Reserve(l, id, n).active && Reserve(l, id, n).streamMax == l.streamMax
    ensures Refund(l, id, n).active && Refund(l, id, n).streamMax == l.streamMax
    ensures Raise(l, g).0.active && l.streamMax.Keys <= Raise(l, g).0.streamMax.Keys
  {
  }

  lemma GrantedStep(s: Ledger, e: Event)
    requires Granted(s)
    ensures Granted(Step(s, e))
  {
    var s' := Step(s, e);
    if e == Deliver && !s.loopEnded && s.applied < |s.issued| {
      GrantedDeliver(s);
    } else {
      SendableStep(s, e);
      QuietBooks(s, e);
      forall what ensures Current(s'.limits, what) == Current(s.limits, what) {
        OthersKeepLimits(s, e, what);
      }
    }
  }

  lemma QuietBooks(s: Ledger, e: Event)
    requires s.applied <= |s.issued| && !(e.Deliver? && !s.loopEnded && s.applied < |s.issued|)
    ensures var s' := Step(s, e);
            && s'.applied == s.applied && s'.start == s.start && s.issued <= s'.issued
            && s'.issued[..s.applied] == s.issued[..s.applied] && (s.loopEnded ==> s'.loopEnded)
  {
  }

  // ---------- theorems over whole runs ----------

  ghost predicate Inv(s: Ledger) {
    Balanced(s) && Numbered(s.limits, s.local) && Granted(s)
  }

  lemma InitInv(isServer: bool, peer: PeerLimits)
    requires peer.Valid()
    ensures Inv(Init(isServer, peer))
  {
  }

  lemma StepKeepsInv(s: Ledger, e: Event)
    requires Inv(s)
    ensures Inv(Step(s, e)) && Step(s, e).start == s.start
  {
    BalancedStep(s, e);
    NumberedStep(s, e);
    GrantedStep(s, e);
  }

  lemma {:induction false} RunKeepsInv(s: Ledger, es: seq<Event>)
    requires Inv(s)
    ensures Inv(Run(s, es)) && Run(s, es).start == s.start
    decreases |es|
  {
    if es != [] {
      StepKeepsInv(s, es[0]);
      RunKeepsInv(Step(s, es[0]), es[1..]);
    }
  }

  /** In every run the session total is the sum of the stream totals, each
      stream total is what was emitted plus what is in progress, both stay
      within the grants in force (so no counter wraps), and a refund of any
      write in progress takes back exactly what it charged. */
  lemma {:induction false} LedgerBalances(isServer: bool, peer: PeerLimits, es: seq<Event>)
    requires peer.Valid()
    ensures var s := Run(Init(isServer, peer), es);
            && s.limits.dataSent == Sum(s.limits.streamSent) == Total(s.emitted) + Total(s.pending)
            && s.limits.dataSent <= s.limits.maxData < TWO_64
            && (forall id :: && Get(s.limits.streamSent, id) == Bytes(s.emitted, id) + Bytes(s.pending, id)
                             && Get(s.limits.streamSent, id) <= Get(s.limits.streamMax, id) < TWO_64)
            && (forall k :: 0 <= k < |s.pending| ==>
                  var c := s.pending[k];
                  var l := Refund(s.limits, c.id, c.n);
                  && s.limits.dataSent >= c.n && Get(s.limits.streamSent, c.id) >= c.n
                  && l.dataSent == s.limits.dataSent - c.n
                  && Get(l.streamSent, c.id) == Get(s.limits.streamSent, c.id) - c.n)
  {
    InitInv(isServer, peer);
    RunKeepsInv(Init(isServer, peer), es);
    var s := Run(Init(isServer, peer), es);
    forall k | 0 <= k < |s.pending|
      ensures s.limits.dataSent >= s.pending[k].n && Get(s.limits.streamSent, s.pending[k].id) >= s.pending[k].n
    {
      RefundGuardsHold(s.limits, s.emitted, s.pending, k);
    }
  }

  /** What the peer's SETTINGS allow on stream `id`: one value for unidirectional
      streams, one for the bidirectional ones that this side opened (remote to the
      peer), one for those that the peer opened (local to it). */
  function Settings(isServer: bool, peer: PeerLimits, id: nat): nat {
    if (id / 2) % 2 == 1 then peer.streamDataUni
    else if id % 2 == (if isServer then 1 else 0) then peer.streamDataBidiRemote
    else peer.streamDataBidiLocal
  }

  lemma SettingsApply(isServer: bool, peer: PeerLimits, id: nat)
    ensures Limit(NewLimits(isServer, Some(peer)), id) == Settings(isServer, peer, id)
  {
  }

  /** However late the peer's capsules arrive, what this endpoint has opened and
      sent stays within the highest grant the peer has issued; and for every
      stream it can send on, the limit a write reads is the lazy map's value. */
  lemma {:induction false} GrantsInFlight(isServer: bool, peer: PeerLimits, es: seq<Event>)
    requires peer.Valid()
    ensures var s := Run(Init(isServer, peer), es);
            && Total(s.emitted) + Total(s.pending) <= Highest(peer.maxData, s.issued, MaxData(0))
            && (forall id :: id in s.sendable ==> Get(s.limits.streamMax, id) == Limit(s.limits, id))
            && (forall id :: id in s.sendable ==>
                  Bytes(s.emitted, id) + Bytes(s.pending, id)
                  <= Highest(Settings(isServer, peer, id), s.issued, MaxStreamData(id, 0)))
            && s.limits.openedUni <= Highest(peer.maxStreamsUni, s.issued, MaxStreams(false, 0))
            && s.limits.openedBidi <= Highest(peer.maxStreamsBidi, s.issued, MaxStreams(true, 0))
  {
    InitInv(isServer, peer);
    RunKeepsInv(Init(isServer, peer), es);
    var s := Run(Init(isServer, peer), es);
    forall what ensures Current(s.limits, what) <= Highest(Current(s.start, what), s.issued, what) {
      HighestMonotone(Current(s.start, what), s.issued, s.applied, what);
    }
    assert Current(s.limits, MaxData(0)) == s.limits.maxData;
    assert Current(s.limits, MaxStreams(false, 0)) == s.limits.maxStreamsUni;
    assert Current(s.limits, MaxStreams(true, 0)) == s.limits.maxStreamsBidi;
    forall id | id in s.sendable
      ensures Get(s.limits.streamSent, id) <= Highest(Settings(isServer, peer, id), s.issued, MaxStreamData(id, 0))
    {
      SettingsApply(isServer, peer, id);
      assert Current(s.limits, MaxStreamData(id, 0)) == Limit(s.limits, id);
    }
  }

  /** Stream IDs over any run: strictly increasing, ours, of the direction that
      was asked for, never an ID of the peer, one per counted open. */
  lemma {:induction false} StreamIdsAllocated(isServer: bool, peer: PeerLimits, es: seq<Event>)
    requires peer.Valid()
    ensures var s := Run(Init(isServer, peer), es);
            && s.limits.created == 4 * |s.local| == 4 * (s.limits.openedUni + s.limits.openedBidi) <= TWO_64 / 2
            && (forall i, j :: 0 <= i < j < |s.local| ==> s.local[i].id < s.local[j].id)
            && (forall i :: 0 <= i < |s.local| ==>
                  && IsBidi(s.local[i].id) == s.local[i].bidi
                  && IsOurs(isServer, s.local[i].id) && !IsOurs(!isServer, s.local[i].id)
                  && s.local[i].id < s.limits.created)
  {
    InitInv(isServer, peer);
    RunKeepsInv(Init(isServer, peer), es);
    RunKeepsRole(Init(isServer, peer), es);
  }

  lemma {:induction false} RunKeepsRole(s: Ledger, es: seq<Event>)
    ensures Run(s, es).limits.isServer == s.limits.isServer
    decreases |es|
  {
    if es != [] {
      StepKeepsRole(s, es[0]);
      RunKeepsRole(Step(s, es[0]), es[1..]);
    }
  }

  lemma StepKeepsRole(s: Ledger, e: Event)
    ensures Step(s, e).limits.isServer == s.limits.isServer
  {
    match e
    case PeerOpened(id) => CountsKept(s.limits, id, 0, MaxData(0));
    case StartWrite(id, n) => CountsKept(s.limits, id, n, MaxData(0));
    case EmitFail(k) => if k < |s.pending| { CountsKept(s.limits, s.pending[k].id, s.pending[k].n, MaxData(0)); }
    case Deliver => if s.applied < |s.issued| { CountsKept(s.limits, 0, 0, s.issued[s.applied]); }
    case _ =>
  }

  lemma StepCurrent(s: Ledger, e: Event, what: Grant)
    ensures Current(Step(s, e).limits, what) >= Current(s.limits, what)
    ensures s.loopEnded ==> Step(s, e).loopEnded && Current(Step(s, e).limits, what) == Current(s.limits, what)
  {
    if e.Deliver? && !s.loopEnded && s.applied < |s.issued| {
      RaiseCurrent(s.limits, s.issued[s.applied], what);
    } else {
      OthersKeepLimits(s, e, what);
    }
  }

  /** No run lowers any limit; once the read loop has returned no limit moves. */
  lemma {:induction false} LimitsNeverDecrease(s: Ledger, es: seq<Event>, what: Grant)
    ensures Current(Run(s, es).limits, what) >= Current(s.limits, what)
    ensures s.loopEnded ==> Current(Run(s, es).limits, what) == Current(s.limits, what)
    decreases |es|
  {
    if es != [] {
      StepCurrent(s, es[0], what);
      LimitsNeverDecrease(Step(s, es[0]), es[1..], what);
    }
  }

  /** Close alone does not freeze the limits: a capsule that the read loop is
      inside of, or reads next, is still applied. */
  lemma {:induction false} GrantAfterClose(s: Ledger, g: Grant)
    requires !s.loopEnded && s.applied == |s.issued| && g.max < TWO_62 && !GrantRefused(s.limits, g)
    ensures var s' := Run(s, [Issue(g), Close, Deliver]);
            s'.stopped && !s'.loopEnded && Current(s'.limits, g) == g.max
  {
    var s1 := Step(s, Issue(g));
    var s2 := Step(s1, Close);
    assert [Issue(g), Close, Deliver][1..] == [Close, Deliver];
    assert [Close, Deliver][1..] == [Deliver] && [Deliver][1..] == [];
    assert Run(s1, [Close, Deliver]) == Run(s2, [Deliver]) == Run(Step(s2, Deliver), []);
    RaiseCurrent(s.limits, g, g);
  }

  /** A decreasing grant, or a stream count above 2^60, ends the read loop and is
      the last capsule with any say: no later event of any run moves a limit. */
  lemma {:induction false} RefusedGrantIsFinal(s: Ledger, es: seq<Event>, what: Grant)
    requires !s.loopEnded && s.applied < |s.issued| && GrantRefused(s.limits, s.issued[s.applied])
    ensures Step(s, Deliver).loopEnded
    ensures Current(Run(Step(s, Deliver), es).limits, what) == Current(s.limits, what)
  {
    RaiseCurrent(s.limits, s.issued[s.applied], what);
    LimitsNeverDecrease(Step(s, Deliver), es, what);
  }

  // ---------- exactly when every ID fits a varint ----------

  predicate AllFit(s: Ledger) {
    forall i :: 0 <= i < |s.local| ==> s.local[i].id < TWO_62
  }

  predicate StreamGrants(s: Ledger, uni: nat, bidi: nat) {
    s.limits.maxStreamsUni == uni && s.limits.maxStreamsBidi == bidi
  }

  function Repeat(e: Event, n: nat): seq<Event> {
    if n == 0 then [] else [e] + Repeat(e, n - 1)
  }

  lemma {:induction false} RunConcat(s: Ledger, a: seq<Event>, b: seq<Event>)
    ensures Run(s, a + b) == Run(Run(s, a), b)
    decreases |a|
  {
    if a == [] {
      assert a + b == b;
    } else {
      assert (a + b)[1..] == a[1..] + b;
      RunConcat(Step(s, a[0]), a[1..], b);
    }
  }

  lemma OpenOne(s: Ledger, bidi: bool)
    requires Inv(s) && !s.stopped && !OpenRefused(s.limits, bidi)
    ensures var s' := Step(s, Open(bidi, false));
            && Inv(s') && !s'.stopped && |s'.local| == |s.local| + 1
            && s'.limits.openedUni == s.limits.openedUni + (if bidi then 0 else 1)
            && s'.limits.openedBidi == s.limits.openedBidi + (if bidi then 1 else 0)
            && StreamGrants(s', s.limits.maxStreamsUni, s.limits.maxStreamsBidi)
  {
    StepKeepsInv(s, Open(bidi, false));
  }

  lemma {:induction false} OpenAll(s: Ledger, bidi: bool, n: nat)
    requires Inv(s) && !s.stopped
    requires n + (if bidi then s.limits.openedBidi else s.limits.openedUni)
             <= if bidi then s.limits.maxStreamsBidi else s.limits.maxStreamsUni
    ensures var s' := Run(s, Repeat(Open(bidi, false), n));
            && Inv(s') && !s'.stopped && |s'.local| == |s.local| + n
            && s'.limits.openedUni == s.limits.openedUni + (if bidi then 0 else n)
            && s'.limits.openedBidi == s.limits.openedBidi + (if bidi then n else 0)
            && StreamGrants(s', s.limits.maxStreamsUni, s.limits.maxStreamsBidi)
    decreases n
  {
    if n > 0 {
      OpenOne(s, bidi);
      assert Repeat(Open(bidi, false), n)[1..] == Repeat(Open(bidi, false), n - 1);
      OpenAll(Step(s, Open(bidi, false)), bidi, n - 1);
    }
  }

  /** The run in which the peer grants `uni` and `bidi` streams and all of
      them are opened. */
  function OpenEverything(uni: nat, bidi: nat): seq<Event> {
    [Issue(MaxStreams(false, uni)), Issue(MaxStreams(true, bidi)), Deliver, Deliver]
    + (Repeat(Open(false, false), uni) + Repeat(Open(true, false), bidi))
  }

  lemma OpenEverythingOpens(isServer: bool, peer: PeerLimits, uni: nat, bidi: nat)
    requires peer.Valid()
    requires peer.maxStreamsUni <= uni <= MAX_STREAM_COUNT && peer.maxStreamsBidi <= bidi <= MAX_STREAM_COUNT
    ensures var s := Run(Init(isServer, peer), OpenEverything(uni, bidi));
            Inv(s) && StreamGrants(s, uni, bidi) && |s.local| == uni + bidi
  {
    var s0 := Init(isServer, peer);
    var grants := [Issue(MaxStreams(false, uni)), Issue(MaxStreams(true, bidi)), Deliver, Deliver];
    InitInv(isServer, peer);
    RunKeepsInv(s0, grants);
    var s1 := Run(s0, grants);
    var sa := Step(s0, grants[0]);
    var sb := Step(sa, grants[1]);
    var sc := Step(sb, Deliver);
    assert Run(sb, [Deliver, Deliver]) == Step(sc, Deliver) by {
      assert [Deliver, Deliver][1..] == [Deliver] && [Deliver][1..] == [];
      assert Run(sc, [Deliver]) == Run(Step(sc, Deliver), []);
    }
    assert s1 == Step(sc, Deliver) by {
      assert grants[1..] == [Issue(MaxStreams(true, bidi)), Deliver, Deliver];
      assert grants[1..][1..] == [Deliver, Deliver];
      assert Run(sa, grants[1..]) == Run(sb, [Deliver, Deliver]);
    }
    assert StreamGrants(s1, uni, bidi) && !s1.stopped && s1.local == [];
    OpenAll(s1, false, uni);
    var s2 := Run(s1, Repeat(Open(false, false), uni));
    OpenAll(s2, true, bidi);
    RunConcat(s1, Repeat(Open(false, false), uni), Repeat(Open(true, false), bidi));
    RunConcat(s0, grants, Repeat(Open(false, false), uni) + Repeat(Open(true, false), bidi));
  }

  /** Every ID of every run under stream grants `uni` and `bidi` fits a 62-bit
      varint exactly when the two grants together are at most 2^60: each grant
      alone is bounded by 2^60, but both directions share one counter. */
  lemma {:induction false} IdsFitExactlyWhen(isServer: bool, peer: PeerLimits, uni: nat, bidi: nat)
    requires peer.Valid()
    requires peer.maxStreamsUni <= uni <= MAX_STREAM_COUNT && peer.maxStreamsBidi <= bidi <= MAX_STREAM_COUNT
    ensures uni + bidi <= MAX_STREAM_COUNT <==>
            forall es: seq<Event> :: var s := Run(Init(isServer, peer), es);
              StreamGrants(s, uni, bidi) ==> AllFit(s)
  {
    if uni + bidi <= MAX_STREAM_COUNT {
      forall es: seq<Event> | StreamGrants(Run(Init(isServer, peer), es), uni, bidi)
        ensures AllFit(Run(Init(isServer, peer), es))
      {
        StreamIdsAllocated(isServer, peer, es);
        InitInv(isServer, peer);
        RunKeepsInv(Init(isServer, peer), es);
      }
    } else {
      OpenEverythingOpens(isServer, peer, uni, bidi);
      var s := Run(Init(isServer, peer), OpenEverything(uni, bidi));
      assert s.local[MAX_STREAM_COUNT].id / 4 == MAX_STREAM_COUNT;
    }
  }

  // ---------- more credit never hurts ----------

  /** The same counters under grants that are nowhere smaller. */
  ghost predicate Below(a: Limits, b: Limits) {
    && a.isServer == b.isServer && a.active && b.active
    && a.dataSent == b.dataSent && a.streamSent == b.streamSent
    && a.openedUni == b.openedUni && a.openedBidi == b.openedBidi && a.created == b.created
    && a.maxData <= b.maxData < TWO_64
    && a.maxStreamsUni <= b.maxStreamsUni && a.maxStreamsBidi <= b.maxStreamsBidi
    && a.streamDataUni <= b.streamDataUni < TWO_64
    && a.streamDataBidiLocal <= b.streamDataBidiLocal < TWO_64
    && a.streamDataBidiRemote <= b.streamDataBidiRemote < TWO_64
    && a.streamMax.Keys == b.streamMax.Keys
    && forall id :: id in a.streamMax ==> a.streamMax[id] <= b.streamMax[id] < TWO_64
  }

  ghost predicate SameBooks(a: Ledger, b: Ledger) {
    && Below(a.limits, b.limits)
    && a.pending == b.pending && a.emitted == b.emitted && a.local == b.local
    && a.sendable == b.sendable && a.stopped == b.stopped && a.loopEnded == b.loopEnded
  }

  /** A local event that does what it was asked to do. */
  predicate Succeeds(s: Ledger, e: Event) {
    match e
    case Open(bidi, late) => (late || !s.stopped) && !OpenRefused(s.limits, bidi)
    case PeerOpened(id) => !s.loopEnded && IsBidi(id) && !IsOurs(s.limits.isServer, id)
    case StartWrite(id, n) => id in s.sendable && n < TWO_64 / 2 && ReserveVerdict(s.limits, id, n) == Ok
    case EmitOk(k) => k < |s.pending|
    case EmitFail(k) => k < |s.pending|
    case _ => false
  }

  predicate AllSucceed(s: Ledger, es: seq<Event>)
    decreases |es|
  {
    es == [] || (Succeeds(s, es[0]) && AllSucceed(Step(s, es[0]), es[1..]))
  }

  lemma EnsureKeepsBelow(a: Limits, b: Limits, id: nat)
    requires Below(a, b)
    ensures Below(EnsureStream(a, id), EnsureStream(b, id))
  {
    assert InitialLimit(a, id) <= InitialLimit(b, id) < TWO_64;
  }

  lemma ReserveKeepsBelow(a: Limits, b: Limits, id: nat, n: nat)
    requires Below(a, b) && n < TWO_64 / 2 && ReserveVerdict(a, id, n) == Ok
    ensures ReserveVerdict(b, id, n) == Ok && Below(Reserve(a, id, n), Reserve(b, id, n))
  {
    assert Get(a.streamMax, id) <= Get(b.streamMax, id) < TWO_64;
  }

  lemma RefundKeepsBelow(a: Limits, b: Limits, id: nat, n: nat)
    requires Below(a, b)
    ensures Below(Refund(a, id, n), Refund(b, id, n))
  {
  }

  lemma AllocKeepsBelow(a: Limits, b: Limits, bidi: bool)
    requires Below(a, b) && !OpenRefused(a, bidi)
    ensures !OpenRefused(b, bidi) && Alloc(a, bidi).1 == Alloc(b, bidi).1
    ensures Below(Alloc(a, bidi).0, Alloc(b, bidi).0)
  {
    assert Below(Bumped(a, bidi), Bumped(b, bidi));
    EnsureKeepsBelow(Bumped(a, bidi), Bumped(b, bidi), IdFrom(a.isServer, a.created, bidi));
  }

  lemma MoreCreditStep(a: Ledger, b: Ledger, e: Event)
    requires SameBooks(a, b) && Succeeds(a, e)
    ensures Succeeds(b, e) && SameBooks(Step(a, e), Step(b, e))
  {
    match e
    case Open(bidi, _) => AllocKeepsBelow(a.limits, b.limits, bidi);
    case PeerOpened(id) => EnsureKeepsBelow(a.limits, b.limits, id);
    case StartWrite(id, n) => ReserveKeepsBelow(a.limits, b.limits, id, n);
    case EmitOk(k) =>
    case EmitFail(k) => RefundKeepsBelow(a.limits, b.limits, a.pending[k].id, a.pending[k].n);
  }

  lemma {:induction false} MoreCreditRun(a: Ledger, b: Ledger, es: seq<Event>)
    requires SameBooks(a, b) && AllSucceed(a, es)
    ensures AllSucceed(b, es) && SameBooks(Run(a, es), Run(b, es))
    decreases |es|
  {
    if es != [] {
      MoreCreditStep(a, b, es[0]);
      MoreCreditRun(Step(a, es[0]), Step(b, es[0]), es[1..]);
    }
  }

  /** A run of opens, writes and refunds that all succeed under one snapshot
      succeeds step by step under any pointwise larger one, with the same IDs,
      the same counters and the same capsules. */
  lemma {:induction false} CreditMonotonicity(isServer: bool, small: PeerLimits, large: PeerLimits, es: seq<Event>)
    requires small.Valid() && large.Valid()
    requires small.maxData <= large.maxData
    requires small.maxStreamsUni <= large.maxStreamsUni && small.maxStreamsBidi <= large.maxStreamsBidi
    requires small.streamDataUni <= large.streamDataUni
    requires small.streamDataBidiLocal <= large.streamDataBidiLocal
    requires small.streamDataBidiRemote <= large.streamDataBidiRemote
    requires AllSucceed(Init(isServer, small), es)
    ensures AllSucceed(Init(isServer, large), es)
    ensures var a, b := Run(Init(isServer, small), es), Run(Init(isServer, large), es);
            && a.local == b.local && a.emitted == b.emitted && a.pending == b.pending
            && a.limits.dataSent == b.limits.dataSent && a.limits.streamSent == b.limits.streamSent
            && a.limits.created == b.limits.created
  {
    MoreCreditRun(Init(isServer, small), Init(isServer, large), es);
  }
}
