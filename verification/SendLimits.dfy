/** The peer's send grant (flow.go): what each critical section on
    `sendLimits.mu` does to the counters, as functions on a value, and the
    class whose methods update those counters in place. */
module SendLimits {
  import opened StreamIds

  /** SETTINGS_WT_INITIAL_MAX_* as the peer sent them. */
  datatype PeerLimits = PeerLimits(
    maxData: nat, maxStreamsUni: nat, maxStreamsBidi: nat,
    streamDataUni: nat, streamDataBidiLocal: nat, streamDataBidiRemote: nat)
  {
    /** HTTP/2 settings values are 32 bits wide. */
    predicate Valid() {
      && maxData < 0x1_0000_0000 && maxStreamsUni < 0x1_0000_0000 && maxStreamsBidi < 0x1_0000_0000
      && streamDataUni < 0x1_0000_0000 && streamDataBidiLocal < 0x1_0000_0000
      && streamDataBidiRemote < 0x1_0000_0000
    }
  }

  /** `sendLimits` together with the two session fields its critical sections
      touch: the role and `createdStreamCounter`. */
  datatype Limits = Limits(
    isServer: bool,
    active: bool,
    maxData: nat, maxStreamsUni: nat, maxStreamsBidi: nat,
    streamDataUni: nat, streamDataBidiLocal: nat, streamDataBidiRemote: nat,
    streamMax: map<nat, nat>,
    dataSent: nat,
    streamSent: map<nat, nat>,
    openedUni: nat, openedBidi: nat,
    created: nat)

  datatype Option<+T> = None | Some(value: T)

  /** Why a write or a limit capsule was refused. */
  datatype Verdict = Ok | SessionDataLimit | StreamDataLimit | FlowControlError

  const MAX_STREAM_COUNT: nat := 0x1000_0000_0000_0000

  function Unlimited(isServer: bool): Limits {
    Limits(isServer, false, 0, 0, 0, 0, 0, 0, map[], 0, map[], 0, 0, 0)
  }

  function Adopt(l: Limits, peer: PeerLimits): Limits {
    l.(active := true,
       maxData := peer.maxData, maxStreamsUni := peer.maxStreamsUni, maxStreamsBidi := peer.maxStreamsBidi,
       streamDataUni := peer.streamDataUni, streamDataBidiLocal := peer.streamDataBidiLocal,
       streamDataBidiRemote := peer.streamDataBidiRemote)
  }

  /** The limits of a new session: a missing peer snapshot leaves them off. */
  function NewLimits(isServer: bool, peer: Option<PeerLimits>): Limits {
    match peer
    case None => Unlimited(isServer)
    case Some(p) => Adopt(Unlimited(isServer), p)
  }

  /** Reading a Go map: a missing key, or a nil map, yields zero. */
  function Get(m: map<nat, nat>, id: nat): nat {
    if id in m then m[id] else 0
  }

  function InitialLimit(l: Limits, id: nat): nat {
    if !IsBidi(id) then l.streamDataUni
    else if IsOurs(l.isServer, id) then l.streamDataBidiRemote
    else l.streamDataBidiLocal
  }

  /** The total function that the lazily filled map stands for. */
  function Limit(l: Limits, id: nat): nat {
    if id in l.streamMax then l.streamMax[id] else InitialLimit(l, id)
  }

  function EnsureStream(l: Limits, id: nat): Limits {
    if !l.active || id in l.streamMax then l
    else l.(streamMax := l.streamMax[id := InitialLimit(l, id)])
  }

  function TrackSend(l: Limits, id: nat): Limits {
    if !IsBidi(id) && !IsOurs(l.isServer, id) then l else EnsureStream(l, id)
  }

  predicate OpenRefused(l: Limits, bidi: bool) {
    l.active && (if bidi then l.openedBidi >= l.maxStreamsBidi else l.openedUni >= l.maxStreamsUni)
  }

  /** One more ID handed out, and counted while limits are active. */
  function Bumped(l: Limits, bidi: bool): Limits {
    var l1 := l.(created := Wrap(l.created + 4));
    if !l.active then l1
    else if bidi then l1.(openedBidi := Wrap(l1.openedBidi + 1))
    else l1.(openedUni := Wrap(l1.openedUni + 1))
  }

  function Alloc(l: Limits, bidi: bool): (Limits, Option<nat>) {
    if OpenRefused(l, bidi) then (l, None)
    else
      var id := IdFrom(l.isServer, l.created, bidi);
      (EnsureStream(Bumped(l, bidi), id), Some(id))
  }

  function ReserveVerdict(l: Limits, id: nat, n: int): Verdict {
    var add, sent, max := Wrap(n), Get(l.streamSent, id), Get(l.streamMax, id);
    if n == 0 || !l.active then Ok
    else if l.dataSent > l.maxData || add > Wrap(l.maxData - l.dataSent) then SessionDataLimit
    else if sent > max || add > Wrap(max - sent) then StreamDataLimit
    else Ok
  }

  function Reserve(l: Limits, id: nat, n: int): Limits {
    if n == 0 || !l.active || ReserveVerdict(l, id, n) != Ok then l
    else l.(dataSent := Wrap(l.dataSent + Wrap(n)),
            streamSent := l.streamSent[id := Wrap(Get(l.streamSent, id) + Wrap(n))])
  }

  /** Charging is plain arithmetic while both sums are within their grants: a
      write is admitted exactly when it fits whole. */
  lemma {:induction false} ReserveExact(l: Limits, id: nat, n: nat)
    requires l.active && n < TWO_64 / 2
    requires l.dataSent <= l.maxData < TWO_64
    requires Get(l.streamSent, id) <= Get(l.streamMax, id) < TWO_64
    ensures ReserveVerdict(l, id, n) == Ok <==>
            n == 0 || (l.dataSent + n <= l.maxData && Get(l.streamSent, id) + n <= Get(l.streamMax, id))
    ensures ReserveVerdict(l, id, n) == SessionDataLimit <==> n > 0 && l.dataSent + n > l.maxData
    ensures ReserveVerdict(l, id, n) != Ok ==> Reserve(l, id, n) == l
    ensures ReserveVerdict(l, id, n) == Ok && n > 0 ==>
            Reserve(l, id, n) == l.(dataSent := l.dataSent + n,
                                    streamSent := l.streamSent[id := Get(l.streamSent, id) + n])
  {
  }

  /** What is not counted, and an empty write, is always admitted and free. */
  lemma {:induction false} FreeWrites(l: Limits, id: nat, n: int)
    requires n == 0 || !l.active
    ensures ReserveVerdict(l, id, n) == Ok && Reserve(l, id, n) == l && Refund(l, id, n) == l
  {
  }

  function Refund(l: Limits, id: nat, n: int): Limits {
    if n <= 0 || !l.active then l
    else
      var sub := Wrap(n);
      var l1 := if l.dataSent >= sub then l.(dataSent := l.dataSent - sub) else l;
      if Get(l1.streamSent, id) >= sub
      then l1.(streamSent := l1.streamSent[id := Get(l1.streamSent, id) - sub]) else l1
  }

  /** A refund takes back exactly its charge when both guards hold. */
  lemma {:induction false} RefundExact(l: Limits, id: nat, n: nat)
    requires l.active && l.dataSent >= n && Get(l.streamSent, id) >= n && n < TWO_64
    ensures n > 0 ==> Refund(l, id, n) ==
                      l.(dataSent := l.dataSent - n, streamSent := l.streamSent[id := Get(l.streamSent, id) - n])
    ensures n == 0 ==> Refund(l, id, n) == l
  {
  }

  /** WT_MAX_DATA, WT_MAX_STREAM_DATA and WT_MAX_STREAMS capsules. */
  datatype Grant = MaxData(max: nat) | MaxStreamData(id: nat, max: nat) | MaxStreams(bidi: bool, max: nat)

  /** The value that a grant replaces. */
  function Current(l: Limits, g: Grant): nat {
    match g
    case MaxData(_) => l.maxData
    case MaxStreamData(id, _) => Limit(l, id)
    case MaxStreams(bidi, _) => if bidi then l.maxStreamsBidi else l.maxStreamsUni
  }

  predicate GrantRefused(l: Limits, g: Grant) {
    g.max < Current(l, g) || (g.MaxStreams? && g.max > MAX_STREAM_COUNT)
  }

  /** A refused capsule still switches enforcement on, except that the 2^60
      check comes before the lock is taken. */
  function Raise(l: Limits, g: Grant): (Limits, Verdict) {
    if g.MaxStreams? && g.max > MAX_STREAM_COUNT then (l, FlowControlError)
    else if GrantRefused(l, g) then (l.(active := true), FlowControlError)
    else (match g
          case MaxData(m) => l.(active := true, maxData := m)
          case MaxStreamData(id, m) => l.(active := true, streamMax := l.streamMax[id := m])
          case MaxStreams(bidi, m) =>
            if bidi then l.(active := true, maxStreamsBidi := m) else l.(active := true, maxStreamsUni := m), Ok)
  }

  // ---------- stream counts and IDs ----------

  /** Opens are counted from creation on, and the counter has not wrapped. */
  predicate Counted(l: Limits) {
    && l.active
    && l.created == 4 * (l.openedUni + l.openedBidi)
    && l.openedUni <= l.maxStreamsUni <= MAX_STREAM_COUNT
    && l.openedBidi <= l.maxStreamsBidi <= MAX_STREAM_COUNT
  }

  /** An open takes one count and one fresh block of four IDs; its ID is ours,
      of the requested direction, and no ID of the other endpoint. */
  lemma {:induction false} CountedAlloc(l: Limits, bidi: bool)
    requires Counted(l)
    ensures var (l', id) := Alloc(l, bidi);
            && Counted(l')
            && l'.created <= TWO_64 / 2
            && (id.None? <==> if bidi then l.openedBidi == l.maxStreamsBidi else l.openedUni == l.maxStreamsUni)
            && (id.None? ==> l' == l)
            && (id.Some? ==> && l'.openedUni == l.openedUni + (if bidi then 0 else 1)
                             && l'.openedBidi == l.openedBidi + (if bidi then 1 else 0)
                             && l'.created == l.created + 4 && l.created <= id.value < l'.created
                             && IsBidi(id.value) == bidi && IsOurs(l.isServer, id.value)
                             && !IsOurs(!l.isServer, id.value)
                             && id.value in l'.streamMax
                             && (id.value < TWO_62 <==> l.openedUni + l.openedBidi < MAX_STREAM_COUNT))
  {
    IdFromClassifies(l.isServer, l.created, bidi);
  }

  /** No other operation disturbs the counting. */
  lemma {:induction false} CountedOthers(l: Limits, id: nat, n: int, g: Grant)
    requires Counted(l)
    ensures Counted(TrackSend(l, id)) && Counted(Reserve(l, id, n)) && Counted(Refund(l, id, n))
    ensures Counted(Raise(l, g).0)
  {
    CountedRaise(l, g);
  }

  predicate SameCounts(a: Limits, b: Limits) {
    a.isServer == b.isServer && a.openedUni == b.openedUni && a.openedBidi == b.openedBidi && a.created == b.created
  }

  lemma CountsKept(l: Limits, id: nat, n: int, g: Grant)
    ensures SameCounts(l, TrackSend(l, id)) && SameCounts(l, Reserve(l, id, n)) && SameCounts(l, Refund(l, id, n))
    ensures SameCounts(l, Raise(l, g).0)
  {
  }

  lemma CountedRaise(l: Limits, g: Grant)
    requires Counted(l)
    ensures Counted(Raise(l, g).0)
  {
  }

  // ---------- the lazy map of stream limits ----------

  predicate SameTarget(a: Grant, b: Grant) {
    match a
    case MaxData(_) => b.MaxData?
    case MaxStreamData(id, _) => b.MaxStreamData? && b.id == id
    case MaxStreams(bidi, _) => b.MaxStreams? && b.bidi == bidi
  }

  /** One capsule: an increase is adopted, anything else changes no limit and
      ends the session. */
  lemma {:induction false} RaiseCurrent(l: Limits, g: Grant, what: Grant)
    ensures var (l', v) := Raise(l, g);
            && (v == Ok <==> !GrantRefused(l, g)) && (v == Ok || v == FlowControlError)
            && l'.dataSent == l.dataSent && l'.streamSent == l.streamSent && (v == Ok ==> l'.active)
            && Current(l', what) == (if v == Ok && SameTarget(g, what) then g.max else Current(l, what))
            && (v == Ok && SameTarget(g, what) ==> Current(l', what) >= Current(l, what))
  {
  }

  lemma EnsureKeepsCurrent(l: Limits, id: nat, what: Grant)
    ensures Current(EnsureStream(l, id), what) == Current(l, what)
  {
  }

  /** No operation but a grant changes a value in force: filling in the map's
      entry for a stream gives the value that the lookup gave before. */
  lemma {:induction false} OtherOpsKeepCurrent(l: Limits, id: nat, n: int, bidi: bool, what: Grant)
    ensures Current(Alloc(l, bidi).0, what) == Current(l, what)
    ensures Current(TrackSend(l, id), what) == Current(l, what)
    ensures Current(Reserve(l, id, n), what) == Current(l, what)
    ensures Current(Refund(l, id, n), what) == Current(l, what)
  {
    EnsureKeepsCurrent(l, id, what);
    AllocKeepsCurrent(l, bidi, what);
    ChargesKeepCurrent(l, id, n, what);
  }

  lemma AllocKeepsCurrent(l: Limits, bidi: bool, what: Grant)
    ensures Current(Alloc(l, bidi).0, what) == Current(l, what)
  {
    assert Current(Bumped(l, bidi), what) == Current(l, what);
    EnsureKeepsCurrent(Bumped(l, bidi), IdFrom(l.isServer, l.created, bidi), what);
  }

  lemma ChargesKeepCurrent(l: Limits, id: nat, n: int, what: Grant)
    ensures Current(Reserve(l, id, n), what) == Current(l, what)
    ensures Current(Refund(l, id, n), what) == Current(l, what)
  {
  }

  /** Filling in the map's entry for a stream commutes with raising any limit:
      the raise sees the same current value either way. */
  lemma {:induction false} EnsureAndRaiseCommute(l: Limits, other: nat, id: nat, max: nat)
    requires l.active
    ensures var g := MaxStreamData(id, max);
            Raise(EnsureStream(l, other), g) == (EnsureStream(Raise(l, g).0, other), Raise(l, g).1)
  {
    var g := MaxStreamData(id, max);
    var init := InitialLimit(l, other);
    assert InitialLimit(Raise(l, g).0, other) == init;
    if other !in l.streamMax && Raise(l, g).1 == Ok {
      assert other != id ==> l.streamMax[other := init][id := max] == l.streamMax[id := max][other := init];
      assert other == id ==> l.streamMax[other := init][id := max] == l.streamMax[id := max];
    }
  }

  /** Opening then raising and raising then opening reach the same state with
      the same answers, exactly when enforcement was already on: a capsule that
      switches it on makes later opens counted. */
  lemma {:induction false} OpenAndRaiseCommute(l: Limits, bidi: bool, id: nat, max: nat)
    ensures l.active <==>
            var g := MaxStreamData(id, max);
            var (opened1, id1) := Alloc(l, bidi);
            var (opened2, id2) := Alloc(Raise(l, g).0, bidi);
            Raise(opened1, g) == (opened2, Raise(l, g).1) && id1 == id2
  {
    var g := MaxStreamData(id, max);
    if l.active {
      assert Raise(Bumped(l, bidi), g) == (Bumped(Raise(l, g).0, bidi), Raise(l, g).1);
      EnsureAndRaiseCommute(Bumped(l, bidi), IdFrom(l.isServer, l.created, bidi), id, max);
    } else {
      CapsuleActivatesCounting(l, bidi, g);
    }
  }

  lemma {:induction false} CapsuleActivatesCounting(l: Limits, bidi: bool, g: Grant)
    requires !l.active && g.MaxStreamData?
    ensures Raise(Alloc(l, bidi).0, g).0 != Alloc(Raise(l, g).0, bidi).0
  {
    var first, second := Raise(Alloc(l, bidi).0, g).0, Alloc(Raise(l, g).0, bidi).0;
    assert first.created == Wrap(l.created + 4) != l.created;
    assert first.openedUni == l.openedUni && first.openedBidi == l.openedBidi;
    assert OpenRefused(Raise(l, g).0, bidi) ==> second.created == l.created;
    assert !OpenRefused(Raise(l, g).0, bidi) ==>
        if bidi then second.openedBidi == Wrap(l.openedBidi + 1) != l.openedBidi
        else second.openedUni == Wrap(l.openedUni + 1) != l.openedUni;
  }

  /** The counters in place, as flow.go holds them. */
  class SendLimits {
    const isServer: bool
    var active: bool
    var maxData: nat
    var maxStreamsUni: nat
    var maxStreamsBidi: nat
    var streamDataUni: nat
    var streamDataBidiLocal: nat
    var streamDataBidiRemote: nat
    var streamMax: map<nat, nat>
    var dataSent: nat
    var streamSent: map<nat, nat>
    var openedUni: nat
    var openedBidi: nat
    var created: nat

    ghost function State(): Limits
      reads this
    {
      Limits(isServer, active, maxData, maxStreamsUni, maxStreamsBidi,
             streamDataUni, streamDataBidiLocal, streamDataBidiRemote,
             streamMax, dataSent, streamSent, openedUni, openedBidi, created)
    }

    constructor (isServer: bool)
      ensures State() == Unlimited(isServer)
    {
      this.isServer := isServer;
      active, maxData, maxStreamsUni, maxStreamsBidi := false, 0, 0, 0;
      streamDataUni, streamDataBidiLocal, streamDataBidiRemote := 0, 0, 0;
      streamMax, dataSent, streamSent, openedUni, openedBidi, created := map[], 0, map[], 0, 0, 0;
    }

    method AdoptPeerSendLimits(peer: PeerLimits)
      modifies this
      ensures State() == Adopt(old(State()), peer)
    {
      active := true;
      maxData, maxStreamsUni, maxStreamsBidi := peer.maxData, peer.maxStreamsUni, peer.maxStreamsBidi;
      streamDataUni := peer.streamDataUni;
      streamDataBidiLocal := peer.streamDataBidiLocal;
      streamDataBidiRemote := peer.streamDataBidiRemote;
    }

    method InitialStreamSendLimit(id: nat) returns (max: nat)
      ensures max == InitialLimit(State(), id)
    {
      if !IsBidi(id) {
        return streamDataUni;
      }
      if IsOurs(isServer, id) {
        return streamDataBidiRemote;
      }
      return streamDataBidiLocal;
    }

    method EnsureStreamSendLimit(id: nat)
      modifies this`streamMax
      ensures State() == EnsureStream(old(State()), id)
    {
      if !active || id in streamMax {
        return;
      }
      var max := InitialStreamSendLimit(id);
      streamMax := streamMax[id := max];
    }

    method TrackSendStream(id: nat)
      modifies this`streamMax
      ensures State() == TrackSend(old(State()), id)
    {
      if !IsBidi(id) && !IsOurs(isServer, id) {
        return;
      }
      EnsureStreamSendLimit(id);
    }

    method NextStreamID(bidi: bool) returns (id: nat)
      modifies this`created
      ensures id == IdFrom(isServer, old(created), bidi)
      ensures State() == old(State()).(created := Wrap(old(created) + 4))
    {
      id := created;
      if !bidi {
        id := SetBit1(id);
      }
      if isServer {
        id := SetBit0(id);
      }
      created := Wrap(created + 4);
    }

    method AllocLocalStream(bidi: bool) returns (id: Option<nat>)
      modifies this
      ensures (State(), id) == Alloc(old(State()), bidi)
    {
      if active {
        var used, max := openedUni, maxStreamsUni;
        if bidi {
          used, max := openedBidi, maxStreamsBidi;
        }
        if used >= max {
          return None;
        }
      }
      var next := NextStreamID(bidi);
      if active {
        if bidi {
          openedBidi := Wrap(openedBidi + 1);
        } else {
          openedUni := Wrap(openedUni + 1);
        }
        EnsureStreamSendLimit(next);
      }
      return Some(next);
    }

    method ReserveSendData(id: nat, n: int) returns (v: Verdict)
      modifies this`dataSent, this`streamSent
      ensures v == ReserveVerdict(old(State()), id, n)
      ensures State() == Reserve(old(State()), id, n)
    {
      if n == 0 || !active {
        return Ok;
      }
      var add := Wrap(n);
      if dataSent > maxData || add > Wrap(maxData - dataSent) {
        return SessionDataLimit;
      }
      var maxStream, sent := Get(streamMax, id), Get(streamSent, id);
      if sent > maxStream || add > Wrap(maxStream - sent) {
        return StreamDataLimit;
      }
      dataSent := Wrap(dataSent + add);
      streamSent := streamSent[id := Wrap(sent + add)];
      return Ok;
    }

    method RefundSendData(id: nat, n: int)
      modifies this`dataSent, this`streamSent
      ensures State() == Refund(old(State()), id, n)
    {
      if n <= 0 || !active {
        return;
      }
      var sub := Wrap(n);
      if dataSent >= sub {
        dataSent := dataSent - sub;
      }
      if Get(streamSent, id) >= sub {
        streamSent := streamSent[id := Get(streamSent, id) - sub];
      }
    }

    method RaiseMaxData(max: nat) returns (v: Verdict)
      modifies this
      ensures (State(), v) == Raise(old(State()), MaxData(max))
    {
      active := true;
      if max < maxData {
        return FlowControlError;
      }
      maxData := max;
      return Ok;
    }

    method RaiseMaxStreamData(id: nat, max: nat) returns (v: Verdict)
      modifies this
      ensures (State(), v) == Raise(old(State()), MaxStreamData(id, max))
    {
      active := true;
      var cur := InitialStreamSendLimit(id);
      if id in streamMax {
        cur := streamMax[id];
      }
      if max < cur {
        return FlowControlError;
      }
      streamMax := streamMax[id := max];
      return Ok;
    }

    method RaiseMaxStreams(bidi: bool, max: nat) returns (v: Verdict)
      modifies this
      ensures (State(), v) == Raise(old(State()), MaxStreams(bidi, max))
    {
      if max > MAX_STREAM_COUNT {
        return FlowControlError;
      }
      active := true;
      var cur := maxStreamsUni;
      if bidi {
        cur := maxStreamsBidi;
      }
      if max < cur {
        return FlowControlError;
      }
      if bidi {
        maxStreamsBidi := max;
      } else {
        maxStreamsUni := max;
      }
      return Ok;
    }
  }
}
