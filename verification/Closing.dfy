/** How sessions end: a close error is set once, a remote application error is
    the first close that the other side announced, and what the read loop still
    does once the session is on its way out. */
module Closing {
  import opened SendLimits
  import opened Varints
  import opened Capsules
  import opened Endpoint
  import opened Rows
  import opened Delivery
  import opened Demux

  // ---------- one endpoint ----------

  /** A call whose `setCloseErr` is done and whose `Close` is still to come. */
  ghost predicate Pending(s: Session, k: nat) {
    CallAt(s, k, Recorded)
  }

  /** The close error is the one its setter came with; a call has it set once it
      is past `setCloseErr`; and an error in a session that still runs has
      someone on the way to stopping it. */
  ghost predicate ClosesOk(s: Session) {
    var cl := s.closes;
    && (s.closeErr.Some? <==> cl.setter.Some?)
    && (cl.first.Some? ==>
          && cl.first.value < |cl.calls| && !cl.calls[cl.first.value].stage.Tested?
          && (cl.calls[cl.first.value].stage.Returned? ==> s.closeErr.Some?))
    && (forall k :: 0 <= k < |cl.calls| && cl.calls[k].stage.Announced? ==> cl.first.Some?)
    && (forall k :: 0 <= k < |cl.calls| && cl.calls[k].stage.Recorded? ==> cl.first.Some? && s.closeErr.Some?)
    && (s.closeErr.Some? ==>
          match cl.setter.value
          case Caller(k) =>
            k < |cl.calls| && s.closeErr.value == Application(cl.calls[k].code, cl.calls[k].message, false)
          case ReadLoop => s.closeErr.value.FlowControl? || s.closeErr.value.remote)
    && (s.closeErr.Some? && !s.stop ==> s.loop == Ended || exists k :: Pending(s, k))
  }

  /** No step changes what a call came with, which call was first, or an error. */
  ghost predicate Grows(s: Session, s': Session) {
    && |s.closes.calls| <= |s'.closes.calls|
    && (forall k :: 0 <= k < |s.closes.calls| ==>
          && s'.closes.calls[k].code == s.closes.calls[k].code
          && s'.closes.calls[k].message == s.closes.calls[k].message)
    && (s.closes.first.Some? ==> s'.closes.first == s.closes.first)
    && (s.closeErr.Some? ==> s'.closeErr == s.closeErr && s'.closes.setter == s.closes.setter)
  }

  /** The call that announced first, as the capsule it wrote. */
  function FirstAnnounced(s: Session): Option<Capsule> {
    var cl := s.closes;
    if cl.first.Some? && cl.first.value < |cl.calls|
    then Some(CloseSession(cl.calls[cl.first.value].code, cl.calls[cl.first.value].message))
    else None
  }

  /** What the body of the loop does to the close state. */
  lemma HandleCloses(s: Session, c: Capsule, doneWins: bool)
    requires s.loop != Ended
    ensures var s' := Handle(s, c, doneWins);
            && s'.stop == s.stop && s'.closes.calls == s.closes.calls && s'.closes.first == s.closes.first
            && (s.closeErr.Some? || (!c.CloseSession? && !c.Limit?) ==>
                  s'.closeErr == s.closeErr && s'.closes == s.closes)
            && (s.closeErr.None? && c.CloseSession? ==> s'.closeErr == Some(Application(c.code, c.message, true)))
            && (s.closeErr.None? && c.Limit? ==> s'.closeErr.None? || s'.closeErr == Some(FlowControl))
            && (s.closeErr.None? ==> s'.closes.setter == if s'.closeErr.None? then s.closes.setter else Some(ReadLoop))
            && (c.CloseSession? || s'.closeErr != s.closeErr ==> s'.loop == Ended)
  {
    if c.Stream? {
      HandleStreamTables(s, c.id, c.payload, c.fin, doneWins);
    }
  }

  lemma CapsuleCloses(s: Session, c: Capsule, doneWins: bool)
    requires ClosesOk(s) && CanRead(s, c)
    ensures var s' := Step(s, Incoming(c, doneWins)).0;
            && ClosesOk(s') && Grows(s, s') && FirstAnnounced(s') == FirstAnnounced(s)
            && (c.CloseSession? ==> s'.loop == Ended)
            && (s'.closeErr != s.closeErr && s'.closeErr.value.Application? ==>
                  c.CloseSession? && s'.closeErr == Some(Application(c.code, c.message, true)))
  {
    HandleCloses(s, c, doneWins);
    var s' := Step(s, Incoming(c, doneWins)).0;
    assert s'.closes == Handle(s, c, doneWins).closes && s'.closeErr == Handle(s, c, doneWins).closeErr;
    assert forall k :: Pending(s, k) ==> Pending(s', k);
  }

  /** The calls that have nothing to do with closing. */
  lemma OtherCallCloses(s: Session, e: Event)
    requires !e.Incoming? && !e.CloseStartCall? && !e.CloseAnnounceCall? && !e.CloseRecordCall? && !e.CloseReturnCall?
    ensures var (s', out) := Step(s, e);
            && s'.closes == s.closes && s'.closeErr == s.closeErr && (s.stop ==> s'.stop)
            && (s.loop == Ended ==> s'.loop == Ended)
            && (out == [] || (|out| == 1 && !out[0].CloseSession?))
  {
    if !Quiet(e) {
      match e
      case OpenCall(_, _) =>
      case WriteCall(_, _, _) =>
      case CloseSendCall(_, _) =>
      case ReadCall(_, _) =>
      case CloseRecvCall(_) =>
    }
  }

  lemma StartCloses(s: Session, code: nat, message: seq<Byte>)
    requires ClosesOk(s)
    ensures var s' := CloseStart(s, code, message);
            ClosesOk(s') && Grows(s, s') && FirstAnnounced(s') == FirstAnnounced(s)
  {
    var s' := CloseStart(s, code, message);
    assert forall k :: Pending(s, k) ==> Pending(s', k);
  }

  lemma AnnounceCloses(s: Session, k: nat, ok: bool)
    requires ClosesOk(s)
    ensures var (s', out) := CloseAnnounce(s, k, ok);
            && ClosesOk(s') && Grows(s, s')
            && (out == [] ==> FirstAnnounced(s') == FirstAnnounced(s))
            && (out != [] ==>
                  && |out| == 1 && out[0].CloseSession?
                  && FirstAnnounced(s') == if FirstAnnounced(s).Some? then FirstAnnounced(s) else Some(out[0]))
  {
    var s' := CloseAnnounce(s, k, ok).0;
    assert forall j :: Pending(s, j) ==> Pending(s', j);
  }

  lemma RecordCloses(s: Session, k: nat)
    requires ClosesOk(s)
    ensures var s' := CloseRecord(s, k); ClosesOk(s') && Grows(s, s') && FirstAnnounced(s') == FirstAnnounced(s)
  {
    var s' := CloseRecord(s, k);
    assert forall j :: Pending(s, j) ==> Pending(s', j);
    if CallAt(s, k, Announced) {
      assert Pending(s', k);
    }
  }

  lemma ReturnCloses(s: Session, k: nat)
    requires ClosesOk(s)
    ensures var s' := CloseReturn(s, k); ClosesOk(s') && Grows(s, s') && FirstAnnounced(s') == FirstAnnounced(s)
  {
  }

  /** Every call keeps the books; only an announcement writes a close. */
  lemma CallCloses(s: Session, e: Event)
    requires ClosesOk(s) && !e.Incoming?
    ensures var (s', out) := Step(s, e);
            && ClosesOk(s') && Grows(s, s') && (s.loop == Ended ==> s'.loop == Ended)
            && (s'.closeErr == s.closeErr || s'.closeErr.value == s'.closeErr.value.(remote := false))
            && |out| <= 1
            && FirstAnnounced(s') == if FirstAnnounced(s).None? && out != [] && out[0].CloseSession?
                                     then Some(out[0]) else FirstAnnounced(s)
  {
    if e.CloseStartCall? {
      StartCloses(s, e.code, e.message);
    } else if e.CloseAnnounceCall? {
      AnnounceCloses(s, e.k, e.ok);
    } else if e.CloseRecordCall? {
      RecordCloses(s, e.k);
    } else if e.CloseReturnCall? {
      ReturnCloses(s, e.k);
    } else {
      OtherCallCloses(s, e);
      assert forall k :: Pending(s, k) ==> Pending(Step(s, e).0, k);
    }
  }

  // ---------- two endpoints ----------

  function FirstClose(ch: seq<Capsule>): Option<Capsule> {
    if ch == [] then None else if ch[0].CloseSession? then Some(ch[0]) else FirstClose(ch[1..])
  }

  lemma {:induction false} FirstCloseAppend(ch: seq<Capsule>, c: Capsule)
    ensures FirstClose(ch + [c]) == if FirstClose(ch).Some? || !c.CloseSession? then FirstClose(ch) else Some(c)
  {
    if ch == [] {
      assert ch + [c] == [c] && [c][1..] == [];
    } else {
      assert (ch + [c])[1..] == ch[1..] + [c];
      FirstCloseAppend(ch[1..], c);
    }
  }

  /** As long as `y` reads, the first close under way is the first that `x`
      announced; and what `y` was told is that one. */
  ghost predicate Authentic(x: Session, ch: seq<Capsule>, y: Session) {
    && (Alive(y) ==> FirstClose(ch) == FirstAnnounced(x))
    && (y.closeErr.Some? && y.closeErr.value.Application? && y.closeErr.value.remote ==>
          FirstAnnounced(x) == Some(CloseSession(y.closeErr.value.code, y.closeErr.value.message)))
  }

  ghost predicate ClosingOk(w: System) {
    && ClosesOk(w.client.sess) && ClosesOk(w.server.sess)
    && Authentic(w.client.sess, w.client.out, w.server.sess)
    && Authentic(w.server.sess, w.server.out, w.client.sess)
  }

  lemma {:induction false} CallKeepsAuthentic(x: Session, chX: seq<Capsule>, y: Session, chY: seq<Capsule>, e: Event)
    requires ClosesOk(x) && !e.Incoming? && Authentic(x, chX, y) && Authentic(y, chY, x)
    ensures var (x', out) := Step(x, e); Authentic(x', chX + out, y) && Authentic(y, chY, x')
  {
    CallCloses(x, e);
    var (x', out) := Step(x, e);
    if out == [] {
      assert chX + out == chX;
    } else {
      assert out == [out[0]];
      FirstCloseAppend(chX, out[0]);
    }
  }

  lemma {:induction false} ReadKeepsAuthentic(y: Session, chY: seq<Capsule>, x: Session, chX: seq<Capsule>,
                                              doneWins: bool)
    requires ClosesOk(y) && chX != [] && CanRead(y, chX[0]) && Authentic(x, chX, y) && Authentic(y, chY, x)
    ensures var y' := Step(y, Incoming(chX[0], doneWins)).0;
            Authentic(x, chX[1..], y') && Authentic(y', chY, x)
  {
    CapsuleCloses(y, chX[0], doneWins);
  }

  lemma {:induction false} ActCloses(w: System, a: Action)
    requires ClosingOk(w)
    ensures ClosingOk(Act(w, a))
    ensures Grows(w.client.sess, Act(w, a).client.sess) && Grows(w.server.sess, Act(w, a).server.sess)
  {
    var mine, other := At(w, a.atServer), At(w, !a.atServer);
    match a
    case Call(_, e) =>
      if !e.Incoming? {
        CallCloses(mine.sess, e);
        CallKeepsAuthentic(mine.sess, mine.out, other.sess, other.out, e);
      }
    case ReadNext(_, doneWins) =>
      if other.out != [] && CanRead(mine.sess, other.out[0]) {
        CapsuleCloses(mine.sess, other.out[0], doneWins);
        ReadKeepsAuthentic(mine.sess, mine.out, other.sess, other.out, doneWins);
      }
    case Issue(_, g) => FirstCloseAppend(mine.out, Limit(g));
  }

  lemma {:induction false} RunCloses(w: System, actions: seq<Action>)
    requires ClosingOk(w)
    ensures ClosingOk(RunSystem(w, actions))
    ensures Grows(w.client.sess, RunSystem(w, actions).client.sess)
    ensures Grows(w.server.sess, RunSystem(w, actions).server.sess)
    decreases |actions|
  {
    if actions != [] {
      ActCloses(w, actions[0]);
      RunCloses(Act(w, actions[0]), actions[1..]);
    }
  }

  /** In every run of two endpoints, with any number of CloseWithError calls in
      any interleaving: a close error once set never changes; an application
      error that one side reports as remote is the first close that the other
      side announced; and a session that has an error but is not stopped yet has
      a call or the read loop on the way to stopping it. */
  lemma {:induction false} RemoteErrorIsAuthentic(client: Setup, server: Setup, actions: seq<Action>,
                                                  more: seq<Action>, atServer: bool)
    ensures var w0 := RunSystem(NewSystem(client, server), actions);
            var w := RunSystem(w0, more);
            var mine, other := At(w, atServer).sess, At(w, !atServer).sess;
            && (At(w0, atServer).sess.closeErr.Some? ==> mine.closeErr == At(w0, atServer).sess.closeErr)
            && (mine.closeErr.Some? && !mine.stop ==> mine.loop == Ended || exists k :: Pending(mine, k))
            && (mine.closeErr.Some? && mine.closeErr.value.Application? && mine.closeErr.value.remote ==>
                  FirstAnnounced(other) == Some(CloseSession(mine.closeErr.value.code, mine.closeErr.value.message)))
  {
    RunCloses(NewSystem(client, server), actions);
    RunCloses(RunSystem(NewSystem(client, server), actions), more);
  }

  /** The two sides then agree on the error exactly when the error of the side
      that closed was set by a call with the words of the call that announced
      first: no other call with other words, and not the read loop, came to
      `setCloseErr` before it. A single call that the read loop does not
      overtake always makes them agree, as soon as it is past `setCloseErr`. */
  lemma {:induction false} CloseErrorsAgreeExactlyWhen(client: Setup, server: Setup, actions: seq<Action>,
                                                       atServer: bool)
    ensures var w := RunSystem(NewSystem(client, server), actions);
            var mine, other := At(w, atServer).sess, At(w, !atServer).sess;
            mine.closeErr.Some? && mine.closeErr.value.Application? && mine.closeErr.value.remote ==>
              var cl := other.closes;
              && cl.first.Some? && cl.first.value < |cl.calls|
              && (other.closeErr == Some(mine.closeErr.value.(remote := false)) <==>
                    && cl.setter.Some? && cl.setter.value.Caller? && cl.setter.value.k < |cl.calls|
                    && cl.calls[cl.setter.value.k].code == cl.calls[cl.first.value].code
                    && cl.calls[cl.setter.value.k].message == cl.calls[cl.first.value].message)
              && (|cl.calls| == 1 && !cl.calls[0].stage.Announced? && cl.setter != Some(ReadLoop) ==>
                    other.closeErr == Some(mine.closeErr.value.(remote := false)))
  {
    RunCloses(NewSystem(client, server), actions);
  }

  // ---------- calls that overlap, and calls that do not ----------

  /** At most one call is in progress. */
  predicate OneAtATime(s: Session) {
    forall j, k :: 0 <= j < k < |s.closes.calls| ==>
      s.closes.calls[j].stage.Returned? || s.closes.calls[k].stage.Returned?
  }

  /** Then the call that announced first is the only one that ever got past its
      capsule, and no other call set the error. */
  ghost predicate SoleAnnouncer(s: Session) {
    var cl := s.closes;
    && (cl.setter.Some? && cl.setter.value.Caller? ==> cl.first == Some(cl.setter.value.k))
    && (cl.first.Some? && cl.first.value < |cl.calls| ==>
          && (forall k :: 0 <= k < |cl.calls| && k != cl.first.value ==> cl.calls[k].stage.Returned?)
          && (cl.calls[cl.first.value].stage.Returned? ==> s.stop))
  }

  lemma OthersReturned(s: Session, j: nat, k: nat)
    requires OneAtATime(s) && j < |s.closes.calls| && k < |s.closes.calls| && j != k
    requires !s.closes.calls[k].stage.Returned?
    ensures s.closes.calls[j].stage.Returned?
  {
  }

  lemma StartSole(s: Session, code: nat, message: seq<Byte>)
    requires ClosesOk(s) && SoleAnnouncer(s) && OneAtATime(CloseStart(s, code, message))
    ensures SoleAnnouncer(CloseStart(s, code, message))
  {
    var s' := CloseStart(s, code, message);
    if s' != s && s.closes.first.Some? {
      OthersReturned(s', s.closes.first.value, |s.closes.calls|);
    }
  }

  lemma AnnounceSole(s: Session, k: nat, ok: bool)
    requires ClosesOk(s) && SoleAnnouncer(s) && OneAtATime(s)
    ensures SoleAnnouncer(CloseAnnounce(s, k, ok).0)
  {
    var s' := CloseAnnounce(s, k, ok).0;
    if CallAt(s, k, Tested) {
      forall j | 0 <= j < |s.closes.calls| && j != k ensures s'.closes.calls[j].stage.Returned? {
        OthersReturned(s, j, k);
      }
    }
  }

  lemma RecordSole(s: Session, k: nat)
    requires ClosesOk(s) && SoleAnnouncer(s)
    ensures SoleAnnouncer(CloseRecord(s, k)) && SoleAnnouncer(CloseReturn(s, k))
  {
  }

  lemma EventSole(s: Session, e: Event)
    requires ClosesOk(s) && SoleAnnouncer(s) && OneAtATime(s) && OneAtATime(Step(s, e).0)
    ensures SoleAnnouncer(Step(s, e).0)
  {
    if e.CloseStartCall? {
      StartSole(s, e.code, e.message);
    } else if e.CloseAnnounceCall? {
      AnnounceSole(s, e.k, e.ok);
    } else if e.CloseRecordCall? || e.CloseReturnCall? {
      RecordSole(s, e.k);
    } else if !e.Incoming? {
      OtherCallCloses(s, e);
    } else if CanRead(s, e.c) {
      HandleCloses(s, e.c, e.doneWins);
    }
  }

  lemma {:induction false} SerialRun(w: System, actions: seq<Action>, atServer: bool)
    requires ClosingOk(w) && SoleAnnouncer(At(w, atServer).sess)
    requires forall i :: 0 <= i <= |actions| ==> OneAtATime(At(RunSystem(w, actions[..i]), atServer).sess)
    ensures SoleAnnouncer(At(RunSystem(w, actions), atServer).sess)
    decreases |actions|
  {
    if actions != [] {
      var a, rest := actions[0], actions[1..];
      var w1 := Act(w, a);
      ActCloses(w, a);
      assert actions[..0] == [] && actions[..1] == [a] && [a][1..] == [];
      assert RunSystem(w, [a]) == RunSystem(w1, []);
      assert OneAtATime(At(w, atServer).sess) && OneAtATime(At(w1, atServer).sess);
      if a.atServer == atServer && a.Call? && !a.e.Incoming? {
        EventSole(At(w, atServer).sess, a.e);
      } else if a.atServer == atServer && a.ReadNext? {
        var ch := At(w, !atServer).out;
        if ch != [] {
          EventSole(At(w, atServer).sess, Incoming(ch[0], a.doneWins));
        }
      }
      forall i | 0 <= i <= |rest| ensures OneAtATime(At(RunSystem(w1, rest[..i]), atServer).sess) {
        assert actions[..i + 1][1..] == rest[..i];
      }
      SerialRun(w1, rest, atServer);
    }
  }

  /** If the side that closes never has two calls in progress at once, the two
      sides agree on the error, as soon as the call is past `setCloseErr` and
      unless the read loop set an error before it. */
  lemma {:induction false} SerialCallsAgree(client: Setup, server: Setup, actions: seq<Action>, atServer: bool)
    requires forall i :: 0 <= i <= |actions| ==>
               OneAtATime(At(RunSystem(NewSystem(client, server), actions[..i]), !atServer).sess)
    ensures var w := RunSystem(NewSystem(client, server), actions);
            var mine, other := At(w, atServer).sess, At(w, !atServer).sess;
            mine.closeErr.Some? && mine.closeErr.value.Application? && mine.closeErr.value.remote ==>
              var cl := other.closes;
              && cl.first.Some? && cl.first.value < |cl.calls|
              && (!cl.calls[cl.first.value].stage.Announced? && cl.setter != Some(ReadLoop) ==>
                    other.closeErr == Some(mine.closeErr.value.(remote := false)))
  {
    RunCloses(NewSystem(client, server), actions);
    SerialRun(NewSystem(client, server), actions, !atServer);
  }

  /** What a call of CloseWithError says. */
  datatype Words = Words(code: nat, message: seq<Byte>) {
    predicate Valid() {
      code < 0x1_0000_0000 && |message| <= MAX_CLOSE_MESSAGE
    }

    function Capsule(): Capsule {
      CloseSession(code, message)
    }
  }

  /** Two calls that overlap at the server: both pass the test of `stop`, the first
      announces first, the second comes to `setCloseErr` first. */
  function Race(a: Words, b: Words): seq<Action> {
    [Call(false, LoopTest)] + RaceCalls(a, b, [ReadNext(false, false)])
  }

  function RaceCalls(a: Words, b: Words, rest: seq<Action>): seq<Action> {
    [Call(true, CloseStartCall(a.code, a.message))] + ([Call(true, CloseStartCall(b.code, b.message))]
    + ([Call(true, CloseAnnounceCall(0, true))] + ([Call(true, CloseAnnounceCall(1, true))]
    + ([Call(true, CloseRecordCall(1))] + rest))))
  }

  /** The calls of the race at the server's session. */
  lemma RaceAtServer(s: Session, a: Words, b: Words)
    requires s.closes == Closes([], None, None) && s.closeErr.None? && !s.stop && a.Valid() && b.Valid()
    ensures var s2 := CloseStart(CloseStart(s, a.code, a.message), b.code, b.message);
            var (s3, out3) := CloseAnnounce(s2, 0, true);
            var (s4, out4) := CloseAnnounce(s3, 1, true);
            && out3 == [a.Capsule()] && out4 == [b.Capsule()]
            && CloseRecord(s4, 1).closeErr == Some(Application(b.code, b.message, false))
  {
    var s2 := CloseStart(CloseStart(s, a.code, a.message), b.code, b.message);
    assert s2.closes.calls == [Closer(a.code, a.message, Tested), Closer(b.code, b.message, Tested)];
    var s3 := CloseAnnounce(s2, 0, true).0;
    assert s3.closes.calls == [Closer(a.code, a.message, Announced), Closer(b.code, b.message, Tested)];
    var s4 := CloseAnnounce(s3, 1, true).0;
    assert s4.closes.calls == [Closer(a.code, a.message, Announced), Closer(b.code, b.message, Announced)];
  }

  /** A call at the server, in a run. */
  lemma {:induction false} ServerCall(w: System, e: Event, out: seq<Capsule>, rest: seq<Action>)
    requires !e.Incoming? && out == w.server.out + Step(w.server.sess, e).1
    ensures RunSystem(w, [Call(true, e)] + rest)
         == RunSystem(System(w.client, Side(Step(w.server.sess, e).0, out)), rest)
  {
    assert ([Call(true, e)] + rest)[1..] == rest;
  }

  /** The server's session after its part of the race. */
  function Raced(s: Session, a: Words, b: Words): Session {
    var s2 := CloseStart(CloseStart(s, a.code, a.message), b.code, b.message);
    CloseRecord(CloseAnnounce(CloseAnnounce(s2, 0, true).0, 1, true).0, 1)
  }

  lemma {:induction false} ServerRaces(w: System, a: Words, b: Words, rest: seq<Action>)
    requires w.server.sess.closes == Closes([], None, None) && w.server.sess.closeErr.None? && !w.server.sess.stop
    requires w.server.out == [] && a.Valid() && b.Valid()
    ensures var out := [a.Capsule(), b.Capsule()];
            var w' := System(w.client, Side(Raced(w.server.sess, a, b), out));
            RunSystem(w, RaceCalls(a, b, rest)) == RunSystem(w', rest)
  {
    var c, s := w.client, w.server.sess;
    RaceAtServer(s, a, b);
    var one, both := [a.Capsule()], [a.Capsule(), b.Capsule()];
    var startA, startB := CloseStartCall(a.code, a.message), CloseStartCall(b.code, b.message);
    var end := [Call(true, CloseRecordCall(1))] + rest;
    var last := [Call(true, CloseAnnounceCall(1, true))] + end;
    var mid := [Call(true, CloseAnnounceCall(0, true))] + last;
    ServerCall(w, startA, [], [Call(true, startB)] + mid);
    var s1 := CloseStart(s, a.code, a.message);
    ServerCall(System(c, Side(s1, [])), startB, [], mid);
    var s2 := CloseStart(s1, b.code, b.message);
    ServerCall(System(c, Side(s2, [])), CloseAnnounceCall(0, true), one, last);
    var s3 := CloseAnnounce(s2, 0, true).0;
    ServerCall(System(c, Side(s3, one)), CloseAnnounceCall(1, true), both, end);
    var s4 := CloseAnnounce(s3, 1, true).0;
    ServerCall(System(c, Side(s4, both)), CloseRecordCall(1), both, rest);
  }

  /** The client's two steps: it enters the parse, and later reads a capsule. */
  lemma {:induction false} ClientReads(w: System, rest: seq<Action>)
    requires w.client.sess.loop == Top && !w.client.sess.stop
    ensures RunSystem(w, [Call(false, LoopTest)] + rest)
         == RunSystem(w.(client := w.client.(sess := w.client.sess.(loop := Reading))), rest)
  {
    assert ([Call(false, LoopTest)] + rest)[1..] == rest;
    assert w.client.out + [] == w.client.out;
  }

  lemma {:induction false} ClientEnds(w: System, a: Words)
    requires w.client.sess.loop == Reading && w.client.sess.closeErr.None?
    requires w.server.out != [] && w.server.out[0] == a.Capsule()
    ensures var w' := RunSystem(w, [ReadNext(false, false)]);
            w'.client.sess.closeErr == Some(Application(a.code, a.message, true)) && w'.server.sess == w.server.sess
  {
    assert [ReadNext(false, false)][1..] == [];
    var w' := Act(w, ReadNext(false, false));
    assert RunSystem(w, [ReadNext(false, false)]) == RunSystem(w', []);
  }

  /** Calls that overlap can disagree, whatever they say: the client reports the
      first call's words, while the server's own error has the second call's and,
      being set, will never be another. */
  lemma {:induction false} RacingCallsDisagree(client: Setup, server: Setup, a: Words, b: Words)
    requires a.Valid() && b.Valid() && a != b
    ensures var w := RunSystem(NewSystem(client, server), Race(a, b));
            && w.client.sess.closeErr == Some(Application(a.code, a.message, true))
            && w.server.sess.closeErr == Some(Application(b.code, b.message, false))
            && w.server.sess.closeErr != Some(w.client.sess.closeErr.value.(remote := false))
  {
    var w0 := NewSystem(client, server);
    var w1 := w0.(client := w0.client.(sess := w0.client.sess.(loop := Reading)));
    ClientReads(w0, RaceCalls(a, b, [ReadNext(false, false)]));
    RaceAtServer(w0.server.sess, a, b);
    ServerRaces(w1, a, b, [ReadNext(false, false)]);
    ClientEnds(System(w1.client, Side(Raced(w0.server.sess, a, b), [a.Capsule(), b.Capsule()])), a);
  }

  // ---------- the last capsules ----------

  /** The read loop will take no further capsule: it has returned, or it will
      find `stop` set when it tests it. */
  predicate Deaf(s: Session) {
    s.loop == Ended || (s.stop && s.loop == Top)
  }

  lemma DeafStep(s: Session, e: Event, what: Grant)
    requires Deaf(s)
    ensures var s' := Step(s, e).0;
            Deaf(s') && (s.loop == Ended ==> s'.loop == Ended) && Current(s'.limits, what) == Current(s.limits, what)
  {
    if e.OpenCall? {
      OtherOpsKeepCurrent(s.limits, 0, 0, e.bidi, what);
    } else if e.WriteCall? {
      OtherOpsKeepCurrent(s.limits, e.id, |e.p|, true, what);
      OtherOpsKeepCurrent(Reserve(s.limits, e.id, |e.p|), e.id, |e.p|, true, what);
    } else if Quiet(e) {
      QuietStep(s, e);
    }
  }

  lemma {:induction false} DeafRun(s: Session, es: seq<Event>, what: Grant)
    requires Deaf(s)
    ensures var s' := RunEvents(s, es);
            Deaf(s') && (s.loop == Ended ==> s'.loop == Ended) && Current(s'.limits, what) == Current(s.limits, what)
    decreases |es|
  {
    if es != [] {
      DeafStep(s, es[0], what);
      DeafRun(Step(s, es[0]).0, es[1..], what);
    }
  }

  /** A decreasing grant, or a stream count above 2^60, ends the read loop with a
      flow-control error, unless the session had an error already; and nothing
      that happens afterwards, in any run, moves a limit. */
  lemma {:induction false} RefusedGrantEndsLoop(s: Session, g: Grant, doneWins: bool, es: seq<Event>, what: Grant)
    requires s.loop == Reading && GrantRefused(s.limits, g)
    ensures var s1 := Step(s, Incoming(Limit(g), doneWins)).0;
            && s1.loop == Ended && RunEvents(s1, es).loop == Ended
            && s1.closeErr == (if s.closeErr.None? then Some(FlowControl) else s.closeErr)
            && Current(RunEvents(s1, es).limits, what) == Current(s.limits, what)
  {
    RaiseCurrent(s.limits, g, what);
    DeafRun(Step(s, Incoming(Limit(g), doneWins)).0, es, what);
  }

  /** After Close the read loop takes at most the capsule it is inside of: that
      one may still move a limit, and nothing after it. */
  lemma {:induction false} OneCapsuleAfterClose(s: Session, c: Capsule, doneWins: bool, es: seq<Event>, what: Grant)
    requires s.stop && CanRead(s, c)
    ensures var s1 := Step(s, Incoming(c, doneWins)).0;
            Deaf(RunEvents(s1, es)) && Current(RunEvents(s1, es).limits, what) == Current(s1.limits, what)
  {
    HandleCloses(s, c, doneWins);
    DeafRun(Step(s, Incoming(c, doneWins)).0, es, what);
  }
}
