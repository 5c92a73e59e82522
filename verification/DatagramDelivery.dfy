/** Datagrams from one endpoint to the other: a session's datagram buffer sees the
    DATAGRAM capsules that its read loop reads, and a close when the session
    stops; what is returned comes from what was sent, in order. */
module DatagramDelivery {
  import opened SendLimits
  import opened Varints
  import opened Capsules
  import opened Endpoint
  import opened Rows
  import opened Demux
  import opened Delivery
  import DatagramBuffer

  // ---------- one session ----------

  /** What an event does to the datagram buffer: a capsule that is read is written
      to it, a first stop closes it, and the reader's own steps are the reader's. */
  function StepsOf(s: Session, e: Event): seq<DatagramBuffer.Event> {
    if e.Incoming? && e.c.Datagram? && CanRead(s, e.c) then [DatagramBuffer.WriteStep(e.c.payload)]
    else if !s.stop && Step(s, e).0.stop then [DatagramBuffer.CloseStep]
    else if e.DatagramRead? && ReaderStep(e.d) then [e.d]
    else []
  }

  function DatagramSteps(s: Session, es: seq<Event>): seq<DatagramBuffer.Event>
    decreases |es|
  {
    if es == [] then [] else StepsOf(s, es[0]) + DatagramSteps(Step(s, es[0]).0, es[1..])
  }

  /** A stopped session's buffer is closed, and no other is. */
  predicate ClosedWhenStopped(s: Session) {
    s.stop <==> s.datagrams.buf.closed
  }

  lemma RunOne(w: DatagramBuffer.World, e: DatagramBuffer.Event)
    ensures DatagramBuffer.Run(w, [e]) == DatagramBuffer.Step(w, e)
  {
    assert [e][1..] == [];
  }

  lemma {:induction false} RunConcat(w: DatagramBuffer.World, a: seq<DatagramBuffer.Event>,
                                     b: seq<DatagramBuffer.Event>)
    ensures DatagramBuffer.Run(w, a + b) == DatagramBuffer.Run(DatagramBuffer.Run(w, a), b)
    decreases |a|
  {
    if a == [] {
      assert a + b == b;
    } else {
      assert (a + b)[1..] == a[1..] + b;
      RunConcat(DatagramBuffer.Step(w, a[0]), a[1..], b);
    }
  }

  lemma CloseTwice(w: DatagramBuffer.World)
    requires w.buf.closed
    ensures DatagramBuffer.Step(w, DatagramBuffer.CloseStep) == w
  {
  }

  /** Stream data and control capsules leave the datagrams alone. */
  lemma CapsuleDatagrams(s: Session, c: Capsule, doneWins: bool)
    requires s.loop != Ended && !c.Datagram?
    ensures var s' := Handle(s, c, doneWins); s'.datagrams == s.datagrams && s'.stop == s.stop
  {
    if c.Stream? {
      HandleStreamTables(s, c.id, c.payload, c.fin, doneWins);
    }
  }

  /** Of the calls, only those that stop the session and the reader touch them. */
  lemma CallDatagrams(s: Session, e: Event)
    requires !e.Incoming? && !e.DatagramRead?
    ensures var s' := Step(s, e).0;
            || (s'.datagrams == s.datagrams && s'.stop == s.stop)
            || (s'.stop && s'.datagrams == DatagramBuffer.Step(s.datagrams, DatagramBuffer.CloseStep))
  {
    if !Quiet(e) {
      match e
      case OpenCall(_, _) =>
      case WriteCall(_, _, _) =>
      case CloseSendCall(_, _) =>
      case ReadCall(_, _) =>
      case CloseRecvCall(_) =>
    }
  }

  lemma {:induction false} StepDatagrams(s: Session, e: Event)
    requires ClosedWhenStopped(s)
    ensures var s' := Step(s, e).0;
            ClosedWhenStopped(s') && s'.datagrams == DatagramBuffer.Run(s.datagrams, StepsOf(s, e))
  {
    if StepsOf(s, e) != [] {
      RunOne(s.datagrams, StepsOf(s, e)[0]);
    }
    if e.Incoming? {
      if CanRead(s, e.c) && !e.c.Datagram? {
        CapsuleDatagrams(s, e.c, e.doneWins);
      }
    } else if !e.DatagramRead? {
      CallDatagrams(s, e);
      if s.stop {
        CloseTwice(s.datagrams);
      }
    }
  }

  /** After any run, a session's datagrams are what its datagram buffer makes of the
      capsules read, the reader's steps and the first stop: so all that is proved
      of the buffer, its order, its bound and its wake-ups, holds of the session. */
  lemma {:induction false} SessionDatagrams(s: Session, es: seq<Event>)
    requires ClosedWhenStopped(s)
    ensures RunEvents(s, es).datagrams == DatagramBuffer.Run(s.datagrams, DatagramSteps(s, es))
    ensures ClosedWhenStopped(RunEvents(s, es))
    decreases |es|
  {
    if es != [] {
      var s1 := Step(s, es[0]).0;
      StepDatagrams(s, es[0]);
      SessionDatagrams(s1, es[1..]);
      RunConcat(s.datagrams, StepsOf(s, es[0]), DatagramSteps(s1, es[1..]));
    }
  }

  /** For a new session that is the buffer of the size it was set up with, and so a
      bounded FIFO whose byte count is exact. */
  lemma {:induction false} NewSessionDatagrams(isServer: bool, peer: Option<PeerLimits>, bufferSize: int,
                                               datagramSize: int, es: seq<Event>)
    ensures var s0 := NewSession(isServer, peer, bufferSize, datagramSize);
            var d := RunEvents(s0, es).datagrams;
            && d == DatagramBuffer.Run(DatagramBuffer.Start(datagramSize), DatagramSteps(s0, es))
            && d.returned + d.buf.queue == d.accepted && d.buf.bufferedBytes == DatagramBuffer.Sizes(d.buf.queue)
            && (datagramSize > 0 ==> d.buf.bufferedBytes <= datagramSize)
            && d.buf.maxBytes == datagramSize
  {
    var s0 := NewSession(isServer, peer, bufferSize, datagramSize);
    SessionDatagrams(s0, es);
    DatagramBuffer.DatagramsAreBoundedFifo(datagramSize, DatagramSteps(s0, es));
    DatagramBuffer.SoundRun(DatagramBuffer.Start(datagramSize), DatagramSteps(s0, es));
  }

  // ---------- subsequences ----------

  /** `a` is `b` with messages left out. */
  predicate Within(a: seq<seq<Byte>>, b: seq<seq<Byte>>)
    decreases |b|
  {
    a == [] || (b != [] && (Within(a, b[1..]) || (a[0] == b[0] && Within(a[1..], b[1..]))))
  }

  lemma {:induction false} WithinAppend(a: seq<seq<Byte>>, b: seq<seq<Byte>>, p: seq<Byte>)
    requires Within(a, b)
    ensures Within(a + [p], b + [p]) && Within(a, b + [p])
    decreases |b|
  {
    if b == [] {
      assert a + [p] == [p] && b + [p] == [p];
      assert [p][1..] == [];
    } else {
      assert (b + [p])[1..] == b[1..] + [p] && (b + [p])[0] == b[0];
      if a == [] {
        WithinAppend(a, b[1..], p);
      } else if Within(a, b[1..]) {
        WithinAppend(a, b[1..], p);
      } else {
        WithinAppend(a[1..], b[1..], p);
        assert (a + [p])[1..] == a[1..] + [p];
      }
    }
  }

  lemma {:induction false} WithinRest(a: seq<seq<Byte>>, b: seq<seq<Byte>>)
    requires a != [] && Within(a, b)
    ensures Within(a[1..], b)
    decreases |b|
  {
    if Within(a, b[1..]) {
      WithinRest(a, b[1..]);
    } else {
      WithinLonger(a[1..], b);
    }
  }

  lemma WithinLonger(a: seq<seq<Byte>>, b: seq<seq<Byte>>)
    requires b != [] && Within(a, b[1..])
    ensures Within(a, b)
  {
  }

  /** Leaving out one more message. */
  lemma {:induction false} WithinWithout(a: seq<seq<Byte>>, p: seq<Byte>, c: seq<seq<Byte>>, b: seq<seq<Byte>>)
    requires Within(a + [p] + c, b)
    ensures Within(a + c, b)
    decreases |b|
  {
    var all := a + [p] + c;
    if a == [] {
      WithinRest(all, b);
      assert all[1..] == a + c;
    } else if Within(all, b[1..]) {
      WithinWithout(a, p, c, b[1..]);
      WithinLonger(a + c, b);
    } else {
      assert all[1..] == a[1..] + [p] + c;
      WithinWithout(a[1..], p, c, b[1..]);
      assert (a + c)[1..] == a[1..] + c && (a + c)[0] == a[0] == all[0];
    }
  }

  lemma {:induction false} WithinPrefix(a: seq<seq<Byte>>, c: seq<seq<Byte>>, b: seq<seq<Byte>>)
    requires Within(a + c, b)
    ensures Within(a, b)
    decreases |c|
  {
    if c == [] {
      assert a + c == a;
    } else {
      assert a + c == a + [c[0]] + c[1..];
      WithinWithout(a, c[0], c[1..], b);
      WithinPrefix(a, c[1..], b);
    }
  }

  // ---------- two sessions ----------

  /** The payloads of the DATAGRAM capsules in a channel. */
  function Payloads(ch: seq<Capsule>): seq<seq<Byte>> {
    if ch == [] then [] else (if ch[0].Datagram? then [ch[0].payload] else []) + Payloads(ch[1..])
  }

  lemma {:induction false} PayloadsConcat(a: seq<Capsule>, b: seq<Capsule>)
    ensures Payloads(a + b) == Payloads(a) + Payloads(b)
  {
    if a == [] {
      assert a + b == b;
    } else {
      assert (a + b)[1..] == a[1..] + b;
      PayloadsConcat(a[1..], b);
    }
  }

  lemma PayloadsOne(c: Capsule)
    ensures Payloads([c]) == if c.Datagram? then [c.payload] else []
  {
    assert [c][1..] == [];
  }

  /** What `y` accepted and what is on its way to it was sent by `x`, in order; and
      a session that runs, with a buffer that has no bound, loses none. */
  ghost predicate Carried(x: Session, ch: seq<Capsule>, y: Session) {
    && ClosedWhenStopped(y) && DatagramBuffer.Sound(y.datagrams)
    && Within(y.datagrams.accepted + Payloads(ch), x.sentDatagrams)
    && (Alive(y) && !y.stop && y.datagrams.buf.maxBytes <= 0 ==>
          y.datagrams.accepted + Payloads(ch) == x.sentDatagrams)
  }

  /** What a call may write about datagrams, and what it does to its own. */
  lemma CallCarries(x: Session, e: Event)
    requires !e.Incoming?
    ensures var (x', out) := Step(x, e);
            && x'.sentDatagrams == x.sentDatagrams + Payloads(out) && |Payloads(out)| <= 1
            && (Alive(x') ==> Alive(x)) && (!x'.stop ==> !x.stop)
            && x'.datagrams.accepted == x.datagrams.accepted && x'.datagrams.buf.maxBytes == x.datagrams.buf.maxBytes
  {
    var out := Step(x, e).1;
    if out != [] {
      assert |out| == 1 && out == [out[0]] by { CallWritesOne(x, e); }
      PayloadsOne(out[0]);
    }
    LoopOnlyEnds(x, e);
    if !Quiet(e) {
      match e
      case OpenCall(_, _) =>
      case WriteCall(_, _, _) =>
      case CloseSendCall(_, _) =>
      case ReadCall(_, _) =>
      case CloseRecvCall(_) =>
    }
  }

  lemma CallWritesOne(x: Session, e: Event)
    requires !e.Incoming?
    ensures |Step(x, e).1| <= 1
  {
    if !Quiet(e) {
      match e
      case OpenCall(_, _) =>
      case WriteCall(_, _, _) =>
      case CloseSendCall(_, _) =>
      case ReadCall(_, _) =>
      case CloseRecvCall(_) =>
    }
  }

  lemma {:induction false} SentCarries(x: Session, chX: seq<Capsule>, y: Session, x': Session, out: seq<Capsule>)
    requires Carried(x, chX, y) && |Payloads(out)| <= 1 && x'.sentDatagrams == x.sentDatagrams + Payloads(out)
    ensures Carried(x', chX + out, y)
  {
    PayloadsConcat(chX, out);
    var acc, pay := y.datagrams.accepted + Payloads(chX), Payloads(out);
    if pay == [] {
      assert Payloads(chX) + pay == Payloads(chX) && x.sentDatagrams + pay == x.sentDatagrams;
    } else {
      assert pay == [pay[0]];
      WithinAppend(acc, x.sentDatagrams, pay[0]);
      assert y.datagrams.accepted + (Payloads(chX) + pay) == acc + [pay[0]];
    }
  }

  lemma {:induction false} CallKeepsCarried(x: Session, chX: seq<Capsule>, y: Session, chY: seq<Capsule>, e: Event)
    requires !e.Incoming? && Carried(x, chX, y) && Carried(y, chY, x)
    ensures var (x', out) := Step(x, e); Carried(x', chX + out, y) && Carried(y, chY, x')
  {
    var (x', out) := Step(x, e);
    CallCarries(x, e);
    SentCarries(x, chX, y, x', out);
    StepDatagrams(x, e);
    DatagramBuffer.SoundRun(x.datagrams, StepsOf(x, e));
  }

  /** A capsule that is read: a datagram is accepted or dropped. */
  lemma {:induction false} ReadKeepsCarried(y: Session, chY: seq<Capsule>, x: Session, chX: seq<Capsule>,
                                            doneWins: bool)
    requires chX != [] && CanRead(y, chX[0]) && Carried(x, chX, y) && Carried(y, chY, x)
    ensures var y' := Step(y, Incoming(chX[0], doneWins)).0;
            Carried(x, chX[1..], y') && Carried(y', chY, x)
  {
    var c, e := chX[0], Incoming(chX[0], doneWins);
    var y' := Step(y, e).0;
    StepDatagrams(y, e);
    DatagramBuffer.SoundRun(y.datagrams, StepsOf(y, e));
    ReadSends(y, c, doneWins);
    if c.Datagram? {
      RunOne(y.datagrams, DatagramBuffer.WriteStep(c.payload));
      var acc, rest := y.datagrams.accepted, Payloads(chX[1..]);
      assert acc + Payloads(chX) == acc + [c.payload] + rest;
      WithinWithout(acc, c.payload, rest, x.sentDatagrams);
    } else {
      CapsuleDatagrams(y, c, doneWins);
      assert Payloads(chX) == Payloads(chX[1..]);
    }
  }

  lemma ReadSends(y: Session, c: Capsule, doneWins: bool)
    requires CanRead(y, c)
    ensures Step(y, Incoming(c, doneWins)).0.sentDatagrams == y.sentDatagrams
    ensures Step(y, Incoming(c, doneWins)).0.stop == y.stop
  {
    if c.Stream? {
      HandleStreamTables(y, c.id, c.payload, c.fin, doneWins);
      StreamSends(y, c.id, c.payload, c.fin, doneWins);
    }
  }

  lemma StreamSends(s: Session, id: nat, payload: seq<Byte>, fin: bool, doneWins: bool)
    ensures HandleStream(s, id, payload, fin, doneWins).sentDatagrams == s.sentDatagrams
  {
  }

  ghost predicate BothCarried(w: System) {
    && Carried(w.client.sess, w.client.out, w.server.sess)
    && Carried(w.server.sess, w.server.out, w.client.sess)
  }

  predicate SameBounds(w: System, w': System) {
    && w'.client.sess.datagrams.buf.maxBytes == w.client.sess.datagrams.buf.maxBytes
    && w'.server.sess.datagrams.buf.maxBytes == w.server.sess.datagrams.buf.maxBytes
  }

  lemma {:induction false} ActCarries(w: System, a: Action)
    requires BothCarried(w)
    ensures BothCarried(Act(w, a)) && SameBounds(w, Act(w, a))
  {
    var mine, other := At(w, a.atServer), At(w, !a.atServer);
    match a
    case Call(_, e) =>
      if !e.Incoming? {
        CallKeepsCarried(mine.sess, mine.out, other.sess, other.out, e);
        CallCarries(mine.sess, e);
      }
    case ReadNext(_, doneWins) =>
      if other.out != [] && CanRead(mine.sess, other.out[0]) {
        ReadKeepsCarried(mine.sess, mine.out, other.sess, other.out, doneWins);
        var e := Incoming(other.out[0], doneWins);
        StepDatagrams(mine.sess, e);
        DatagramBuffer.SoundRun(mine.sess.datagrams, StepsOf(mine.sess, e));
      }
    case Issue(_, g) =>
      PayloadsConcat(mine.out, [Limit(g)]);
      PayloadsOne(Limit(g));
      assert Payloads(mine.out) + [] == Payloads(mine.out);
  }

  lemma {:induction false} RunCarries(w: System, actions: seq<Action>)
    requires BothCarried(w)
    ensures BothCarried(RunSystem(w, actions)) && SameBounds(w, RunSystem(w, actions))
    decreases |actions|
  {
    if actions != [] {
      ActCarries(w, actions[0]);
      RunCarries(Act(w, actions[0]), actions[1..]);
    }
  }

  /** In every run of two endpoints the datagrams returned to a reader are a part of
      those that the other side sent, in the same order; those returned, queued
      and on their way are such a part too, and are all of them as long as the
      reader's session runs and its buffer has no bound. */
  lemma {:induction false} DatagramsInOrder(client: Setup, server: Setup, actions: seq<Action>, readerIsServer: bool)
    ensures var w := RunSystem(NewSystem(client, server), actions);
            var reader, writer := At(w, readerIsServer).sess, At(w, !readerIsServer);
            var got := reader.datagrams.returned + reader.datagrams.buf.queue + Payloads(writer.out);
            && Within(reader.datagrams.returned, writer.sess.sentDatagrams)
            && Within(got, writer.sess.sentDatagrams)
            && (Alive(reader) && !reader.stop && (if readerIsServer then server else client).datagramSize <= 0 ==>
                  got == writer.sess.sentDatagrams)
  {
    var w := RunSystem(NewSystem(client, server), actions);
    RunCarries(NewSystem(client, server), actions);
    var reader, writer := At(w, readerIsServer).sess, At(w, !readerIsServer);
    assert Carried(writer.sess, writer.out, reader);
    var d := reader.datagrams;
    assert d.returned + (d.buf.queue + Payloads(writer.out)) == d.accepted + Payloads(writer.out);
    WithinPrefix(d.returned, d.buf.queue + Payloads(writer.out), writer.sess.sentDatagrams);
  }
}
