/** Timers: a tick acts exactly when the engine said it should be called. */
module Timers {
  import opened Basics
  import opened Timestamps
  import opened Packets
  import opened PriorityQueues
  import opened InflightQueues
  import opened EngineModel
  import opened EngineRuns
  import opened SessionBooks
  import opened SessionInvariant
  import opened Commands
  import opened Resumption
  import opened ConnectionControl
  import opened TimeRange

  // ----- Nothing is left undone between operations -----

  /** No waiting response can be sent or fails. */
  predicate FlushQuiet(c: Options, s: Engine) {
    !FlushReady(c, s) && FlushError(c, s).None?
  }

  /** Every operation leaves the output side with nothing it could do. */
  predicate Quiet(c: Options, s: Engine) {
    && FlushQuiet(c, s)
    && (s.link.connected ==> !ReplayReady(c, s) && (s.link.responses == [] && s.sess.replay == [] ==> !EmitReady(c, s)))
  }

  lemma QuietDoesNothing(c: Options, s: Engine)
    requires Quiet(c, s)
    ensures Flush(c, s) == s && ProcessQueue(c, s, None) == s
  {
  }

  /** Space only shrinks while output is added and the queue stays: what waited for space still waits. */
  ghost predicate Fuller(s: Engine, r: Engine) {
    && r.caps == s.caps && r.sess.queuedBytes == s.sess.queuedBytes && r.link.connecting == s.link.connecting
    && |s.link.out| <= |r.link.out| && TotalLength(s.link.out) <= TotalLength(r.link.out)
  }

  lemma StillFull(c: Options, s: Engine, r: Engine, p: Packet)
    requires Fuller(s, r) && EnqueueError(c, s, p) == Some(BufferFull)
    ensures EnqueueError(c, r, p) == Some(BufferFull)
  {
  }

  lemma EnqueueFuller(c: Options, s: Engine, p: Packet)
    requires EnqueueError(c, s, p).None?
    ensures Fuller(s, Enqueue(c, s, p))
  {
    TotalLengthAppend(s.link.out, [c.encode(p).value]);
    assert [c.encode(p).value][1..] == [];
  }

  lemma StillFlushQuiet(c: Options, s: Engine, r: Engine)
    requires FlushQuiet(c, s) && Fuller(s, r) && r.link.responses == s.link.responses
    ensures FlushQuiet(c, r)
  {
    if s.link.responses != [] { StillFull(c, s, r, s.link.responses[0]); }
  }

  /** Adding output, and tracking what does not use quota, keeps an engine quiet. */
  lemma StillQuiet(c: Options, s: Engine, r: Engine)
    requires Quiet(c, s) && Fuller(s, r) && r.link == s.link.(out := r.link.out) && r.sess.queue == s.sess.queue
        && r.sess.replay == s.sess.replay
    requires r.sess.inflight.quota == s.sess.inflight.quota && r.sess.inflight.limit == s.sess.inflight.limit
    ensures Quiet(c, r)
  {
    StillFlushQuiet(c, s, r);
    if s.sess.replay != [] && EnqueueError(c, s, s.sess.replay[0].packet) == Some(BufferFull) {
      StillFull(c, s, r, s.sess.replay[0].packet);
    }
  }

  lemma DownIsQuiet(c: Options, s: Engine)
    requires !s.link.connected && s.link.responses == []
    ensures Quiet(c, s)
  {
  }

  // ----- Processing ends quiet -----

  lemma {:induction false} FlushOutQuiet(c: Options, s: Engine)
    ensures !FlushReady(c, FlushOut(c, s))
    decreases |s.link.responses|
  {
    if FlushReady(c, s) { FlushOutQuiet(c, FlushOne(c, s)); }
  }

  lemma LostIsQuiet(c: Options, s: Engine, now: Time)
    ensures Quiet(c, ConnectionLost(c, s, now)) && Quiet(c, Reset(c, s)) && !ConnectionLost(c, s, now).link.connected
  {
    ResetPanel(c, s);
  }

  lemma FlushEndsQuiet(c: Options, s: Engine)
    ensures FlushQuiet(c, Flush(c, s))
  {
    FlushOutQuiet(c, s);
    var s1 := FlushOut(c, s);
    LostIsQuiet(c, s1, s1.clock.now);
  }

  lemma ReplayOneFuller(c: Options, s: Engine)
    requires ReplayReady(c, s)
    ensures
      var r := ReplayOne(c, s);
      && r.caps.(replayReserve := 0) == s.caps.(replayReserve := 0) && r.sess.queuedBytes == s.sess.queuedBytes
      && |s.link.out| <= |r.link.out| && TotalLength(s.link.out) <= TotalLength(r.link.out)
      && r.link == s.link.(out := r.link.out)
  {
    var h := s.sess.replay[0];
    if EnqueueError(c, s, h.packet).None? { EnqueueFuller(c, s, h.packet); }
  }

  /** The space set aside for replay does not decide about sending. */
  lemma ReserveIrrelevant(c: Options, s: Engine)
    requires FlushQuiet(c, s)
    ensures FlushQuiet(c, s.(caps := s.caps.(replayReserve := 0)))
  {
  }

  lemma ReplayOneFlushQuiet(c: Options, s: Engine)
    requires ReplayReady(c, s) && FlushQuiet(c, s)
    ensures FlushQuiet(c, ReplayOne(c, s))
  {
    ReplayOneFuller(c, s);
    var r := ReplayOne(c, s);
    var s0, r0 := s.(caps := s.caps.(replayReserve := 0)), r.(caps := r.caps.(replayReserve := 0));
    ReserveIrrelevant(c, s);
    StillFlushQuiet(c, s0, r0);
  }

  lemma {:induction false} ProcessReplayQuiet(c: Options, s: Engine)
    requires FlushQuiet(c, s)
    ensures FlushQuiet(c, ProcessReplay(c, s)) && !ReplayReady(c, ProcessReplay(c, s))
    decreases |s.sess.replay|
  {
    if ReplayReady(c, s) {
      ReplayOneFlushQuiet(c, s);
      ProcessReplayQuiet(c, ReplayOne(c, s));
    }
  }

  lemma {:induction false} EmitLoopQuiet(c: Options, s: Engine, encoding: Option<Bytes>)
    requires s.link.responses == [] && s.sess.replay == []
    ensures Quiet(c, EmitLoop(c, s, encoding))
    decreases |s.sess.queue|
  {
    if EmitReady(c, s) {
      EmitOnePanel(c, s, encoding);
      assert PanelOf(EmitOne(c, s, encoding)).quiet;
      EmitLoopQuiet(c, EmitOne(c, s, encoding), None);
    }
  }

  lemma ProcessQueueQuiet(c: Options, s: Engine, encoding: Option<Bytes>)
    requires s.link.connected || s.link.responses == []
    ensures Quiet(c, ProcessQueue(c, s, encoding))
  {
    if !s.link.connected {
      DownIsQuiet(c, s);
    } else {
      FlushEndsQuiet(c, s);
      var s1 := Flush(c, s);
      if s1.link.connected {
        ProcessReplayQuiet(c, s1);
        var s2 := ProcessReplay(c, s1);
        if s2.link.connected && s2.link.responses == [] && s2.sess.replay == [] { EmitLoopQuiet(c, s2, encoding); }
      }
    }
  }

  // ----- Every operation ends quiet -----

  lemma EnqueueQuiet(c: Options, s: Engine, p: Packet)
    requires Quiet(c, s) && EnqueueError(c, s, p).None?
    ensures Quiet(c, Enqueue(c, s, p))
  {
    EnqueueFuller(c, s, p);
    StillQuiet(c, s, Enqueue(c, s, p));
  }

  lemma DoPublishQuiet(c: Options, s: Engine, cmd: Command)
    requires Control(c, s) && Quiet(c, s)
    ensures Quiet(c, DoPublish(c, s, cmd).0)
  {
    var (s1, a) := Decide(c, s, cmd);
    DecideFacts(c, s, cmd);
    if a.Accepted? {
      AdmitPanel(s1, a.packet, cmd.priority, a.id, a.alias, a.bytes);
      var first := if s1.sess.queue == [] then Some(a.bytes) else None;
      ProcessQueueQuiet(c, Admit(s1, a.packet, cmd.priority, a.id, a.alias, a.bytes), first);
    }
  }

  lemma DoRequestOut(c: Options, s: Engine, kind: Kind, requested: Option<u16>, filters: seq<string>, refused: bool)
    ensures s.link.out <= DoRequest(c, s, kind, requested, filters, refused).0.link.out
  {
  }

  lemma RequestQuiet(c: Options, s: Engine, r: Engine, h: Held)
    requires Quiet(c, s) && RequestFrame(s, r) && !h.packet.Publish? && s.link.out <= r.link.out
    requires
      || r.sess == s.sess
      || (Push(LineOf(c), s.sess.inflight, h.id, h.packet, 1, None, s.clock.now).Ok?
        && r.sess == Requested(c, s.sess, h, s.clock.now))
    ensures Quiet(c, r)
  {
    assert r.link.out == s.link.out + r.link.out[|s.link.out|..];
    TotalLengthAppend(s.link.out, r.link.out[|s.link.out|..]);
    StillQuiet(c, s, r);
  }

  lemma DoRequestQuiet(c: Options, s: Engine, kind: Kind, requested: Option<u16>, filters: seq<string>, refused: bool)
    requires Quiet(c, s)
    ensures Quiet(c, DoRequest(c, s, kind, requested, filters, refused).0)
  {
    DoRequestSess(c, s, kind, requested, filters, refused);
    DoRequestOut(c, s, kind, requested, filters, refused);
    var r, id := DoRequest(c, s, kind, requested, filters, refused).0, CandidateId(s, requested).1;
    var key := if id.Ok? then id.value else 0;
    RequestQuiet(c, s, r, Held(key, RequestPacket(kind, key, filters)));
  }

  lemma IngestQuiet(c: Options, s: Engine, data: seq<Incoming>)
    requires Control(c, s) && Quiet(c, s)
    ensures Quiet(c, Ingest(c, s, data))
  {
    if !s.link.closed {
      var s0 := s.(link := s.link.(parser := s.link.parser + data));
      assert PanelOf(s0) == PanelOf(s);
      FlushControl(c, s0);
      ParseLoopControl(c, Flush(c, s0));
      ProcessQueueQuiet(c, ParseLoop(c, Flush(c, s0)), None);
    }
  }

  lemma RefillQuiet(c: Options, s: Engine)
    requires Control(c, s)
    ensures Quiet(c, Refill(c, s)) && Control(c, Refill(c, s))
  {
    RefillControl(c, s);
    var s0 := s.(link := s.link.(out := []));
    assert PanelOf(s0) == PanelOf(s);
    FlushControl(c, s0);
    IngestControl(c, Flush(c, s0), []);
    ProcessQueueQuiet(c, Ingest(c, Flush(c, s0), []), None);
  }

  lemma {:induction false} TakeOutputQuiet(c: Options, s: Engine)
    requires Control(c, s)
    ensures Quiet(c, TakeOutput(c, s).0)
    decreases Potential(s) - |s.link.out|
  {
    RefillQuiet(c, s);
    RefillPotential(c, s);
    if Refill(c, s).link.out != [] { TakeOutputQuiet(c, Refill(c, s)); }
  }

  lemma ResendOneQuiet(c: Options, s: Engine, x: Resend)
    requires Quiet(c, s)
    ensures Quiet(c, ResendOne(c, s, x))
  {
    var p := SetDup(x.packet);
    if c.encode(p).Some? && x.stream.None? && EnqueueError(c, s, p).None? { EnqueueQuiet(c, s, p); }
  }

  lemma {:induction false} ResendAllQuiet(c: Options, s: Engine, xs: seq<Resend>)
    requires Quiet(c, s)
    ensures Quiet(c, ResendAll(c, s, xs))
    decreases xs
  {
    if xs == [] {
    } else {
      ResendOneQuiet(c, s, xs[0]);
      ResendAllQuiet(c, ResendOne(c, s, xs[0]), xs[1..]);
    }
  }

  lemma DoTickQuiet(c: Options, s: Engine)
    requires Control(c, s)
    ensures Quiet(c, DoTick(c, s).0)
  {
    var due := DueDeadlines(s.clock.deadlines, s.clock.now);
    ExpireAllControl(c, s, due);
    FlushControl(c, ExpireAll(c, s, due));
    var s1 := Flush(c, ExpireAll(c, s, due));
    if s1.link.connected { TickConnectedQuiet(c, s1); }
  }

  lemma TickAliveQuiet(c: Options, s: Engine)
    requires s.link.connected
    ensures Quiet(c, Retransmissions(c, ProcessQueue(c, s, None)))
  {
    ProcessQueueQuiet(c, s, None);
    RetransmissionsQuiet(c, ProcessQueue(c, s, None));
  }

  lemma PingKeepsLink(c: Options, s: Engine)
    ensures DoPing(c, s).0.link.connected == s.link.connected
  {
  }

  lemma GivingUpQuiet(c: Options, s: Engine, es: seq<Event>)
    ensures Quiet(c, ConnectionLost(c, s, s.clock.now).(events := es))
  {
    LostIsQuiet(c, s, s.clock.now);
    ResetPanel(c, s);
  }

  lemma TickConnectedQuiet(c: Options, s: Engine)
    requires s.link.connected
    ensures Quiet(c, TickConnected(c, s).0)
  {
    if PingOverdue(c, s) {
      GivingUpQuiet(c, s, ConnectionLost(c, s, s.clock.now).events + [Disconnected]);
    } else if PingDue(c, s) {
      PingKeepsLink(c, s);
      TickAliveQuiet(c, DoPing(c, s).0);
    } else {
      TickAliveQuiet(c, s);
    }
  }

  lemma RetransmissionsQuiet(c: Options, s: Engine)
    requires Quiet(c, s)
    ensures Quiet(c, Retransmissions(c, s))
  {
    var s1 := s.(sess := s.sess.(inflight := Expired(LineOf(c), s.sess.inflight, s.clock.now)));
    StillQuiet(c, s, s1);
    ResendAllQuiet(c, s1, DueResends(s.sess.inflight, s.clock.now));
  }

  lemma DoConnectQuiet(c: Options, s: Engine)
    requires Control(c, s) && Quiet(c, s)
    ensures Quiet(c, DoConnect(c, s).0)
  {
  }

  lemma DoDisconnectQuiet(c: Options, s: Engine, reason: nat)
    requires Quiet(c, s)
    ensures Quiet(c, DoDisconnect(c, s, reason).0)
  {
  }

  /** Handing over events, and planning reconnection, has nothing to do with output. */
  lemma SetReconnectQuiet(c: Options, s: Engine, enabled: bool)
    requires Quiet(c, s)
    ensures Quiet(c, SetReconnect(s, enabled)) && Quiet(c, ScheduleReconnect(c, s, s.clock.now))
  {
  }

  lemma EventsQuiet(c: Options, s: Engine)
    requires Quiet(c, s)
    ensures Quiet(c, s.(events := []))
  {
  }

  lemma DoAuthQuiet(c: Options, s: Engine, reason: nat, methods: seq<string>)
    requires Quiet(c, s)
    ensures Quiet(c, DoAuth(c, s, reason, methods).0)
  {
    if AuthError(c, s, reason, methods).None? { EnqueueQuiet(c, s, Auth(reason, AuthMethods(c, methods))); }
  }

  lemma DoPingQuiet(c: Options, s: Engine)
    requires Quiet(c, s)
    ensures Quiet(c, DoPing(c, s).0)
  {
    if EnqueueError(c, s, PingReq).None? { EnqueueQuiet(c, s, PingReq); }
  }

  lemma DoEnqueueQuiet(c: Options, s: Engine, p: Packet)
    requires Quiet(c, s)
    ensures Quiet(c, DoEnqueue(c, s, p).0)
  {
    if EnqueueError(c, s, p).None? { EnqueueQuiet(c, s, p); }
  }

  lemma LocalQuiet(c: Options, s: Engine, i: Input)
    requires Quiet(c, s) && IsLocal(i)
    ensures Quiet(c, ApplyLocal(c, s, i))
  {
    match i
    case AuthInput(reason, methods) => DoAuthQuiet(c, s, reason, methods);
    case PingInput => DoPingQuiet(c, s);
    case PacketInput(packet) => DoEnqueueQuiet(c, s, packet);
    case ScheduleInput => SetReconnectQuiet(c, s, true);
    case DisconnectInput(reason) => DoDisconnectQuiet(c, s, reason);
    case ReconnectInput(enabled) => SetReconnectQuiet(c, s, enabled);
    case EventsInput => EventsQuiet(c, s);
  }

  lemma ApplyQuiet(c: Options, s: Engine, i: Input)
    requires Control(c, s) && Quiet(c, s)
    ensures Quiet(c, Apply(c, s, i))
  {
    match i
    case ConnectInput => DoConnectQuiet(c, s);
    case PublishInput(cmd) => DoPublishQuiet(c, s, cmd);
    case RequestInput(kind, requested, filters, refused) => DoRequestQuiet(c, s, kind, requested, filters, refused);
    case DataInput(data) => IngestQuiet(c, s, data); EventsQuiet(c, Ingest(c, s, data));
    case TakeInput => TakeOutputQuiet(c, s);
    case TickInput => DoTickQuiet(c, s); EventsQuiet(c, DoTick(c, s).0);
    case LostInput => LostIsQuiet(c, s, s.clock.now);
    case ResetInput => LostIsQuiet(c, s, s.clock.now);
    case _ => LocalQuiet(c, s, i);
  }

  /** After every run the output side has nothing left to do: no operation forgets to process the queue. */
  lemma {:induction false} RunQuiet(c: Options, s: Engine, ts: seq<Timed>)
    requires Control(c, s) && Quiet(c, s)
    ensures Quiet(c, Run(c, s, ts))
    decreases ts
  {
    if ts == [] {
    } else {
      var s0 := At(s, ts[0].now);
      if TimeAccepted(c, s, ts[0].now) {
        assert PanelOf(s0) == PanelOf(s) && Quiet(c, s0);
        ApplyControl(c, s0, ts[0].input);
        ApplyQuiet(c, s0, ts[0].input);
      }
      RunQuiet(c, Step(c, s, ts[0]), ts[1..]);
    }
  }

  // ----- Exactness -----

  lemma {:induction false} FirstDeadlineIsLeast(ds: seq<Deadline>)
    ensures FirstDeadline(ds).None? <==> ds == []
    ensures forall d :: d in ds ==> FirstDeadline(ds).Some? && FirstDeadline(ds).value <= d.at
    ensures FirstDeadline(ds).Some? ==> exists d :: d in ds && d.at == FirstDeadline(ds).value
  {
    if ds == [] {
    } else {
      FirstDeadlineIsLeast(ds[1..]);
      assert ds == [ds[0]] + ds[1..];
      if FirstDeadline(ds).value == ds[0].at {
        assert ds[0] in ds;
      } else {
        var d :| d in ds[1..] && d.at == FirstDeadline(ds[1..]).value;
        assert d in ds;
      }
    }
  }

  /** A stored deadline is due exactly when the first one is. */
  lemma DeadlinesExact(ds: seq<Deadline>, now: Time)
    ensures DueDeadlines(ds, now) != [] <==> FirstDeadline(ds).Some? && FirstDeadline(ds).value <= now
  {
    FirstDeadlineIsLeast(ds);
  }

  /** A packet is due for retransmission exactly when the first retransmission deadline has passed. */
  lemma ResendsExact(w: Line, q: Inflight, now: Time)
    requires Sound(w, q)
    ensures DueResends(q, now) != [] <==> NextExpiration(q).Some? && NextExpiration(q).value <= now
  {
    if q.timers != [] && q.timers[0].at <= now {
      var n := DueCount(q.timers, now);
      assert n > 0;
      assert q.timers[..n][0] == q.timers[0];
      assert q.timers[0] in q.timers;
      HasIds(q, q.timers[0].id);
    }
  }

  /** A ping or a ping timeout is due exactly at the keep-alive deadline. */
  lemma KeepAliveExact(c: Options, s: Engine)
    requires s.clock.pingSent.Some? ==> s.clock.pingSent.value <= s.clock.now
    ensures
      var k := KeepAliveDeadline(c, s);
      (PingOverdue(c, s) || PingDue(c, s)) <==> k.Some? && k.value <= s.clock.now
  {
  }

  /** Whether a tick is due, part by part. */
  lemma NextTickParts(c: Options, s: Engine)
    ensures
      var t, d, now := NextTick(c, s), FirstDeadline(s.clock.deadlines), s.clock.now;
      var k, e, n := KeepAliveDeadline(c, s), NextExpiration(s.sess.inflight), s.clock.nextReconnect;
      (t.Some? && t.value <= now) <==>
        || (d.Some? && d.value <= now)
        || (if s.link.connected then (k.Some? && k.value <= now) || (e.Some? && e.value <= now)
          else n.Some? && n.value <= now)
  {
  }

  /** What a tick does when no operation deadline is due. */
  lemma TickWithoutDeadlines(c: Options, s: Engine)
    requires Quiet(c, s) && DueDeadlines(s.clock.deadlines, s.clock.now) == []
    ensures DoTick(c, s) == (if s.link.connected then TickConnected(c, s) else TickDisconnected(s))
  {
    QuietDoesNothing(c, s);
    var more := if s.link.connected then TickConnected(c, s).1 else TickDisconnected(s).1;
    assert Expirations([]) + more == more;
  }

  lemma TickConnectedActs(c: Options, s: Engine)
    requires Quiet(c, s) && s.link.connected
    ensures TickConnected(c, s).1 != [] <==>
              PingOverdue(c, s) || PingDue(c, s) || DueResends(s.sess.inflight, s.clock.now) != []
  {
    QuietDoesNothing(c, s);
  }

  /** A tick takes a timed action if and only if the engine asked to be called by now. */
  lemma TickExact(c: Options, s: Engine)
    requires Always(c, s) && Quiet(c, s)
    ensures DoTick(c, s).1 != [] <==> NextTick(c, s).Some? && NextTick(c, s).value <= s.clock.now
  {
    NextTickParts(c, s);
    DeadlinesExact(s.clock.deadlines, s.clock.now);
    var due := DueDeadlines(s.clock.deadlines, s.clock.now);
    if due == [] {
      TickWithoutDeadlines(c, s);
      if s.link.connected {
        TickConnectedActs(c, s);
        KeepAliveExact(c, s);
        ResendsExact(LineOf(c), s.sess.inflight, s.clock.now);
      }
    } else {
      assert |Expirations(due)| > 0;
    }
  }

  /** Only the time at which retransmission was last looked at differs. */
  ghost predicate Untouched(s: Engine, r: Engine) {
    r == s.(sess := s.sess.(inflight := s.sess.inflight.(last := r.sess.inflight.last)))
  }

  lemma NothingFires(w: Line, q: Inflight, now: Time)
    requires DueCount(q.timers, now) == 0
    ensures Expired(w, q, now) == q.(last := Some(now)) && DueResends(q, now) == []
  {
    assert q.timers[0..] + Rearm(q.timers[..0], now + w.timeout) == q.timers;
  }

  /** When nothing is due, a tick changes nothing. */
  lemma EarlyTickDoesNothing(c: Options, s: Engine)
    requires Always(c, s) && Quiet(c, s) && DoTick(c, s).1 == []
    ensures Untouched(s, DoTick(c, s).0)
  {
    assert Expirations(DueDeadlines(s.clock.deadlines, s.clock.now)) == [];
    QuietDoesNothing(c, s);
    if s.link.connected {
      ResendsExact(LineOf(c), s.sess.inflight, s.clock.now);
      NothingFires(LineOf(c), s.sess.inflight, s.clock.now);
    }
  }

  /** The time at which the engine asks to be called is representable. */
  lemma NextTickInRange(c: Options, s: Engine)
    requires Always(c, s)
    ensures NextTick(c, s).Some? ==> NextTick(c, s).value < LIMIT
  {
    FirstDeadlineIsLeast(s.clock.deadlines);
    KeepAliveInRange(c, s);
    var q := s.sess.inflight;
    if q.timers != [] { assert q.timers[0] in q.timers; }
  }

  lemma KeepAliveInRange(c: Options, s: Engine)
    requires ClockOk(c, s.clock)
    ensures KeepAliveDeadline(c, s).Some? ==> KeepAliveDeadline(c, s).value < LIMIT
  {
    var k, m := KeepAliveOf(s), Max(c.pingMultiplier, 1);
    assert k <= 65535 * NANOS_PER_SECOND;
    assert k * c.pingMultiplier <= 65535 * NANOS_PER_SECOND * m;
    assert k <= 65535 * NANOS_PER_SECOND * m;
  }

  ghost predicate TickAgrees(c: Options, s: Engine) {
    var (r, actions) := DoTick(c, s);
    var next := NextTick(c, s);
    && (actions != [] <==> next.Some? && next.value <= s.clock.now)
    && (actions == [] ==> Untouched(s, r))
    && (next.Some? ==> next.value < LIMIT)
  }

  lemma TickAgreesNow(c: Options, s: Engine)
    requires Always(c, s) && Quiet(c, s)
    ensures TickAgrees(c, s)
  {
    TickExact(c, s);
    NextTickInRange(c, s);
    if DoTick(c, s).1 == [] { EarlyTickDoesNothing(c, s); }
  }

  lemma AtQuiet(c: Options, s: Engine, now: Time)
    requires Quiet(c, s)
    ensures Quiet(c, At(s, now))
  {
  }

  lemma InitialQuiet(c: Options, start: Time)
    ensures Quiet(c, Initial(c, start))
  {
    DownIsQuiet(c, Initial(c, start));
  }

  /** On every run, at every time the engine would accept: a tick acts if and only if it was asked for, and
      otherwise changes nothing; and the time asked for is representable. */
  lemma TimersOverRuns(c: Options, start: Time, ts: seq<Timed>, now: Time)
    requires Horizon(c, start) && TimeAccepted(c, Run(c, Initial(c, start), ts), now)
    ensures TickAgrees(c, At(Run(c, Initial(c, start), ts), now))
  {
    var s := Run(c, Initial(c, start), ts);
    InitialAlways(c, start);
    InitialControl(c, start);
    InitialQuiet(c, start);
    RunTimely(c, Initial(c, start), ts);
    RunQuiet(c, Initial(c, start), ts);
    AtAlways(c, s, now);
    AtQuiet(c, s, now);
    TickAgreesNow(c, At(s, now));
  }
}
