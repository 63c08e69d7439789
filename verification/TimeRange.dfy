/** What holds in every state of every run, whatever the caller and the peer do: each timestamp the engine stores or
    computes from its configuration fits the clock, so no deadline computation can fail; the exchanges in flight and
    their timers are sound; the queue is within its capacity and its bytes are counted exactly; tracking a publication
    fails exactly when its identifier is still in flight. */
module TimeRange {
  import opened Basics
  import opened Timestamps
  import opened Packets
  import opened PriorityQueues
  import opened InflightQueues
  import opened EngineModel
  import opened EngineRuns
  import opened SessionBooks
  import opened SessionInvariant
  import opened Commands
  import opened Resumption

  /** Recorded times lie in the past, stored deadlines are representable, and so is every deadline the
      configuration can ask for from now. */
  ghost predicate ClockOk(c: Options, t: Clock) {
    && Horizon(c, t.now)
    && t.lastSent <= t.now && (t.pingSent.Some? ==> t.pingSent.value <= t.now)
    && (t.nextReconnect.Some? ==> t.nextReconnect.value < LIMIT)
    && forall d :: d in t.deadlines ==> d.at < LIMIT
  }

  /** Publications that wait for an acknowledgement have an identifier other than zero. */
  predicate Numbered(queue: seq<Ranked<Packet>>) {
    forall x :: x in queue && x.item.Publish? && x.item.qos > 0 && x.item.id.Some? ==> 0 < x.item.id.value
  }

  /** The queue is within its capacity, so the bounded queue never evicts; the byte count is exact; and every queued
      packet can be encoded, also after a reset, if the encoder is as the implementation takes it to be. */
  ghost predicate Measured(c: Options, q: Session) {
    && |q.queue| <= c.maxPackets && q.queuedBytes == QueueLength(c, q.queue)
    && (Codec(c) ==> QueueOk(c, q.queue))
  }

  ghost predicate SessionSound(c: Options, q: Session, now: Time) {
    && Sound(LineOf(c), q.inflight) && TimeOk(LineOf(c), q.inflight, now)
    && Numbered(q.queue) && NoDup(Ids(q.previous)) && Exchanging(q.replay) && Measured(c, q)
  }

  /** Tracking failed exactly for reused identifiers, no subtraction from the byte count saturated, and no reset met a
      packet it could not encode. */
  ghost predicate Unsurprised(c: Options, h: History) {
    h.failures == h.reused && h.shortfall == 0 && (Codec(c) ==> h.unencodable == 0)
  }

  ghost predicate Always(c: Options, s: Engine) {
    && ClockOk(c, s.clock) && SessionSound(c, s.sess, s.clock.now)
    && Named(s.caps.aliases) && Unsurprised(c, s.hist)
  }

  // ----- What operations leave alone -----

  predicate Unnumbered(p: Packet) { p.Publish? && p.qos == 0 ==> p.id.None? }

  predicate PlainQueue(queue: seq<Ranked<Packet>>) {
    forall x :: x in queue ==> Unnumbered(x.item)
  }

  /** No unacknowledged publication carries an identifier, neither a queued one nor one rejected earlier. */
  predicate Plain(s: Engine) {
    PlainQueue(s.sess.queue) && forall pt :: pt in s.hist.points && pt.Rejected? ==> Unnumbered(pt.packet)
  }

  /** Nothing was admitted, rejected, tracked in vain, or reported. */
  predicate SameLog(h: History, g: History) {
    g.points == h.points && g.failures == h.failures && g.reports == h.reports
      && g.tickets.published == h.tickets.published
  }

  ghost predicate Keeps(c: Options, s: Engine, r: Engine) {
    Always(c, s) ==> Always(c, r) && r.clock.now == s.clock.now
  }

  /** An operation that neither admits nor emits from the queue, nor completes an exchange. */
  ghost predicate Steady(c: Options, s: Engine, r: Engine) {
    Keeps(c, s, r) && SameLog(s.hist, r.hist) && (PlainQueue(s.sess.queue) ==> PlainQueue(r.sess.queue))
  }

  /** Any operation: the history of admissions and rejections only grows. */
  ghost predicate Timely(c: Options, s: Engine, r: Engine) {
    Keeps(c, s, r) && s.hist.points <= r.hist.points && (Plain(s) ==> Plain(r))
  }

  lemma SteadyThen(c: Options, s: Engine, m: Engine, r: Engine)
    requires Steady(c, s, m) && Steady(c, m, r)
    ensures Steady(c, s, r)
  {
  }

  lemma TimelyThen(c: Options, s: Engine, m: Engine, r: Engine)
    requires Timely(c, s, m) && Timely(c, m, r)
    ensures Timely(c, s, r)
  {
  }

  lemma SteadyIsTimely(c: Options, s: Engine, r: Engine)
    requires Steady(c, s, r)
    ensures Timely(c, s, r)
  {
  }

  // ----- Deadlines -----

  lemma {:induction false} DropDeadlineSub(ds: seq<Deadline>, k: Kind, id: Option<nat>)
    ensures forall d :: d in DropDeadline(ds, k, id) ==> d in ds
  {
    if ds == [] {
    } else {
      DropDeadlineSub(ds[1..], k, id);
    }
  }

  lemma {:induction false} DropDeadlinesOfSub(ds: seq<Deadline>, id: nat)
    ensures forall d :: d in DropDeadlinesOf(ds, id) ==> d in ds
  {
    if ds == [] {
    } else {
      DropDeadlinesOfSub(ds[1..], id);
    }
  }

  lemma StartDeadlineClock(c: Options, t: Clock, k: Kind, id: Option<nat>)
    requires ClockOk(c, t)
    ensures ClockOk(c, StartDeadline(c, t, k, id)) && StartDeadline(c, t, k, id).now == t.now
  {
    DropDeadlineSub(t.deadlines, k, id);
  }

  // ----- Losing the connection -----

  /** Failing or completing an operation. */
  lemma WithoutSound(c: Options, q: Session, id: nat, now: Time)
    requires SessionSound(c, q, now)
    ensures SessionSound(c, Without(q, id), now)
  {
    AcknowledgeSound(LineOf(c), q.inflight, id);
  }

  lemma FailOperationSteady(c: Options, s: Engine, id: nat, p: Packet, e: Error)
    ensures Steady(c, s, FailOperation(s, id, p, e))
  {
    DropDeadlinesOfSub(s.clock.deadlines, id);
    FailOperationSess(s, id, p, e);
    if SessionSound(c, s.sess, s.clock.now) { WithoutSound(c, s.sess, id, s.clock.now); }
  }

  lemma {:induction false} FailAllSteady(c: Options, s: Engine, hs: seq<Held>, e: Error)
    ensures Steady(c, s, FailAll(s, hs, e))
    decreases hs
  {
    if hs == [] {
    } else {
      var m := FailOperation(s, hs[0].id, hs[0].packet, e);
      FailOperationSteady(c, s, hs[0].id, hs[0].packet, e);
      FailAllSteady(c, m, hs[1..], e);
      SteadyThen(c, s, m, FailAll(m, hs[1..], e));
    }
  }

  lemma StripQueuePlain(queue: seq<Ranked<Packet>>)
    ensures Numbered(queue) ==> Numbered(StripQueue(queue))
    ensures PlainQueue(queue) ==> PlainQueue(StripQueue(queue))
  {
    forall x | x in StripQueue(queue)
      ensures exists y :: y in queue && x.item == StripAliases(y.item)
    {
      var i :| 0 <= i < |queue| && StripQueue(queue)[i] == x;
      assert queue[i] in queue;
    }
  }

  /** The engine after a reset, before a sessionless one ends the session. */
  lemma ResetSteadyFirst(c: Options, s: Engine)
    ensures Steady(c, s, Detached(c, s))
  {
    StripQueuePlain(s.sess.queue);
    if Codec(c) && QueueOk(c, s.sess.queue) {
      StripQueueOk(c, s.sess.queue);
      AllEncodable(c, StripQueue(s.sess.queue));
    }
  }

  lemma EndSessionSteady(c: Options, s: Engine)
    ensures Steady(c, s, EndSession(s))
  {
    var s0 := s.(link := s.link.(hasSession := false));
    var items := Snapshot(s.sess.inflight.items);
    FailAllSteady(c, s0, items, SessionExpired);
    var s1 := FailAll(s0, items, SessionExpired);
    var s2 := s1.(sess := s1.sess.(replay := []));
    FailAllSteady(c, s2, s1.sess.replay, SessionExpired);
    SteadyThen(c, s, s2, EndSession(s));
  }

  lemma ResetSteady(c: Options, s: Engine)
    ensures Steady(c, s, Reset(c, s)) && Steady(c, s,
        Reset(c, s).(clock := Reset(c, s).clock.(nextReconnect := s.clock.nextReconnect)))
  {
    var s2 := Detached(c, s);
    ResetSteadyFirst(c, s);
    EndSessionSteady(c, s2);
    SteadyThen(c, s, s2, EndSession(s2));
    var s3 := if c.sessionless then EndSession(s2) else s2;
    assert Reset(c, s) == s3.(clock := s3.clock.(nextReconnect := None, lastSent := s3.clock.now, pingSent := None));
  }

  /** Every back-off delay is within the configured maximum, hence representable. */
  lemma ScheduleSteady(c: Options, s: Engine)
    ensures Steady(c, s, ScheduleReconnect(c, s, s.clock.now))
  {
    var delay := Backoff(c, s.clock.attempts);
    assert delay <= c.maxDelayMs;
    assert delay * NANOS_PER_MILLI <= c.maxDelayMs * NANOS_PER_MILLI;
  }

  lemma ResetNow(c: Options, s: Engine)
    ensures Reset(c, s).clock.now == s.clock.now
  {
    var s2 := Detached(c, s);
    var s3 := s2.(link := s2.link.(hasSession := false));
    FailAllNow(s3, Snapshot(s2.sess.inflight.items), SessionExpired);
    var s4 := FailAll(s3, Snapshot(s2.sess.inflight.items), SessionExpired);
    FailAllNow(s4.(sess := s4.sess.(replay := [])), s4.sess.replay, SessionExpired);
  }

  lemma {:induction false} FailAllNow(s: Engine, hs: seq<Held>, e: Error)
    ensures FailAll(s, hs, e).clock.now == s.clock.now
    decreases hs
  {
    if hs == [] {
    } else {
      FailAllNow(FailOperation(s, hs[0].id, hs[0].packet, e), hs[1..], e);
    }
  }

  lemma ConnectionLostSteady(c: Options, s: Engine)
    ensures Steady(c, s, ConnectionLost(c, s, s.clock.now))
  {
    ResetSteady(c, s);
    ResetNow(c, s);
    var s1 := Reset(c, s);
    var s2 := s1.(clock := s1.clock.(nextReconnect := s.clock.nextReconnect));
    ScheduleSteady(c, s2);
    SteadyThen(c, s, s2, ScheduleReconnect(c, s2, s.clock.now));
  }

  lemma FailConnectionSteady(c: Options, s: Engine, e: Error)
    ensures Steady(c, s, FailConnection(c, s, e))
  {
    ConnectionLostSteady(c, s);
  }

  // ----- Output -----

  lemma {:induction false} FlushOutSteady(c: Options, s: Engine)
    ensures Steady(c, s, FlushOut(c, s))
    decreases |s.link.responses|
  {
    if FlushReady(c, s) {
      FlushOutSteady(c, FlushOne(c, s));
      SteadyThen(c, s, FlushOne(c, s), FlushOut(c, s));
    }
  }

  lemma FlushSteady(c: Options, s: Engine)
    ensures Steady(c, s, Flush(c, s))
  {
    FlushOutSteady(c, s);
    var s1 := FlushOut(c, s);
    if FlushError(c, s1).Some? {
      FailConnectionSteady(c, s1, FlushError(c, s1).value);
      SteadyThen(c, s, s1, Flush(c, s));
    }
  }

  /** Tracking a packet. */
  lemma PushedSound(c: Options, q: Session, now: Time, id: nat, p: Packet, qos: nat)
    requires SessionSound(c, q, now) && Push(LineOf(c), q.inflight, id, p, qos, None, now).Ok?
    ensures SessionSound(c, q.(inflight := Push(LineOf(c), q.inflight, id, p, qos, None, now).value), now)
  {
    PushSound(LineOf(c), q.inflight, id, p, qos, None, now);
  }

  lemma ReplayLogged(h: History, x: Held)
    ensures
      var r := LogReplay(h, x);
      && SameLog(h, r) && SameLog(h, Exempt(r, x)) && Exempt(r, x).reused == r.reused == h.reused
      && Exempt(r, x).shortfall == r.shortfall == h.shortfall
      && Exempt(r, x).unencodable == r.unencodable == h.unencodable
  {
  }

  lemma ReplayHeadSteady(c: Options, s: Engine)
    requires s.sess.replay != [] && EnqueueError(c, s, s.sess.replay[0].packet).None?
    ensures Steady(c, s, ReplayHead(c, s))
  {
    var h := s.sess.replay[0];
    var s1 := Enqueue(c, s, h.packet);
    var s2 := s1.(sess := s1.sess.(replay := s1.sess.replay[1..]), hist := LogReplay(s1.hist, h));
    ReplayLogged(s1.hist, h);
    assert Steady(c, s, s2);
    match Push(LineOf(c), s2.sess.inflight, h.id, h.packet, QosOf(h.packet), None, s2.clock.now)
    case Ok(q) =>
      if Always(c, s) {
        StartDeadlineClock(c, s2.clock, PublishOp, Some(h.id));
        PushedSound(c, s2.sess, s2.clock.now, h.id, h.packet, QosOf(h.packet));
      }
    case Err(e) =>
      FailOperationSteady(c, s2, h.id, h.packet, e);
      SteadyThen(c, s, s2, ReplayHead(c, s));
  }

  lemma ReplayOneSteady(c: Options, s: Engine)
    requires ReplayReady(c, s)
    ensures Steady(c, s, ReplayOne(c, s))
  {
    var h := s.sess.replay[0];
    var e := EnqueueError(c, s, h.packet);
    if e.None? {
      ReplayHeadSteady(c, s);
    } else {
      var s1 := s.(sess := s.sess.(replay := s.sess.replay[1..]));
      FailOperationSteady(c, s1, h.id, h.packet, e.value);
      SteadyThen(c, s, s1, ReplayOne(c, s));
    }
  }

  lemma {:induction false} ProcessReplaySteady(c: Options, s: Engine)
    ensures Steady(c, s, ProcessReplay(c, s))
    decreases |s.sess.replay|
  {
    if ReplayReady(c, s) {
      ReplayOneSteady(c, s);
      ProcessReplaySteady(c, ReplayOne(c, s));
      SteadyThen(c, s, ReplayOne(c, s), ProcessReplay(c, s));
    }
  }

  /** With a sound queue and a slot to spare, tracking fails exactly when the identifier is in flight. */
  lemma PushFailsIff(c: Options, q: Session, now: Time, id: nat, p: Packet, qos: nat)
    requires SessionSound(c, q, now) && 0 < id && CanPublish(q.inflight)
    ensures Push(LineOf(c), q.inflight, id, p, qos, None, now).Err? <==> Has(q.inflight, id)
  {
  }

  /** The head of the queue leaves, and its bytes with it; they were counted. */
  lemma MeasuredTail(c: Options, q: Session)
    requires Measured(c, q) && q.queue != []
    ensures
      var n := EncodedLength(c, q.queue[0].item);
      n <= q.queuedBytes && Measured(c, q.(queue := q.queue[1..], queuedBytes := q.queuedBytes - n))
  {
  }

  /** Sending the head of the queue, tracked or not. */
  lemma SendHeadParts(c: Options, s: Engine, bytes: Bytes)
    requires s.sess.queue != []
    ensures
      var p, r := s.sess.queue[0].item, SendHead(c, s, bytes);
      var acked := p.Publish? && p.qos > 0 && p.id.Some?;
      var key := if acked then p.id.value else 0;
      var pushed := Push(LineOf(c), s.sess.inflight, key, p, QosOf(p), None, s.clock.now);
      && r.caps == s.caps && r.hist.points == s.hist.points && r.sess.queue == s.sess.queue[1..]
        && r.sess.previous == s.sess.previous && r.sess.queuedBytes == Monus(s.sess.queuedBytes, |bytes|)
      && r.hist.shortfall == s.hist.shortfall + Monus(|bytes|, s.sess.queuedBytes)
        && r.hist.unencodable == s.hist.unencodable
      && r.sess.inflight == (if acked && pushed.Ok? then pushed.value else s.sess.inflight)
      && r.clock == (if acked && pushed.Ok? then StartDeadline(c, s.clock, PublishOp, p.id)
        else s.clock).(lastSent := s.clock.now)
      && r.hist.failures == s.hist.failures + (if acked && pushed.Err? then [key] else [])
      && r.hist.reused == s.hist.reused + (if acked && Has(s.sess.inflight, key) then [key] else [])
  {
  }

  /** The session once the head of the queue left. */
  lemma TailSound(c: Options, q: Session, now: Time, bytes: Bytes)
    requires SessionSound(c, q, now) && q.queue != [] && c.encode(q.queue[0].item) == Some(bytes)
    ensures SessionSound(c, Popped(q, |bytes|), now) && Monus(|bytes|, q.queuedBytes) == 0
  {
    MeasuredTail(c, q);
  }

  lemma SendHeadSound(c: Options, s: Engine, bytes: Bytes)
    requires Always(c, s) && s.sess.queue != [] && !QueueBlocked(s) && c.encode(s.sess.queue[0].item) == Some(bytes)
    ensures Always(c, SendHead(c, s, bytes))
  {
    var p, q, m := s.sess.queue[0].item, s.sess, Popped(s.sess, |bytes|);
    assert q.queue[0] in q.queue;
    SendHeadParts(c, s, bytes);
    TailSound(c, q, s.clock.now, bytes);
    if p.Publish? && p.qos > 0 && p.id.Some? {
      StartDeadlineClock(c, s.clock, PublishOp, p.id);
      PushFailsIff(c, m, s.clock.now, p.id.value, p, p.qos);
      if !Has(q.inflight, p.id.value) { PushedSound(c, m, s.clock.now, p.id.value, p, p.qos); }
    }
  }

  lemma SendHeadTimely(c: Options, s: Engine, bytes: Bytes)
    requires s.sess.queue != [] && !QueueBlocked(s) && c.encode(s.sess.queue[0].item) == Some(bytes)
    ensures Timely(c, s, SendHead(c, s, bytes))
  {
    SendHeadParts(c, s, bytes);
    if Always(c, s) { SendHeadSound(c, s, bytes); }
  }

  lemma RejectHeadTimely(c: Options, s: Engine, bytes: Bytes, e: Error)
    requires s.sess.queue != [] && c.encode(s.sess.queue[0].item) == Some(bytes)
    ensures Timely(c, s, RejectHead(s, bytes, e))
  {
    assert s.sess.queue[0] in s.sess.queue;
    RejectHeadSess(s, bytes, e);
    if Always(c, s) { RejectHeadSound(c, s, bytes, e); }
  }

  lemma RejectHeadSound(c: Options, s: Engine, bytes: Bytes, e: Error)
    requires Always(c, s) && s.sess.queue != [] && c.encode(s.sess.queue[0].item) == Some(bytes)
    ensures Always(c, RejectHead(s, bytes, e))
  {
    var p := s.sess.queue[0].item;
    TailSound(c, s.sess, s.clock.now, bytes);
    RejectHeadSess(s, bytes, e);
    RejectHeadClock(s, bytes, e);
    if p.Publish? && p.id.Some? {
      DropDeadlinesOfSub(s.clock.deadlines, p.id.value);
      WithoutSound(c, Popped(s.sess, |bytes|), p.id.value, s.clock.now);
    }
  }

  lemma RejectHeadClock(s: Engine, bytes: Bytes, e: Error)
    requires s.sess.queue != []
    ensures
      var p, r := s.sess.queue[0].item, RejectHead(s, bytes, e);
      && r.caps.aliases == s.caps.aliases
      && r.clock == (if p.Publish? && p.id.Some?
        then s.clock.(deadlines := DropDeadlinesOf(s.clock.deadlines, p.id.value)) else s.clock)
  {
  }

  lemma EmitOneTimely(c: Options, s: Engine)
    requires EmitReady(c, s)
    ensures Timely(c, s, EmitOne(c, s, None))
  {
    var p := s.sess.queue[0].item;
    match c.encode(p)
    case None => if Always(c, s) { MeasuredTail(c, s.sess); }
    case Some(bytes) =>
      var e := RejectionOf(c, s, p, |bytes|);
      if e.None? { SendHeadTimely(c, s, bytes); } else { RejectHeadTimely(c, s, bytes, e.value); }
  }

  lemma {:induction false} EmitLoopTimely(c: Options, s: Engine)
    ensures Timely(c, s, EmitLoop(c, s, None))
    decreases |s.sess.queue|
  {
    if EmitReady(c, s) {
      EmitOneTimely(c, s);
      EmitLoopTimely(c, EmitOne(c, s, None));
      TimelyThen(c, s, EmitOne(c, s, None), EmitLoop(c, s, None));
    }
  }

  lemma ProcessQueueTimely(c: Options, s: Engine)
    ensures Timely(c, s, ProcessQueue(c, s, None))
  {
    if s.link.connected {
      var s1 := Flush(c, s);
      FlushSteady(c, s);
      SteadyIsTimely(c, s, s1);
      if s1.link.connected {
        var s2 := ProcessReplay(c, s1);
        ProcessReplaySteady(c, s1);
        SteadyIsTimely(c, s1, s2);
        TimelyThen(c, s, s1, s2);
        EmitLoopTimely(c, s2);
        TimelyThen(c, s, s2, EmitLoop(c, s2, None));
      }
    }
  }

  // ----- Commands -----

  /** Admission adds one publication, numbered if it is to be acknowledged. */
  lemma AdmitTimely(c: Options, s: Engine, cmd: Command)
    requires Decide(c, s, cmd).1.Accepted?
    ensures Keeps(c, s, Admitting(c, s, cmd)) && s.hist.points <= Admitting(c, s, cmd).hist.points
    ensures Plain(s) && (cmd.qos == 0 ==> cmd.id.None?) ==> Plain(Admitting(c, s, cmd))
  {
    var (s1, a) := Decide(c, s, cmd);
    DecideFacts(c, s, cmd);
    AdmitSess(s1, a.packet, cmd.priority, a.id, a.alias, a.bytes);
    InsertMember(s.sess.queue, Ranked(cmd.priority, a.packet));
    InsertLength(c, s.sess.queue, Ranked(cmd.priority, a.packet));
    if Named(s.caps.aliases) {
      DecideTopic(c, s, cmd);
      AdmitAliases(s1, a.packet, cmd.priority, a.id, a.alias, a.bytes);
    }
  }

  lemma AdmitAliases(s: Engine, p: Packet, priority: nat, id: Option<nat>, alias: Option<nat>, bytes: Bytes)
    requires p.Publish? && Named(s.caps.aliases) && (alias.Some? ==> p.topic != "")
    ensures Named(Admit(s, p, priority, id, alias, bytes).caps.aliases)
  {
  }

  /** A publish keeps unacknowledged publications without identifier if it adds none with one. */
  lemma DoPublishTimely(c: Options, s: Engine, cmd: Command)
    ensures Keeps(c, s, DoPublish(c, s, cmd).0) && s.hist.points <= DoPublish(c, s, cmd).0.hist.points
    ensures Plain(s) && (cmd.qos == 0 ==> cmd.id.None?) ==> Plain(DoPublish(c, s, cmd).0)
  {
    DecideFacts(c, s, cmd);
    if Decide(c, s, cmd).1.Accepted? {
      PublishIsAdmission(c, s, cmd);
      AdmitTimely(c, s, cmd);
      ProcessQueueTimely(c, Admitting(c, s, cmd));
    }
  }

  lemma RequestedSound(c: Options, q: Session, now: Time, h: Held)
    requires SessionSound(c, q, now) && Push(LineOf(c), q.inflight, h.id, h.packet, 1, None, now).Ok?
    ensures SessionSound(c, Requested(c, q, h, now), now)
  {
    PushSound(LineOf(c), q.inflight, h.id, h.packet, 1, None, now);
  }

  lemma DoRequestClock(c: Options, s: Engine, kind: Kind, requested: Option<u16>, filters: seq<string>, refused: bool)
    requires ClockOk(c, s.clock)
    ensures ClockOk(c, DoRequest(c, s, kind, requested, filters, refused).0.clock)
  {
    var (s1, id) := CandidateId(s, requested);
    if id.Ok? { StartDeadlineClock(c, s.clock.(lastSent := s.clock.now), kind, Some(id.value)); }
  }

  lemma DoRequestSteady(c: Options, s: Engine, kind: Kind, requested: Option<u16>, filters: seq<string>, refused: bool)
    ensures Steady(c, s, DoRequest(c, s, kind, requested, filters, refused).0)
  {
    DoRequestSess(c, s, kind, requested, filters, refused);
    if Always(c, s) {
      DoRequestClock(c, s, kind, requested, filters, refused);
      var id := CandidateId(s, requested).1;
      if id.Ok? {
        var h := Held(id.value, RequestPacket(kind, id.value, filters));
        if Push(LineOf(c), s.sess.inflight, h.id, h.packet, 1, None, s.clock.now).Ok? {
          RequestedSound(c, s.sess, s.clock.now, h);
        }
      }
    }
  }

  lemma DoConnectSteady(c: Options, s: Engine)
    ensures Steady(c, s, DoConnect(c, s).0)
  {
    if Always(c, s) {
      StartDeadlineClock(c, s.clock.(lastSent := s.clock.now, nextReconnect := None), ConnectOp, None);
      RetainNoDup(s.sess.previous, s.sess.reserved);
      MergeIds(Retain(s.sess.previous, s.sess.reserved), Snapshot(s.sess.inflight.items) + s.sess.replay);
    }
  }

  // ----- Incoming packets -----

  lemma RestoreOneSteady(c: Options, s: Engine, h: Held, resume: bool)
    ensures Steady(c, s, RestoreOne(s, h, resume))
  {
    RestoreOneSess(s, h, resume);
    if resume && IsExchange(h.packet) {
      if Always(c, s) { AcknowledgeSound(LineOf(c), s.sess.inflight, h.id); }
    } else {
      FailOperationSteady(c, s, h.id, h.packet, SessionExpired);
    }
  }

  lemma {:induction false} RestoreAllSteady(c: Options, s: Engine, hs: seq<Held>, resume: bool)
    ensures Steady(c, s, RestoreAll(s, hs, resume))
    decreases hs
  {
    if hs == [] {
    } else {
      var m := RestoreOne(s, hs[0], resume);
      RestoreOneSteady(c, s, hs[0], resume);
      RestoreAllSteady(c, m, hs[1..], resume);
      SteadyThen(c, s, m, RestoreAll(s, hs, resume));
    }
  }

  /** The captured entries are decided; nothing is left of them. */
  lemma SettleSteady(c: Options, s: Engine, present: bool)
    ensures Steady(c, s, Settle(c, s, present))
  {
    var resume := Resumes(c, present);
    var captured := if resume then ReleasesFirst(s.sess.previous) else s.sess.previous;
    var s0 := s.(sess := s.sess.(previous := []));
    RestoreAllSteady(c, s0, captured, resume);
    SteadyThen(c, s, s0, Settle(c, s, present));
  }

  lemma RestoreSteady(c: Options, s: Engine, present: bool)
    ensures Steady(c, s, Restore(c, s, present).0)
  {
    SettleSteady(c, s, present);
    var s1 := Settle(c, s, present);
    var s2 := s1.(hist := s1.hist.(credit := Credit(s1.sess.inflight.limit, {}, 0)));
    assert Steady(c, s, s2);
    if (present && !c.sessionless) || c.topics == [] {
      ProcessReplaySteady(c, s2);
      SteadyThen(c, s, s2, ProcessReplay(c, s2));
    } else {
      var s3 := DoRequest(c, s2, SubscribeOp, None, c.topics, false).0;
      DoRequestSteady(c, s2, SubscribeOp, None, c.topics, false);
      SteadyThen(c, s, s2, s3);
      ProcessReplaySteady(c, s3);
      SteadyThen(c, s, s3, ProcessReplay(c, s3));
    }
  }

  lemma FinishConnAckSteady(c: Options, s: Engine, reason: nat, present: bool, server: Option<u16>)
    ensures Steady(c, s, FinishConnAck(c, s, reason, present, server).0)
  {
    var s1 := s.(link := s.link.(connected := reason == 0));
    if reason == 0 {
      var s2 := ResetReconnect(s1.(link := s1.link.(hasSession := true), hist := s1.hist.(serverMaximum := server)));
      RestoreSteady(c, s2, present);
      SteadyThen(c, s, s2, Restore(c, s2, present).0);
    } else {
      ConnectionLostSteady(c, s1);
      SteadyThen(c, s, s1, ConnectionLost(c, s1, s1.clock.now));
    }
  }

  lemma NegotiateSteady(c: Options, s: Engine, t: Terms)
    requires Negotiate(c, s, t).Ok?
    ensures Steady(c, s, Negotiate(c, s, t).value)
  {
  }

  lemma HandleConnAckSteady(c: Options, s: Engine, reason: nat, present: bool, terms: Terms)
    ensures Steady(c, s, HandleConnAck(c, s, reason, present, terms).0)
  {
    if (present && !s.link.hasSession) || (c.v5 && WrongMethod(c, reason, terms.authMethod)) {
      FailConnectionSteady(c, s, ProtocolViolation);
    } else {
      DropDeadlineSub(s.clock.deadlines, ConnectOp, None);
      var s1 := s.(link := s.link.(connecting := false),
        clock := s.clock.(deadlines := DropDeadline(s.clock.deadlines, ConnectOp, None)));
      assert Steady(c, s, s1);
      var r := HandleConnAck(c, s, reason, present, terms).0;
      if !c.v5 {
        FinishConnAckSteady(c, s1, reason, present, None);
      } else {
        match Negotiate(c, s1, terms)
        case Err(e) => FailConnectionSteady(c, s1, e);
        case Ok(s2) =>
          NegotiateSteady(c, s1, terms);
          FinishConnAckSteady(c, s2, reason, present, terms.receiveMaximum);
          SteadyThen(c, s1, s2, r);
      }
      SteadyThen(c, s, s1, r);
    }
  }

  lemma HandleAuthSteady(c: Options, s: Engine, reason: nat, methods: seq<string>)
    ensures Steady(c, s, HandleAuth(c, s, reason, methods).0)
  {
    FailConnectionSteady(c, s, ProtocolViolation);
  }

  /** Acknowledgements touch the exchanges in flight and what is reported. */
  ghost predicate Acked(c: Options, s: Engine, r: Engine) {
    Keeps(c, s, r) && r.sess.queue == s.sess.queue && r.hist.points == s.hist.points
      && r.hist.failures == s.hist.failures
    && r.hist.reports == s.hist.reports
  }

  lemma CompleteAcked(c: Options, s: Engine, id: nat)
    ensures Acked(c, s, Complete(s, id)) && Acked(c, s, Confirm(s, id))
  {
    DropDeadlinesOfSub(s.clock.deadlines, id);
    if Always(c, s) { WithoutSound(c, s.sess, id, s.clock.now); }
    assert Complete(s, id).sess == Without(s.sess, id) == Confirm(s, id).sess;
  }

  lemma TransitionLate(w: Line, q: Inflight, id: nat, p: Packet, now: Time)
    requires Sound(w, q) && TimeOk(w, q, now) && IsExchange(p)
    ensures Sound(w, Transition(w, q, id, p, now)) && TimeOk(w, Transition(w, q, id, p, now), now)
  {
    if Has(q, id) { TransitionSound(w, q, id, p, now); }
  }

  lemma AdvanceAcked(c: Options, s: Engine, id: nat)
    ensures Acked(c, s, Advance(c, s, id))
  {
    if Always(c, s) { TransitionLate(LineOf(c), s.sess.inflight, id, PubRel(id), s.clock.now); }
  }

  lemma HandleAckAcked(c: Options, s: Engine, p: Incoming)
    requires IsAck(p)
    ensures Acked(c, s, HandleAccepted(c, s, p).0)
  {
    CompleteAcked(c, s, p.id);
    AdvanceAcked(c, s, p.id);
  }

  lemma HandleOtherSteady(c: Options, s: Engine, p: Incoming)
    requires !IsAck(p)
    ensures Steady(c, s, HandleAccepted(c, s, p).0)
  {
    match p
    case ConnAck(reason, present, terms) => HandleConnAckSteady(c, s, reason, present, terms);
    case AuthIn(reason, methods) => HandleAuthSteady(c, s, reason, methods);
    case DisconnectIn(_) => ConnectionLostSteady(c, s);
    case Message(failure, _) => if failure.Some? { FailConnectionSteady(c, s, failure.value); }
    case Oversized => FailConnectionSteady(c, s, BufferFull);
    case Malformed => FailConnectionSteady(c, s, ProtocolViolation);
    case PingResp =>
  }

  /** A packet that does not fit the connection or the exchange it answers. */
  predicate Unfit(c: Options, s: Engine, p: Incoming) {
    !p.Oversized? && !p.Malformed? && (!Accepts(c, s, p) || ValidateAck(s.sess.inflight, p).Some?)
  }

  lemma UnfitSteady(c: Options, s: Engine, p: Incoming)
    requires s.link.closed || Unfit(c, s, p)
    ensures Steady(c, s, HandlePacket(c, s, p).0)
  {
    FailConnectionSteady(c, s, ProtocolViolation);
    FailConnectionSteady(c, s, InvalidPacketId);
  }

  /** A packet that is refused or not an acknowledgement. */
  lemma HandlePacketSteady(c: Options, s: Engine, p: Incoming)
    requires s.link.closed || !IsAck(p) || Unfit(c, s, p)
    ensures Steady(c, s, HandlePacket(c, s, p).0)
  {
    if s.link.closed || Unfit(c, s, p) { UnfitSteady(c, s, p); } else { HandleOtherSteady(c, s, p); }
  }

  lemma HandlePacketTimely(c: Options, s: Engine, p: Incoming)
    ensures Timely(c, s, HandlePacket(c, s, p).0)
  {
    if s.link.closed || !IsAck(p) || Unfit(c, s, p) {
      HandlePacketSteady(c, s, p);
      SteadyIsTimely(c, s, HandlePacket(c, s, p).0);
    } else {
      HandleAckAcked(c, s, p);
    }
  }

  lemma RecordTimely(c: Options, s: Engine, events: seq<Event>, responses: seq<Packet>)
    ensures Timely(c, s, Record(s, events, responses))
  {
  }

  lemma ParseOneTimely(c: Options, s: Engine)
    requires s.link.parser != []
    ensures Timely(c, s, ParseOne(c, s))
  {
    var p, s0 := s.link.parser[0], s.(link := s.link.(parser := s.link.parser[1..]));
    HandlePacketTimely(c, s0, p);
    var (s1, events, responses) := HandlePacket(c, s0, p);
    var s2 := Record(s1, events, responses);
    RecordTimely(c, s1, events, responses);
    TimelyThen(c, s0, s1, s2);
    FlushSteady(c, s2);
    SteadyIsTimely(c, s2, Flush(c, s2));
    TimelyThen(c, s0, s2, Flush(c, s2));
    TimelyThen(c, s, s0, Flush(c, s2));
  }

  lemma {:induction false} ParseLoopTimely(c: Options, s: Engine)
    ensures Timely(c, s, ParseLoop(c, s))
    decreases Potential(s)
  {
    if !ParserPaused(c, s) {
      ParseOneTimely(c, s);
      ParseOnePotential(c, s);
      ParseLoopTimely(c, ParseOne(c, s));
      TimelyThen(c, s, ParseOne(c, s), ParseLoop(c, s));
    }
  }

  lemma IngestTimely(c: Options, s: Engine, data: seq<Incoming>)
    ensures Timely(c, s, Ingest(c, s, data))
  {
    if !s.link.closed {
      var s0 := s.(link := s.link.(parser := s.link.parser + data));
      var s1 := Flush(c, s0);
      FlushSteady(c, s0);
      SteadyIsTimely(c, s0, s1);
      TimelyThen(c, s, s0, s1);
      ParseLoopTimely(c, s1);
      TimelyThen(c, s, s1, ParseLoop(c, s1));
      ProcessQueueTimely(c, ParseLoop(c, s1));
      TimelyThen(c, s, ParseLoop(c, s1), ProcessQueue(c, ParseLoop(c, s1), None));
    }
  }

  lemma RefillTimely(c: Options, s: Engine)
    ensures Timely(c, s, Refill(c, s))
  {
    var s0 := s.(link := s.link.(out := []));
    var s1 := Flush(c, s0);
    FlushSteady(c, s0);
    SteadyIsTimely(c, s0, s1);
    TimelyThen(c, s, s0, s1);
    IngestTimely(c, s1, []);
    TimelyThen(c, s, s1, Ingest(c, s1, []));
    ProcessQueueTimely(c, Ingest(c, s1, []));
    TimelyThen(c, s, Ingest(c, s1, []), Refill(c, s));
  }

  lemma {:induction false} TakeOutputTimely(c: Options, s: Engine)
    ensures Timely(c, s, TakeOutput(c, s).0)
    decreases Potential(s) - |s.link.out|
  {
    RefillTimely(c, s);
    RefillPotential(c, s);
    if Refill(c, s).link.out != [] {
      TakeOutputTimely(c, Refill(c, s));
      TimelyThen(c, s, Refill(c, s), TakeOutput(c, s).0);
    }
  }

  // ----- Ticks, steps and runs -----

  lemma ExpireOneSteady(c: Options, s: Engine, d: Deadline)
    ensures Steady(c, s, ExpireOne(c, s, d))
  {
    DropDeadlineSub(s.clock.deadlines, d.kind, d.id);
    var s1 := s.(
      clock := s.clock.(deadlines := DropDeadline(s.clock.deadlines, d.kind, d.id)),
      events := s.events + [OperationFailed(d.kind, d.id, OperationTimeout)]);
    assert Steady(c, s, s1);
    if d.kind == ConnectOp {
      ConnectionLostSteady(c, s1);
      SteadyThen(c, s, s1, ExpireOne(c, s, d));
    }
  }

  lemma {:induction false} ExpireAllSteady(c: Options, s: Engine, ds: seq<Deadline>)
    ensures Steady(c, s, ExpireAll(c, s, ds))
    decreases ds
  {
    if ds == [] {
    } else {
      ExpireOneSteady(c, s, ds[0]);
      ExpireAllSteady(c, ExpireOne(c, s, ds[0]), ds[1..]);
      SteadyThen(c, s, ExpireOne(c, s, ds[0]), ExpireAll(c, s, ds));
    }
  }

  /** Sending expired packets again touches only output, events and the time of the last sending. */
  ghost predicate OutputOnly(s: Engine, r: Engine) {
    && r.sess == s.sess && r.hist == s.hist && r.caps == s.caps && r.link == s.link.(out := r.link.out)
    && r.clock == s.clock.(lastSent := r.clock.lastSent)
    && (r.clock.lastSent == s.clock.lastSent || r.clock.lastSent == s.clock.now)
  }

  lemma ResendOneFrame(c: Options, s: Engine, x: Resend)
    ensures OutputOnly(s, ResendOne(c, s, x))
  {
  }

  lemma OutputSteady(c: Options, s: Engine, r: Engine)
    requires OutputOnly(s, r)
    ensures Steady(c, s, r)
  {
  }

  lemma {:induction false} ResendAllSteady(c: Options, s: Engine, xs: seq<Resend>)
    ensures Steady(c, s, ResendAll(c, s, xs))
    decreases xs
  {
    if xs == [] {
    } else {
      ResendOneFrame(c, s, xs[0]);
      OutputSteady(c, s, ResendOne(c, s, xs[0]));
      ResendAllSteady(c, ResendOne(c, s, xs[0]), xs[1..]);
      SteadyThen(c, s, ResendOne(c, s, xs[0]), ResendAll(c, s, xs));
    }
  }

  lemma RetransmissionsSteady(c: Options, s: Engine)
    ensures Steady(c, s, Retransmissions(c, s))
  {
    var s1 := s.(sess := s.sess.(inflight := Expired(LineOf(c), s.sess.inflight, s.clock.now)));
    if Always(c, s) { ExpiredSound(LineOf(c), s.sess.inflight, s.clock.now); }
    assert Steady(c, s, s1);
    ResendAllSteady(c, s1, DueResends(s.sess.inflight, s.clock.now));
    SteadyThen(c, s, s1, Retransmissions(c, s));
  }

  lemma DoPingSteady(c: Options, s: Engine)
    ensures Steady(c, s, DoPing(c, s).0)
  {
  }

  lemma TickConnectedTimely(c: Options, s: Engine)
    ensures Timely(c, s, TickConnected(c, s).0)
  {
    if PingOverdue(c, s) {
      ConnectionLostSteady(c, s);
      SteadyIsTimely(c, s, TickConnected(c, s).0);
    } else {
      var s1 := if PingDue(c, s) then DoPing(c, s).0 else s;
      DoPingSteady(c, s);
      SteadyIsTimely(c, s, s1);
      ProcessQueueTimely(c, s1);
      var s2 := ProcessQueue(c, s1, None);
      TimelyThen(c, s, s1, s2);
      RetransmissionsSteady(c, s2);
      SteadyIsTimely(c, s2, Retransmissions(c, s2));
      TimelyThen(c, s, s2, Retransmissions(c, s2));
    }
  }

  lemma DoTickTimely(c: Options, s: Engine)
    ensures Timely(c, s, DoTick(c, s).0)
  {
    var due := DueDeadlines(s.clock.deadlines, s.clock.now);
    var s0 := ExpireAll(c, s, due);
    ExpireAllSteady(c, s, due);
    FlushSteady(c, s0);
    var s1 := Flush(c, s0);
    SteadyThen(c, s, s0, s1);
    SteadyIsTimely(c, s, s1);
    if s1.link.connected {
      TickConnectedTimely(c, s1);
      TimelyThen(c, s, s1, TickConnected(c, s1).0);
    }
  }

  lemma DoDisconnectSteady(c: Options, s: Engine, reason: nat)
    ensures Steady(c, s, DoDisconnect(c, s, reason).0)
  {
  }

  lemma DoEnqueueSteady(c: Options, s: Engine, p: Packet)
    ensures Steady(c, s, DoEnqueue(c, s, p).0)
  {
  }

  lemma DoAuthSteady(c: Options, s: Engine, reason: nat, methods: seq<string>)
    ensures Steady(c, s, DoAuth(c, s, reason, methods).0)
  {
  }

  lemma SetReconnectSteady(c: Options, s: Engine, enabled: bool)
    ensures Steady(c, s, SetReconnect(s, enabled)) && Steady(c, s, s.(events := []))
  {
  }

  lemma LocalSteady(c: Options, s: Engine, i: Input)
    requires IsLocal(i)
    ensures Steady(c, s, ApplyLocal(c, s, i))
  {
    match i
    case DisconnectInput(reason) => DoDisconnectSteady(c, s, reason);
    case AuthInput(reason, methods) => DoAuthSteady(c, s, reason, methods);
    case PingInput => DoPingSteady(c, s);
    case PacketInput(packet) => DoEnqueueSteady(c, s, packet);
    case ScheduleInput => ScheduleSteady(c, s);
    case ReconnectInput(enabled) => SetReconnectSteady(c, s, enabled);
    case EventsInput => SetReconnectSteady(c, s, true);
  }

  /** The operations that neither admit nor emit nor complete anything. */
  predicate IsCalm(i: Input) {
    IsLocal(i) || i.ConnectInput? || i.RequestInput? || i.LostInput? || i.ResetInput?
  }

  lemma RequestSteady(c: Options, s: Engine, i: Input)
    requires i.ConnectInput? || i.RequestInput?
    ensures Steady(c, s, Apply(c, s, i))
  {
    match i
    case ConnectInput => DoConnectSteady(c, s);
    case RequestInput(kind, requested, filters, refused) => DoRequestSteady(c, s, kind, requested, filters, refused);
  }

  lemma EndSteady(c: Options, s: Engine, i: Input)
    requires i.LostInput? || i.ResetInput?
    ensures Steady(c, s, Apply(c, s, i))
  {
    if i.LostInput? { ConnectionLostSteady(c, s); } else { ResetSteady(c, s); }
  }

  lemma CalmSteady(c: Options, s: Engine, i: Input)
    requires IsCalm(i)
    ensures Steady(c, s, Apply(c, s, i))
  {
    if IsLocal(i) {
      LocalSteady(c, s, i);
    } else if i.ConnectInput? || i.RequestInput? {
      RequestSteady(c, s, i);
    } else {
      EndSteady(c, s, i);
    }
  }

  /** A publish of an unacknowledged publication that carries an identifier. */
  predicate NumbersPlain(i: Input) {
    i.PublishInput? && i.cmd.qos == 0 && i.cmd.id.Some?
  }

  lemma ApplyTimely(c: Options, s: Engine, i: Input)
    ensures Keeps(c, s, Apply(c, s, i)) && s.hist.points <= Apply(c, s, i).hist.points
    ensures Plain(s) && !NumbersPlain(i) ==> Plain(Apply(c, s, i))
  {
    if IsCalm(i) {
      CalmSteady(c, s, i);
      SteadyIsTimely(c, s, Apply(c, s, i));
    } else {
      match i
      case PublishInput(cmd) => DoPublishTimely(c, s, cmd);
      case DataInput(data) => IngestTimely(c, s, data); EventsTimely(c, s, Ingest(c, s, data));
      case TakeInput => TakeOutputTimely(c, s);
      case TickInput => DoTickTimely(c, s); EventsTimely(c, s, DoTick(c, s).0);
    }
  }

  lemma EventsTimely(c: Options, s: Engine, r: Engine)
    requires Timely(c, s, r)
    ensures Timely(c, s, r.(events := []))
  {
  }

  lemma AtAlways(c: Options, s: Engine, now: Time)
    requires Always(c, s) && TimeAccepted(c, s, now)
    ensures Always(c, At(s, now))
  {
  }

  lemma InitialAlways(c: Options, now: Time)
    requires Horizon(c, now)
    ensures Always(c, Initial(c, now)) && Plain(Initial(c, now))
  {
    NewSound(LineOf(c), c.receiveMaximum);
  }

  lemma {:induction false} RunTimely(c: Options, s: Engine, ts: seq<Timed>)
    requires Always(c, s)
    ensures Always(c, Run(c, s, ts))
    decreases ts
  {
    if ts == [] {
    } else {
      if TimeAccepted(c, s, ts[0].now) {
        AtAlways(c, s, ts[0].now);
        ApplyTimely(c, At(s, ts[0].now), ts[0].input);
      }
      RunTimely(c, Step(c, s, ts[0]), ts[1..]);
    }
  }

  lemma {:induction false} RunPlain(c: Options, s: Engine, ts: seq<Timed>)
    requires Plain(s) && forall t :: t in ts ==> !NumbersPlain(t.input)
    ensures Plain(Run(c, s, ts))
    decreases ts
  {
    if ts == [] {
    } else {
      assert ts[0] in ts;
      if TimeAccepted(c, s, ts[0].now) { ApplyTimely(c, At(s, ts[0].now), ts[0].input); }
      RunPlain(c, Step(c, s, ts[0]), ts[1..]);
    }
  }

  /** On every run, tracking a publication fails exactly for those sent while their identifier was still in flight. */
  lemma TrackingFailsIffReused(c: Options, now: Time, ts: seq<Timed>)
    requires Horizon(c, now)
    ensures
      var h := Run(c, Initial(c, now), ts).hist;
      h.failures == h.reused
  {
    InitialAlways(c, now);
    RunTimely(c, Initial(c, now), ts);
  }
}
