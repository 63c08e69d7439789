/** Connection control over whole runs: reconnection back-off, re-authentication, the negotiated limit, and
    the order in which the engine lets packets out. None of these needs any care from the caller. */
module ConnectionControl {
  import opened Basics
  import opened Timestamps
  import opened Packets
  import opened PriorityQueues
  import opened InflightQueues
  import opened EngineModel
  import opened EngineRuns
  import Resumption

  /** The part of the state that decides about the connection. */
  datatype Panel = Panel(connected: bool, connecting: bool, reauth: bool, quiet: bool, limit: nat,
                         queue: seq<Ranked<Packet>>, replaying: bool, log: History, attempts: nat, pending: bool)

  /** The history without the parts that `Panel` does not speak about. */
  function LogOf(h: History): (r: History) {
    h.(tickets := Tickets(0, map[], [], []), credit := Credit(0, {}, 0), points := [], failures := [], reused := [],
      reports := 0, shortfall := 0, unencodable := 0)
  }

  function PanelOf(s: Engine): (p: Panel) {
    Panel(s.link.connected, s.link.connecting, s.link.reauth, s.link.responses == [], s.sess.inflight.limit,
          s.sess.queue, s.sess.replay != [], LogOf(s.hist), s.clock.attempts, s.clock.nextReconnect.Some?)
  }

  // ----- The invariant -----

  /** The delays since the last success follow the back-off sequence; with a bound on attempts there are no
      more delays than attempts allowed; every signal had its own scheduled attempt. */
  ghost predicate BackoffOk(c: Options, p: Panel) {
    && p.attempts == |p.log.delays| % ATTEMPT_WRAP
    && (forall n :: 0 <= n < |p.log.delays| ==> p.log.delays[n] == Backoff(c, n % ATTEMPT_WRAP))
    && (0 < c.maxAttempts < ATTEMPT_WRAP ==> |p.log.delays| <= c.maxAttempts)
    && p.log.needed + (if p.pending then 1 else 0) <= p.log.scheduled
  }

  ghost predicate OnlyMethod(c: Options, ms: seq<string>) {
    c.authMethod.Some? && ms != [] && forall m :: m in ms ==> m == c.authMethod.value
  }

  /** A re-authentication is in progress exactly between its start and its success, on one connection, and
      every AUTH carries the method of the CONNECT. */
  ghost predicate AuthOk(c: Options, p: Panel) {
    && (p.reauth ==> p.connected)
    && (p.connected || p.connecting ==> p.log.reauths == p.log.successes + (if p.reauth then 1 else 0))
    && p.log.successes <= p.log.reauths <= p.log.successes + 1
    && forall ms :: ms in p.log.authMethods ==> OnlyMethod(c, ms)
  }

  ghost predicate LimitOk(c: Options, p: Panel) {
    && (c.receiveMaximum == 0 ==> p.limit == MAX_ID)
    && (c.receiveMaximum > 0 ==> p.limit <= c.receiveMaximum && (p.connected && p.log.serverMaximum.Some? ==>
      p.limit <= p.log.serverMaximum.value))
  }

  /** Once something from the queue went out, nothing is replayed any more. */
  ghost predicate Phased(es: seq<Emission>) {
    forall i, j :: 0 <= i < j < |es| && es[i].FromQueue? ==> es[j].FromQueue?
  }

  ghost predicate NoneQueued(es: seq<Emission>) {
    forall i :: 0 <= i < |es| ==> es[i].FromReplay?
  }

  ghost predicate Descending(queue: seq<Ranked<Packet>>) {
    forall i, j :: 0 <= i < j < |queue| ==> queue[i].priority >= queue[j].priority
  }

  /** Nothing leaves before CONNACK; replay leaves before the queue; responses exist only on a connection. */
  ghost predicate GateOk(p: Panel) {
    && (p.connecting ==> !p.connected && p.log.emitted == [])
    && Phased(p.log.emitted)
    && (p.connected && p.replaying ==> NoneQueued(p.log.emitted))
    && Descending(p.queue)
    && (!p.connected ==> p.quiet)
  }

  /** Publications of one priority depart in the order of their arrival. */
  ghost predicate InOrder(ds: seq<Departure>) {
    forall i, j :: 0 <= i < j < |ds| && ds[i].priority == ds[j].priority ==> ds[i].stamp < ds[j].stamp
  }

  /** What waits arrived after whatever departed with its priority, and in the order in which it waits. */
  ghost predicate OrderOk(queue: seq<Ranked<Packet>>, a: Arrivals) {
    && |a.stamps| == |queue|
    && (forall i, j :: 0 <= i < j < |queue| && queue[i].priority == queue[j].priority ==> a.stamps[i] < a.stamps[j])
    && (forall i :: 0 <= i < |queue| ==> a.stamps[i] < a.count)
    && InOrder(a.departures)
    && (forall d :: d in a.departures ==> d.stamp < a.count)
    && (forall d, i :: d in a.departures && 0 <= i < |queue| && queue[i].priority == d.priority ==>
      d.stamp < a.stamps[i])
  }

  ghost predicate Ruled(c: Options, p: Panel) {
    BackoffOk(c, p) && AuthOk(c, p) && LimitOk(c, p) && GateOk(p) && OrderOk(p.queue, p.log.arrivals)
  }

  ghost predicate Control(c: Options, s: Engine) {
    Ruled(c, PanelOf(s))
  }

  // ----- The order of the queue -----

  lemma DropOrder(queue: seq<Ranked<Packet>>, a: Arrivals)
    requires OrderOk(queue, a) && queue != []
    ensures OrderOk(queue[1..], DropStamp(a))
  {
  }

  lemma DepartOrder(queue: seq<Ranked<Packet>>, a: Arrivals)
    requires OrderOk(queue, a) && queue != []
    ensures OrderOk(queue[1..], DropStamp(Depart(a, queue[0])))
  {
    var d := Departure(queue[0].priority, a.stamps[0]);
    var ds := a.departures + [d];
    assert Depart(a, queue[0]).departures == ds;
    assert InOrder(ds) by {
      forall i | 0 <= i < |a.departures| && a.departures[i].priority == d.priority
        ensures a.departures[i].stamp < d.stamp
      {
        assert a.departures[i] in a.departures;
      }
    }
  }

  lemma StripOrder(queue: seq<Ranked<Packet>>, a: Arrivals)
    requires OrderOk(queue, a)
    ensures OrderOk(StripQueue(queue), a)
  {
    var r := StripQueue(queue);
    assert forall i :: 0 <= i < |queue| ==> r[i].priority == queue[i].priority;
  }

  /** A new publication goes behind every queued one of its own or a higher priority, and before the rest. */
  lemma {:induction false} InsertionKeepsArrivalOrder(xs: seq<Ranked<Packet>>, x: Ranked<Packet>)
    requires Descending(xs)
    ensures
      var k := Slot(xs, x.priority);
      && InsertDraining(xs, x) == xs[..k] + [x] + xs[k..]
      && (forall i :: 0 <= i < k ==> xs[i].priority >= x.priority)
      && (forall i :: k <= i < |xs| ==> xs[i].priority < x.priority)
    decreases xs
  {
    if xs != [] && xs[0].priority >= x.priority {
      InsertionKeepsArrivalOrder(xs[1..], x);
      assert xs == [xs[0]] + xs[1..];
    }
  }

  /** Where everything stands after an arrival. */
  lemma ArriveAt(queue: seq<Ranked<Packet>>, a: Arrivals, x: Ranked<Packet>, i: nat)
    requires |a.stamps| == |queue| && Descending(queue) && i <= |queue|
    ensures
      var k, r, b := Slot(queue, x.priority), InsertDraining(queue, x), Arrive(a, queue, x.priority);
      && |r| == |b.stamps| == |queue| + 1
      && r[i] == (if i < k then queue[i] else if i == k then x else queue[i - 1])
      && b.stamps[i] == (if i < k then a.stamps[i] else if i == k then a.count else a.stamps[i - 1])
  {
    InsertionKeepsArrivalOrder(queue, x);
  }

  lemma ArriveOrder(queue: seq<Ranked<Packet>>, a: Arrivals, x: Ranked<Packet>)
    requires OrderOk(queue, a) && Descending(queue)
    ensures OrderOk(InsertDraining(queue, x), Arrive(a, queue, x.priority))
  {
    InsertionKeepsArrivalOrder(queue, x);
    var k, r, b := Slot(queue, x.priority), InsertDraining(queue, x), Arrive(a, queue, x.priority);
    ArriveAt(queue, a, x, 0);
    forall i, j | 0 <= i < j < |r| && r[i].priority == r[j].priority ensures b.stamps[i] < b.stamps[j] {
      ArriveAt(queue, a, x, i);
      ArriveAt(queue, a, x, j);
    }
    forall i | 0 <= i < |r| ensures b.stamps[i] < b.count { ArriveAt(queue, a, x, i); }
    forall d, i | d in b.departures && 0 <= i < |r| && r[i].priority == d.priority ensures d.stamp < b.stamps[i] {
      ArriveAt(queue, a, x, i);
    }
  }

  // ----- Losing the connection -----

  lemma FailOperationPanel(s: Engine, id: nat, p: Packet, e: Error)
    ensures PanelOf(FailOperation(s, id, p, e)) == PanelOf(s) && FailOperation(s, id, p, e).sess.replay == s.sess.replay
  {
  }

  lemma {:induction false} FailAllPanel(s: Engine, hs: seq<Held>, e: Error)
    ensures PanelOf(FailAll(s, hs, e)) == PanelOf(s)
    decreases hs
  {
    if hs == [] {
    } else {
      FailOperationPanel(s, hs[0].id, hs[0].packet, e);
      FailAllPanel(FailOperation(s, hs[0].id, hs[0].packet, e), hs[1..], e);
    }
  }

  lemma EndSessionPanel(s: Engine)
    ensures PanelOf(EndSession(s)) == PanelOf(s).(replaying := false)
  {
    var s0 := s.(link := s.link.(hasSession := false));
    var s1 := FailAll(s0, Snapshot(s.sess.inflight.items), SessionExpired);
    FailAllPanel(s0, Snapshot(s.sess.inflight.items), SessionExpired);
    FailAllPanel(s1.(sess := s1.sess.(replay := [])), s1.sess.replay, SessionExpired);
  }

  lemma ResetPanel(c: Options, s: Engine)
    ensures
      var p := PanelOf(s);
      PanelOf(Reset(c, s)) == Panel(
        false, false, false, true, if c.receiveMaximum > 0 then c.receiveMaximum else p.limit,
        StripQueue(p.queue), !c.sessionless && p.replaying, p.log, p.attempts, false)
  {
    EndSessionPanel(Detached(c, s));
  }

  lemma ResetControl(c: Options, s: Engine)
    requires Control(c, s)
    ensures Control(c, Reset(c, s))
    ensures Control(c, Reset(c, s).(clock := Reset(c, s).clock.(nextReconnect := s.clock.nextReconnect)))
  {
    ResetPanel(c, s);
    StripOrder(s.sess.queue, s.hist.arrivals);
  }

  lemma NextAttempt(n: nat)
    ensures (n + 1) % ATTEMPT_WRAP == (n % ATTEMPT_WRAP + 1) % ATTEMPT_WRAP
    ensures n < ATTEMPT_WRAP ==> n % ATTEMPT_WRAP == n
  {
  }

  lemma ScheduleControl(c: Options, s: Engine, now: Time)
    requires Control(c, s)
    ensures Control(c, ScheduleReconnect(c, s, now))
    ensures !s.link.connected ==> !ScheduleReconnect(c, s, now).link.connected
  {
    NextAttempt(|s.hist.delays|);
  }

  lemma ConnectionLostControl(c: Options, s: Engine, now: Time)
    requires Control(c, s)
    ensures Control(c, ConnectionLost(c, s, now)) && !ConnectionLost(c, s, now).link.connected
        && ConnectionLost(c, s, now).link.responses == []
  {
    ResetControl(c, s);
    ResetPanel(c, s);
    var s1 := Reset(c, s);
    var s2 := s1.(clock := s1.clock.(nextReconnect := s.clock.nextReconnect));
    if s2.clock.reconnect { ScheduleControl(c, s2, now); }
  }

  lemma FailConnectionControl(c: Options, s: Engine, e: Error)
    requires Control(c, s)
    ensures Control(c, FailConnection(c, s, e)) && !FailConnection(c, s, e).link.connected
        && FailConnection(c, s, e).link.responses == []
  {
    ConnectionLostControl(c, s, s.clock.now);
  }

  // ----- Output -----

  lemma {:induction false} FlushOutPanel(c: Options, s: Engine)
    requires s.link.connected || s.link.responses == []
    ensures PanelOf(FlushOut(c, s)) == PanelOf(s).(quiet := FlushOut(c, s).link.responses == [])
    ensures s.link.connected || FlushOut(c, s).link.responses == []
    decreases |s.link.responses|
  {
    if FlushReady(c, s) { FlushOutPanel(c, FlushOne(c, s)); }
  }

  lemma FlushControl(c: Options, s: Engine)
    requires Control(c, s)
    ensures Control(c, Flush(c, s))
  {
    FlushOutPanel(c, s);
    var s1 := FlushOut(c, s);
    var e := FlushError(c, s1);
    if e.Some? { FailConnectionControl(c, s1, e.value); }
  }

  lemma LogReplayed(h: History, x: Held)
    ensures LogOf(LogReplay(h, x)) == LogOf(h).(emitted := h.emitted + [FromReplay(x)])
  {
  }

  lemma ReplayHeadPanel(c: Options, s: Engine)
    requires s.sess.replay != [] && EnqueueError(c, s, s.sess.replay[0].packet).None?
    ensures
      var r := PanelOf(ReplayHead(c, s));
      r == PanelOf(s).(replaying := r.replaying,
        log := LogOf(s.hist).(emitted := s.hist.emitted + [FromReplay(s.sess.replay[0])]))
  {
    var h := s.sess.replay[0];
    var s1 := Enqueue(c, s, h.packet);
    var s2 := s1.(sess := s1.sess.(replay := s1.sess.replay[1..]), hist := LogReplay(s1.hist, h));
    LogReplayed(s.hist, h);
    match Push(LineOf(c), s2.sess.inflight, h.id, h.packet, QosOf(h.packet), None, s2.clock.now)
    case Ok(q) =>
    case Err(e) => FailOperationPanel(s2, h.id, h.packet, e);
  }

  lemma ReplayOnePanel(c: Options, s: Engine)
    requires ReplayReady(c, s)
    ensures
      var r := PanelOf(ReplayOne(c, s));
      || r == PanelOf(s).(replaying := r.replaying)
      || r == PanelOf(s).(replaying := r.replaying,
        log := LogOf(s.hist).(emitted := s.hist.emitted + [FromReplay(s.sess.replay[0])]))
  {
    var h := s.sess.replay[0];
    var e := EnqueueError(c, s, h.packet);
    if e.None? {
      ReplayHeadPanel(c, s);
    } else {
      FailOperationPanel(s.(sess := s.sess.(replay := s.sess.replay[1..])), h.id, h.packet, e.value);
    }
  }

  lemma {:induction false} ProcessReplayControl(c: Options, s: Engine)
    requires Control(c, s) && s.link.connected
    ensures Control(c, ProcessReplay(c, s)) && ProcessReplay(c, s).link.connected
    decreases |s.sess.replay|
  {
    if ReplayReady(c, s) {
      ReplayOnePanel(c, s);
      assert Control(c, ReplayOne(c, s));
      ProcessReplayControl(c, ReplayOne(c, s));
    }
  }

  /** The panel without the head of the queue. */
  function Shorter(p: Panel): (r: Panel)
    requires p.queue != []
  {
    p.(queue := p.queue[1..], log := p.log.(arrivals := DropStamp(p.log.arrivals)))
  }

  /** The panel after the head of the queue was sent. */
  function Emitted(p: Panel): (r: Panel)
    requires p.queue != []
  {
    p.(queue := p.queue[1..],
       log := p.log.(arrivals := DropStamp(Depart(p.log.arrivals, p.queue[0])),
         emitted := p.log.emitted + [FromQueue(p.queue[0])]))
  }

  lemma DequeuePanel(s: Engine, bytes: Bytes)
    requires s.sess.queue != []
    ensures PanelOf(Dequeue(s, bytes)) == Shorter(PanelOf(s)) && Dequeue(s, bytes).sess.replay == s.sess.replay
  {
  }

  lemma RejectHeadPanel(s: Engine, bytes: Bytes, e: Error)
    requires s.sess.queue != []
    ensures PanelOf(RejectHead(s, bytes, e)) == Shorter(PanelOf(s))
    ensures RejectHead(s, bytes, e).sess.replay == s.sess.replay
  {
    DequeuePanel(s, bytes);
    RejectedPanel(Dequeue(s, bytes), s.sess.queue[0].item, e);
  }

  /** Reporting a rejected packet, with or without an identifier. */
  lemma RejectedPanel(s: Engine, p: Packet, e: Error)
    ensures
      var r := if p.Publish? && p.id.Some? then FailOperation(s, p.id.value, p, e)
        else s.(events := s.events + [Failure(e)]);
      PanelOf(r) == PanelOf(s) && r.sess.replay == s.sess.replay
  {
    if p.Publish? && p.id.Some? { FailOperationPanel(s, p.id.value, p, e); }
  }

  lemma SendHeadPanel(c: Options, s: Engine, bytes: Bytes)
    requires s.sess.queue != []
    ensures SendHead(c, s, bytes).sess.replay == s.sess.replay
    ensures PanelOf(SendHead(c, s, bytes)) == Emitted(PanelOf(s))
  {
  }

  lemma EmitOnePanel(c: Options, s: Engine, encoding: Option<Bytes>)
    requires EmitReady(c, s)
    ensures EmitOne(c, s, encoding).sess.replay == s.sess.replay
    ensures
      var p, r := PanelOf(s), PanelOf(EmitOne(c, s, encoding));
      r == Shorter(p) || r == Emitted(p)
  {
    var p := s.sess.queue[0].item;
    match if encoding.Some? then encoding else c.encode(p)
    case None =>
    case Some(bytes) =>
      var e := RejectionOf(c, s, p, |bytes|);
      if e.Some? { RejectHeadPanel(s, bytes, e.value); } else { SendHeadPanel(c, s, bytes); }
  }

  lemma EmittedRuled(c: Options, p: Panel)
    requires Ruled(c, p) && p.queue != [] && p.connected && !p.replaying
    ensures Ruled(c, Shorter(p)) && Ruled(c, Emitted(p))
  {
    DropOrder(p.queue, p.log.arrivals);
    DepartOrder(p.queue, p.log.arrivals);
  }

  lemma EmitOneControl(c: Options, s: Engine, encoding: Option<Bytes>)
    requires Control(c, s) && s.link.connected && s.sess.replay == [] && EmitReady(c, s)
    ensures Control(c, EmitOne(c, s, encoding)) && EmitOne(c, s, encoding).link.connected
        && EmitOne(c, s, encoding).sess.replay == []
  {
    EmitOnePanel(c, s, encoding);
    EmittedRuled(c, PanelOf(s));
    assert PanelOf(EmitOne(c, s, encoding)).connected;
  }

  lemma {:induction false} EmitLoopControl(c: Options, s: Engine, encoding: Option<Bytes>)
    requires Control(c, s) && s.link.connected && s.sess.replay == []
    ensures Control(c, EmitLoop(c, s, encoding))
    decreases |s.sess.queue|
  {
    if EmitReady(c, s) {
      EmitOneControl(c, s, encoding);
      EmitLoopControl(c, EmitOne(c, s, encoding), None);
    }
  }

  lemma ProcessQueueControl(c: Options, s: Engine, encoding: Option<Bytes>)
    requires Control(c, s)
    ensures Control(c, ProcessQueue(c, s, encoding))
  {
    if s.link.connected {
      FlushControl(c, s);
      var s1 := Flush(c, s);
      if s1.link.connected {
        ProcessReplayControl(c, s1);
        var s2 := ProcessReplay(c, s1);
        if s2.link.responses == [] && s2.sess.replay == [] { EmitLoopControl(c, s2, encoding); }
      }
    }
  }

  // ----- Commands -----

  lemma {:induction false} InsertDescending(xs: seq<Ranked<Packet>>, x: Ranked<Packet>)
    requires Descending(xs)
    ensures Descending(InsertDraining(xs, x))
    ensures forall y :: y in InsertDraining(xs, x) ==> y == x || y in xs
    decreases xs
  {
    if xs != [] && xs[0].priority >= x.priority {
      InsertDescending(xs[1..], x);
      var r := InsertDraining(xs[1..], x);
      assert InsertDraining(xs, x) == [xs[0]] + r;
      forall j | 0 <= j < |r| ensures xs[0].priority >= r[j].priority { assert r[j] in r; }
    }
  }

  lemma DecidePanel(c: Options, s: Engine, cmd: Command)
    ensures PanelOf(Decide(c, s, cmd).0) == PanelOf(s) && Decide(c, s, cmd).0.link == s.link
        && Decide(c, s, cmd).0.hist == s.hist
  {
  }

  lemma AdmitPanel(s: Engine, p: Packet, priority: nat, id: Option<nat>, alias: Option<nat>, bytes: Bytes)
    requires p.Publish?
    ensures
      var r := Admit(s, p, priority, id, alias, bytes);
      && r.link == s.link && r.hist.emitted == s.hist.emitted
      && PanelOf(r) == PanelOf(s).(queue := InsertDraining(s.sess.queue, Ranked(priority, p)),
                                   log := LogOf(s.hist).(arrivals := Arrive(s.hist.arrivals, s.sess.queue, priority)))
  {
  }

  lemma DoPublishControl(c: Options, s: Engine, cmd: Command)
    requires Control(c, s)
    ensures Control(c, DoPublish(c, s, cmd).0)
  {
    var (s1, a) := Decide(c, s, cmd);
    DecidePanel(c, s, cmd);
    if a.Accepted? {
      InsertDescending(s1.sess.queue, Ranked(cmd.priority, a.packet));
      var s2 := Admit(s1, a.packet, cmd.priority, a.id, a.alias, a.bytes);
      AdmitPanel(s1, a.packet, cmd.priority, a.id, a.alias, a.bytes);
      ArriveOrder(s1.sess.queue, s1.hist.arrivals, Ranked(cmd.priority, a.packet));
      ProcessQueueControl(c, s2, if s1.sess.queue == [] then Some(a.bytes) else None);
    }
  }

  lemma RequestPanel(c: Options, s: Engine, r: Engine, h: Held)
    requires Resumption.RequestFrame(s, r)
    requires
      || r.sess == s.sess
      || (Push(LineOf(c), s.sess.inflight, h.id, h.packet, 1, None, s.clock.now).Ok?
        && r.sess == Resumption.Requested(c, s.sess, h, s.clock.now))
    ensures PanelOf(r) == PanelOf(s)
  {
  }

  lemma DoRequestPanel(c: Options, s: Engine, kind: Kind, requested: Option<u16>, filters: seq<string>, refused: bool)
    ensures PanelOf(DoRequest(c, s, kind, requested, filters, refused).0) == PanelOf(s)
  {
    Resumption.DoRequestSess(c, s, kind, requested, filters, refused);
    var r, id := DoRequest(c, s, kind, requested, filters, refused).0, CandidateId(s, requested).1;
    var key := if id.Ok? then id.value else 0;
    RequestPanel(c, s, r, Held(key, Resumption.RequestPacket(kind, key, filters)));
  }

  lemma DoConnectControl(c: Options, s: Engine)
    requires Control(c, s)
    ensures Control(c, DoConnect(c, s).0)
  {
    var s1 := CreateSession(c, s);
    if ConnectError(c, s1).None? {
      var p, r := PanelOf(s), PanelOf(Connecting(c, s1));
      assert r == p.(connecting := true, reauth := false, replaying := false, pending := false,
                     log := p.log.(emitted := [], reauths := 0, successes := 0, authMethods := []));
    }
  }

  // ----- Incoming packets -----

  lemma {:induction false} RestoreAllPanel(s: Engine, hs: seq<Held>, resume: bool)
    ensures PanelOf(RestoreAll(s, hs, resume)) == PanelOf(s).(replaying := RestoreAll(s, hs, resume).sess.replay != [])
    decreases hs
  {
    if hs == [] {
    } else {
      var r := RestoreOne(s, hs[0], resume);
      assert PanelOf(r) == PanelOf(s).(replaying := r.sess.replay != []);
      RestoreAllPanel(r, hs[1..], resume);
    }
  }

  lemma SettlePanel(c: Options, s: Engine, present: bool)
    ensures PanelOf(Settle(c, s, present)) == PanelOf(s).(replaying := Settle(c, s, present).sess.replay != [])
  {
    var resume := Resumes(c, present);
    var captured := if resume then ReleasesFirst(s.sess.previous) else s.sess.previous;
    RestoreAllPanel(s.(sess := s.sess.(previous := [])), captured, resume);
  }

  lemma RestoreControl(c: Options, s: Engine, present: bool)
    requires Control(c, s) && s.link.connected && s.hist.emitted == []
    ensures Control(c, Restore(c, s, present).0)
  {
    SettlePanel(c, s, present);
    var s1 := Settle(c, s, present);
    var s2 := s1.(hist := s1.hist.(credit := Credit(s1.sess.inflight.limit, {}, 0)));
    assert PanelOf(s2) == PanelOf(s1);
    if (present && !c.sessionless) || c.topics == [] {
      ProcessReplayControl(c, s2);
    } else {
      DoRequestPanel(c, s2, SubscribeOp, None, c.topics, false);
      ProcessReplayControl(c, DoRequest(c, s2, SubscribeOp, None, c.topics, false).0);
    }
  }

  lemma FinishConnAckControl(c: Options, s: Engine, reason: nat, present: bool, server: Option<u16>)
    requires Control(c, s) && !s.link.connected && !s.link.connecting && s.hist.emitted == []
        && s.hist.reauths == s.hist.successes
    requires server.Some? && c.receiveMaximum > 0 ==> s.sess.inflight.limit <= server.value
    ensures Control(c, FinishConnAck(c, s, reason, present, server).0)
    ensures !FinishConnAck(c, s, reason, present, server).0.link.connected ==>
        FinishConnAck(c, s, reason, present, server).0.link.responses == []
  {
    if reason == 0 {
      var s1 := s.(link := s.link.(connected := true));
      var s2 := ResetReconnect(s1.(link := s1.link.(hasSession := true), hist := s1.hist.(serverMaximum := server)));
      var p := PanelOf(s);
      assert PanelOf(s2) == p.(connected := true, attempts := 0, pending := false,
          log := p.log.(serverMaximum := server, delays := []));
      assert Control(c, s2);
      RestoreControl(c, s2, present);
    } else {
      ConnectionLostControl(c, s, s.clock.now);
    }
  }

  lemma NegotiatePanel(c: Options, s: Engine, t: Terms)
    requires Negotiate(c, s, t).Ok?
    ensures
      var p, r := PanelOf(s), PanelOf(Negotiate(c, s, t).value);
      && r == p.(limit := r.limit)
      && (t.receiveMaximum.None? ==> r.limit == p.limit)
      && (c.receiveMaximum == 0 ==> r.limit == p.limit)
      && (t.receiveMaximum.Some? && c.receiveMaximum > 0 ==> r.limit == Min(t.receiveMaximum.value, c.receiveMaximum))
  {
  }

  /** The limit after negotiation respects what the server asked for. */
  lemma NegotiatedControl(c: Options, s: Engine, reason: nat, present: bool, terms: Terms)
    requires Control(c, s) && !s.link.connected && !s.link.connecting && s.hist.emitted == []
        && s.hist.reauths == s.hist.successes
    requires Negotiate(c, s, terms).Ok?
    ensures Control(c, FinishConnAck(c, Negotiate(c, s, terms).value, reason, present, terms.receiveMaximum).0)
  {
    NegotiatePanel(c, s, terms);
    FinishConnAckControl(c, Negotiate(c, s, terms).value, reason, present, terms.receiveMaximum);
  }

  lemma HandleConnAckControl(c: Options, s: Engine, reason: nat, present: bool, terms: Terms)
    requires Control(c, s) && s.link.connecting
    ensures Control(c, HandleConnAck(c, s, reason, present, terms).0)
  {
    if (present && !s.link.hasSession) || (c.v5 && WrongMethod(c, reason, terms.authMethod)) {
      FailConnectionControl(c, s, ProtocolViolation);
    } else {
      var s1 := s.(link := s.link.(connecting := false),
        clock := s.clock.(deadlines := DropDeadline(s.clock.deadlines, ConnectOp, None)));
      assert PanelOf(s1) == PanelOf(s).(connecting := false);
      if !c.v5 {
        FinishConnAckControl(c, s1, reason, present, None);
      } else if Negotiate(c, s1, terms).Ok? {
        NegotiatedControl(c, s1, reason, present, terms);
      } else {
        FailConnectionControl(c, s1, Negotiate(c, s1, terms).error);
      }
    }
  }

  lemma HandleAuthControl(c: Options, s: Engine, reason: nat, methods: seq<string>)
    requires Control(c, s)
    ensures Control(c, HandleAuth(c, s, reason, methods).0)
  {
    var valid := if reason == 0 then s.link.connected && s.link.reauth else if reason == 0x18
      then s.link.connecting || s.link.reauth else false;
    if c.authMethod.None? || !valid || methods != [c.authMethod.value] {
      FailConnectionControl(c, s, ProtocolViolation);
    } else {
      assert OnlyMethod(c, methods);
    }
  }

  /** What an acknowledgement changes is not control. */
  lemma AckPanel(c: Options, s: Engine, id: nat)
    ensures PanelOf(Complete(s, id)) == PanelOf(s) && PanelOf(Confirm(s, id)) == PanelOf(s)
        && PanelOf(Advance(c, s, id)) == PanelOf(s)
  {
  }

  lemma HandleAckPanel(c: Options, s: Engine, p: Incoming)
    requires IsAck(p)
    ensures PanelOf(HandleAccepted(c, s, p).0) == PanelOf(s)
  {
    AckPanel(c, s, p.id);
  }

  lemma HandleAcceptedControl(c: Options, s: Engine, p: Incoming)
    requires Control(c, s) && !IsAck(p) && (p.ConnAck? ==> s.link.connecting)
    ensures Control(c, HandleAccepted(c, s, p).0)
  {
    match p
    case ConnAck(reason, present, terms) => HandleConnAckControl(c, s, reason, present, terms);
    case AuthIn(reason, methods) => HandleAuthControl(c, s, reason, methods);
    case DisconnectIn(_) => ConnectionLostControl(c, s, s.clock.now);
    case Message(failure, _) => if failure.Some? { FailConnectionControl(c, s, failure.value); }
    case Oversized => FailConnectionControl(c, s, BufferFull);
    case Malformed => FailConnectionControl(c, s, ProtocolViolation);
    case PingResp =>
  }

  /** A response is only produced on an established connection that stays established. */
  lemma HandlePacketResponse(c: Options, s: Engine, p: Incoming)
    ensures HandlePacket(c, s, p).2 != [] ==> s.link.connected && HandlePacket(c, s, p).0.link == s.link
  {
  }

  lemma RefusedControl(c: Options, s: Engine, p: Incoming)
    requires Control(c, s) && !p.Oversized? && !p.Malformed?
    requires s.link.closed || !Accepts(c, s, p) || ValidateAck(s.sess.inflight, p).Some?
    ensures Control(c, HandlePacket(c, s, p).0)
  {
    FailConnectionControl(c, s, ProtocolViolation);
    FailConnectionControl(c, s, InvalidPacketId);
  }

  lemma HandlePacketControl(c: Options, s: Engine, p: Incoming)
    requires Control(c, s)
    ensures Control(c, HandlePacket(c, s, p).0)
  {
    if p.Oversized? || p.Malformed? {
      HandleAcceptedControl(c, s, p);
    } else if s.link.closed || !Accepts(c, s, p) || ValidateAck(s.sess.inflight, p).Some? {
      RefusedControl(c, s, p);
    } else if IsAck(p) {
      HandleAckPanel(c, s, p);
    } else {
      HandleAcceptedControl(c, s, p);
    }
  }

  lemma ParseOneControl(c: Options, s: Engine)
    requires Control(c, s) && s.link.parser != []
    ensures Control(c, ParseOne(c, s))
  {
    var p, s0 := s.link.parser[0], s.(link := s.link.(parser := s.link.parser[1..]));
    assert PanelOf(s0) == PanelOf(s);
    HandlePacketControl(c, s0, p);
    HandlePacketResponse(c, s0, p);
    var (s1, events, responses) := HandlePacket(c, s0, p);
    var s2 := Record(s1, events, responses);
    assert PanelOf(s2) == PanelOf(s1).(quiet := s2.link.responses == []);
    FlushControl(c, s2);
  }

  lemma {:induction false} ParseLoopControl(c: Options, s: Engine)
    requires Control(c, s)
    ensures Control(c, ParseLoop(c, s))
    decreases Potential(s)
  {
    if !ParserPaused(c, s) {
      ParseOneControl(c, s);
      ParseOnePotential(c, s);
      ParseLoopControl(c, ParseOne(c, s));
    }
  }

  lemma IngestControl(c: Options, s: Engine, data: seq<Incoming>)
    requires Control(c, s)
    ensures Control(c, Ingest(c, s, data))
  {
    if !s.link.closed {
      var s0 := s.(link := s.link.(parser := s.link.parser + data));
      assert PanelOf(s0) == PanelOf(s);
      FlushControl(c, s0);
      ParseLoopControl(c, Flush(c, s0));
      ProcessQueueControl(c, ParseLoop(c, Flush(c, s0)), None);
    }
  }

  lemma RefillControl(c: Options, s: Engine)
    requires Control(c, s)
    ensures Control(c, Refill(c, s))
  {
    var s0 := s.(link := s.link.(out := []));
    assert PanelOf(s0) == PanelOf(s);
    FlushControl(c, s0);
    IngestControl(c, Flush(c, s0), []);
    ProcessQueueControl(c, Ingest(c, Flush(c, s0), []), None);
  }

  lemma {:induction false} TakeOutputControl(c: Options, s: Engine)
    requires Control(c, s)
    ensures Control(c, TakeOutput(c, s).0)
    decreases Potential(s) - |s.link.out|
  {
    RefillControl(c, s);
    RefillPotential(c, s);
    if Refill(c, s).link.out != [] { TakeOutputControl(c, Refill(c, s)); }
  }

  // ----- Time -----

  lemma {:induction false} ExpireAllControl(c: Options, s: Engine, ds: seq<Deadline>)
    requires Control(c, s)
    ensures Control(c, ExpireAll(c, s, ds))
    decreases ds
  {
    if ds == [] {
    } else {
      ExpireOneControl(c, s, ds[0]);
      ExpireAllControl(c, ExpireOne(c, s, ds[0]), ds[1..]);
    }
  }

  lemma ExpireOneControl(c: Options, s: Engine, d: Deadline)
    requires Control(c, s)
    ensures Control(c, ExpireOne(c, s, d))
  {
    var s1 := s.(
      clock := s.clock.(deadlines := DropDeadline(s.clock.deadlines, d.kind, d.id)),
      events := s.events + [OperationFailed(d.kind, d.id, OperationTimeout)]);
    assert PanelOf(s1) == PanelOf(s);
    if d.kind == ConnectOp { ConnectionLostControl(c, s1, s1.clock.now); }
  }

  lemma {:induction false} ResendAllPanel(c: Options, s: Engine, xs: seq<Resend>)
    ensures PanelOf(ResendAll(c, s, xs)) == PanelOf(s)
    decreases xs
  {
    if xs == [] {
    } else {
      var r := ResendOne(c, s, xs[0]);
      assert PanelOf(r) == PanelOf(s);
      ResendAllPanel(c, r, xs[1..]);
    }
  }

  lemma RetransmissionsPanel(c: Options, s: Engine)
    ensures PanelOf(Retransmissions(c, s)) == PanelOf(s)
  {
    var s1 := s.(sess := s.sess.(inflight := Expired(LineOf(c), s.sess.inflight, s.clock.now)));
    assert PanelOf(s1) == PanelOf(s);
    ResendAllPanel(c, s1, DueResends(s.sess.inflight, s.clock.now));
  }

  lemma TickConnectedControl(c: Options, s: Engine)
    requires Control(c, s)
    ensures Control(c, TickConnected(c, s).0)
  {
    if PingOverdue(c, s) {
      ConnectionLostControl(c, s, s.clock.now);
    } else {
      var s1 := if PingDue(c, s) then DoPing(c, s).0 else s;
      DoPingPanel(c, s);
      ProcessQueueControl(c, s1, None);
      RetransmissionsPanel(c, ProcessQueue(c, s1, None));
    }
  }

  lemma DoTickControl(c: Options, s: Engine)
    requires Control(c, s)
    ensures Control(c, DoTick(c, s).0)
  {
    var due := DueDeadlines(s.clock.deadlines, s.clock.now);
    ExpireAllControl(c, s, due);
    FlushControl(c, ExpireAll(c, s, due));
    var s1 := Flush(c, ExpireAll(c, s, due));
    if s1.link.connected { TickConnectedControl(c, s1); }
  }

  // ----- Steps and runs -----

  lemma DoAuthControl(c: Options, s: Engine, reason: nat, methods: seq<string>)
    requires Control(c, s)
    ensures Control(c, DoAuth(c, s, reason, methods).0)
  {
    if AuthError(c, s, reason, methods).None? {
      assert OnlyMethod(c, AuthMethods(c, methods));
    }
  }

  lemma DoDisconnectControl(c: Options, s: Engine, reason: nat)
    requires Control(c, s)
    ensures Control(c, DoDisconnect(c, s, reason).0)
  {
  }

  lemma DoEnqueuePanel(c: Options, s: Engine, p: Packet)
    ensures PanelOf(DoEnqueue(c, s, p).0) == PanelOf(s)
  {
  }

  lemma DoPingPanel(c: Options, s: Engine)
    ensures PanelOf(DoPing(c, s).0) == PanelOf(s)
  {
  }

  lemma SetReconnectControl(c: Options, s: Engine, enabled: bool)
    requires Control(c, s)
    ensures Control(c, SetReconnect(s, enabled))
  {
  }

  lemma LocalControl(c: Options, s: Engine, i: Input)
    requires Control(c, s) && IsLocal(i)
    ensures Control(c, ApplyLocal(c, s, i))
  {
    match i
    case AuthInput(reason, methods) => DoAuthControl(c, s, reason, methods);
    case ScheduleInput => ScheduleControl(c, s, s.clock.now);
    case DisconnectInput(reason) => DoDisconnectControl(c, s, reason);
    case PingInput => DoPingPanel(c, s);
    case PacketInput(packet) => DoEnqueuePanel(c, s, packet);
    case ReconnectInput(enabled) => SetReconnectControl(c, s, enabled);
    case EventsInput => EventsControl(c, s);
  }

  lemma CommandControl(c: Options, s: Engine, i: Input)
    requires Control(c, s) && (i.ConnectInput? || i.PublishInput? || i.RequestInput? || i.LostInput? || i.ResetInput?)
    ensures Control(c, Apply(c, s, i))
  {
    match i
    case ConnectInput => DoConnectControl(c, s);
    case PublishInput(cmd) => DoPublishControl(c, s, cmd);
    case RequestInput(kind, requested, filters, refused) => DoRequestPanel(c, s, kind, requested, filters, refused);
    case _ => EndControl(c, s, i);
  }

  lemma EndControl(c: Options, s: Engine, i: Input)
    requires Control(c, s) && (i.LostInput? || i.ResetInput?)
    ensures Control(c, Apply(c, s, i))
  {
    if i.LostInput? { ConnectionLostControl(c, s, s.clock.now); } else { ResetControl(c, s); }
  }

  lemma EventsControl(c: Options, s: Engine)
    requires Control(c, s)
    ensures Control(c, s.(events := []))
  {
    assert PanelOf(s.(events := [])) == PanelOf(s);
  }

  lemma DataControl(c: Options, s: Engine, data: seq<Incoming>)
    requires Control(c, s)
    ensures Control(c, Apply(c, s, DataInput(data)))
  {
    IngestControl(c, s, data);
    EventsControl(c, Ingest(c, s, data));
  }

  lemma TickControl(c: Options, s: Engine)
    requires Control(c, s)
    ensures Control(c, Apply(c, s, TickInput))
  {
    DoTickControl(c, s);
    EventsControl(c, DoTick(c, s).0);
  }

  lemma ProgressControl(c: Options, s: Engine, i: Input)
    requires Control(c, s) && (i.DataInput? || i.TakeInput? || i.TickInput?)
    ensures Control(c, Apply(c, s, i))
  {
    match i
    case DataInput(data) => DataControl(c, s, data);
    case TakeInput => TakeOutputControl(c, s);
    case TickInput => TickControl(c, s);
  }

  lemma ApplyControl(c: Options, s: Engine, i: Input)
    requires Control(c, s)
    ensures Control(c, Apply(c, s, i))
  {
    if IsLocal(i) {
      LocalControl(c, s, i);
    } else if i.DataInput? || i.TakeInput? || i.TickInput? {
      ProgressControl(c, s, i);
    } else {
      CommandControl(c, s, i);
    }
  }

  lemma {:induction false} RunControl(c: Options, s: Engine, ts: seq<Timed>)
    requires Control(c, s)
    ensures Control(c, Run(c, s, ts))
    decreases ts
  {
    if ts == [] {
    } else {
      if TimeAccepted(c, s, ts[0].now) {
        assert PanelOf(At(s, ts[0].now)) == PanelOf(s);
        ApplyControl(c, At(s, ts[0].now), ts[0].input);
      }
      RunControl(c, Step(c, s, ts[0]), ts[1..]);
    }
  }

  lemma InitialControl(c: Options, now: Time)
    ensures Control(c, Initial(c, now))
  {
  }

  // ----- Back-off -----

  lemma {:induction false} Pow2Monotone(m: nat, n: nat)
    requires m <= n
    ensures Pow2(m) <= Pow2(n)
    decreases n
  {
    if m < n { Pow2Monotone(m, n - 1); }
  }

  lemma ScaleMonotone(base: nat, x: nat, y: nat)
    requires x <= y
    ensures base * x <= base * y
  {
  }

  /** Delays never shrink, never exceed the maximum, and stop growing after the tenth doubling. */
  lemma BackoffMonotone(c: Options, m: nat, n: nat)
    requires m <= n
    ensures Backoff(c, m) <= Backoff(c, n) <= c.maxDelayMs
    ensures m >= 10 ==> Backoff(c, m) == Backoff(c, n)
  {
    Pow2Monotone(Min(m, 10), Min(n, 10));
    ScaleMonotone(c.baseDelayMs, Pow2(Min(m, 10)), Pow2(Min(n, 10)));
  }

  /** On every run, the delays scheduled since the last success are the back-off sequence from its start,
      non-decreasing until the attempt counter wraps; a bound on attempts bounds their number; and the
      application was told to reconnect at most once per scheduled attempt. */
  lemma BackoffOverRuns(c: Options, now: Time, ts: seq<Timed>)
    ensures
      var s := Run(c, Initial(c, now), ts);
      && (forall n :: 0 <= n < |s.hist.delays| ==>
            s.hist.delays[n] == Min(c.baseDelayMs * Pow2(Min(n % ATTEMPT_WRAP, 10)), c.maxDelayMs) <= c.maxDelayMs)
      && (forall m, n :: 0 <= m <= n < |s.hist.delays| && n < ATTEMPT_WRAP ==> s.hist.delays[m] <= s.hist.delays[n])
      && (0 < c.maxAttempts < ATTEMPT_WRAP ==> |s.hist.delays| <= c.maxAttempts)
      && s.hist.needed + (if s.clock.nextReconnect.Some? then 1 else 0) <= s.hist.scheduled
  {
    InitialControl(c, now);
    RunControl(c, Initial(c, now), ts);
    var delays := Run(c, Initial(c, now), ts).hist.delays;
    forall m, n | 0 <= m <= n < |delays| && n < ATTEMPT_WRAP ensures delays[m] <= delays[n] {
      NextAttempt(m);
      NextAttempt(n);
      BackoffMonotone(c, m, n);
    }
  }

  /** Losing the connection again before the pending attempt was signalled schedules nothing more. */
  lemma LossSchedulesOnce(c: Options, s: Engine, now: Time, later: Time)
    requires ConnectionLost(c, s, now).clock.nextReconnect.Some?
    ensures
      var r := ConnectionLost(c, s, now);
      var t := ConnectionLost(c, r, later);
      && t.clock.nextReconnect == r.clock.nextReconnect && t.clock.attempts == r.clock.attempts
      && t.hist.delays == r.hist.delays && t.hist.scheduled == r.hist.scheduled
  {
    var r := ConnectionLost(c, s, now);
    ResetPanel(c, r);
    assert LogOf(Reset(c, r).hist) == LogOf(r.hist);
  }

  // ----- Re-authentication -----

  /** On every run: a connection has one unfinished re-authentication or none, successes never outnumber
      starts, and every AUTH of the connection, in either direction, carries the method of its CONNECT. */
  lemma ReauthOverRuns(c: Options, now: Time, ts: seq<Timed>)
    ensures
      var s := Run(c, Initial(c, now), ts);
      && (s.link.reauth ==> s.link.connected && s.hist.reauths == s.hist.successes + 1)
      && (s.link.connected && !s.link.reauth ==> s.hist.reauths == s.hist.successes)
      && s.hist.successes <= s.hist.reauths <= s.hist.successes + 1
      && forall ms :: ms in s.hist.authMethods ==> OnlyMethod(c, ms)
  {
    InitialControl(c, now);
    RunControl(c, Initial(c, now), ts);
  }

  // ----- The negotiated limit -----

  /** The limit in force respects the Receive Maximum of the server, on every run, if and only if the
      configured maximum is not zero: a configured zero makes the engine ignore what the server asks for. */
  lemma ServerLimitIff(c: Options, now: Time, ts: seq<Timed>)
    requires
      var s := Run(c, Initial(c, now), ts);
      s.link.connected && s.hist.serverMaximum.Some? && s.hist.serverMaximum.value < MAX_ID
    ensures
      var s := Run(c, Initial(c, now), ts);
      s.sess.inflight.limit <= s.hist.serverMaximum.value <==> c.receiveMaximum != 0
  {
    InitialControl(c, now);
    RunControl(c, Initial(c, now), ts);
  }

  // ----- Gating and order -----

  /** On every run: between CONNECT and CONNACK nothing is emitted; on a connection all replay goes out before
      the first packet of the queue; the queue is in priority order. */
  lemma GatingOverRuns(c: Options, now: Time, ts: seq<Timed>)
    ensures
      var s := Run(c, Initial(c, now), ts);
      && (s.link.connecting ==> s.hist.emitted == [])
      && Phased(s.hist.emitted)
      && (s.link.connected && s.sess.replay != [] ==> NoneQueued(s.hist.emitted))
      && Descending(s.sess.queue)
  {
    InitialControl(c, now);
    RunControl(c, Initial(c, now), ts);
  }

  /** On every run, publications of one priority leave the queue in the order in which they were accepted, over all
      connections; and what still waits was accepted after whatever left with its priority. */
  lemma ArrivalOrderOverRuns(c: Options, now: Time, ts: seq<Timed>)
    ensures
      var s := Run(c, Initial(c, now), ts);
      InOrder(s.hist.arrivals.departures) && OrderOk(s.sess.queue, s.hist.arrivals)
  {
    InitialControl(c, now);
    RunControl(c, Initial(c, now), ts);
  }

  /** What is sent from the queue has the highest priority of all that wait, and departs with the arrival number of
      the head. */
  lemma EmittedIsHighest(c: Options, s: Engine, encoding: Option<Bytes>, x: Ranked<Packet>)
    requires Control(c, s) && EmitReady(c, s) && x in s.sess.queue
    ensures
      var r := EmitOne(c, s, encoding);
      || (r.hist.emitted == s.hist.emitted && r.hist.arrivals.departures == s.hist.arrivals.departures)
      || (&& s.hist.arrivals.stamps != [] && s.sess.queue[0].priority >= x.priority
          && r.hist.emitted == s.hist.emitted + [FromQueue(s.sess.queue[0])]
          && r.hist.arrivals.departures
             == s.hist.arrivals.departures + [Departure(s.sess.queue[0].priority, s.hist.arrivals.stamps[0])])
  {
    EmitOnePanel(c, s, encoding);
    var r := EmitOne(c, s, encoding);
    assert LogOf(r.hist).emitted == r.hist.emitted && LogOf(r.hist).arrivals == r.hist.arrivals;
  }

  /** No connection and no attempt at one. */
  ghost predicate Down(s: Engine) {
    !s.link.connected && !s.link.connecting && s.link.responses == []
  }

  /** Down before and after, and nothing was emitted in between. */
  ghost predicate Silent(s: Engine, r: Engine) {
    Down(r) && r.hist.emitted == s.hist.emitted
  }

  lemma LossSilent(c: Options, s: Engine, now: Time)
    ensures Silent(s, ConnectionLost(c, s, now)) && Silent(s, Reset(c, s))
  {
    ResetPanel(c, s);
    assert LogOf(Reset(c, s).hist).emitted == LogOf(s.hist).emitted;
  }

  lemma FailSilent(c: Options, s: Engine, e: Error)
    ensures Silent(s, FailConnection(c, s, e))
  {
    LossSilent(c, s, s.clock.now);
  }

  lemma FlushSilent(c: Options, s: Engine)
    requires Down(s)
    ensures Flush(c, s) == s && ProcessQueue(c, s, None) == s
  {
  }

  lemma ParseOneSilent(c: Options, s: Engine)
    requires Down(s) && s.link.parser != []
    ensures Silent(s, ParseOne(c, s))
  {
    var p, s0 := s.link.parser[0], s.(link := s.link.(parser := s.link.parser[1..]));
    FailSilent(c, s0, ProtocolViolation);
    FailSilent(c, s0, BufferFull);
    var (s1, events, responses) := HandlePacket(c, s0, p);
    assert Silent(s0, s1) && responses == [];
    FlushSilent(c, Record(s1, events, responses));
  }

  lemma {:induction false} ParseLoopSilent(c: Options, s: Engine)
    requires Down(s)
    ensures Silent(s, ParseLoop(c, s))
    decreases Potential(s)
  {
    if !ParserPaused(c, s) {
      ParseOneSilent(c, s);
      ParseOnePotential(c, s);
      ParseLoopSilent(c, ParseOne(c, s));
    }
  }

  lemma IngestSilent(c: Options, s: Engine, data: seq<Incoming>)
    requires Down(s)
    ensures Silent(s, Ingest(c, s, data))
  {
    var s0 := s.(link := s.link.(parser := s.link.parser + data));
    FlushSilent(c, s0);
    ParseLoopSilent(c, s0);
    FlushSilent(c, ParseLoop(c, s0));
  }

  lemma {:induction false} TakeOutputSilent(c: Options, s: Engine)
    requires Down(s)
    ensures Silent(s, TakeOutput(c, s).0)
    decreases Potential(s) - |s.link.out|
  {
    var s0 := s.(link := s.link.(out := []));
    FlushSilent(c, s0);
    IngestSilent(c, s0, []);
    FlushSilent(c, Ingest(c, s0, []));
    assert Refill(c, s) == Ingest(c, s0, []);
    RefillPotential(c, s);
    if Refill(c, s).link.out != [] { TakeOutputSilent(c, Refill(c, s)); }
  }

  lemma {:induction false} ExpireAllSilent(c: Options, s: Engine, ds: seq<Deadline>)
    requires Down(s)
    ensures Silent(s, ExpireAll(c, s, ds))
    decreases ds
  {
    if ds == [] {
    } else {
      var s1 := s.(
        clock := s.clock.(deadlines := DropDeadline(s.clock.deadlines, ds[0].kind, ds[0].id)),
        events := s.events + [OperationFailed(ds[0].kind, ds[0].id, OperationTimeout)]);
      LossSilent(c, s1, s1.clock.now);
      ExpireAllSilent(c, ExpireOne(c, s, ds[0]), ds[1..]);
    }
  }

  lemma DoTickSilent(c: Options, s: Engine)
    requires Down(s)
    ensures Silent(s, DoTick(c, s).0)
  {
    var due := DueDeadlines(s.clock.deadlines, s.clock.now);
    ExpireAllSilent(c, s, due);
    FlushSilent(c, ExpireAll(c, s, due));
  }

  lemma LocalSilent(c: Options, s: Engine, i: Input)
    requires Down(s) && IsLocal(i)
    ensures Silent(s, ApplyLocal(c, s, i))
  {
  }

  /** From the loss of a connection to the next CONNECT no operation emits anything, whatever the peer sends
      and whatever is queued; and the next CONNECT starts with an empty log. */
  lemma DownIsSilent(c: Options, s: Engine, i: Input)
    requires Down(s)
    ensures
      var r := Apply(c, s, i);
      Silent(s, r) || (i.ConnectInput? && r.link.connecting && r.hist.emitted == [])
  {
    match i
    case ConnectInput =>
    case PublishInput(cmd) => DoPublishSilent(c, s, cmd);
    case RequestInput(kind, requested, filters, refused) => DoRequestSilent(c, s, kind, requested, filters, refused);
    case DataInput(data) => IngestSilent(c, s, data);
    case TakeInput => TakeOutputSilent(c, s);
    case TickInput => DoTickSilent(c, s);
    case LostInput => LossSilent(c, s, s.clock.now);
    case ResetInput => LossSilent(c, s, s.clock.now);
    case _ => LocalSilent(c, s, i);
  }

  lemma DoPublishSilent(c: Options, s: Engine, cmd: Command)
    requires Down(s)
    ensures Silent(s, DoPublish(c, s, cmd).0)
  {
    var (s1, a) := Decide(c, s, cmd);
    DecidePanel(c, s, cmd);
    if a.Accepted? {
      var r := Admit(s1, a.packet, cmd.priority, a.id, a.alias, a.bytes);
      AdmitPanel(s1, a.packet, cmd.priority, a.id, a.alias, a.bytes);
      assert LogOf(r.hist).emitted == LogOf(s1.hist).emitted;
    }
  }

  lemma DoRequestSilent(c: Options, s: Engine, kind: Kind, requested: Option<u16>, filters: seq<string>, refused: bool)
    requires Down(s)
    ensures Silent(s, DoRequest(c, s, kind, requested, filters, refused).0)
  {
  }
}
