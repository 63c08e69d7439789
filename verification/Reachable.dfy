/** What holds after every run of the engine, for every caller and every peer. */
module Reachable {
  import opened Basics
  import opened Timestamps
  import opened Packets
  import opened PriorityQueues
  import opened InflightQueues
  import opened EngineModel
  import opened EngineRuns
  import opened SessionBooks
  import opened SessionInvariant
  import opened TimeRange
  import opened FlowControl
  import opened SendQuota
  import opened Safety
  import opened ConnectionControl
  import opened Timers

  /** The invariant of all runs. */
  ghost predicate Healthy(c: Options, s: Engine) {
    Always(c, s) && Flow(s) && Control(c, s) && Quiet(c, s) && Fine(c, s)
  }

  lemma ApplyHealthy(c: Options, s: Engine, i: Input)
    requires Codec(c) && Healthy(c, s)
    ensures Healthy(c, Apply(c, s, i))
  {
    ApplyTimely(c, s, i);
    ApplyFlow(c, s, i);
    ApplyControl(c, s, i);
    ApplyQuiet(c, s, i);
    ApplyFine(c, s, i);
  }

  // ----- The same, operation by operation -----

  lemma ConnectHealthy(c: Options, s: Engine)
    requires Codec(c) && Healthy(c, s)
    ensures Healthy(c, DoConnect(c, s).0)
  {
    DoConnectSteady(c, s);
    DoConnectFlow(c, s);
    DoConnectControl(c, s);
    DoConnectQuiet(c, s);
    DoConnectFine(c, s);
  }

  lemma PublishHealthy(c: Options, s: Engine, cmd: Command)
    requires Codec(c) && Healthy(c, s)
    ensures Healthy(c, DoPublish(c, s, cmd).0)
  {
    DoPublishTimely(c, s, cmd);
    DoPublishFlow(c, s, cmd);
    DoPublishControl(c, s, cmd);
    DoPublishQuiet(c, s, cmd);
    DoPublishFine(c, s, cmd);
  }

  lemma RequestHealthy(c: Options, s: Engine, kind: Kind, requested: Option<u16>, filters: seq<string>, refused: bool)
    requires Codec(c) && Healthy(c, s)
    ensures Healthy(c, DoRequest(c, s, kind, requested, filters, refused).0)
  {
    DoRequestSteady(c, s, kind, requested, filters, refused);
    DoRequestFlow(c, s, kind, requested, filters, refused);
    DoRequestPanel(c, s, kind, requested, filters, refused);
    DoRequestQuiet(c, s, kind, requested, filters, refused);
    DoRequestFine(c, s, kind, requested, filters, refused);
  }

  lemma DisconnectHealthy(c: Options, s: Engine, reason: nat)
    requires Codec(c) && Healthy(c, s)
    ensures Healthy(c, DoDisconnect(c, s, reason).0)
  {
    DoDisconnectSteady(c, s, reason);
    LocalFlow(c, s, DisconnectInput(reason));
    DoDisconnectControl(c, s, reason);
    DoDisconnectQuiet(c, s, reason);
    LocalFine(c, s, DisconnectInput(reason));
  }

  lemma AuthHealthy(c: Options, s: Engine, reason: nat, methods: seq<string>)
    requires Codec(c) && Healthy(c, s)
    ensures Healthy(c, DoAuth(c, s, reason, methods).0)
  {
    DoAuthSteady(c, s, reason, methods);
    LocalFlow(c, s, AuthInput(reason, methods));
    DoAuthControl(c, s, reason, methods);
    DoAuthQuiet(c, s, reason, methods);
    LocalFine(c, s, AuthInput(reason, methods));
  }

  lemma PingHealthy(c: Options, s: Engine)
    requires Codec(c) && Healthy(c, s)
    ensures Healthy(c, DoPing(c, s).0)
  {
    DoPingSteady(c, s);
    DoPingFlow(c, s);
    DoPingPanel(c, s);
    DoPingQuiet(c, s);
    DoPingFine(c, s);
  }

  lemma EnqueueHealthy(c: Options, s: Engine, p: Packet)
    requires Codec(c) && Healthy(c, s)
    ensures Healthy(c, DoEnqueue(c, s, p).0)
  {
    DoEnqueueSteady(c, s, p);
    LocalFlow(c, s, PacketInput(p));
    DoEnqueuePanel(c, s, p);
    DoEnqueueQuiet(c, s, p);
    LocalFine(c, s, PacketInput(p));
  }

  lemma DataHealthy(c: Options, s: Engine, data: seq<Incoming>)
    requires Codec(c) && Healthy(c, s)
    ensures Healthy(c, Ingest(c, s, data).(events := []))
  {
    var r := Ingest(c, s, data);
    IngestTimely(c, s, data);
    IngestFlow(c, s, data);
    IngestControl(c, s, data);
    EventsControl(c, r);
    IngestQuiet(c, s, data);
    EventsQuiet(c, r);
    IngestFine(c, s, data);
    EventsFine(c, r);
  }

  lemma TakeHealthy(c: Options, s: Engine)
    requires Codec(c) && Healthy(c, s)
    ensures Healthy(c, TakeOutput(c, s).0)
  {
    TakeOutputTimely(c, s);
    TakeOutputFlow(c, s);
    TakeOutputControl(c, s);
    TakeOutputQuiet(c, s);
    TakeOutputFine(c, s);
  }

  lemma TickHealthy(c: Options, s: Engine)
    requires Codec(c) && Healthy(c, s)
    ensures Healthy(c, DoTick(c, s).0.(events := []))
  {
    var r := DoTick(c, s).0;
    DoTickTimely(c, s);
    DoTickFlow(c, s);
    DoTickControl(c, s);
    EventsControl(c, r);
    DoTickQuiet(c, s);
    EventsQuiet(c, r);
    DoTickFine(c, s);
    EventsFine(c, r);
  }

  lemma LossHealthy(c: Options, s: Engine)
    requires Codec(c) && Healthy(c, s)
    ensures Healthy(c, ConnectionLost(c, s, s.clock.now))
  {
    ConnectionLostSteady(c, s);
    LossFlow(c, s, ProtocolViolation);
    ConnectionLostControl(c, s, s.clock.now);
    LostIsQuiet(c, s, s.clock.now);
    ConnectionLostFine(c, s);
  }

  lemma ResetHealthy(c: Options, s: Engine)
    requires Codec(c) && Healthy(c, s)
    ensures Healthy(c, Reset(c, s))
  {
    ResetSteady(c, s);
    LossFlow(c, s, ProtocolViolation);
    ResetControl(c, s);
    LostIsQuiet(c, s, s.clock.now);
    ResetFine(c, s);
  }

  lemma ReconnectHealthy(c: Options, s: Engine, enabled: bool)
    requires Codec(c) && Healthy(c, s)
    ensures Healthy(c, SetReconnect(s, enabled))
  {
    SetReconnectSteady(c, s, enabled);
    LocalFlow(c, s, ReconnectInput(enabled));
    SetReconnectControl(c, s, enabled);
    SetReconnectQuiet(c, s, enabled);
    LocalFine(c, s, ReconnectInput(enabled));
  }

  lemma EventsHealthy(c: Options, s: Engine)
    requires Codec(c) && Healthy(c, s)
    ensures Healthy(c, s.(events := []))
  {
    SetReconnectSteady(c, s, true);
    EventsControl(c, s);
    EventsQuiet(c, s);
    EventsFine(c, s);
  }

  lemma AtHealthy(c: Options, s: Engine, now: Time)
    requires Healthy(c, s) && TimeAccepted(c, s, now)
    ensures Healthy(c, At(s, now))
  {
    AtAlways(c, s, now);
    AtQuiet(c, s, now);
    AtFine(c, s, now);
    assert PanelOf(At(s, now)) == PanelOf(s);
  }

  lemma InitialHealthy(c: Options, now: Time)
    requires Horizon(c, now)
    ensures Healthy(c, Initial(c, now))
  {
    InitialAlways(c, now);
    InitialFlow(c, now);
    InitialControl(c, now);
    InitialQuiet(c, now);
    InitialFine(c, now);
  }

  lemma StepHealthy(c: Options, s: Engine, t: Timed)
    requires Codec(c) && Healthy(c, s)
    ensures Healthy(c, Step(c, s, t))
  {
    if TimeAccepted(c, s, t.now) {
      AtHealthy(c, s, t.now);
      ApplyHealthy(c, At(s, t.now), t.input);
    }
  }

  lemma {:induction false} RunHealthy(c: Options, s: Engine, ts: seq<Timed>)
    requires Codec(c) && Healthy(c, s)
    ensures Healthy(c, Run(c, s, ts))
    decreases ts
  {
    if ts == [] {
    } else {
      StepHealthy(c, s, ts[0]);
      RunHealthy(c, Step(c, s, ts[0]), ts[1..]);
    }
  }

  lemma Reached(c: Options, now: Time, ts: seq<Timed>)
    requires Codec(c) && Horizon(c, now)
    ensures Healthy(c, Run(c, Initial(c, now), ts))
  {
    InitialHealthy(c, now);
    RunHealthy(c, Initial(c, now), ts);
  }

  // ----- Conservation -----

  /** No publication was admitted under a parked identifier, and no rejected unacknowledged publication carried an
      identifier that was queued, in flight or deferred. */
  predicate NoClash(s: Engine) {
    forall pt :: pt in s.hist.points ==> !Clash(pt)
  }

  /** Every admission and every rejection did what it should, and the law holds now. */
  ghost predicate LawKept(s: Engine) {
    Conserved(s) && forall pt :: pt in s.hist.points ==> Lawful(pt)
  }

  lemma HealthyLaw(c: Options, s: Engine)
    requires Healthy(c, s)
    ensures LawKept(s) <==> NoClash(s)
    ensures NoClash(s) ==> Whole(c, s)
  {
    if Broken(c, s) {
      var pt :| pt in s.hist.points && Fatal(c, pt);
    } else {
      InvConserved(c, s);
    }
  }

  /** On every run, the conservation law holds throughout if and only if no identifier clashed. */
  lemma ConservationIff(c: Options, now: Time, ts: seq<Timed>)
    requires Codec(c) && Horizon(c, now)
    ensures
      var s := Run(c, Initial(c, now), ts);
      LawKept(s) <==> NoClash(s)
  {
    Reached(c, now, ts);
    HealthyLaw(c, Run(c, Initial(c, now), ts));
  }

  /** No publication without acknowledgement carries an identifier. */
  predicate PlainPublishes(ts: seq<Timed>) {
    forall t :: t in ts ==> !NumbersPlain(t.input)
  }

  /** With session tracking, and no identifiers on unacknowledged publications, nothing ever clashes. */
  lemma ConservationWithSessions(c: Options, now: Time, ts: seq<Timed>)
    requires Codec(c) && Horizon(c, now) && !c.sessionless && PlainPublishes(ts)
    ensures
      var s := Run(c, Initial(c, now), ts);
      NoClash(s) && LawKept(s)
  {
    var s := Run(c, Initial(c, now), ts);
    Reached(c, now, ts);
    InitialAlways(c, now);
    RunPlain(c, Initial(c, now), ts);
    HealthyLaw(c, s);
    PlainTracked(c, s);
  }

  lemma PlainTracked(c: Options, s: Engine)
    requires !c.sessionless && Plain(s) && Fine(c, s)
    ensures NoClash(s)
  {
    forall pt | pt in s.hist.points ensures !Fatal(c, pt) {
      if pt.Rejected? { assert Unnumbered(pt.packet); }
    }
  }

  /** On every run: tracking a publication, which the implementation takes for granted, fails exactly for those sent
      while their identifier was still in flight, and never if no identifier clashed. */
  lemma TrackingOverRuns(c: Options, now: Time, ts: seq<Timed>)
    requires Codec(c) && Horizon(c, now)
    ensures
      var s := Run(c, Initial(c, now), ts);
      s.hist.failures == s.hist.reused && (NoClash(s) ==> s.hist.failures == [])
  {
    Reached(c, now, ts);
    HealthyLaw(c, Run(c, Initial(c, now), ts));
  }

  /** On every run without a clash, as many publications were reported as tickets were finished by the peer, and no
      ticket twice. */
  lemma ReportsOverRuns(c: Options, now: Time, ts: seq<Timed>)
    requires Codec(c) && Horizon(c, now)
    ensures
      var s := Run(c, Initial(c, now), ts);
      NoClash(s) ==> s.hist.reports == |s.hist.tickets.published| && NoDup(s.hist.tickets.published)
  {
    Reached(c, now, ts);
    var s := Run(c, Initial(c, now), ts);
    HealthyLaw(c, s);
    if NoClash(s) {
      NoDupAppend(s.hist.tickets.published, s.hist.tickets.failed);
    }
  }

  // ----- Flow control -----

  /** On every run without a clash, every connection follows the send-quota algorithm of section 4.9 exactly. What
      bounds the publications in flight on all runs is `FlowControl.FlowOverRuns`. */
  lemma SendQuotaOverRuns(c: Options, now: Time, ts: seq<Timed>)
    requires Codec(c) && Horizon(c, now)
    ensures
      var s := Run(c, Initial(c, now), ts);
      var q, k := s.sess.inflight, s.hist.credit;
      NoClash(s) && s.link.connected ==>
        && k.sendQuota + q.quota == q.limit
        && (Publishes(q.items) <= q.limit <==> k.debt <= k.sendQuota + ChargedReleases(q.items, k.uncharged))
  {
    Reached(c, now, ts);
    var s := Run(c, Initial(c, now), ts);
    HealthyLaw(c, s);
    if NoClash(s) && s.link.connected { ReceiveMaximumIff(s.sess.inflight, s.hist); }
  }

  // ----- The queue -----

  /** On every run, clash or not: the queue is within its capacity, so the bounded queue never evicts; the byte count
      is exact and no subtraction from it ever saturated; and, with an encoder as the implementation takes it to be,
      every queued packet can be encoded now and after a reset, and no reset ever met one that could not. */
  lemma QueueOverRuns(c: Options, now: Time, ts: seq<Timed>)
    requires Horizon(c, now)
    ensures
      var s := Run(c, Initial(c, now), ts);
      var queue := s.sess.queue;
      && |queue| <= c.maxPackets && s.sess.queuedBytes == QueueLength(c, queue) && s.hist.shortfall == 0
      && (Codec(c) ==>
            && (forall x :: x in queue ==> c.encode(x.item).Some? && c.encode(StripAliases(x.item)).Some?)
            && s.hist.unencodable == 0)
  {
    InitialAlways(c, now);
    RunTimely(c, Initial(c, now), ts);
  }
}
