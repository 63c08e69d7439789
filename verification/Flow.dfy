/** Flow control on every run: how many exchanges in flight took a unit of quota, and when the Receive Maximum bounds
    the publications in flight. Nothing is asked of the caller, the peer or the encoder. */
module FlowControl {
  import opened Basics
  import opened Timestamps
  import opened Packets
  import opened PriorityQueues
  import opened InflightQueues
  import opened EngineModel
  import opened EngineRuns
  import opened SessionBooks
  import opened SessionInvariant
  import opened Commands
  import opened Resumption
  import opened IncomingPackets
  import opened TimeRange

  /** No release was replayed on this connection. */
  ghost predicate NoReleaseReplayed(emitted: seq<Emission>) {
    forall e :: e in emitted && e.FromReplay? ==> !e.held.packet.PubRel?
  }

  /** The exchanges in flight that took a unit of quota. */
  function Charged(items: seq<Entry>, free: set<nat>): (n: nat) {
    if items == [] then 0
    else (if IsExchange(items[0].packet) && items[0].id !in free then 1 else 0) + Charged(items[1..], free)
  }

  /** The charged exchanges that reached their release. */
  function ChargedReleases(items: seq<Entry>, free: set<nat>): (n: nat) {
    if items == [] then 0
    else (if items[0].packet.PubRel? && items[0].id !in free then 1 else 0) + ChargedReleases(items[1..], free)
  }

  /** The exchanges that took no quota are releases in flight. */
  ghost predicate FreeReleases(items: seq<Entry>, free: set<nat>) {
    && (forall e :: e in items && e.id in free ==> e.packet.PubRel?)
    && (forall id :: id in free ==> id in Ids(Snapshot(items)))
  }

  /** The quota in use is within the limit; the exchanges that took quota are the quota in use and the debt; and there
      is no debt while no release was replayed. */
  ghost predicate FlowOk(q: Inflight, h: History) {
    && q.quota <= q.limit
    && Charged(q.items, h.credit.uncharged) == q.quota + h.credit.debt
    && FreeReleases(q.items, h.credit.uncharged)
    && (NoReleaseReplayed(h.emitted) ==> h.credit.uncharged == {} && h.credit.debt == 0)
  }

  /** Nothing is deferred, and every exchange in flight is captured. */
  ghost predicate Captive(q: Session) {
    q.replay == [] && forall id :: id in ExchangeIds(Snapshot(q.inflight.items)) ==> id in Ids(q.previous)
  }

  ghost predicate Flow(s: Engine) {
    && (s.link.connecting ==> !s.link.connected && Captive(s.sess))
    && (s.link.connected ==> FlowOk(s.sess.inflight, s.hist))
  }

  // ----- Counting -----

  lemma {:induction false} ChargedAppend(xs: seq<Entry>, ys: seq<Entry>, free: set<nat>)
    ensures Charged(xs + ys, free) == Charged(xs, free) + Charged(ys, free)
  {
    if xs == [] {
      assert xs + ys == ys;
    } else {
      assert (xs + ys)[1..] == xs[1..] + ys;
      ChargedAppend(xs[1..], ys, free);
    }
  }

  /** Only the identifiers in the list matter. */
  lemma {:induction false} ChargedSame(items: seq<Entry>, a: set<nat>, b: set<nat>)
    requires forall e :: e in items ==> (e.id in a <==> e.id in b)
    ensures Charged(items, a) == Charged(items, b)
  {
    if items == [] {
    } else {
      assert items[0] in items;
      forall e | e in items[1..] ensures e.id in a <==> e.id in b { assert e in items; }
      ChargedSame(items[1..], a, b);
    }
  }

  lemma ChargedCut(items: seq<Entry>, i: nat, free: set<nat>)
    requires i < |items|
    ensures Charged(items, free) == Charged(items[..i] + items[i + 1..], free) + Charged([items[i]], free)
  {
    ChargedAppend(items[..i], items[i + 1..], free);
    assert items == items[..i] + ([items[i]] + items[i + 1..]);
    ChargedAppend(items[..i], [items[i]] + items[i + 1..], free);
    ChargedAppend([items[i]], items[i + 1..], free);
  }

  lemma ChargedDrop(items: seq<Entry>, id: nat, free: set<nat>)
    requires NoDup(Ids(Snapshot(items))) && Find(items, id) < |items|
    ensures
      var p := items[Find(items, id)].packet;
      Charged(items, free) == Charged(Drop(items, id), free - {id}) + (if IsExchange(p) && id !in free then 1 else 0)
  {
    var i := Find(items, id);
    DropCuts(items, id);
    ChargedCut(items, i, free);
    assert [items[i]][1..] == [];
    DropSnapshot(items, id);
    ChargedSame(Drop(items, id), free, free - {id});
  }

  lemma ChargedReplace(items: seq<Entry>, i: nat, e: Entry, free: set<nat>)
    requires i < |items| && e.id == items[i].id && IsExchange(e.packet) && IsExchange(items[i].packet)
    ensures Charged(items[i := e], free) == Charged(items, free)
  {
    assert items == items[..i] + ([items[i]] + items[i + 1..]);
    assert items[i := e] == items[..i] + ([e] + items[i + 1..]);
    ChargedAppend(items[..i], [items[i]] + items[i + 1..], free);
    ChargedAppend(items[..i], [e] + items[i + 1..], free);
    assert ([items[i]] + items[i + 1..])[1..] == items[i + 1..] == ([e] + items[i + 1..])[1..];
  }

  /** Publications in flight are charged, and so are releases unless they were replayed. */
  lemma {:induction false} ChargedParts(items: seq<Entry>, free: set<nat>)
    requires forall e :: e in items && e.id in free ==> e.packet.PubRel?
    ensures Publishes(items) + ChargedReleases(items, free) == Charged(items, free)
  {
    if items == [] {
    } else {
      assert items[0] in items;
      forall e | e in items[1..] && e.id in free ensures e.packet.PubRel? { assert e in items; }
      ChargedParts(items[1..], free);
    }
  }

  // ----- Sending and finishing -----

  lemma PushQuota(w: Line, q: Inflight, id: nat, p: Packet, qos: nat, stream: Option<nat>, now: Time, free: set<nat>)
    requires Push(w, q, id, p, qos, stream, now).Ok?
    ensures
      var r := Push(w, q, id, p, qos, stream, now).value;
      && r.limit == q.limit && r.quota == q.quota + (if p.Publish? then 1 else 0)
      && Charged(r.items, free) == Charged(q.items, free) + (if IsExchange(p) && id !in free then 1 else 0)
      && r.items == q.items + [Entry(id, p, qos, stream, now, 0)]
      && (p.Publish? ==> q.quota < q.limit) && id !in LiveIds(q)
  {
    var e := Entry(id, p, qos, stream, now, 0);
    ChargedAppend(q.items, [e], free);
    assert [e][1..] == [];
    HasIds(q, id);
  }

  /** A new entry changes nothing for the others. */
  lemma FreePush(items: seq<Entry>, e: Entry, free: set<nat>)
    requires FreeReleases(items, free) && e.id !in Ids(Snapshot(items))
    ensures FreeReleases(items + [e], free)
    ensures e.packet.PubRel? ==>
              FreeReleases(items + [e], free + {e.id}) && Charged(items, free + {e.id}) == Charged(items, free)
  {
    var all := items + [e];
    assert Snapshot(all) == Snapshot(items) + [Held(e.id, e.packet)];
    IdsAppend(Snapshot(items), [Held(e.id, e.packet)]);
    assert Ids([Held(e.id, e.packet)]) == [e.id];
    forall x | x in items ensures x.id != e.id {
      var k :| 0 <= k < |items| && items[k] == x;
      assert Ids(Snapshot(items))[k] == x.id;
    }
    ChargedSame(items, free + {e.id}, free);
  }

  lemma NotReplayed(es: seq<Emission>, x: Emission)
    requires NoReleaseReplayed(es + [x])
    ensures NoReleaseReplayed(es) && (x.FromReplay? ==> !x.held.packet.PubRel?)
  {
    assert x in es + [x];
    forall e | e in es && e.FromReplay? ensures !e.held.packet.PubRel? { assert e in es + [x]; }
  }

  /** One more emission, whatever became of the send quota. */
  ghost predicate Logged(h: History, r: History, x: Emission) {
    r.credit == h.credit.(sendQuota := r.credit.sendQuota) && r.emitted == h.emitted + [x]
  }

  lemma LoggedFlow(q: Inflight, h: History, r: History, x: Emission)
    requires FlowOk(q, h) && Logged(h, r, x)
    ensures FlowOk(q, r)
  {
    if NoReleaseReplayed(r.emitted) { NotReplayed(h.emitted, x); }
  }

  /** A publication takes a unit of quota. */
  lemma SentFlow(w: Line, q: Inflight, h: History, id: nat, p: Packet, qos: nat, now: Time)
    requires FlowOk(q, h) && p.Publish? && Push(w, q, id, p, qos, None, now).Ok?
    ensures FlowOk(Push(w, q, id, p, qos, None, now).value, h)
  {
    var free := h.credit.uncharged;
    PushQuota(w, q, id, p, qos, None, now, free);
    FreePush(q.items, Entry(id, p, qos, None, now, 0), free);
  }

  /** A replayed release is tracked without quota. */
  lemma ReleaseFlow(w: Line, q: Inflight, h: History, x: Held, now: Time)
    requires FlowOk(q, h) && x.packet.PubRel? && Push(w, q, x.id, x.packet, 2, None, now).Ok?
    requires !NoReleaseReplayed(h.emitted)
    ensures FlowOk(Push(w, q, x.id, x.packet, 2, None, now).value, Exempt(h, x))
  {
    var free := h.credit.uncharged;
    PushQuota(w, q, x.id, x.packet, 2, None, now, free + {x.id});
    FreePush(q.items, Entry(x.id, x.packet, 2, None, now, 0), free);
  }

  lemma FreeDrop(q: Inflight, id: nat, free: set<nat>)
    requires FreeReleases(q.items, free)
    ensures FreeReleases(Acknowledge(q, id).items, free - {id})
  {
    AcknowledgeSnapshot(q, id);
    RemoveIds(Snapshot(q.items), id);
    DropSnapshot(q.items, id);
    if !Has(q, id) { HasIds(q, id); }
  }

  /** An operation leaves the queue in flight, acknowledged, failed or taken away. */
  lemma GiveBackFlow(w: Line, q: Inflight, h: History, id: nat)
    requires Sound(w, q) && FlowOk(q, h)
    ensures FlowOk(Acknowledge(q, id), h.(credit := GiveBack(h.credit, q, id)))
  {
    var free := h.credit.uncharged;
    FreeDrop(q, id, free);
    if Has(q, id) {
      assert q.items[Find(q.items, id)] in q.items;
      ChargedDrop(q.items, id, free);
      if !IsExchange(q.items[Find(q.items, id)].packet) { assert free - {id} == free; }
    }
  }

  lemma FailOperationFlow(c: Options, s: Engine, id: nat, p: Packet, e: Error)
    requires Sound(LineOf(c), s.sess.inflight) && Flow(s) && s.link.connected
    ensures Flow(FailOperation(s, id, p, e))
  {
    FailOperationSess(s, id, p, e);
    GiveBackFlow(LineOf(c), s.sess.inflight, s.hist, id);
  }

  // ----- Output -----

  /** A connection that just ended satisfies the flow invariant whatever its quota was. */
  lemma LossFlow(c: Options, s: Engine, e: Error)
    ensures Flow(FailConnection(c, s, e)) && Flow(ConnectionLost(c, s, s.clock.now)) && Flow(Reset(c, s))
  {
    ResetLink(c, s);
  }

  lemma FlushFlow(c: Options, s: Engine)
    requires Flow(s)
    ensures Flow(Flush(c, s))
  {
    FlushCases(c, s);
  }

  lemma ReplayHeadFlow(c: Options, s: Engine)
    requires Always(c, s) && Flow(s) && s.link.connected && s.sess.replay != []
    requires EnqueueError(c, s, s.sess.replay[0].packet).None?
    ensures Flow(ReplayHead(c, s))
  {
    var q, h := s.sess.inflight, s.sess.replay[0];
    var s1 := Enqueue(c, s, h.packet);
    var s2 := s1.(sess := s1.sess.(replay := s1.sess.replay[1..]), hist := LogReplay(s1.hist, h));
    LoggedFlow(q, s.hist, s2.hist, FromReplay(h));
    match Push(LineOf(c), q, h.id, h.packet, QosOf(h.packet), None, s.clock.now)
    case Ok(_) =>
      ReplayTracked(c, q, s2.hist, h, s.sess.replay, s.clock.now);
    case Err(e) => FailOperationFlow(c, s2, h.id, h.packet, e);
  }

  /** A replayed exchange that was put into the outgoing buffer is tracked. */
  lemma ReplayTracked(c: Options, q: Inflight, h: History, x: Held, replay: seq<Held>, now: Time)
    requires FlowOk(q, h) && FromReplay(x) in h.emitted && x in replay && Exchanging(replay)
    requires Push(LineOf(c), q, x.id, x.packet, QosOf(x.packet), None, now).Ok?
    ensures FlowOk(Push(LineOf(c), q, x.id, x.packet, QosOf(x.packet), None, now).value, Exempt(h, x))
  {
    if x.packet.Publish? {
      SentFlow(LineOf(c), q, h, x.id, x.packet, QosOf(x.packet), now);
    } else {
      ReleaseFlow(LineOf(c), q, h, x, now);
    }
  }

  lemma ReplayOneFlow(c: Options, s: Engine)
    requires Always(c, s) && Flow(s) && s.link.connected && ReplayReady(c, s)
    ensures Flow(ReplayOne(c, s))
  {
    var h := s.sess.replay[0];
    var e := EnqueueError(c, s, h.packet);
    if e.None? {
      ReplayHeadFlow(c, s);
    } else {
      FailOperationFlow(c, s.(sess := s.sess.(replay := s.sess.replay[1..])), h.id, h.packet, e.value);
    }
  }

  lemma {:induction false} ProcessReplayFlow(c: Options, s: Engine)
    requires Always(c, s) && Flow(s) && s.link.connected
    ensures Flow(ProcessReplay(c, s))
    decreases |s.sess.replay|
  {
    if ReplayReady(c, s) {
      ReplayOneFlow(c, s);
      ReplayOneSteady(c, s);
      ReplayOneFrame(c, s);
      ProcessReplayFlow(c, ReplayOne(c, s));
    }
  }

  lemma SendHeadFlow(c: Options, s: Engine, bytes: Bytes)
    requires Flow(s) && s.link.connected && s.sess.queue != []
    ensures Flow(SendHead(c, s, bytes))
  {
    var x, r, q := s.sess.queue[0], SendHead(c, s, bytes), s.sess.inflight;
    var p := x.item;
    SendHeadParts(c, s, bytes);
    SendHeadLogged(c, s, bytes);
    LoggedFlow(q, s.hist, r.hist, FromQueue(x));
    if r.sess.inflight != q { SentFlow(LineOf(c), q, r.hist, p.id.value, p, p.qos, s.clock.now); }
  }

  lemma SendHeadLogged(c: Options, s: Engine, bytes: Bytes)
    requires s.sess.queue != []
    ensures Logged(s.hist, SendHead(c, s, bytes).hist, FromQueue(s.sess.queue[0]))
    ensures SendHead(c, s, bytes).link == s.link.(out := s.link.out + [bytes])
  {
  }

  lemma RejectHeadFlow(c: Options, s: Engine, bytes: Bytes, e: Error)
    requires Always(c, s) && Flow(s) && s.link.connected && s.sess.queue != []
    ensures Flow(RejectHead(s, bytes, e))
  {
    var p := s.sess.queue[0].item;
    RejectHeadSess(s, bytes, e);
    if p.Publish? && p.id.Some? { GiveBackFlow(LineOf(c), s.sess.inflight, s.hist, p.id.value); }
  }

  lemma EmitOneFlow(c: Options, s: Engine)
    requires Always(c, s) && Flow(s) && s.link.connected && EmitReady(c, s)
    ensures Flow(EmitOne(c, s, None))
  {
    var p := s.sess.queue[0].item;
    match c.encode(p)
    case None =>
    case Some(bytes) =>
      var e := RejectionOf(c, s, p, |bytes|);
      if e.None? { SendHeadFlow(c, s, bytes); } else { RejectHeadFlow(c, s, bytes, e.value); }
  }

  lemma {:induction false} EmitLoopFlow(c: Options, s: Engine)
    requires Always(c, s) && Flow(s) && s.link.connected
    ensures Flow(EmitLoop(c, s, None))
    decreases |s.sess.queue|
  {
    if EmitReady(c, s) {
      EmitOneFlow(c, s);
      EmitOneTimely(c, s);
      EmitOneFrame(c, s, None);
      EmitLoopFlow(c, EmitOne(c, s, None));
    }
  }

  lemma ProcessQueueFlow(c: Options, s: Engine)
    requires Always(c, s) && Flow(s)
    ensures Flow(ProcessQueue(c, s, None))
  {
    if s.link.connected {
      FlushFlow(c, s);
      FlushSteady(c, s);
      var s1 := Flush(c, s);
      if s1.link.connected {
        ProcessReplayFlow(c, s1);
        ProcessReplaySteady(c, s1);
        var s2 := ProcessReplay(c, s1);
        if s2.link.connected { EmitLoopFlow(c, s2); }
      }
    }
  }

  // ----- Commands -----

  lemma AdmitFlow(c: Options, s: Engine, cmd: Command)
    requires Flow(s) && Decide(c, s, cmd).1.Accepted?
    ensures Flow(Admitting(c, s, cmd))
  {
    var (s1, a) := Decide(c, s, cmd);
    DecideFacts(c, s, cmd);
    AdmitSess(s1, a.packet, cmd.priority, a.id, a.alias, a.bytes);
  }

  lemma DoPublishFlow(c: Options, s: Engine, cmd: Command)
    requires Always(c, s) && Flow(s)
    ensures Flow(DoPublish(c, s, cmd).0)
  {
    DecideFacts(c, s, cmd);
    if Decide(c, s, cmd).1.Accepted? {
      PublishIsAdmission(c, s, cmd);
      AdmitFlow(c, s, cmd);
      AdmitTimely(c, s, cmd);
      ProcessQueueFlow(c, Admitting(c, s, cmd));
    }
  }

  /** A request takes no quota and is no exchange. */
  lemma RequestedFlow(c: Options, q: Session, k: History, h: Held, now: Time)
    requires !IsExchange(h.packet) && Push(LineOf(c), q.inflight, h.id, h.packet, 1, None, now).Ok?
    ensures
      var r := Requested(c, q, h, now);
      (FlowOk(q.inflight, k) ==> FlowOk(r.inflight, k)) && (Captive(q) ==> Captive(r))
  {
    var e := Entry(h.id, h.packet, 1, None, now, 0);
    PushQuota(LineOf(c), q.inflight, h.id, h.packet, 1, None, now, k.credit.uncharged);
    PushSnapshot(LineOf(c), q.inflight, h.id, h.packet, 1, None, now);
    ExchangeIdsAppend(Snapshot(q.inflight.items), [h]);
    if FlowOk(q.inflight, k) { FreePush(q.inflight.items, e, k.credit.uncharged); }
  }

  lemma DoRequestFlow(c: Options, s: Engine, kind: Kind, requested: Option<u16>, filters: seq<string>, refused: bool)
    requires Flow(s)
    ensures Flow(DoRequest(c, s, kind, requested, filters, refused).0)
  {
    DoRequestSess(c, s, kind, requested, filters, refused);
    var id := CandidateId(s, requested).1;
    if id.Ok? {
      var h := Held(id.value, RequestPacket(kind, id.value, filters));
      if Push(LineOf(c), s.sess.inflight, h.id, h.packet, 1, None, s.clock.now).Ok? {
        RequestedFlow(c, s.sess, s.hist, h, s.clock.now);
      }
    }
  }

  /** A CONNECT captures everything in flight. */
  lemma DoConnectFlow(c: Options, s: Engine)
    requires Always(c, s) && Flow(s)
    ensures Flow(DoConnect(c, s).0)
  {
    var s1 := CreateSession(c, s);
    if ConnectError(c, s1).None? {
      var q := s.sess;
      OutstandingCaptures(q);
      assert DoConnect(c, s).0.sess == q.(previous := Outstanding(q), replay := []);
    }
  }

  lemma OutstandingCaptures(q: Session)
    requires NoDup(Ids(q.previous))
    ensures Captive(q.(previous := Outstanding(q), replay := []))
  {
    var a := Snapshot(q.inflight.items);
    OutstandingIds(q);
    IdsAppend(a, q.replay);
    forall id | id in ExchangeIds(a) ensures id in Ids(Outstanding(q)) { ExchangeIdsIn(a, id); }
  }

  // ----- A new connection starts with the full quota -----

  lemma {:induction false} NoneCharged(items: seq<Entry>)
    requires ExchangeIds(Snapshot(items)) == []
    ensures Charged(items, {}) == 0 && Exchanges(items) == 0
  {
    if items == [] {
    } else {
      assert Snapshot(items)[1..] == Snapshot(items[1..]);
      NoneCharged(items[1..]);
    }
  }

  lemma {:induction false} RestoreAllSubset(s: Engine, hs: seq<Held>, resume: bool)
    ensures forall h :: h in Snapshot(RestoreAll(s, hs, resume).sess.inflight.items) ==>
        h in Snapshot(s.sess.inflight.items)
    ensures RestoreAll(s, hs, resume).sess.inflight.limit == s.sess.inflight.limit
    ensures RestoreAll(s, hs, resume).hist.emitted == s.hist.emitted && RestoreAll(s, hs, resume).link == s.link
    decreases hs
  {
    if hs == [] {
    } else {
      RestoreOneSess(s, hs[0], resume);
      AcknowledgeSnapshot(s.sess.inflight, hs[0].id);
      RemoveIds(Snapshot(s.sess.inflight.items), hs[0].id);
      RestoreAllSubset(RestoreOne(s, hs[0], resume), hs[1..], resume);
    }
  }

  /** After CONNACK settled the captured entries, no exchange is in flight: the quota in use is zero,
      however small the new limit is. */
  lemma SettleQuota(c: Options, s: Engine, present: bool)
    requires Captive(s.sess) && NoDup(Ids(s.sess.previous)) && Sound(LineOf(c), Settle(c, s, present).sess.inflight)
    ensures
      var r := Settle(c, s, present);
      && r.link == s.link && r.sess.inflight.quota == 0
      && Charged(r.sess.inflight.items, {}) == 0 && Exchanges(r.sess.inflight.items) == 0
  {
    var r := Settle(c, s, present);
    SettleExact(c, s, present);
    var captured := if Resumes(c, present) then ReleasesFirst(s.sess.previous) else s.sess.previous;
    RestoreAllSubset(s.(sess := s.sess.(previous := [])), captured, Resumes(c, present));
    var a, b := Snapshot(r.sess.inflight.items), Snapshot(s.sess.inflight.items);
    forall id ensures id !in ExchangeIds(a) {
      ExchangeIdsIn(a, id);
      ExchangeIdsIn(b, id);
    }
    HasMember(ExchangeIds(a));
    NoneCharged(r.sess.inflight.items);
  }

  lemma RestoreFlow(c: Options, s: Engine, present: bool)
    requires Always(c, s) && Captive(s.sess) && s.link.connected && !s.link.connecting
    ensures Flow(Restore(c, s, present).0)
  {
    SettleSteady(c, s, present);
    SettleQuota(c, s, present);
    var s1 := Settle(c, s, present);
    var s2 := s1.(hist := s1.hist.(credit := Credit(s1.sess.inflight.limit, {}, 0)));
    assert Flow(s2) && Always(c, s2);
    if (present && !c.sessionless) || c.topics == [] {
      ProcessReplayFlow(c, s2);
    } else {
      var s3 := DoRequest(c, s2, SubscribeOp, None, c.topics, false).0;
      DoRequestFlow(c, s2, SubscribeOp, None, c.topics, false);
      DoRequestSteady(c, s2, SubscribeOp, None, c.topics, false);
      DoRequestSess(c, s2, SubscribeOp, None, c.topics, false);
      ProcessReplayFlow(c, s3);
    }
  }

  lemma FinishConnAckFlow(c: Options, s: Engine, reason: nat, present: bool, server: Option<u16>)
    requires Always(c, s) && Captive(s.sess) && !s.link.connecting
    ensures Flow(FinishConnAck(c, s, reason, present, server).0)
  {
    var s1 := s.(link := s.link.(connected := reason == 0));
    if reason == 0 {
      RestoreFlow(c, ResetReconnect(s1.(link := s1.link.(hasSession := true),
        hist := s1.hist.(serverMaximum := server))), present);
    } else {
      LossFlow(c, s1, ProtocolViolation);
    }
  }

  lemma HandleConnAckFlow(c: Options, s: Engine, reason: nat, present: bool, terms: Terms)
    requires Always(c, s) && Captive(s.sess)
    ensures Flow(HandleConnAck(c, s, reason, present, terms).0)
  {
    if (present && !s.link.hasSession) || (c.v5 && WrongMethod(c, reason, terms.authMethod)) {
      LossFlow(c, s, ProtocolViolation);
    } else {
      var s1 := s.(link := s.link.(connecting := false),
        clock := s.clock.(deadlines := DropDeadline(s.clock.deadlines, ConnectOp, None)));
      DropDeadlineSub(s.clock.deadlines, ConnectOp, None);
      assert Always(c, s1);
      if !c.v5 {
        FinishConnAckFlow(c, s1, reason, present, None);
      } else {
        match Negotiate(c, s1, terms)
        case Err(e) => LossFlow(c, s1, e);
        case Ok(s2) =>
          NegotiateSteady(c, s1, terms);
          NegotiateFacts(c, s1, terms);
          FinishConnAckFlow(c, s2, reason, present, terms.receiveMaximum);
      }
    }
  }

  // ----- Incoming packets -----

  lemma CompleteFlow(c: Options, s: Engine, id: nat)
    requires Always(c, s) && Flow(s) && s.link.connected
    ensures Flow(Complete(s, id))
  {
    GiveBackFlow(LineOf(c), s.sess.inflight, s.hist, id);
  }

  lemma ConfirmFlow(c: Options, s: Engine, id: nat)
    requires Always(c, s) && Flow(s) && s.link.connected && Has(s.sess.inflight, id)
    requires !IsExchange(s.sess.inflight.items[Find(s.sess.inflight.items, id)].packet)
    ensures Flow(Confirm(s, id))
  {
    GiveBackFlow(LineOf(c), s.sess.inflight, s.hist, id);
  }

  lemma AdvanceFlow(c: Options, s: Engine, id: nat)
    requires Flow(s) && s.link.connected && Has(s.sess.inflight, id)
    requires IsExchange(s.sess.inflight.items[Find(s.sess.inflight.items, id)].packet)
    ensures Flow(Advance(c, s, id))
  {
    var q, free := s.sess.inflight, s.hist.credit.uncharged;
    var i := Find(q.items, id);
    var e := q.items[i].(packet := PubRel(id), sentAt := s.clock.now);
    ChargedReplace(q.items, i, e, free);
    TransitionSnapshot(LineOf(c), q, id, PubRel(id), s.clock.now);
    forall x | x in q.items[i := e] && x.id in free ensures x.packet.PubRel? {
      if x != e { assert x in q.items; }
    }
  }

  lemma HandleAckFlow(c: Options, s: Engine, p: Incoming)
    requires Always(c, s) && Flow(s) && IsAck(p) && s.link.connected && ValidateAck(s.sess.inflight, p).None?
    ensures Flow(HandleAccepted(c, s, p).0)
  {
    AckFacts(s.sess.inflight, p);
    match p
    case PubAck(id, _) => CompleteFlow(c, s, id);
    case PubComp(id, _) => CompleteFlow(c, s, id);
    case PubRec(id, reason) => if c.v5 && reason >= 0x80 { CompleteFlow(c, s, id); } else { AdvanceFlow(c, s, id); }
    case SubAck(id, _) => ConfirmFlow(c, s, id);
    case UnsubAck(id) => ConfirmFlow(c, s, id);
  }

  lemma HandleAuthFlow(c: Options, s: Engine, reason: nat, methods: seq<string>)
    requires Flow(s)
    ensures Flow(HandleAuth(c, s, reason, methods).0)
  {
    LossFlow(c, s, ProtocolViolation);
  }

  lemma HandleOtherFlow(c: Options, s: Engine, p: Incoming)
    requires Always(c, s) && Flow(s) && !IsAck(p) && (p.ConnAck? ==> s.link.connecting)
    ensures Flow(HandleAccepted(c, s, p).0)
  {
    match p
    case ConnAck(reason, present, terms) => HandleConnAckFlow(c, s, reason, present, terms);
    case AuthIn(reason, methods) => HandleAuthFlow(c, s, reason, methods);
    case DisconnectIn(_) => LossFlow(c, s, ProtocolViolation);
    case Message(failure, _) => if failure.Some? { LossFlow(c, s, failure.value); }
    case Oversized => LossFlow(c, s, BufferFull);
    case Malformed => LossFlow(c, s, ProtocolViolation);
    case PingResp =>
  }

  /** A packet that is refused changes nothing or ends the connection. */
  lemma RefusedFlow(c: Options, s: Engine, p: Incoming)
    requires Flow(s) && (s.link.closed || !Accepts(c, s, p) || ValidateAck(s.sess.inflight, p).Some?) && !p.Oversized?
        && !p.Malformed?
    ensures Flow(HandlePacket(c, s, p).0)
  {
    LossFlow(c, s, ProtocolViolation);
    LossFlow(c, s, InvalidPacketId);
  }

  lemma HandlePacketFlow(c: Options, s: Engine, p: Incoming)
    requires Always(c, s) && Flow(s)
    ensures Flow(HandlePacket(c, s, p).0)
  {
    if p.Oversized? || p.Malformed? {
      HandleOtherFlow(c, s, p);
    } else if s.link.closed || !Accepts(c, s, p) || ValidateAck(s.sess.inflight, p).Some? {
      RefusedFlow(c, s, p);
    } else if IsAck(p) {
      HandleAckFlow(c, s, p);
    } else {
      HandleOtherFlow(c, s, p);
    }
  }

  lemma ParseOneFlow(c: Options, s: Engine)
    requires Always(c, s) && Flow(s) && s.link.parser != []
    ensures Flow(ParseOne(c, s))
  {
    var p, s0 := s.link.parser[0], s.(link := s.link.(parser := s.link.parser[1..]));
    HandlePacketFlow(c, s0, p);
    var (s1, events, responses) := HandlePacket(c, s0, p);
    FlushFlow(c, Record(s1, events, responses));
  }

  lemma {:induction false} ParseLoopFlow(c: Options, s: Engine)
    requires Always(c, s) && Flow(s)
    ensures Flow(ParseLoop(c, s))
    decreases Potential(s)
  {
    if !ParserPaused(c, s) {
      ParseOneFlow(c, s);
      ParseOneTimely(c, s);
      ParseOnePotential(c, s);
      ParseLoopFlow(c, ParseOne(c, s));
    }
  }

  lemma IngestFlow(c: Options, s: Engine, data: seq<Incoming>)
    requires Always(c, s) && Flow(s)
    ensures Flow(Ingest(c, s, data))
  {
    if !s.link.closed {
      var s0 := s.(link := s.link.(parser := s.link.parser + data));
      FlushFlow(c, s0);
      FlushSteady(c, s0);
      ParseLoopFlow(c, Flush(c, s0));
      ParseLoopTimely(c, Flush(c, s0));
      ProcessQueueFlow(c, ParseLoop(c, Flush(c, s0)));
    }
  }

  lemma RefillFlow(c: Options, s: Engine)
    requires Always(c, s) && Flow(s)
    ensures Flow(Refill(c, s))
  {
    var s0 := s.(link := s.link.(out := []));
    FlushFlow(c, s0);
    FlushSteady(c, s0);
    IngestFlow(c, Flush(c, s0), []);
    IngestTimely(c, Flush(c, s0), []);
    ProcessQueueFlow(c, Ingest(c, Flush(c, s0), []));
  }

  lemma {:induction false} TakeOutputFlow(c: Options, s: Engine)
    requires Always(c, s) && Flow(s)
    ensures Flow(TakeOutput(c, s).0)
    decreases Potential(s) - |s.link.out|
  {
    RefillFlow(c, s);
    RefillTimely(c, s);
    RefillPotential(c, s);
    if Refill(c, s).link.out != [] { TakeOutputFlow(c, Refill(c, s)); }
  }

  // ----- Ticks -----

  lemma {:induction false} ExpireAllFlow(c: Options, s: Engine, ds: seq<Deadline>)
    requires Flow(s)
    ensures Flow(ExpireAll(c, s, ds))
    decreases ds
  {
    if ds == [] {
    } else {
      var s1 := s.(
        clock := s.clock.(deadlines := DropDeadline(s.clock.deadlines, ds[0].kind, ds[0].id)),
        events := s.events + [OperationFailed(ds[0].kind, ds[0].id, OperationTimeout)]);
      LossFlow(c, s1, OperationTimeout);
      ExpireAllFlow(c, ExpireOne(c, s, ds[0]), ds[1..]);
    }
  }

  lemma {:induction false} ResendAllFrame(c: Options, s: Engine, xs: seq<Resend>)
    ensures OutputOnly(s, ResendAll(c, s, xs))
    decreases xs
  {
    if xs == [] {
    } else {
      ResendOneFrame(c, s, xs[0]);
      ResendAllFrame(c, ResendOne(c, s, xs[0]), xs[1..]);
    }
  }

  lemma ExpiredFlow(w: Line, q: Inflight, h: History, now: Time)
    requires Sound(w, q) && TimeOk(w, q, now) && FlowOk(q, h)
    ensures FlowOk(Expired(w, q, now), h)
  {
    var r, free := Expired(w, q, now), h.credit.uncharged;
    ExpiredSound(w, q, now);
    TouchKeeps(q.items, q.timers[..DueCount(q.timers, now)], now);
    assert forall k :: 0 <= k < |q.items| ==> SameExchange(r.items[k], q.items[k]);
    ChargedSameItems(r.items, q.items, free);
  }

  lemma {:induction false} ChargedSameItems(xs: seq<Entry>, ys: seq<Entry>, free: set<nat>)
    requires |xs| == |ys| && forall i :: 0 <= i < |xs| ==> SameExchange(xs[i], ys[i])
    ensures Charged(xs, free) == Charged(ys, free)
    ensures FreeReleases(ys, free) ==> FreeReleases(xs, free)
  {
    if xs == [] {
    } else {
      assert SameExchange(xs[0], ys[0]);
      forall i | 0 <= i < |xs[1..]|
        ensures SameExchange(xs[1..][i], ys[1..][i])
      {
        assert SameExchange(xs[i + 1], ys[i + 1]);
      }
      ChargedSameItems(xs[1..], ys[1..], free);
    }
    SameSnapshot(xs, ys);
    if FreeReleases(ys, free) {
      forall e | e in xs && e.id in free ensures e.packet.PubRel? {
        var k :| 0 <= k < |xs| && xs[k] == e;
        assert SameExchange(xs[k], ys[k]) && ys[k] in ys;
      }
    }
  }

  lemma RetransmissionsFlow(c: Options, s: Engine)
    requires Always(c, s) && Flow(s) && !s.link.connecting
    ensures Flow(Retransmissions(c, s))
  {
    var s1 := s.(sess := s.sess.(inflight := Expired(LineOf(c), s.sess.inflight, s.clock.now)));
    if s.link.connected { ExpiredFlow(LineOf(c), s.sess.inflight, s.hist, s.clock.now); }
    ResendAllFrame(c, s1, DueResends(s.sess.inflight, s.clock.now));
  }

  /** Processing the queue never starts a connection attempt. */
  lemma {:induction false} EmitLoopLink(c: Options, s: Engine)
    ensures EmitLoop(c, s, None).link == s.link.(out := EmitLoop(c, s, None).link.out)
    decreases |s.sess.queue|
  {
    if EmitReady(c, s) {
      EmitOneFrame(c, s, None);
      EmitLoopLink(c, EmitOne(c, s, None));
    }
  }

  lemma ProcessQueueLink(c: Options, s: Engine)
    requires !s.link.connecting
    ensures !ProcessQueue(c, s, None).link.connecting
  {
    FlushCases(c, s);
    var s1 := Flush(c, s);
    ProcessReplayQueue(c, s1);
    EmitLoopLink(c, ProcessReplay(c, s1));
  }

  lemma DoPingFlow(c: Options, s: Engine)
    requires Flow(s)
    ensures Flow(DoPing(c, s).0) && DoPing(c, s).0.link.connecting == s.link.connecting
  {
  }

  lemma TickConnectedFlow(c: Options, s: Engine)
    requires Always(c, s) && Flow(s) && s.link.connected
    ensures Flow(TickConnected(c, s).0)
  {
    if PingOverdue(c, s) {
      LossFlow(c, s, OperationTimeout);
    } else {
      var s1 := if PingDue(c, s) then DoPing(c, s).0 else s;
      DoPingFlow(c, s);
      DoPingSteady(c, s);
      ProcessQueueFlow(c, s1);
      ProcessQueueTimely(c, s1);
      ProcessQueueLink(c, s1);
      RetransmissionsFlow(c, ProcessQueue(c, s1, None));
    }
  }

  lemma DoTickFlow(c: Options, s: Engine)
    requires Always(c, s) && Flow(s)
    ensures Flow(DoTick(c, s).0)
  {
    var due := DueDeadlines(s.clock.deadlines, s.clock.now);
    var s0 := ExpireAll(c, s, due);
    ExpireAllFlow(c, s, due);
    ExpireAllSteady(c, s, due);
    FlushFlow(c, s0);
    FlushSteady(c, s0);
    if Flush(c, s0).link.connected { TickConnectedFlow(c, Flush(c, s0)); }
  }

  // ----- Steps and runs -----

  lemma LocalFlow(c: Options, s: Engine, i: Input)
    requires Flow(s) && IsLocal(i)
    ensures Flow(ApplyLocal(c, s, i))
  {
  }

  lemma CalmFlow(c: Options, s: Engine, i: Input)
    requires Always(c, s) && Flow(s) && IsCalm(i)
    ensures Flow(Apply(c, s, i))
  {
    if IsLocal(i) {
      LocalFlow(c, s, i);
    } else {
      match i
      case ConnectInput => DoConnectFlow(c, s);
      case RequestInput(kind, requested, filters, refused) => DoRequestFlow(c, s, kind, requested, filters, refused);
      case LostInput => LossFlow(c, s, ProtocolViolation);
      case ResetInput => LossFlow(c, s, ProtocolViolation);
    }
  }

  lemma ApplyFlow(c: Options, s: Engine, i: Input)
    requires Always(c, s) && Flow(s)
    ensures Flow(Apply(c, s, i))
  {
    if IsCalm(i) {
      CalmFlow(c, s, i);
    } else {
      match i
      case PublishInput(cmd) => DoPublishFlow(c, s, cmd);
      case DataInput(data) => IngestFlow(c, s, data);
      case TakeInput => TakeOutputFlow(c, s);
      case TickInput => DoTickFlow(c, s);
    }
  }

  lemma InitialFlow(c: Options, now: Time)
    ensures Flow(Initial(c, now))
  {
  }

  lemma {:induction false} RunFlow(c: Options, s: Engine, ts: seq<Timed>)
    requires Always(c, s) && Flow(s)
    ensures Always(c, Run(c, s, ts)) && Flow(Run(c, s, ts))
    decreases ts
  {
    if ts == [] {
    } else {
      var t := ts[0];
      if TimeAccepted(c, s, t.now) {
        AtAlways(c, s, t.now);
        ApplyTimely(c, At(s, t.now), t.input);
        ApplyFlow(c, At(s, t.now), t.input);
      }
      RunFlow(c, Step(c, s, t), ts[1..]);
    }
  }

  // ----- What the quota bounds -----

  /** The publications in flight are bounded by the limit plus the debt; they are within the limit if and only if the
      debt is covered by unused quota and by charged releases. */
  lemma ReceiveMaximumIff(q: Inflight, h: History)
    requires FlowOk(q, h)
    ensures
      var k := h.credit;
      && Publishes(q.items) <= q.limit + k.debt
      && (Publishes(q.items) <= q.limit <==> k.debt <= (q.limit - q.quota) + ChargedReleases(q.items, k.uncharged))
      && (NoReleaseReplayed(h.emitted) ==> Publishes(q.items) <= q.limit)
  {
    ChargedParts(q.items, h.credit.uncharged);
  }

  /** On every run, for every caller, peer and encoder: on a connection the quota in use stays within the limit and,
      with the debt, is what the exchanges in flight took. The publications in flight exceed the limit by at most the
      debt; they are within it if and only if unused quota and charged releases cover the debt; there is no debt, and
      they are within it, unless a release was replayed. */
  lemma FlowOverRuns(c: Options, now: Time, ts: seq<Timed>)
    requires Horizon(c, now)
    ensures
      var s := Run(c, Initial(c, now), ts);
      var q, k := s.sess.inflight, s.hist.credit;
      s.link.connected ==>
        && q.quota <= q.limit && Charged(q.items, k.uncharged) == q.quota + k.debt
        && Publishes(q.items) <= q.limit + k.debt
        && (Publishes(q.items) <= q.limit <==> k.debt <= (q.limit - q.quota) + ChargedReleases(q.items, k.uncharged))
        && (NoReleaseReplayed(s.hist.emitted) ==> k.debt == 0 && Publishes(q.items) <= q.limit)
  {
    InitialAlways(c, now);
    InitialFlow(c, now);
    RunFlow(c, Initial(c, now), ts);
    var s := Run(c, Initial(c, now), ts);
    if s.link.connected { ReceiveMaximumIff(s.sess.inflight, s.hist); }
  }

  /** On every run, whenever the engine waits for a CONNACK, the captured entries have distinct identifiers and the
      CONNACK partitions them exactly: what resumes is replayed, the rest fails once, what was not captured stays. */
  lemma SettleOverRuns(c: Options, now: Time, ts: seq<Timed>, present: bool)
    requires Horizon(c, now)
    requires Run(c, Initial(c, now), ts).link.connecting
    ensures
      var s := Run(c, Initial(c, now), ts);
      var r, captured := Settle(c, s, present), s.sess.previous;
      && NoDup(Ids(captured))
      && r.sess.replay == (if Resumes(c, present) then PubRelsOf(captured) + ReplayForms(PublishesOf(captured)) else [])
      && r.events == s.events + Failures(Abandoned(captured, Resumes(c, present)))
      && (forall id :: id in LiveIds(r.sess.inflight) <==> id in LiveIds(s.sess.inflight) && id !in Ids(captured))
      && Exchanges(r.sess.inflight.items) == 0
  {
    InitialAlways(c, now);
    InitialFlow(c, now);
    RunFlow(c, Initial(c, now), ts);
    var s := Run(c, Initial(c, now), ts);
    SettleExact(c, s, present);
    SettleSteady(c, s, present);
    SettleQuota(c, s, present);
  }
}
