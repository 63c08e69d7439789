/** The invariant of the session state, and that every engine operation keeps it. */
module SessionInvariant {
  import opened Basics
  import opened Timestamps
  import opened Packets
  import opened PriorityQueues
  import opened InflightQueues
  import opened EngineModel
  import opened SessionBooks

  /** A publication that is encodable and names its topic stays encodable without its topic alias. */
  ghost predicate Codec(c: Options) {
    forall p :: c.encode(p).Some? && p.Publish? && p.topic != "" ==> c.encode(StripAliases(p)).Some?
  }

  /** Every alias of the connection stands for a topic. */
  ghost predicate Named(aliases: map<nat, string>) {
    forall a :: a in aliases ==> aliases[a] != ""
  }

  ghost predicate ReservedRange(reserved: set<nat>) {
    forall id :: id in reserved ==> 0 < id <= MAX_ID
  }

  /** What a CONNECT captured is still exactly what the exchanges in flight say. */
  ghost predicate Captured(q: Session) {
    && (forall id :: id in Ids(q.previous) ==> id in q.reserved)
    && (forall id :: id in ExchangeIds(Snapshot(q.inflight.items)) ==> id in Ids(q.previous))
    && (forall h :: h in q.previous && h.id in LiveIds(q.inflight) ==> h in Snapshot(q.inflight.items))
  }

  ghost predicate Exchanging(hs: seq<Held>) {
    forall h :: h in hs ==> IsExchange(h.packet)
  }

  /** The parts that do not depend on the connection. */
  ghost predicate Kept(c: Options, q: Session, now: Time) {
    && QueueOk(c, q.queue)
    && Sound(LineOf(c), q.inflight) && TimeOk(LineOf(c), q.inflight, now) && 0 < q.inflight.limit
    && ReservedRange(q.reserved) && Exchanging(q.replay)
  }

  ghost predicate Good(c: Options, q: Session, t: Tickets, connected: bool, connecting: bool, now: Time) {
    && Kept(c, q, now)
    && Books(q, t, q.previous) && NoDup(Ids(q.previous))
    && (!c.sessionless ==> forall id :: id in Ids(q.previous) ==> id in q.reserved)
    && !(connected && connecting)
    && (connected ==> q.previous == [])
    && (connecting ==> q.replay == [] && Captured(q))
  }

  ghost predicate Inv(c: Options, s: Engine) {
    Good(c, s.sess, s.hist.tickets, s.link.connected, s.link.connecting, s.clock.now)
  }

  // ----- The law -----

  /** The conservation law: reserved identifiers are the disjoint union of the queued and the outstanding
      ones, and each accepted publication is queued, outstanding or finished exactly once. */
  ghost predicate Accounted(q: Session, t: Tickets) {
    && NoDup(QueueIds(q.queue)) && NoDup(Ids(Outstanding(q))) && Apart(QueueIds(q.queue), Ids(Outstanding(q)))
    && q.reserved == Elements(QueueIds(q.queue)) + Elements(Ids(Outstanding(q)))
    && (forall id :: id in t.owner <==> id in QueueIds(q.queue) || id in ExchangeIds(Outstanding(q)))
    && TicketsOk(t)
  }

  ghost predicate Conserved(s: Engine) {
    Accounted(s.sess, s.hist.tickets)
  }

  lemma InvConserved(c: Options, s: Engine)
    requires Inv(c, s)
    ensures Conserved(s)
  {
    Conservation(s.sess, s.hist.tickets);
  }

  /** A rejection ends the rejected publication and touches no other. */
  ghost predicate Spared(p: Packet, before: Shelf, after: Shelf) {
    && after.sess.inflight == before.sess.inflight && after.sess.replay == before.sess.replay
    && (if p.Publish? && p.qos > 0 && p.id.Some?
        then after.sess.reserved == before.sess.reserved - {p.id.value}
          && after.tickets == MarkFailed(before.tickets, p.id.value)
        else after.sess.reserved == before.sess.reserved && after.tickets == before.tickets)
  }

  /** What an admission or a rejection should do. */
  ghost predicate Lawful(pt: Point) {
    Accounted(pt.after.sess, pt.after.tickets) && (pt.Rejected? ==> Spared(pt.packet, pt.before, pt.after))
  }

  /** The identifier of a publication belongs to somebody else: an admitted one to an exchange parked by a CONNECT, a
      rejected unacknowledged one to an operation that is queued, in flight or deferred. */
  predicate Clash(pt: Point) {
    pt.packet.Publish? && pt.packet.id.Some? &&
    var id, q := pt.packet.id.value, pt.before.sess;
    if pt.Admitted? then pt.packet.qos > 0 && id in Ids(q.previous)
    else pt.packet.qos == 0 && (id in QueueIds(q.queue) || id in Ids(Live(q)))
  }

  // ----- Failing operations -----

  /** The session after an operation failed or completed. */
  function Without(q: Session, id: nat): (r: Session) {
    q.(inflight := Acknowledge(q.inflight, id), reserved := q.reserved - {id})
  }

  lemma WithoutKept(c: Options, q: Session, id: nat, now: Time)
    requires Kept(c, q, now)
    ensures Kept(c, Without(q, id), now)
  {
    AcknowledgeSound(LineOf(c), q.inflight, id);
  }

  lemma FailOperationSess(s: Engine, id: nat, p: Packet, e: Error)
    ensures FailOperation(s, id, p, e).sess == Without(s.sess, id)
    ensures FailOperation(s, id, p, e).link == s.link
    ensures FailOperation(s, id, p, e).hist == s.hist.(
              tickets := MarkFailed(s.hist.tickets, id), credit := GiveBack(s.hist.credit, s.sess.inflight, id))
    ensures FailOperation(s, id, p, e).clock == s.clock.(deadlines := DropDeadlinesOf(s.clock.deadlines, id))
  {
  }

  lemma BooksFail(q: Session, t: Tickets, parked: seq<Held>, id: nat)
    requires Books(q, t, parked) && id !in QueueIds(q.queue) && id !in Ids(q.replay)
    ensures Books(Without(q, id), MarkFailed(t, id), parked)
  {
    MarkFailedOk(t, id);
    BooksRelease(q, t, MarkFailed(t, id), parked, id);
  }

  /** Failing a list of live or parked operations, none of them queued or waiting for replay. */
  lemma {:induction false} FailAllKeeps(c: Options, s: Engine, hs: seq<Held>, e: Error, parked: seq<Held>)
    requires Kept(c, s.sess, s.clock.now) && Books(s.sess, s.hist.tickets, parked)
    requires forall id :: id in Ids(hs) ==> id !in QueueIds(s.sess.queue) && id !in Ids(s.sess.replay)
    ensures
      var r := FailAll(s, hs, e);
      && Kept(c, r.sess, r.clock.now) && Books(r.sess, r.hist.tickets, parked)
      && r.sess.queue == s.sess.queue && r.sess.previous == s.sess.previous && r.sess.replay == s.sess.replay
      && r.link == s.link && r.clock.now == s.clock.now
      && (forall id :: id in r.sess.reserved <==> id in s.sess.reserved && id !in Ids(hs))
      && (forall id :: id in LiveIds(r.sess.inflight) <==> id in LiveIds(s.sess.inflight) && id !in Ids(hs))
    decreases hs
  {
    if hs == [] {
    } else {
      var s1 := FailOperation(s, hs[0].id, hs[0].packet, e);
      IdsHead(hs);
      FailOperationSess(s, hs[0].id, hs[0].packet, e);
      WithoutKept(c, s.sess, hs[0].id, s.clock.now);
      BooksFail(s.sess, s.hist.tickets, parked, hs[0].id);
      AcknowledgeSnapshot(s.sess.inflight, hs[0].id);
      RemoveIds(Snapshot(s.sess.inflight.items), hs[0].id);
      FailAllKeeps(c, s1, hs[1..], e, parked);
    }
  }

  lemma {:induction false} BooksForgetAll(q: Session, t: Tickets, hs: seq<Held>, rest: seq<Held>)
    requires Books(q, t, hs + rest) && forall id :: id in Ids(hs) ==> id !in q.reserved
    ensures Books(q, t, rest)
    decreases hs
  {
    if hs == [] {
      assert hs + rest == rest;
    } else {
      IdsHead(hs);
      assert hs + rest == [hs[0]] + (hs[1..] + rest);
      BooksForget(q, t, hs[0], hs[1..] + rest);
      BooksForgetAll(q, t, hs[1..], rest);
    }
  }

  // ----- Losing the connection -----

  /** Entries waiting for replay may be treated as parked instead. */
  lemma BooksPark(q: Session, t: Tickets, parked: seq<Held>)
    requires Books(q, t, parked) && Exchanging(q.replay)
    ensures Books(q.(replay := []), t, q.replay + parked)
  {
    var a, r := Snapshot(q.inflight.items), q.(replay := []);
    assert Live(r) == a + [] == a;
    IdsAppend(a, q.replay);
    NoDupAppend(Ids(a), Ids(q.replay));
    IdsAppend(q.replay, parked);
    ExchangeIdsAppend(a, q.replay);
    ExchangeIdsAppend(q.replay, parked);
    forall id ensures id in ExchangeIds(q.replay) <==> id in Ids(q.replay) {
      AllExchange(q.replay, id);
    }
  }

  lemma AllExchange(hs: seq<Held>, id: nat)
    requires Exchanging(hs)
    ensures id in ExchangeIds(hs) <==> id in Ids(hs)
  {
    ExchangeIdsIn(hs, id);
    if id in Ids(hs) {
      var i :| 0 <= i < |hs| && Ids(hs)[i] == id;
      assert hs[i] in hs;
    }
  }

  lemma EndSessionKeeps(c: Options, s: Engine)
    requires Kept(c, s.sess, s.clock.now) && Books(s.sess, s.hist.tickets, s.sess.previous)
    ensures
      var r := EndSession(s);
      && Kept(c, r.sess, r.clock.now) && Books(r.sess, r.hist.tickets, r.sess.previous)
      && r.sess.queue == s.sess.queue && r.sess.previous == s.sess.previous && r.sess.replay == []
      && r.link == s.link.(hasSession := false) && r.clock.now == s.clock.now
      && r.sess.inflight.items == []
  {
    var s0 := s.(link := s.link.(hasSession := false));
    var items := Snapshot(s.sess.inflight.items);
    IdsAppend(items, s.sess.replay);
    NoDupAppend(Ids(items), Ids(s.sess.replay));
    FailAllKeeps(c, s0, items, SessionExpired, s.sess.previous);
    var s1 := FailAll(s0, items, SessionExpired);
    EndReplayKeeps(c, s1);
    EmptyInflight(s1.sess.inflight);
    FailAllItems(s1.(sess := s1.sess.(replay := [])), s1.sess.replay, SessionExpired);
  }

  lemma EmptyInflight(q: Inflight)
    requires forall id :: id !in LiveIds(q)
    ensures q.items == []
  {
    HasMember(LiveIds(q));
    assert |LiveIds(q)| == |q.items|;
  }

  lemma HasMember<T>(xs: seq<T>)
    ensures xs == [] || exists x :: x in xs
  {
    if xs != [] { assert xs[0] in xs; }
  }

  lemma {:induction false} FailAllItems(s: Engine, hs: seq<Held>, e: Error)
    requires s.sess.inflight.items == []
    ensures FailAll(s, hs, e).sess.inflight.items == []
    decreases hs
  {
    if hs == [] {
    } else {
      FailAllItems(FailOperation(s, hs[0].id, hs[0].packet, e), hs[1..], e);
    }
  }

  lemma EndReplayKeeps(c: Options, s: Engine)
    requires Kept(c, s.sess, s.clock.now) && Books(s.sess, s.hist.tickets, s.sess.previous)
    ensures
      var r := FailAll(s.(sess := s.sess.(replay := [])), s.sess.replay, SessionExpired);
      && Kept(c, r.sess, r.clock.now) && Books(r.sess, r.hist.tickets, r.sess.previous)
      && r.sess.queue == s.sess.queue && r.sess.previous == s.sess.previous && r.sess.replay == []
      && r.link == s.link && r.clock.now == s.clock.now
  {
    var q, hs := s.sess, s.sess.replay;
    var s0 := s.(sess := q.(replay := []));
    BooksPark(q, s.hist.tickets, q.previous);
    IdsAppend(Snapshot(q.inflight.items), q.replay);
    FailAllKeeps(c, s0, hs, SessionExpired, hs + q.previous);
    var r := FailAll(s0, hs, SessionExpired);
    BooksForgetAll(r.sess, r.hist.tickets, hs, q.previous);
  }

  lemma StripQueueOk(c: Options, queue: seq<Ranked<Packet>>)
    requires QueueOk(c, queue)
    ensures QueueOk(c, StripQueue(queue))
  {
    forall x | x in StripQueue(queue) ensures Queueable(c, x.item) {
      var i :| 0 <= i < |queue| && StripQueue(queue)[i] == x;
      assert queue[i] in queue;
      DropAliasesIdempotent(queue[i].item.props);
    }
  }

  /** A queue of encodable packets leaves nothing uncounted. */
  lemma {:induction false} AllEncodable(c: Options, queue: seq<Ranked<Packet>>)
    requires QueueOk(c, queue)
    ensures Unencodable(c, queue) == 0
  {
    if queue == [] {
    } else {
      assert queue[0] in queue;
      AllEncodable(c, queue[1..]);
    }
  }

  lemma ResetSessionKeeps(c: Options, q: Session, t: Tickets, now: Time)
    requires Kept(c, q, now) && Books(q, t, q.previous)
    ensures Kept(c, ResetSession(c, q), now) && Books(ResetSession(c, q), t, q.previous)
  {
    StripQueueOk(c, q.queue);
    StripIds(q.queue);
    assert Live(ResetSession(c, q)) == Live(q);
  }

  /** Losing the transport keeps the session books, whatever the state was. */
  lemma ResetKeeps(c: Options, s: Engine)
    requires Inv(c, s)
    ensures Inv(c, Reset(c, s))
    ensures !Reset(c, s).link.connected && !Reset(c, s).link.connecting && Reset(c, s).clock.now == s.clock.now
    ensures !c.sessionless ==> Reset(c, s).sess == ResetSession(c, s.sess) && Reset(c, s).hist == s.hist
    ensures c.sessionless ==> Reset(c, s).sess.inflight.items == []
  {
    ResetSessionKeeps(c, s.sess, s.hist.tickets, s.clock.now);
    AllEncodable(c, StripQueue(s.sess.queue));
    if c.sessionless {
      var s2 := Detached(c, s);
      EndSessionKeeps(c, s2);
      assert Reset(c, s).sess == EndSession(s2).sess;
    }
  }

  lemma {:induction false} FailAllLink(s: Engine, hs: seq<Held>, e: Error)
    ensures FailAll(s, hs, e).link == s.link
    decreases hs
  {
    if hs == [] {
    } else {
      FailAllLink(FailOperation(s, hs[0].id, hs[0].packet, e), hs[1..], e);
    }
  }

  /** Whatever the state was, there is no connection afterwards. */
  lemma ResetLink(c: Options, s: Engine)
    ensures Lost(Reset(c, s)) && Lost(ConnectionLost(c, s, s.clock.now))
  {
    var s2 := Detached(c, s);
    var s3 := s2.(link := s2.link.(hasSession := false));
    FailAllLink(s3, Snapshot(s2.sess.inflight.items), SessionExpired);
    var s4 := FailAll(s3, Snapshot(s2.sess.inflight.items), SessionExpired);
    FailAllLink(s4.(sess := s4.sess.(replay := [])), s4.sess.replay, SessionExpired);
  }

  lemma ScheduleReconnectFrame(c: Options, s: Engine, now: Time)
    ensures
      var r := ScheduleReconnect(c, s, now);
      r.sess == s.sess && r.link == s.link && r.clock.now == s.clock.now
      && r.hist == s.hist.(delays := r.hist.delays, scheduled := r.hist.scheduled)
  {
  }

  lemma ConnectionLostKeeps(c: Options, s: Engine, now: Time)
    requires Inv(c, s)
    ensures Inv(c, ConnectionLost(c, s, now))
    ensures !ConnectionLost(c, s, now).link.connected && !ConnectionLost(c, s, now).link.connecting
    ensures ConnectionLost(c, s, now).sess == Reset(c, s).sess && ConnectionLost(c, s, now).clock.now == s.clock.now
  {
    ResetKeeps(c, s);
    var s1 := Reset(c, s);
    var s2 := s1.(clock := s1.clock.(nextReconnect := s.clock.nextReconnect));
    ScheduleReconnectFrame(c, s2, now);
  }

  lemma FailConnectionKeeps(c: Options, s: Engine, e: Error)
    requires Inv(c, s)
    ensures Inv(c, FailConnection(c, s, e))
    ensures !FailConnection(c, s, e).link.connected && !FailConnection(c, s, e).link.connecting
    ensures FailConnection(c, s, e).sess == Reset(c, s).sess && FailConnection(c, s, e).clock.now == s.clock.now
  {
    ConnectionLostKeeps(c, s, s.clock.now);
  }

  // ----- Output -----

  /** Nothing of the session changed, and the connection stayed as it was. */
  ghost predicate SameSession(s: Engine, r: Engine) {
    && r.sess == s.sess && r.hist == s.hist && r.caps == s.caps && r.cursor == s.cursor
    && r.link.connected == s.link.connected && r.link.connecting == s.link.connecting
    && r.link.hasSession == s.link.hasSession && r.link.reauth == s.link.reauth && r.link.closed == s.link.closed
    && r.clock.now == s.clock.now
  }

  ghost predicate Lost(r: Engine) {
    !r.link.connected && !r.link.connecting
  }

  lemma {:induction false} FlushOutFrame(c: Options, s: Engine)
    ensures SameSession(s, FlushOut(c, s)) && FlushOut(c, s).events == s.events && FlushOut(c, s).resends == s.resends
    ensures FlushOut(c, s).link.parser == s.link.parser && !FlushReady(c, FlushOut(c, s))
    ensures FlushOut(c, s).clock == s.clock.(lastSent := FlushOut(c, s).clock.lastSent)
    decreases |s.link.responses|
  {
    if FlushReady(c, s) { FlushOutFrame(c, FlushOne(c, s)); }
  }

  /** Flushing responses either leaves the session alone or loses the connection. */
  lemma FlushCases(c: Options, s: Engine)
    ensures SameSession(s, Flush(c, s)) || Lost(Flush(c, s))
  {
    FlushOutFrame(c, s);
    ResetLink(c, FlushOut(c, s));
  }

  lemma FlushKeeps(c: Options, s: Engine)
    requires Inv(c, s)
    ensures Inv(c, Flush(c, s)) && Flush(c, s).clock.now == s.clock.now
  {
    FlushOutFrame(c, s);
    var s1 := FlushOut(c, s);
    if FlushError(c, s1).Some? { FailConnectionKeeps(c, s1, FlushError(c, s1).value); }
  }

  /** Tracking a replayed exchange cannot fail: its identifier is reserved and not in flight. */
  lemma ReplayPush(c: Options, q: Session, t: Tickets, now: Time)
    requires Kept(c, q, now) && Books(q, t, q.previous) && q.replay != []
    requires q.replay[0].packet.Publish? ==> CanPublish(q.inflight)
    ensures
      var h := q.replay[0];
      Push(LineOf(c), q.inflight, h.id, h.packet, QosOf(h.packet), None, now).Ok?
  {
    var h, a := q.replay[0], Snapshot(q.inflight.items);
    IdsAppend(a, q.replay);
    NoDupAppend(Ids(a), Ids(q.replay));
    IdsHead(q.replay);
    assert h.id in Ids(q.replay) && h.id in Ids(Live(q));
    HasIds(q.inflight, h.id);
  }

  /** The session after its first replay entry went out. */
  function Replayed(c: Options, q: Session, now: Time): (r: Session)
    requires q.replay != []
    requires Push(LineOf(c), q.inflight, q.replay[0].id, q.replay[0].packet, QosOf(q.replay[0].packet), None, now).Ok?
  {
    var h := q.replay[0];
    q.(replay := q.replay[1..], inflight := Push(LineOf(c), q.inflight, h.id, h.packet, QosOf(h.packet), None,
      now).value)
  }

  /** A replayed entry moves from the waiting list to the end of the exchanges in flight: the list of
      live exchanges does not change at all. */
  lemma ReplayedLive(c: Options, q: Session, now: Time)
    requires q.replay != []
    requires Push(LineOf(c), q.inflight, q.replay[0].id, q.replay[0].packet, QosOf(q.replay[0].packet), None, now).Ok?
    ensures Live(Replayed(c, q, now)) == Live(q)
  {
    var h := q.replay[0];
    PushSnapshot(LineOf(c), q.inflight, h.id, h.packet, QosOf(h.packet), None, now);
    assert q.replay == [h] + q.replay[1..];
    assert Snapshot(q.inflight.items) + [h] + q.replay[1..] == Live(q);
  }

  lemma ReplayedKept(c: Options, q: Session, now: Time)
    requires Kept(c, q, now) && q.replay != []
    requires Push(LineOf(c), q.inflight, q.replay[0].id, q.replay[0].packet, QosOf(q.replay[0].packet), None, now).Ok?
    ensures Kept(c, Replayed(c, q, now), now)
  {
    var h := q.replay[0];
    PushSound(LineOf(c), q.inflight, h.id, h.packet, QosOf(h.packet), None, now);
  }

  lemma BooksSameLive(q: Session, r: Session, t: Tickets, parked: seq<Held>)
    requires Books(q, t, parked) && Live(r) == Live(q) && QueueIds(r.queue) == QueueIds(q.queue)
        && r.reserved == q.reserved
    ensures Books(r, t, parked)
  {
  }

  lemma ReplayHeadSess(c: Options, s: Engine)
    requires s.sess.replay != [] && EnqueueError(c, s, s.sess.replay[0].packet).None?
    requires
      var h := s.sess.replay[0];
      Push(LineOf(c), s.sess.inflight, h.id, h.packet, QosOf(h.packet), None, s.clock.now).Ok?
    ensures
      var h, r := s.sess.replay[0], ReplayHead(c, s);
      && r.sess == Replayed(c, s.sess, s.clock.now)
      && r.hist == Exempt(LogReplay(s.hist, h), h)
      && r.link == s.link.(out := s.link.out + [c.encode(h.packet).value])
      && r.clock.now == s.clock.now && r.caps == s.caps && r.events == s.events && r.cursor == s.cursor
  {
  }

  /** Dropping the first replay entry because the connection cannot carry it. */
  lemma ReplayFailKeeps(c: Options, s: Engine, e: Error)
    requires Kept(c, s.sess, s.clock.now) && Books(s.sess, s.hist.tickets, s.sess.previous) && s.sess.replay != []
    ensures
      var h := s.sess.replay[0];
      var r := FailOperation(s.(sess := s.sess.(replay := s.sess.replay[1..])), h.id, h.packet, e);
      && Kept(c, r.sess, r.clock.now) && Books(r.sess, r.hist.tickets, r.sess.previous)
      && r.sess.inflight == s.sess.inflight
      && Live(r.sess) == Remove(Live(s.sess), h.id)
  {
    var q, h := s.sess, s.sess.replay[0];
    var a, rest := Snapshot(q.inflight.items), q.replay[1..];
    assert q.replay == [h] + rest;
    IdsAppend(a, q.replay);
    NoDupAppend(Ids(a), Ids(q.replay));
    IdsHead(q.replay);
    HasIds(q.inflight, h.id);
    RemoveAppend(a, q.replay, h.id);
    RemoveAbsent(a, h.id);
    RemoveAbsent(rest, h.id);
    assert Remove(q.replay, h.id) == rest;
    var r := q.(replay := rest, reserved := q.reserved - {h.id});
    assert Live(r) == Remove(Live(q), h.id);
    RemoveIds(Live(q), h.id);
    ExchangeIdsRemove(Live(q), h.id);
    MarkFailedOk(s.hist.tickets, h.id);
    assert Without(q.(replay := rest), h.id) == r;
    assert h.id in Ids(Live(q));
  }

  lemma ReplayOneKeeps(c: Options, s: Engine)
    requires Inv(c, s) && s.link.connected && ReplayReady(c, s)
    ensures Inv(c, ReplayOne(c, s))
  {
    var q, t, h := s.sess, s.hist.tickets, s.sess.replay[0];
    if EnqueueError(c, s, h.packet).None? {
      ReplayPush(c, q, t, s.clock.now);
      ReplayHeadSess(c, s);
      ReplayedKept(c, q, s.clock.now);
      ReplayedLive(c, q, s.clock.now);
      BooksSameLive(q, Replayed(c, q, s.clock.now), t, q.previous);
    } else {
      ReplayFailKeeps(c, s, EnqueueError(c, s, h.packet).value);
    }
  }

  lemma ReplayOneFrame(c: Options, s: Engine)
    requires ReplayReady(c, s)
    ensures
      var r := ReplayOne(c, s);
      && r.link == s.link.(out := r.link.out) && r.clock.now == s.clock.now
      && r.sess.queue == s.sess.queue && r.sess.previous == s.sess.previous
  {
  }

  /** Resuming deferred exchanges keeps the invariant, the queue and the connection. */
  lemma {:induction false} ProcessReplayKeeps(c: Options, s: Engine)
    requires Inv(c, s) && s.link.connected
    ensures Inv(c, ProcessReplay(c, s)) && !ReplayReady(c, ProcessReplay(c, s))
    ensures
      var r := ProcessReplay(c, s);
      && r.link == s.link.(out := r.link.out) && r.clock.now == s.clock.now
      && r.sess.queue == s.sess.queue
    decreases |s.sess.replay|
  {
    if ReplayReady(c, s) {
      ReplayOneKeeps(c, s);
      ReplayOneFrame(c, s);
      ProcessReplayKeeps(c, ReplayOne(c, s));
    }
  }

  // ----- The queue -----

  /** While the books are right, tracking a queued publication cannot fail. */
  lemma PushSucceeds(c: Options, q: Session, t: Tickets, now: Time)
    requires Kept(c, q, now) && Books(q, t, q.previous) && q.queue != []
    requires q.queue[0].item.qos > 0 && CanPublish(q.inflight)
    ensures
      var p := q.queue[0].item;
      p.Publish? && p.id.Some? && Push(LineOf(c), q.inflight, p.id.value, p, p.qos, None, now).Ok?
  {
    var x := q.queue[0];
    assert x in q.queue;
    QueueHead(q.queue);
    assert x.item.id.value in IdOf(x);
    assert x.item.id.value in QueueIds(q.queue);
    IdsAppend(Snapshot(q.inflight.items), q.replay);
    HasIds(q.inflight, x.item.id.value);
  }

  /** The session after the head of the queue left. */
  function Popped(q: Session, n: nat): (r: Session)
    requires q.queue != []
  {
    q.(queue := q.queue[1..], queuedBytes := Monus(q.queuedBytes, n))
  }

  lemma PoppedKept(c: Options, q: Session, now: Time, bytes: Bytes)
    requires Kept(c, q, now) && q.queue != [] && c.encode(q.queue[0].item) == Some(bytes)
    ensures Kept(c, Popped(q, |bytes|), now)
  {
  }

  lemma RejectHeadSess(s: Engine, bytes: Bytes, e: Error)
    requires s.sess.queue != []
    ensures
      var p, r := s.sess.queue[0].item, RejectHead(s, bytes, e);
      && r.link == s.link && r.clock.now == s.clock.now && r.cursor == s.cursor
      && (if p.Publish? && p.id.Some?
          then r.sess == Without(Popped(s.sess, |bytes|), p.id.value)
            && r.hist.tickets == MarkFailed(s.hist.tickets, p.id.value)
            && r.hist.credit == GiveBack(s.hist.credit, s.sess.inflight, p.id.value)
          else r.sess == Popped(s.sess, |bytes|) && r.hist.tickets == s.hist.tickets && r.hist.credit == s.hist.credit)
      && r.hist == s.hist.(
           tickets := r.hist.tickets, credit := r.hist.credit, arrivals := DropStamp(s.hist.arrivals),
           shortfall := s.hist.shortfall + Monus(|bytes|, s.sess.queuedBytes),
           points := s.hist.points + [Rejected(p, Shelf(s.sess, s.hist.tickets), Shelf(r.sess, r.hist.tickets))])
  {
  }

  /** Rejecting an acknowledged publication ends exactly that publication. */
  lemma RejectOwn(c: Options, s: Engine, bytes: Bytes, e: Error)
    requires Inv(c, s) && s.link.connected && s.sess.queue != [] && c.encode(s.sess.queue[0].item) == Some(bytes)
    requires s.sess.queue[0].item.qos > 0
    ensures
      var r := RejectHead(s, bytes, e);
      Inv(c, r) && Spared(s.sess.queue[0].item, Shelf(s.sess, s.hist.tickets), Shelf(r.sess, r.hist.tickets))
  {
    var q, x := s.sess, s.sess.queue[0];
    assert x in q.queue;
    var id := x.item.id.value;
    PoppedKept(c, q, s.clock.now, bytes);
    QueueHead(q.queue);
    assert id in IdOf(x) && id in QueueIds(q.queue);
    IdsAppend(Snapshot(q.inflight.items), q.replay);
    HasIds(q.inflight, id);
    BooksReject(q, s.hist.tickets, q.previous, id);
    WithoutKept(c, Popped(q, |bytes|), id, s.clock.now);
    RejectHeadSess(s, bytes, e);
    RejectBooks(q, |bytes|, id);
  }

  lemma RejectBooks(q: Session, n: nat, id: nat)
    requires q.queue != []
    ensures Without(Popped(q, n), id)
         == q.(queue := q.queue[1..], reserved := q.reserved - {id},
           inflight := Acknowledge(q.inflight, id)).(queuedBytes := Monus(q.queuedBytes, n))
  {
  }

  /** An identifier that no operation holds cannot be released. */
  lemma ForeignRelease(q: Session, t: Tickets, id: nat)
    requires Books(q, t, []) && id !in QueueIds(q.queue) && id !in Ids(Live(q))
    ensures Without(q, id) == q && MarkFailed(t, id) == t
  {
    IdsAppend(Snapshot(q.inflight.items), q.replay);
    HasIds(q.inflight, id);
    ExchangeIdsIn(Live(q), id);
    assert q.reserved - {id} == q.reserved;
  }

  /** Rejecting an unacknowledged publication touches nothing else unless its identifier is held by somebody. */
  lemma RejectPlain(c: Options, s: Engine, bytes: Bytes, e: Error)
    requires Inv(c, s) && s.link.connected && s.sess.queue != [] && c.encode(s.sess.queue[0].item) == Some(bytes)
    requires
      var p := s.sess.queue[0].item;
      p.qos == 0 && (p.id.Some? ==> p.id.value !in QueueIds(s.sess.queue) && p.id.value !in Ids(Live(s.sess)))
    ensures
      var r := RejectHead(s, bytes, e);
      Inv(c, r) && Spared(s.sess.queue[0].item, Shelf(s.sess, s.hist.tickets), Shelf(r.sess, r.hist.tickets))
  {
    var q, t, x := s.sess, s.hist.tickets, s.sess.queue[0];
    var m := Popped(q, |bytes|);
    assert x in q.queue;
    PoppedKept(c, q, s.clock.now, bytes);
    RejectHeadSess(s, bytes, e);
    BooksDropHead(q, t, q.previous);
    BooksSameLive(q.(queue := q.queue[1..]), m, t, q.previous);
    QueueHead(q.queue);
    assert IdOf(x) == [] && QueueIds(m.queue) == QueueIds(q.queue) && Live(m) == Live(q);
    if x.item.id.Some? { ForeignRelease(m, t, x.item.id.value); }
  }

  /** If its identifier is held by somebody, the rejection takes it away from them. */
  lemma RejectClashes(c: Options, s: Engine, bytes: Bytes, e: Error)
    requires Inv(c, s) && s.link.connected && s.sess.queue != []
    requires
      var p := s.sess.queue[0].item;
      p.qos == 0 && p.id.Some? && (p.id.value in QueueIds(s.sess.queue) || p.id.value in Ids(Live(s.sess)))
    ensures
      var r := RejectHead(s, bytes, e);
      !Spared(s.sess.queue[0].item, Shelf(s.sess, s.hist.tickets), Shelf(r.sess, r.hist.tickets))
  {
    var q, x := s.sess, s.sess.queue[0];
    assert x in q.queue;
    RejectHeadSess(s, bytes, e);
    assert x.item.id.value in q.reserved;
  }

  /** The session after the head of the queue was sent and tracked. */
  function SentTracked(c: Options, q: Session, n: nat, now: Time): (r: Session)
    requires q.queue != [] && q.queue[0].item.Publish? && q.queue[0].item.id.Some?
    requires Push(LineOf(c), q.inflight, q.queue[0].item.id.value, q.queue[0].item, q.queue[0].item.qos, None, now).Ok?
  {
    var p := q.queue[0].item;
    Popped(q, n).(inflight := Push(LineOf(c), q.inflight, p.id.value, p, p.qos, None, now).value)
  }

  lemma SentTrackedKeeps(c: Options, q: Session, t: Tickets, now: Time, bytes: Bytes)
    requires Kept(c, q, now) && Books(q, t, q.previous) && q.queue != [] && q.replay == []
    requires c.encode(q.queue[0].item) == Some(bytes) && q.queue[0].item.Publish? && q.queue[0].item.qos > 0
        && CanPublish(q.inflight)
    ensures
      var p := q.queue[0].item;
      && p.id.Some? && Push(LineOf(c), q.inflight, p.id.value, p, p.qos, None, now).Ok?
      && Kept(c, SentTracked(c, q, |bytes|, now), now) && Books(SentTracked(c, q, |bytes|, now), t, q.previous)
      && Live(SentTracked(c, q, |bytes|, now)) == Live(q) + [Held(p.id.value, p)]
  {
    var p := q.queue[0].item;
    PushSucceeds(c, q, t, now);
    var id, w := p.id.value, LineOf(c);
    PoppedKept(c, q, now, bytes);
    PushSound(w, q.inflight, id, p, p.qos, None, now);
    PushSnapshot(w, q.inflight, id, p, p.qos, None, now);
    SentBooks(c, q, t, now, |bytes|);
  }

  lemma SentBooks(c: Options, q: Session, t: Tickets, now: Time, n: nat)
    requires Books(q, t, q.previous) && q.queue != [] && q.replay == []
    requires q.queue[0].item.Publish? && q.queue[0].item.qos > 0 && q.queue[0].item.id.Some?
    requires Push(LineOf(c), q.inflight, q.queue[0].item.id.value, q.queue[0].item, q.queue[0].item.qos, None, now).Ok?
    ensures Books(SentTracked(c, q, n, now), t, q.previous)
    ensures Live(SentTracked(c, q, n, now)) == Live(q) + [Held(q.queue[0].item.id.value, q.queue[0].item)]
  {
    var p := q.queue[0].item;
    var id, w := p.id.value, LineOf(c);
    var items := Push(w, q.inflight, id, p, p.qos, None, now).value.items;
    PushSnapshot(w, q.inflight, id, p, p.qos, None, now);
    BooksSend(q, t, q.previous, id, items);
    var m := q.(queue := q.queue[1..], inflight := q.inflight.(items := items));
    assert Live(SentTracked(c, q, n, now)) == Live(m);
    BooksSameLive(m, SentTracked(c, q, n, now), t, q.previous);
  }

  lemma SendHeadSess(c: Options, s: Engine, bytes: Bytes)
    requires s.sess.queue != [] && s.sess.queue[0].item.Publish?
    ensures
      var x, r := s.sess.queue[0], SendHead(c, s, bytes);
      var p := x.item;
      && (p.qos == 0 || p.id.None? ==>
            && r.sess == Popped(s.sess, |bytes|) && r.hist.credit == s.hist.credit
            && r.hist.failures == s.hist.failures)
      && (p.qos > 0 && p.id.Some? && Push(LineOf(c), s.sess.inflight, p.id.value, p, p.qos, None, s.clock.now).Ok? ==>
            && r.sess == SentTracked(c, s.sess, |bytes|, s.clock.now) && r.hist.credit == Spend(s.hist).credit
            && r.hist.failures == s.hist.failures)
      && r.hist.tickets == s.hist.tickets && r.hist.points == s.hist.points && r.hist.reports == s.hist.reports
      && r.hist.emitted == s.hist.emitted + [FromQueue(x)]
      && r.link == s.link.(out := s.link.out + [bytes]) && r.clock.now == s.clock.now && r.caps == s.caps
        && r.cursor == s.cursor
  {
  }

  lemma SendHeadKeeps(c: Options, s: Engine, bytes: Bytes)
    requires Inv(c, s) && s.link.connected && s.sess.queue != [] && s.sess.replay == []
    requires c.encode(s.sess.queue[0].item) == Some(bytes) && !QueueBlocked(s)
    ensures Inv(c, SendHead(c, s, bytes)) && SendHead(c, s, bytes).hist.failures == s.hist.failures
  {
    var q, t, x := s.sess, s.hist.tickets, s.sess.queue[0];
    assert x in q.queue;
    SendHeadSess(c, s, bytes);
    if x.item.qos > 0 {
      SentTrackedKeeps(c, q, t, s.clock.now, bytes);
    } else {
      PoppedKept(c, q, s.clock.now, bytes);
      BooksDropHead(q, t, q.previous);
      BooksSameLive(q.(queue := q.queue[1..]), Popped(q, |bytes|), t, q.previous);
    }
  }
}
