/** Where every packet identifier and every accepted publication is.

    `Books` relates the queue, the live exchanges (in flight or waiting for replay), the parked ones
    (captured by a CONNECT and not yet decided) and the reserved identifiers, and ties the tickets of
    accepted publications to them. Each lemma is one kind of bookkeeping step. */
module SessionBooks {
  import opened Basics
  import opened Packets
  import opened PriorityQueues
  import opened InflightQueues
  import opened EngineModel

  /** In flight, then waiting for replay. */
  function Live(q: Session): (r: seq<Held>) { Snapshot(q.inflight.items) + q.replay }

  function ExchangeIds(hs: seq<Held>): (r: seq<nat>) {
    if hs == [] then [] else (if IsExchange(hs[0].packet) then [hs[0].id] else []) + ExchangeIds(hs[1..])
  }

  /** Every reserved identifier stands in the queue, or is live, or is parked; queued ones stand nowhere else. */
  ghost predicate Balanced(queued: seq<nat>, live: seq<nat>, parked: seq<nat>, reserved: set<nat>) {
    && NoDup(queued) && NoDup(live)
    && (forall id :: id in queued ==> id in reserved && id !in live && id !in parked)
    && (forall id :: id in live ==> id in reserved)
    && (forall id :: id in reserved ==> id in queued || id in live || id in parked)
  }

  /** An identifier owns a ticket exactly while its publication is queued, sent or deferred. */
  ghost predicate Owned(owner: map<nat, nat>, queued: seq<nat>, live: seq<Held>, parked: seq<Held>, reserved: set<nat>)
  {
    forall id :: id in owner <==>
      id in queued || id in ExchangeIds(live) || (id in ExchangeIds(parked) && id in reserved && id !in Ids(live))
  }

  /** Every ticket is either owned by one identifier or finished exactly once. */
  ghost predicate TicketsOk(t: Tickets) {
    && (forall id :: id in t.owner ==>
          t.owner[id] < t.issued && t.owner[id] !in t.published && t.owner[id] !in t.failed)
    && (forall id, k :: id in t.owner && k in t.owner && id != k ==> t.owner[id] != t.owner[k])
    && NoDup(t.published + t.failed)
    && (forall n :: n in t.published || n in t.failed ==> n < t.issued)
    && (forall n :: 0 <= n < t.issued ==> n in t.published || n in t.failed || n in t.owner.Values)
  }

  ghost predicate Books(q: Session, t: Tickets, parked: seq<Held>) {
    && Balanced(QueueIds(q.queue), Ids(Live(q)), Ids(parked), q.reserved)
    && Owned(t.owner, QueueIds(q.queue), Live(q), parked, q.reserved)
    && TicketsOk(t)
  }

  // ----- Tickets -----

  lemma IssueOk(t: Tickets, id: nat)
    requires TicketsOk(t) && id !in t.owner
    ensures TicketsOk(Issue(t, id))
  {
    var r := Issue(t, id);
    forall n | 0 <= n < r.issued ensures n in r.published || n in r.failed || n in r.owner.Values {
      if n == t.issued {
        assert r.owner[id] == n;
      } else if n !in t.published && n !in t.failed {
        var k :| k in t.owner && t.owner[k] == n;
        assert r.owner[k] == n;
      }
    }
  }

  lemma MarkPublishedOk(t: Tickets, id: nat)
    requires TicketsOk(t)
    ensures TicketsOk(MarkPublished(t, id))
  {
    if id in t.owner {
      var r := MarkPublished(t, id);
      FinishOnce(t.published, t.failed, t.owner[id]);
      assert r.published + r.failed == t.published + [t.owner[id]] + t.failed;
      KeptTickets(t, r, id);
    }
  }

  lemma MarkFailedOk(t: Tickets, id: nat)
    requires TicketsOk(t)
    ensures TicketsOk(MarkFailed(t, id))
  {
    if id in t.owner {
      var r := MarkFailed(t, id);
      FinishOnce(t.published, t.failed, t.owner[id]);
      assert r.published + r.failed == t.published + t.failed + [t.owner[id]];
      KeptTickets(t, r, id);
    }
  }

  lemma FinishOnce(published: seq<nat>, failed: seq<nat>, n: nat)
    requires NoDup(published + failed) && n !in published && n !in failed
    ensures NoDup(published + [n] + failed) && NoDup(published + failed + [n])
  {
    NoDupAppend(published, failed);
    NoDupAppend(published, [n]);
    NoDupAppend(published + [n], failed);
    NoDupAppend(published + failed, [n]);
  }

  lemma KeptTickets(t: Tickets, r: Tickets, id: nat)
    requires TicketsOk(t) && id in t.owner && r.owner == t.owner - {id} && r.issued == t.issued
    requires forall n :: n in r.published || n in r.failed <==> n in t.published || n in t.failed || n == t.owner[id]
    ensures forall n :: 0 <= n < r.issued ==> n in r.published || n in r.failed || n in r.owner.Values
  {
    forall n | 0 <= n < r.issued ensures n in r.published || n in r.failed || n in r.owner.Values {
      if n !in t.published && n !in t.failed && n != t.owner[id] {
        var k :| k in t.owner && t.owner[k] == n;
        assert r.owner[k] == n;
      }
    }
  }

  // ----- Exchange identifiers -----

  lemma {:induction false} ExchangeIdsAppend(xs: seq<Held>, ys: seq<Held>)
    ensures ExchangeIds(xs + ys) == ExchangeIds(xs) + ExchangeIds(ys)
  {
    if xs == [] {
      assert xs + ys == ys;
    } else {
      var all := xs + ys;
      assert all[0] == xs[0] && all[1..] == xs[1..] + ys;
      ExchangeIdsAppend(xs[1..], ys);
      var head := if IsExchange(xs[0].packet) then [xs[0].id] else [];
      assert ExchangeIds(all) == head + (ExchangeIds(xs[1..]) + ExchangeIds(ys));
      assert ExchangeIds(xs) == head + ExchangeIds(xs[1..]);
    }
  }

  lemma {:induction false} ExchangeIdsIn(hs: seq<Held>, id: nat)
    ensures id in ExchangeIds(hs) <==> exists h :: h in hs && h.id == id && IsExchange(h.packet)
    ensures id in ExchangeIds(hs) ==> id in Ids(hs)
  {
    if hs == [] {
    } else {
      ExchangeIdsIn(hs[1..], id);
      IdsHead(hs);
      if h :| h in hs && h.id == id && IsExchange(h.packet) {
        if h != hs[0] { assert h in hs[1..]; }
      }
    }
  }

  lemma ExchangeOf(hs: seq<Held>, h: Held)
    requires NoDup(Ids(hs)) && h in hs
    ensures h.id in ExchangeIds(hs) <==> IsExchange(h.packet)
    ensures h.id in Ids(hs)
  {
    ExchangeIdsIn(hs, h.id);
    if h.id in ExchangeIds(hs) {
      var g :| g in hs && g.id == h.id && IsExchange(g.packet);
      HeldUnique(hs, g, h);
    }
    var i :| 0 <= i < |hs| && hs[i] == h;
    assert Ids(hs)[i] == h.id;
  }

  lemma {:induction false} ExchangeIdsRemove(hs: seq<Held>, id: nat)
    ensures forall k :: k in ExchangeIds(Remove(hs, id)) <==> k in ExchangeIds(hs) && k != id
  {
    if hs == [] {
    } else {
      ExchangeIdsRemove(hs[1..], id);
    }
  }

  /** Taking an identifier out of the live list. */
  lemma LiveWithout(q: Session, id: nat)
    requires NoDup(Ids(Live(q))) && id !in Ids(q.replay)
    ensures
      var r := q.(inflight := Acknowledge(q.inflight, id));
      && Live(r) == Remove(Live(q), id)
      && NoDup(Ids(Live(r)))
      && (forall k :: k in Ids(Live(r)) <==> k in Ids(Live(q)) && k != id)
      && (forall k :: k in ExchangeIds(Live(r)) <==> k in ExchangeIds(Live(q)) && k != id)
  {
    AcknowledgeSnapshot(q.inflight, id);
    RemoveAppend(Snapshot(q.inflight.items), q.replay, id);
    RemoveAbsent(q.replay, id);
    RemoveIds(Live(q), id);
    ExchangeIdsRemove(Live(q), id);
  }

  // ----- Bookkeeping steps -----

  /** An operation fails or completes: its identifier leaves the live list and the reservations. */
  lemma BooksRelease(q: Session, t: Tickets, t': Tickets, parked: seq<Held>, id: nat)
    requires Books(q, t, parked) && id !in QueueIds(q.queue) && id !in Ids(q.replay)
    requires TicketsOk(t') && t'.owner == t.owner - {id}
    ensures
      var r := q.(inflight := Acknowledge(q.inflight, id), reserved := q.reserved - {id});
      Books(r, t', parked)
  {
    LiveWithout(q, id);
    var r := q.(inflight := Acknowledge(q.inflight, id), reserved := q.reserved - {id});
    assert Live(r) == Live(q.(inflight := Acknowledge(q.inflight, id)));
  }

  /** A parked entry that is no longer reserved, or is live, need not be remembered. */
  lemma BooksForget(q: Session, t: Tickets, h: Held, rest: seq<Held>)
    requires Books(q, t, [h] + rest)
    requires h.id !in q.reserved || h.id in Ids(Live(q))
    ensures Books(q, t, rest)
  {
    HeadIds(h, rest);
    ExchangeIdsAppend([h], rest);
    assert [h][1..] == [];
    assert forall k :: k in ExchangeIds([h]) ==> k == h.id;
  }

  /** A parked exchange is scheduled for replay. */
  lemma BooksResume(q: Session, t: Tickets, h: Held, rest: seq<Held>, p: Packet)
    requires Books(q, t, [h] + rest) && IsExchange(h.packet) && IsExchange(p)
    requires h.id in q.reserved && h.id !in Ids(q.replay)
    requires h.id in LiveIds(q.inflight) ==> h in Snapshot(q.inflight.items)
    ensures
      var r := q.(inflight := Acknowledge(q.inflight, h.id), replay := q.replay + [Held(h.id, p)]);
      Books(r, t, rest) && h.id in Ids(r.replay) && Ids(r.replay) == Ids(q.replay) + [h.id]
  {
    LiveWithout(q, h.id);
    var m := q.(inflight := Acknowledge(q.inflight, h.id));
    var r := m.(replay := q.replay + [Held(h.id, p)]);
    assert Live(r) == Live(m) + [Held(h.id, p)];
    IdsAppend(Live(m), [Held(h.id, p)]);
    IdsAppend(q.replay, [Held(h.id, p)]);
    NoDupAppend(Ids(Live(m)), [h.id]);
    ExchangeIdsAppend(Live(m), [Held(h.id, p)]);
    assert [Held(h.id, p)][1..] == [];
    ResumeOwned(q, t, h, rest);
    HeadIds(h, rest);
    ExchangeIdsAppend([h], rest);
    assert [h][1..] == [];
    assert Ids([Held(h.id, p)]) == [h.id];
  }

  /** The exchange about to be resumed owns its ticket already. */
  lemma ResumeOwned(q: Session, t: Tickets, h: Held, rest: seq<Held>)
    requires Books(q, t, [h] + rest) && IsExchange(h.packet)
    requires h.id in q.reserved && h.id !in Ids(q.replay)
    requires h.id in LiveIds(q.inflight) ==> h in Snapshot(q.inflight.items)
    ensures h.id in t.owner && h.id !in QueueIds(q.queue)
  {
    HeadIds(h, rest);
    ExchangeIdsIn([h] + rest, h.id);
    assert h in [h] + rest;
    IdsAppend(Snapshot(q.inflight.items), q.replay);
    if h.id in LiveIds(q.inflight) {
      assert h in Live(q);
      ExchangeOf(Live(q), h);
    }
    assert h.id in Ids([h] + rest);
  }

  // ----- The queue -----

  /** A publication that can wait in the queue: encodable now and after a reset, with an identifier if it is to be
      acknowledged. */
  ghost predicate Queueable(c: Options, p: Packet) {
    && p.Publish? && c.encode(p).Some? && c.encode(StripAliases(p)).Some?
    && (p.qos > 0 ==> p.id.Some? && 0 < p.id.value <= MAX_ID)
  }

  ghost predicate QueueOk(c: Options, queue: seq<Ranked<Packet>>) {
    forall x :: x in queue ==> Queueable(c, x.item)
  }

  /** The identifier a queued publication stands for, as a list of at most one. */
  function IdOf(x: Ranked<Packet>): (r: seq<nat>) {
    if x.item.Publish? && x.item.qos > 0 && x.item.id.Some? then [x.item.id.value] else []
  }

  lemma QueueHead(queue: seq<Ranked<Packet>>)
    requires queue != []
    ensures QueueIds(queue) == IdOf(queue[0]) + QueueIds(queue[1..])
    ensures NoDup(QueueIds(queue)) ==>
              NoDup(QueueIds(queue[1..])) && forall id :: id in IdOf(queue[0]) ==> id !in QueueIds(queue[1..])
  {
    NoDupAppend(IdOf(queue[0]), QueueIds(queue[1..]));
  }

  lemma {:induction false} QueueInsert(queue: seq<Ranked<Packet>>, x: Ranked<Packet>)
    ensures forall id :: id in QueueIds(InsertDraining(queue, x)) <==> id in QueueIds(queue) || id in IdOf(x)
    ensures (NoDup(QueueIds(queue)) && forall id :: id in IdOf(x) ==> id !in QueueIds(queue)) ==>
              NoDup(QueueIds(InsertDraining(queue, x)))
  {
    if queue == [] || queue[0].priority < x.priority {
      assert ([x] + queue)[1..] == queue;
      QueueHead([x] + queue);
      NoDupAppend(IdOf(x), QueueIds(queue));
    } else {
      var rest := InsertDraining(queue[1..], x);
      QueueInsert(queue[1..], x);
      QueueHead(queue);
      assert ([queue[0]] + rest)[1..] == rest;
      QueueHead([queue[0]] + rest);
      NoDupAppend(IdOf(queue[0]), QueueIds(rest));
    }
  }

  lemma {:induction false} InsertMember(queue: seq<Ranked<Packet>>, x: Ranked<Packet>)
    ensures forall y :: y in InsertDraining(queue, x) <==> y in queue || y == x
  {
    if queue != [] && queue[0].priority >= x.priority { InsertMember(queue[1..], x); }
  }

  lemma {:induction false} InsertLength(c: Options, queue: seq<Ranked<Packet>>, x: Ranked<Packet>)
    ensures QueueLength(c, InsertDraining(queue, x)) == QueueLength(c, queue) + EncodedLength(c, x.item)
  {
    if queue == [] || queue[0].priority < x.priority {
      assert ([x] + queue)[1..] == queue;
    } else {
      var rest := InsertDraining(queue[1..], x);
      assert ([queue[0]] + rest)[1..] == rest;
      InsertLength(c, queue[1..], x);
    }
  }

  lemma {:induction false} StripIds(queue: seq<Ranked<Packet>>)
    ensures QueueIds(StripQueue(queue)) == QueueIds(queue)
  {
    if queue == [] {
    } else {
      StripIds(queue[1..]);
      assert StripQueue(queue)[1..] == StripQueue(queue[1..]);
    }
  }

  /** A publication is accepted with a fresh identifier. */
  lemma BooksAdmit(q: Session, t: Tickets, parked: seq<Held>, x: Ranked<Packet>, id: nat)
    requires Books(q, t, parked) && IdOf(x) == [id]
    requires id !in q.reserved && id !in Ids(parked)
    ensures
      var r := q.(queue := InsertDraining(q.queue, x), reserved := q.reserved + {id});
      Books(r, Issue(t, id), parked)
  {
    QueueInsert(q.queue, x);
    ExchangeIdsIn(Live(q), id);
    ExchangeIdsIn(parked, id);
    IssueOk(t, id);
    var r := q.(queue := InsertDraining(q.queue, x), reserved := q.reserved + {id});
    assert Live(r) == Live(q);
    assert id in IdOf(x);
  }

  /** A publication without acknowledgement is accepted. */
  lemma BooksAdmitPlain(q: Session, t: Tickets, parked: seq<Held>, x: Ranked<Packet>)
    requires Books(q, t, parked) && IdOf(x) == []
    ensures Books(q.(queue := InsertDraining(q.queue, x)), t, parked)
  {
    QueueInsert(q.queue, x);
    assert Live(q.(queue := InsertDraining(q.queue, x))) == Live(q);
  }

  /** The head of the queue is sent and tracked: it moves to the end of the exchanges in flight. */
  lemma BooksSend(q: Session, t: Tickets, parked: seq<Held>, id: nat, items: seq<Entry>)
    requires Books(q, t, parked) && q.queue != [] && IdOf(q.queue[0]) == [id] && q.replay == []
    requires Snapshot(items) == Snapshot(q.inflight.items) + [Held(id, q.queue[0].item)]
    ensures Books(q.(queue := q.queue[1..], inflight := q.inflight.(items := items)), t, parked)
  {
    var h := Held(id, q.queue[0].item);
    var r := q.(queue := q.queue[1..], inflight := q.inflight.(items := items));
    QueueHead(q.queue);
    assert Live(r) == Live(q) + [h];
    IdsAppend(Live(q), [h]);
    assert Ids([h]) == [id] && [h][1..] == [];
    NoDupAppend(Ids(Live(q)), [id]);
    ExchangeIdsAppend(Live(q), [h]);
    assert id in IdOf(q.queue[0]);
  }

  /** The head of the queue leaves without a trace; only for publications without acknowledgement. */
  lemma BooksDropHead(q: Session, t: Tickets, parked: seq<Held>)
    requires Books(q, t, parked) && q.queue != [] && IdOf(q.queue[0]) == []
    ensures Books(q.(queue := q.queue[1..]), t, parked)
  {
    QueueHead(q.queue);
    assert Live(q.(queue := q.queue[1..])) == Live(q);
  }

  /** The head of the queue is refused by the connection: its operation fails. */
  lemma BooksReject(q: Session, t: Tickets, parked: seq<Held>, id: nat)
    requires Books(q, t, parked) && q.queue != [] && IdOf(q.queue[0]) == [id]
    ensures
      var r := q.(queue := q.queue[1..], reserved := q.reserved - {id}, inflight := Acknowledge(q.inflight, id));
      Books(r, MarkFailed(t, id), parked)
  {
    QueueHead(q.queue);
    assert id in IdOf(q.queue[0]);
    MarkFailedOk(t, id);
    ExchangeIdsIn(Live(q), id);
    ExchangeIdsIn(parked, id);
    IdsAppend(Snapshot(q.inflight.items), q.replay);
    HasIds(q.inflight, id);
    assert Acknowledge(q.inflight, id) == q.inflight;
    var r := q.(queue := q.queue[1..], reserved := q.reserved - {id});
    assert Live(r) == Live(q);
  }

  /** A request starts: its identifier is fresh and in flight. */
  lemma BooksRequest(q: Session, t: Tickets, parked: seq<Held>, h: Held, items: seq<Entry>)
    requires Books(q, t, parked) && !IsExchange(h.packet) && h.id !in q.reserved
    requires Snapshot(items) == Snapshot(q.inflight.items) + [h]
    ensures Books(q.(inflight := q.inflight.(items := items), reserved := q.reserved + {h.id}), t, parked)
  {
    var r := q.(inflight := q.inflight.(items := items), reserved := q.reserved + {h.id});
    var a, b := Snapshot(q.inflight.items), q.replay;
    assert Live(r) == a + [h] + b;
    InsertedIds(a, h, b);
  }

  lemma InsertedIds(a: seq<Held>, h: Held, b: seq<Held>)
    requires NoDup(Ids(a + b)) && h.id !in Ids(a + b) && !IsExchange(h.packet)
    ensures NoDup(Ids(a + [h] + b))
    ensures forall k :: k in Ids(a + [h] + b) <==> k in Ids(a + b) || k == h.id
    ensures ExchangeIds(a + [h] + b) == ExchangeIds(a + b)
  {
    IdsAppend(a, b);
    IdsAppend(a, [h]);
    IdsAppend(a + [h], b);
    assert Ids([h]) == [h.id] && [h][1..] == [];
    NoDupAppend(Ids(a), Ids(b));
    NoDupAppend(Ids(a), [h.id]);
    NoDupAppend(Ids(a) + [h.id], Ids(b));
    ExchangeIdsAppend(a, b);
    ExchangeIdsAppend(a, [h]);
    ExchangeIdsAppend(a + [h], b);
  }

  // ----- What a CONNECT captures -----

  /** The outstanding list: distinct identifiers, exactly the reserved ones that are not queued. */
  lemma OutstandingIds(q: Session)
    requires NoDup(Ids(q.previous))
    ensures NoDup(Ids(Outstanding(q)))
    ensures forall id :: id in Ids(Outstanding(q)) <==>
        (id in Ids(q.previous) && id in q.reserved) || id in Ids(Live(q))
  {
    RetainNoDup(q.previous, q.reserved);
    RetainIds(q.previous, q.reserved);
    MergeIds(Retain(q.previous, q.reserved), Live(q));
    forall id ensures id in Ids(Outstanding(q)) <==> (id in Ids(q.previous) && id in q.reserved) || id in Ids(Live(q)) {
      assert id in Elements(Ids(Outstanding(q))) <==> id in Ids(Outstanding(q));
    }
  }

  /** Which packet an outstanding identifier has: the live one, else the parked one. */
  lemma OutstandingHolds(q: Session, h: Held)
    requires NoDup(Ids(q.previous)) && NoDup(Ids(Live(q)))
    ensures h in Outstanding(q) <==> h in Live(q) || (h in q.previous && h.id in q.reserved && h.id !in Ids(Live(q)))
  {
    RetainNoDup(q.previous, q.reserved);
    RetainIds(q.previous, q.reserved);
    MergeHolds(Retain(q.previous, q.reserved), Live(q), h);
  }

  lemma OutstandingExchanges(q: Session, id: nat)
    requires NoDup(Ids(q.previous)) && NoDup(Ids(Live(q)))
    ensures id in ExchangeIds(Outstanding(q)) <==>
              id in ExchangeIds(Live(q)) || (id in ExchangeIds(q.previous) && id in q.reserved && id !in Ids(Live(q)))
  {
    ExchangeIdsIn(Outstanding(q), id);
    ExchangeIdsIn(Live(q), id);
    ExchangeIdsIn(q.previous, id);
    if h :| h in Outstanding(q) && h.id == id && IsExchange(h.packet) { OutstandingHolds(q, h); }
    if h :| h in Live(q) && h.id == id && IsExchange(h.packet) { OutstandingHolds(q, h); }
    if h :| h in q.previous && h.id == id && IsExchange(h.packet) { OutstandingHolds(q, h); }
  }

  /** The conservation law, read off the books: reserved identifiers are the disjoint union of the
      queued and the outstanding ones, and tickets are owned exactly by the publications among them. */
  lemma Conservation(q: Session, t: Tickets)
    requires Books(q, t, q.previous) && NoDup(Ids(q.previous))
    ensures NoDup(QueueIds(q.queue)) && NoDup(Ids(Outstanding(q))) && Apart(QueueIds(q.queue), Ids(Outstanding(q)))
    ensures q.reserved == Elements(QueueIds(q.queue)) + Elements(Ids(Outstanding(q)))
    ensures forall id :: id in t.owner <==> id in QueueIds(q.queue) || id in ExchangeIds(Outstanding(q))
  {
    OutstandingIds(q);
    forall id ensures id in t.owner <==> id in QueueIds(q.queue) || id in ExchangeIds(Outstanding(q)) {
      OutstandingExchanges(q, id);
    }
  }

  /** Capturing everything at CONNECT keeps the books. */
  lemma BooksConnect(q: Session, t: Tickets)
    requires Books(q, t, q.previous) && NoDup(Ids(q.previous))
    ensures
      var r := q.(previous := Outstanding(q), replay := []);
      && Books(r, t, r.previous) && NoDup(Ids(r.previous))
      && (forall id :: id in Ids(r.previous) ==> id in r.reserved)
      && (forall h :: h in Snapshot(r.inflight.items) ==> h in r.previous)
      && (forall h :: h in r.previous && h.id in LiveIds(r.inflight) ==> h in Snapshot(r.inflight.items))
  {
    var r := q.(previous := Outstanding(q), replay := []);
    var a := Snapshot(q.inflight.items);
    OutstandingIds(q);
    assert Live(r) == a + [] == a;
    IdsAppend(a, q.replay);
    NoDupAppend(Ids(a), Ids(q.replay));
    forall h | h in a ensures h in r.previous {
      assert h in Live(q);
      OutstandingHolds(q, h);
    }
    forall h | h in r.previous && h.id in LiveIds(r.inflight) ensures h in a {
      CapturedLive(q, h);
    }
    forall id ensures id in t.owner <==>
      id in QueueIds(q.queue) || id in ExchangeIds(a)
        || (id in ExchangeIds(r.previous) && id in r.reserved && id !in Ids(a))
    {
      ConnectOwner(q, t, id);
    }
  }

  lemma CapturedLive(q: Session, h: Held)
    requires NoDup(Ids(q.previous)) && NoDup(Ids(Live(q))) && h in Outstanding(q) && h.id in LiveIds(q.inflight)
    ensures h in Snapshot(q.inflight.items)
  {
    var a := Snapshot(q.inflight.items);
    OutstandingHolds(q, h);
    IdsAppend(a, q.replay);
    var i :| 0 <= i < |a| && Ids(a)[i] == h.id;
    assert a[i] in Live(q);
    assert Ids(Live(q))[i] == h.id;
    HeldUnique(Live(q), a[i], h);
  }

  lemma ConnectOwner(q: Session, t: Tickets, id: nat)
    requires Books(q, t, q.previous) && NoDup(Ids(q.previous))
    ensures
      var a := Snapshot(q.inflight.items);
      id in t.owner <==>
      id in QueueIds(q.queue) || id in ExchangeIds(a)
        || (id in ExchangeIds(Outstanding(q)) && id in q.reserved && id !in Ids(a))
  {
    var a := Snapshot(q.inflight.items);
    OutstandingExchanges(q, id);
    OutstandingIds(q);
    ExchangeIdsIn(Outstanding(q), id);
    ExchangeIdsAppend(a, q.replay);
    IdsAppend(a, q.replay);
    NoDupAppend(Ids(a), Ids(q.replay));
    ExchangeIdsIn(q.replay, id);
    ExchangeIdsIn(a, id);
  }

  /** Capturing again what a CONNECT captured changes nothing: an interrupted handshake can be repeated. */
  lemma CaptureIdempotent(q: Session, t: Tickets)
    requires Books(q, t, q.previous) && NoDup(Ids(q.previous))
    ensures Outstanding(q.(previous := Outstanding(q), replay := [])) == Outstanding(q)
  {
    var r := q.(previous := Outstanding(q), replay := []);
    BooksConnect(q, t);
    RetainAll(r.previous, r.reserved);
    assert Snapshot(r.inflight.items) + [] == Snapshot(r.inflight.items);
    MergeKnown(r.previous, Snapshot(r.inflight.items));
  }
}
