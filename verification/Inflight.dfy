/** Outstanding MQTT exchanges: receive-maximum accounting, admission order and, before MQTT 5,
    retransmission deadlines. `Inflight` is the abstract value; the class keeps a map, an order and
    a deadline queue, as the implementation does, and is proved against it. */
module InflightQueues {
  import opened Basics
  import opened Packets
  import opened Timestamps

  datatype Entry = Entry(id: nat, packet: Packet, qos: nat, stream: Option<nat>, sentAt: Time, retries: nat)

  datatype Timer = Timer(id: nat, at: Time)

  /** The fixed parameters of a queue. */
  datatype Line = Line(v5: bool, timeout: Duration)

  datatype Inflight = Inflight(items: seq<Entry>, timers: seq<Timer>, limit: nat, quota: nat, last: Option<Time>)

  const MAX_ID: nat := 65535

  const MAX_RETRIES: nat := 0xFFFF_FFFF

  function Snapshot(items: seq<Entry>): (r: seq<Held>)
    ensures |r| == |items|
  {
    seq(|items|, i requires 0 <= i < |items| => Held(items[i].id, items[i].packet))
  }

  /** The identifiers in flight, in admission order. */
  function LiveIds(q: Inflight): (r: seq<nat>) {
    Ids(Snapshot(q.items))
  }

  predicate Has(q: Inflight, id: nat) {
    Find(q.items, id) < |q.items|
  }

  function Find(items: seq<Entry>, id: nat): (i: nat)
    ensures i <= |items|
    ensures i < |items| ==> items[i].id == id
    ensures forall j :: 0 <= j < i ==> items[j].id != id
  {
    if items == [] || items[0].id == id then 0 else 1 + Find(items[1..], id)
  }

  function Drop(items: seq<Entry>, id: nat): (r: seq<Entry>) {
    if items == [] then []
    else if items[0].id == id then Drop(items[1..], id)
    else [items[0]] + Drop(items[1..], id)
  }

  function DropTimer(timers: seq<Timer>, id: nat): (r: seq<Timer>)
    ensures forall t :: t in r <==> t in timers && t.id != id
  {
    if timers == [] then []
    else if timers[0].id == id then DropTimer(timers[1..], id)
    else [timers[0]] + DropTimer(timers[1..], id)
  }

  /** Entries of an outgoing QoS exchange, PUBLISH or PUBREL stage. */
  function Exchanges(items: seq<Entry>): (n: nat) {
    if items == [] then 0 else (if IsExchange(items[0].packet) then 1 else 0) + Exchanges(items[1..])
  }

  /** Entries still in the PUBLISH stage. */
  function Publishes(items: seq<Entry>): (n: nat)
    ensures n <= Exchanges(items)
  {
    if items == [] then 0 else (if items[0].packet.Publish? then 1 else 0) + Publishes(items[1..])
  }

  function New(receiveMaximum: nat): (q: Inflight) {
    Inflight([], [], if receiveMaximum == 0 then MAX_ID else receiveMaximum, 0, None)
  }

  predicate TimeOk(w: Line, q: Inflight, now: Time) {
    && (q.last.Some? ==> q.last.value <= now)
    && (w.v5 || now + w.timeout < LIMIT)
  }

  predicate CanPublish(q: Inflight) {
    q.quota < q.limit
  }

  function SetLimit(q: Inflight, limit: nat): (r: Inflight) {
    if limit > 0 then q.(limit := limit) else q
  }

  function Refresh(w: Line, timers: seq<Timer>, id: nat, now: Time): (r: seq<Timer>) {
    if w.v5 then timers else DropTimer(timers, id) + [Timer(id, now + w.timeout)]
  }

  function Push(w: Line, q: Inflight, id: nat, p: Packet, qos: nat, stream: Option<nat>,
      now: Time): (r: Result<Inflight>)
  {
    if !TimeOk(w, q, now) then Err(InvalidConfiguration)
    else if id == 0 || Has(q, id) then Err(InvalidPacketId)
    else if p.Publish? && !CanPublish(q) then Err(BufferFull)
    else Ok(q.(
      items := q.items + [Entry(id, p, qos, stream, now, 0)],
      timers := Refresh(w, q.timers, id, now),
      quota := if p.Publish? then q.quota + 1 else q.quota,
      last := Some(now)))
  }

  /** Remove an exchange; publications and releases give their quota back. */
  function Acknowledge(q: Inflight, id: nat): (r: Inflight) {
    var i := Find(q.items, id);
    if i == |q.items| then q
    else q.(
      items := Drop(q.items, id),
      timers := DropTimer(q.timers, id),
      quota := if IsExchange(q.items[i].packet) then Monus(q.quota, 1) else q.quota)
  }

  /** PUBREC arrived: the exchange enters the PUBREL stage. */
  function Transition(w: Line, q: Inflight, id: nat, p: Packet, now: Time): (r: Inflight) {
    var i := Find(q.items, id);
    if i == |q.items| then q.(last := Some(now))
    else q.(
      items := q.items[i := q.items[i].(packet := p, sentAt := now)],
      timers := Refresh(w, q.timers, id, now),
      last := Some(now))
  }

  // ----- Retransmission -----

  /** How many deadlines at the front of the queue have passed. */
  function DueCount(timers: seq<Timer>, now: Time): (n: nat)
    ensures n <= |timers|
    ensures forall i :: 0 <= i < n ==> timers[i].at <= now
    ensures n < |timers| ==> now < timers[n].at
  {
    if timers == [] || now < timers[0].at then 0 else 1 + DueCount(timers[1..], now)
  }

  /** Some deadline of the list belongs to this identifier. */
  predicate Fires(timers: seq<Timer>, id: nat) {
    timers != [] && (timers[|timers| - 1].id == id || Fires(timers[..|timers| - 1], id))
  }

  function Rearm(timers: seq<Timer>, at: Time): (r: seq<Timer>)
    ensures |r| == |timers|
  {
    seq(|timers|, i requires 0 <= i < |timers| => Timer(timers[i].id, at))
  }

  function Retried(e: Entry, now: Time): (r: Entry) {
    e.(retries := Min(e.retries + 1, MAX_RETRIES), sentAt := now)
  }

  function TouchOne(items: seq<Entry>, id: nat, now: Time): (r: seq<Entry>)
    ensures |r| == |items|
  {
    var i := Find(items, id);
    if i < |items| then items[i := Retried(items[i], now)] else items
  }

  function Touch(items: seq<Entry>, timers: seq<Timer>, now: Time): (r: seq<Entry>)
    ensures |r| == |items|
  {
    if timers == [] then items
    else TouchOne(Touch(items, timers[..|timers| - 1], now), timers[|timers| - 1].id, now)
  }

  /** A packet to send again, on the stream it was first sent on. */
  datatype Resend = Resend(packet: Packet, stream: Option<nat>)

  function ResendOf(items: seq<Entry>, id: nat): (r: seq<Resend>) {
    var i := Find(items, id);
    if i < |items| then [Resend(items[i].packet, items[i].stream)] else []
  }

  function ResendsOf(items: seq<Entry>, timers: seq<Timer>): (r: seq<Resend>) {
    if timers == [] then []
    else ResendsOf(items, timers[..|timers| - 1]) + ResendOf(items, timers[|timers| - 1].id)
  }

  /** The queue after its first `n` deadlines fired once each and were armed again. */
  function Fired(w: Line, q: Inflight, now: Time, n: nat): (r: Inflight)
    requires n <= |q.timers|
  {
    q.(items := Touch(q.items, q.timers[..n], now),
       timers := q.timers[n..] + Rearm(q.timers[..n], now + w.timeout),
       last := Some(now))
  }

  /** The queue after every passed deadline fired. */
  function Expired(w: Line, q: Inflight, now: Time): (r: Inflight) {
    Fired(w, q, now, DueCount(q.timers, now))
  }

  function DueResends(q: Inflight, now: Time): (r: seq<Resend>) {
    ResendsOf(q.items, q.timers[..DueCount(q.timers, now)])
  }

  function NextExpiration(q: Inflight): (r: Option<Time>) {
    if q.timers == [] then None else Some(q.timers[0].at)
  }

  // ----- The invariant -----

  ghost predicate TimersOrdered(timers: seq<Timer>) {
    forall i, j :: 0 <= i < j < |timers| ==> timers[i].id != timers[j].id && timers[i].at <= timers[j].at
  }

  ghost predicate TimersBounded(timers: seq<Timer>, bound: Time) {
    forall t :: t in timers ==> t.at <= bound
  }

  /** Every deadline belongs to a live entry. */
  ghost predicate TimersLive(timers: seq<Timer>, ids: seq<nat>) {
    forall t :: t in timers ==> t.id in ids
  }

  /** Every entry has its deadline: the sending time plus the timeout. */
  ghost predicate TimersCover(w: Line, items: seq<Entry>, timers: seq<Timer>) {
    forall e :: e in items ==> Timer(e.id, e.sentAt + w.timeout) in timers
  }

  ghost predicate TimersMatch(w: Line, q: Inflight) {
    && TimersOrdered(q.timers)
    && TimersBounded(q.timers, q.last.GetOr(0) + w.timeout)
    && TimersLive(q.timers, LiveIds(q))
    && TimersCover(w, q.items, q.timers)
  }

  ghost predicate Sound(w: Line, q: Inflight) {
    && NoDup(LiveIds(q))
    && (forall e :: e in q.items ==> 0 < e.id)
    && q.quota <= Exchanges(q.items)
    && if w.v5 then q.timers == [] else TimersMatch(w, q)
  }

  lemma HasIds(q: Inflight, id: nat)
    ensures Has(q, id) <==> id in LiveIds(q)
    ensures Has(q, id) <==> exists e :: e in q.items && e.id == id
  {
    var i := Find(q.items, id);
    if i < |q.items| { assert LiveIds(q)[i] == id && q.items[i] in q.items; }
    if id in LiveIds(q) {
      var k :| 0 <= k < |q.items| && LiveIds(q)[k] == id;
      assert q.items[k].id == id;
    }
    if e :| e in q.items && e.id == id {
      var k :| 0 <= k < |q.items| && q.items[k] == e;
      assert q.items[k].id == id;
    }
  }

  lemma {:induction false} ExchangesAppend(xs: seq<Entry>, ys: seq<Entry>)
    ensures Exchanges(xs + ys) == Exchanges(xs) + Exchanges(ys)
    ensures Publishes(xs + ys) == Publishes(xs) + Publishes(ys)
  {
    if xs == [] {
      assert xs + ys == ys;
    } else {
      assert (xs + ys)[1..] == xs[1..] + ys;
      ExchangesAppend(xs[1..], ys);
    }
  }

  lemma {:induction false} DropSnapshot(items: seq<Entry>, id: nat)
    ensures Snapshot(Drop(items, id)) == Remove(Snapshot(items), id)
    ensures forall e :: e in Drop(items, id) <==> e in items && e.id != id
  {
    if items == [] {
    } else {
      DropSnapshot(items[1..], id);
      assert Snapshot(items)[1..] == Snapshot(items[1..]);
      assert Snapshot([items[0]] + Drop(items[1..], id)) == [Snapshot(items)[0]] + Snapshot(Drop(items[1..], id));
    }
  }

  lemma {:induction false} DropAbsentEntry(items: seq<Entry>, id: nat)
    requires forall i :: 0 <= i < |items| ==> items[i].id != id
    ensures Drop(items, id) == items
  {
    if items == [] {
    } else {
      DropAbsentEntry(items[1..], id);
    }
  }

  /** Dropping the one entry of an identifier cuts it out. */
  lemma {:induction false} DropCuts(items: seq<Entry>, id: nat)
    requires NoDup(Ids(Snapshot(items))) && Find(items, id) < |items|
    ensures Drop(items, id) == items[..Find(items, id)] + items[Find(items, id) + 1..]
  {
    var ids := Ids(Snapshot(items));
    if items[0].id == id {
      forall i | 0 <= i < |items[1..]| ensures items[1..][i].id != id {
        assert ids[0] == id && ids[i + 1] == items[i + 1].id;
      }
      DropAbsentEntry(items[1..], id);
    } else {
      assert Snapshot(items[1..]) == Snapshot(items)[1..];
      assert Ids(Snapshot(items[1..])) == ids[1..];
      DropCuts(items[1..], id);
    }
  }

  lemma DropExchanges(items: seq<Entry>, id: nat)
    requires NoDup(Ids(Snapshot(items))) && Find(items, id) < |items|
    ensures
      var p := items[Find(items, id)].packet;
      && Exchanges(items) == Exchanges(Drop(items, id)) + (if IsExchange(p) then 1 else 0)
      && Publishes(items) == Publishes(Drop(items, id)) + (if p.Publish? then 1 else 0)
  {
    var i := Find(items, id);
    DropCuts(items, id);
    ExchangesAppend(items[..i], items[i + 1..]);
    assert items == items[..i] + ([items[i]] + items[i + 1..]);
    ExchangesAppend(items[..i], [items[i]] + items[i + 1..]);
    assert ([items[i]] + items[i + 1..])[1..] == items[i + 1..];
  }

  lemma {:induction false} DropTimerOrdered(timers: seq<Timer>, id: nat)
    requires TimersOrdered(timers)
    ensures TimersOrdered(DropTimer(timers, id))
  {
    if timers == [] {
    } else {
      DropTimerOrdered(timers[1..], id);
      var rest := DropTimer(timers[1..], id);
      forall k | 0 <= k < |rest| ensures timers[0].id != rest[k].id && timers[0].at <= rest[k].at {
        assert rest[k] in timers[1..];
      }
    }
  }

  /** Re-arming one entry keeps the deadlines in order when time does not run backwards. */
  lemma RefreshKeeps(w: Line, timers: seq<Timer>, id: nat, now: Time)
    requires !w.v5 && TimersOrdered(timers) && TimersBounded(timers, now + w.timeout)
    ensures TimersOrdered(Refresh(w, timers, id, now)) && TimersBounded(Refresh(w, timers, id, now), now + w.timeout)
    ensures forall t :: t in Refresh(w, timers, id, now) <==>
        t == Timer(id, now + w.timeout) || (t in timers && t.id != id)
  {
    DropTimerOrdered(timers, id);
    var rest := DropTimer(timers, id);
    forall k | 0 <= k < |rest| ensures rest[k].id != id && rest[k].at <= now + w.timeout {
      assert rest[k] in rest;
    }
  }

  // ----- What every operation keeps -----

  lemma NewSound(w: Line, receiveMaximum: nat)
    ensures Sound(w, New(receiveMaximum)) && New(receiveMaximum).limit > 0
  {
  }

  lemma PushSnapshot(w: Line, q: Inflight, id: nat, p: Packet, qos: nat, stream: Option<nat>, now: Time)
    requires Push(w, q, id, p, qos, stream, now).Ok?
    ensures Snapshot(Push(w, q, id, p, qos, stream, now).value.items) == Snapshot(q.items) + [Held(id, p)]
  {
  }

  /** A push succeeds exactly when the clock is valid, the identifier is free and the quota allows it. */
  lemma PushSound(w: Line, q: Inflight, id: nat, p: Packet, qos: nat, stream: Option<nat>, now: Time)
    requires Sound(w, q) && Push(w, q, id, p, qos, stream, now).Ok?
    ensures Sound(w, Push(w, q, id, p, qos, stream, now).value)
    ensures id != 0 && id !in LiveIds(q)
  {
    var r := Push(w, q, id, p, qos, stream, now).value;
    var e := Entry(id, p, qos, stream, now, 0);
    HasIds(q, id);
    PushSnapshot(w, q, id, p, qos, stream, now);
    IdsAppend(Snapshot(q.items), [Held(id, p)]);
    NoDupAppend(LiveIds(q), [id]);
    assert LiveIds(r) == LiveIds(q) + [id];
    ExchangesAppend(q.items, [e]);
    assert [e][1..] == [];
    if !w.v5 {
      RefreshKeeps(w, q.timers, id, now);
      PushCovers(w, q, e, r.timers);
    }
  }

  lemma PushCovers(w: Line, q: Inflight, e: Entry, timers: seq<Timer>)
    requires TimersCover(w, q.items, q.timers) && e.id !in LiveIds(q)
    requires forall t :: t in timers <==> t == Timer(e.id, e.sentAt + w.timeout) || (t in q.timers && t.id != e.id)
    ensures TimersCover(w, q.items + [e], timers)
  {
    forall x | x in q.items + [e] ensures Timer(x.id, x.sentAt + w.timeout) in timers {
      if x in q.items { HasIds(q, x.id); }
    }
  }

  lemma AcknowledgeSnapshot(q: Inflight, id: nat)
    ensures Snapshot(Acknowledge(q, id).items) == Remove(Snapshot(q.items), id)
  {
    DropSnapshot(q.items, id);
    if !Has(q, id) {
      HasIds(q, id);
      RemoveAbsent(Snapshot(q.items), id);
    }
  }

  lemma AcknowledgeSound(w: Line, q: Inflight, id: nat)
    requires Sound(w, q)
    ensures Sound(w, Acknowledge(q, id))
  {
    var r := Acknowledge(q, id);
    AcknowledgeSnapshot(q, id);
    RemoveIds(Snapshot(q.items), id);
    if Has(q, id) {
      DropExchanges(q.items, id);
      DropSnapshot(q.items, id);
      if !w.v5 { AcknowledgeTimers(w, q, id); }
    }
  }

  lemma AcknowledgeTimers(w: Line, q: Inflight, id: nat)
    requires TimersMatch(w, q) && Has(q, id)
    ensures TimersMatch(w, Acknowledge(q, id))
  {
    var r := Acknowledge(q, id);
    DropTimerOrdered(q.timers, id);
    DropSnapshot(q.items, id);
    RemoveIds(Snapshot(q.items), id);
    assert TimersCover(w, r.items, r.timers);
  }

  lemma TransitionSnapshot(w: Line, q: Inflight, id: nat, p: Packet, now: Time)
    requires Has(q, id)
    ensures Snapshot(Transition(w, q, id, p, now).items) == Snapshot(q.items)[Find(q.items, id) := Held(id, p)]
    ensures LiveIds(Transition(w, q, id, p, now)) == LiveIds(q)
  {
    var i := Find(q.items, id);
    assert Snapshot(Transition(w, q, id, p, now).items) == Snapshot(q.items)[i := Held(id, p)];
    assert LiveIds(Transition(w, q, id, p, now)) == LiveIds(q);
  }

  lemma ReplaceExchanges(items: seq<Entry>, i: nat, e: Entry)
    requires i < |items|
    ensures Exchanges(items[i := e]) + (if IsExchange(items[i].packet) then 1 else 0)
         == Exchanges(items) + (if IsExchange(e.packet) then 1 else 0)
    ensures Publishes(items[i := e]) + (if items[i].packet.Publish? then 1 else 0)
         == Publishes(items) + (if e.packet.Publish? then 1 else 0)
  {
    assert items == items[..i] + ([items[i]] + items[i + 1..]);
    assert items[i := e] == items[..i] + ([e] + items[i + 1..]);
    ExchangesAppend(items[..i], [items[i]] + items[i + 1..]);
    ExchangesAppend(items[..i], [e] + items[i + 1..]);
    assert ([items[i]] + items[i + 1..])[1..] == items[i + 1..] == ([e] + items[i + 1..])[1..];
  }

  lemma TransitionSound(w: Line, q: Inflight, id: nat, p: Packet, now: Time)
    requires Sound(w, q) && TimeOk(w, q, now) && IsExchange(p)
    requires Has(q, id)
    ensures Sound(w, Transition(w, q, id, p, now))
  {
    var i, r := Find(q.items, id), Transition(w, q, id, p, now);
    TransitionSnapshot(w, q, id, p, now);
    var e := q.items[i].(packet := p, sentAt := now);
    ReplaceExchanges(q.items, i, e);
    ReplaceEntries(q, i, e);
    if !w.v5 { RefreshKeeps(w, q.timers, id, now); }
  }

  /** Replacing the entry of an identifier leaves the entries of the others. */
  lemma ReplaceEntries(q: Inflight, i: nat, e: Entry)
    requires NoDup(LiveIds(q)) && i < |q.items| && e.id == q.items[i].id
    ensures forall x :: x in q.items[i := e] ==> x == e || (x in q.items && x.id != e.id)
  {
    forall x | x in q.items[i := e] ensures x == e || (x in q.items && x.id != e.id) {
      var k :| 0 <= k < |q.items| && q.items[i := e][k] == x;
      if k != i { assert LiveIds(q)[k] != LiveIds(q)[i]; }
    }
  }

  /** The first deadline is the earliest of all entries. */
  lemma NextExpirationIsLeast(w: Line, q: Inflight)
    requires Sound(w, q) && !w.v5
    ensures NextExpiration(q).None? <==> q.items == []
    ensures forall e :: e in q.items ==> NextExpiration(q).value <= e.sentAt + w.timeout
    ensures NextExpiration(q).Some? ==> exists e :: e in q.items && e.sentAt + w.timeout == NextExpiration(q).value
  {
    if q.items != [] { assert q.items[0] in q.items; }
    if q.timers != [] {
      var t := q.timers[0];
      HasIds(q, t.id);
      var e :| e in q.items && e.id == t.id;
      TimerOf(w, q, e, t);
      forall x | x in q.items ensures t.at <= x.sentAt + w.timeout {
        var k := TimerIndex(w, q, x);
      }
    }
  }

  lemma TimerIndex(w: Line, q: Inflight, e: Entry) returns (k: nat)
    requires TimersCover(w, q.items, q.timers) && e in q.items
    ensures k < |q.timers| && q.timers[k] == Timer(e.id, e.sentAt + w.timeout)
  {
    k :| 0 <= k < |q.timers| && q.timers[k] == Timer(e.id, e.sentAt + w.timeout);
  }

  /** The deadline of an entry is its sending time plus the timeout. */
  lemma TimerOf(w: Line, q: Inflight, e: Entry, t: Timer)
    requires TimersOrdered(q.timers) && TimersCover(w, q.items, q.timers)
    requires e in q.items && t in q.timers && t.id == e.id
    ensures t.at == e.sentAt + w.timeout
  {
    var i :| 0 <= i < |q.timers| && q.timers[i] == t;
    var j := TimerIndex(w, q, e);
  }

  lemma {:induction false} FiresAt(timers: seq<Timer>, id: nat)
    ensures Fires(timers, id) <==> exists i :: 0 <= i < |timers| && timers[i].id == id
  {
    if timers == [] {
    } else {
      var n := |timers| - 1;
      FiresAt(timers[..n], id);
      if i :| 0 <= i < |timers| && timers[i].id == id {
        if i < n { assert timers[..n][i].id == id; }
      }
    }
  }

  /** Exactly the entries whose deadline has passed are sent again. */
  lemma ResendsExactlyTheDue(w: Line, q: Inflight, now: Time, e: Entry)
    requires TimersOrdered(q.timers) && TimersCover(w, q.items, q.timers) && e in q.items
    ensures Fires(q.timers[..DueCount(q.timers, now)], e.id) <==> e.sentAt + w.timeout <= now
  {
    var j := TimerIndex(w, q, e);
    FiresBelow(q.timers, DueCount(q.timers, now), j);
  }

  /** A retry changes only the retry count and the sending time. */
  ghost predicate SameExchange(a: Entry, b: Entry) {
    a.id == b.id && a.packet == b.packet && a.stream == b.stream
  }

  lemma {:induction false} FindSame(xs: seq<Entry>, ys: seq<Entry>, id: nat)
    requires |xs| == |ys| && forall i :: 0 <= i < |xs| ==> SameExchange(xs[i], ys[i])
    ensures Find(xs, id) == Find(ys, id) && ResendOf(xs, id) == ResendOf(ys, id)
  {
    if xs == [] {
    } else {
      assert SameExchange(xs[0], ys[0]);
      if xs[0].id != id {
        forall i | 0 <= i < |xs[1..]| ensures SameExchange(xs[1..][i], ys[1..][i]) {
          assert SameExchange(xs[i + 1], ys[i + 1]);
        }
        FindSame(xs[1..], ys[1..], id);
      }
    }
  }

  /** What the fired deadlines do to every entry. */
  lemma {:induction false} TouchKeeps(items: seq<Entry>, timers: seq<Timer>, now: Time)
    requires NoDup(Ids(Snapshot(items)))
    ensures forall k :: 0 <= k < |items| ==> SameExchange(Touch(items, timers, now)[k], items[k])
    ensures forall k :: 0 <= k < |items| ==>
              Touch(items, timers, now)[k].sentAt == if Fires(timers, items[k].id) then now else items[k].sentAt
  {
    if timers == [] {
    } else {
      var n := |timers| - 1;
      TouchKeeps(items, timers[..n], now);
      TouchOneKeeps(items, Touch(items, timers[..n], now), timers[n].id, now);
    }
  }

  lemma TouchOneKeeps(items: seq<Entry>, before: seq<Entry>, id: nat, now: Time)
    requires NoDup(Ids(Snapshot(items)))
    requires |before| == |items| && forall k :: 0 <= k < |items| ==> SameExchange(before[k], items[k])
    ensures forall k :: 0 <= k < |items| ==>
              && SameExchange(TouchOne(before, id, now)[k], items[k])
              && TouchOne(before, id, now)[k].sentAt == if items[k].id == id then now else before[k].sentAt
  {
    FindSame(before, items, id);
    var f := Find(items, id);
    forall k | 0 <= k < |items| && f < |items| && k != f ensures items[k].id != id {
      assert Ids(Snapshot(items))[k] != Ids(Snapshot(items))[f];
    }
  }

  lemma FiredSnapshot(w: Line, q: Inflight, now: Time, n: nat)
    requires NoDup(LiveIds(q)) && n <= |q.timers|
    ensures Snapshot(Fired(w, q, now, n).items) == Snapshot(q.items)
    ensures Exchanges(Fired(w, q, now, n).items) == Exchanges(q.items)
    ensures Publishes(Fired(w, q, now, n).items) == Publishes(q.items)
  {
    TouchKeeps(q.items, q.timers[..n], now);
    SameSnapshot(Fired(w, q, now, n).items, q.items);
  }

  lemma SameSnapshot(xs: seq<Entry>, ys: seq<Entry>)
    requires |xs| == |ys| && forall i :: 0 <= i < |xs| ==> SameExchange(xs[i], ys[i])
    ensures Snapshot(xs) == Snapshot(ys) && Exchanges(xs) == Exchanges(ys) && Publishes(xs) == Publishes(ys)
  {
    forall i | 0 <= i < |xs| ensures xs[i].packet == ys[i].packet && xs[i].id == ys[i].id {
      assert SameExchange(xs[i], ys[i]);
    }
    SnapshotCounts(xs, ys);
  }

  lemma {:induction false} SnapshotCounts(xs: seq<Entry>, ys: seq<Entry>)
    requires |xs| == |ys| && forall i :: 0 <= i < |xs| ==> xs[i].packet == ys[i].packet
    ensures Exchanges(xs) == Exchanges(ys) && Publishes(xs) == Publishes(ys)
  {
    if xs == [] {
    } else {
      SnapshotCounts(xs[1..], ys[1..]);
    }
  }

  /** Firing deadlines keeps the invariant and the outstanding packets. */
  lemma ExpiredSound(w: Line, q: Inflight, now: Time)
    requires Sound(w, q) && TimeOk(w, q, now)
    ensures Sound(w, Expired(w, q, now))
    ensures Snapshot(Expired(w, q, now).items) == Snapshot(q.items)
    ensures Publishes(Expired(w, q, now).items) == Publishes(q.items)
  {
    var n := DueCount(q.timers, now);
    FiredSnapshot(w, q, now, n);
    FiredSound(w, q, now, n);
  }

  lemma FiredSound(w: Line, q: Inflight, now: Time, n: nat)
    requires Sound(w, q) && TimeOk(w, q, now) && n <= |q.timers|
    ensures Sound(w, Fired(w, q, now, n))
  {
    FiredSnapshot(w, q, now, n);
    SnapshotPositive(q.items, Fired(w, q, now, n).items);
    if !w.v5 { FiredMatch(w, q, now, n); }
  }

  lemma FiredMatch(w: Line, q: Inflight, now: Time, n: nat)
    requires NoDup(LiveIds(q)) && TimersMatch(w, q) && TimeOk(w, q, now) && n <= |q.timers|
    ensures TimersMatch(w, Fired(w, q, now, n))
  {
    var f, at := Fired(w, q, now, n), now + w.timeout;
    assert TimersBounded(q.timers, at);
    assert TimersOrdered(f.timers) by {
      assert q.timers == q.timers[..n] + q.timers[n..];
      RotateOrdered(q.timers[..n], q.timers[n..], at);
    }
    assert TimersLive(f.timers, LiveIds(f)) && TimersBounded(f.timers, at) by {
      RotateLive(q.timers, n, at, LiveIds(q));
      FiredSnapshot(w, q, now, n);
    }
    FiredCover(w, q, now, n);
  }

  lemma SnapshotPositive(xs: seq<Entry>, ys: seq<Entry>)
    requires Snapshot(xs) == Snapshot(ys) && forall e :: e in xs ==> 0 < e.id
    ensures forall e :: e in ys ==> 0 < e.id
  {
    forall e | e in ys ensures 0 < e.id {
      var k :| 0 <= k < |ys| && ys[k] == e;
      assert Snapshot(xs)[k] == Snapshot(ys)[k];
      assert xs[k] in xs;
    }
  }

  lemma RotateOrdered(due: seq<Timer>, late: seq<Timer>, at: Time)
    requires TimersOrdered(due + late) && TimersBounded(due + late, at)
    ensures TimersOrdered(late + Rearm(due, at))
  {
    var all, next := due + late, late + Rearm(due, at);
    assert forall i :: 0 <= i < |due| ==> all[i] == due[i];
    assert forall i :: 0 <= i < |late| ==> all[|due| + i] == late[i] && all[|due| + i] in all;
    forall i, j | 0 <= i < j < |next| ensures next[i].id != next[j].id && next[i].at <= next[j].at {
      if j < |late| {
        assert next[i] == all[|due| + i] && next[j] == all[|due| + j];
      } else {
        var b := j - |late|;
        assert next[j] == Timer(all[b].id, at);
        if i < |late| {
          assert next[i] == all[|due| + i];
        } else {
          assert next[i] == Timer(all[i - |late|].id, at);
        }
      }
    }
  }

  lemma RotateLive(timers: seq<Timer>, n: nat, at: Time, ids: seq<nat>)
    requires n <= |timers| && TimersLive(timers, ids) && TimersBounded(timers, at)
    ensures TimersLive(timers[n..] + Rearm(timers[..n], at), ids)
    ensures TimersBounded(timers[n..] + Rearm(timers[..n], at), at)
  {
    forall t | t in Rearm(timers[..n], at) ensures t.id in ids && t.at <= at {
      var k :| 0 <= k < n && Rearm(timers[..n], at)[k] == t;
      assert timers[k] in timers;
    }
  }

  lemma FiredCover(w: Line, q: Inflight, now: Time, n: nat)
    requires NoDup(LiveIds(q)) && TimersOrdered(q.timers) && TimersCover(w, q.items, q.timers) && n <= |q.timers|
    ensures TimersCover(w, Fired(w, q, now, n).items, Fired(w, q, now, n).timers)
  {
    var items, timers := Fired(w, q, now, n).items, Fired(w, q, now, n).timers;
    TouchKeeps(q.items, q.timers[..n], now);
    forall k | 0 <= k < |items| ensures Timer(items[k].id, items[k].sentAt + w.timeout) in timers {
      assert SameExchange(items[k], q.items[k]);
      FiredTimer(w, q, now, n, q.items[k], items[k].sentAt);
    }
    CoverByIndex(w, items, timers);
  }

  lemma FiredTimer(w: Line, q: Inflight, now: Time, n: nat, e: Entry, sentAt: Time)
    requires TimersOrdered(q.timers) && TimersCover(w, q.items, q.timers) && n <= |q.timers| && e in q.items
    requires sentAt == if Fires(q.timers[..n], e.id) then now else e.sentAt
    ensures Timer(e.id, sentAt + w.timeout) in q.timers[n..] + Rearm(q.timers[..n], now + w.timeout)
  {
    var j := TimerIndex(w, q, e);
    FiresBelow(q.timers, n, j);
    RotatedTimer(q.timers, n, j, now + w.timeout);
  }

  lemma FiresBelow(timers: seq<Timer>, n: nat, j: nat)
    requires TimersOrdered(timers) && n <= |timers| && j < |timers|
    ensures Fires(timers[..n], timers[j].id) <==> j < n
  {
    var due := timers[..n];
    FiresAt(due, timers[j].id);
    if j < n {
      assert due[j].id == timers[j].id;
    } else {
      forall i | 0 <= i < |due| ensures due[i].id != timers[j].id { assert due[i] == timers[i]; }
    }
  }

  lemma RotatedTimer(timers: seq<Timer>, n: nat, j: nat, at: Time)
    requires n <= |timers| && j < |timers|
    ensures (if j < n then Timer(timers[j].id, at) else timers[j]) in timers[n..] + Rearm(timers[..n], at)
  {
    var late, again := timers[n..], Rearm(timers[..n], at);
    if j < n {
      assert (late + again)[|late| + j] == Timer(timers[j].id, at);
    } else {
      assert (late + again)[j - n] == timers[j];
    }
  }

  lemma CoverByIndex(w: Line, items: seq<Entry>, timers: seq<Timer>)
    requires forall k :: 0 <= k < |items| ==> Timer(items[k].id, items[k].sentAt + w.timeout) in timers
    ensures TimersCover(w, items, timers)
  {
  }
}
