/** The inflight queue as the engine keeps it: a map of entries, their admission order, and a queue of
    retransmission deadlines. Every method is proved against the abstract value of `InflightQueues`. */
module InflightClass {
  import opened Basics
  import opened Packets
  import opened Timestamps
  import opened InflightQueues

  function WithoutId(order: seq<nat>, id: nat): (r: seq<nat>)
    ensures forall x :: x in r <==> x in order && x != id
  {
    if order == [] then []
    else if order[0] == id then WithoutId(order[1..], id)
    else [order[0]] + WithoutId(order[1..], id)
  }

  lemma {:induction false} WithoutIdNoDup(order: seq<nat>, id: nat)
    requires NoDup(order)
    ensures NoDup(WithoutId(order, id))
  {
    if order == [] {
    } else {
      WithoutIdNoDup(order[1..], id);
      var rest := WithoutId(order[1..], id);
      forall k | 0 <= k < |rest| ensures rest[k] != order[0] { assert rest[k] in rest; }
    }
  }

  /** The entries listed in admission order. */
  function Listed(entries: map<nat, Entry>, order: seq<nat>): (r: seq<Entry>)
    requires forall id :: id in order ==> id in entries
    ensures |r| == |order|
  {
    seq(|order|, i requires 0 <= i < |order| => entries[order[i]])
  }

  ghost predicate Keyed(entries: map<nat, Entry>, order: seq<nat>) {
    && NoDup(order)
    && (forall id :: id in order <==> id in entries)
    && (forall id :: id in entries ==> entries[id].id == id)
  }

  lemma ListedFind(entries: map<nat, Entry>, order: seq<nat>, id: nat)
    requires Keyed(entries, order)
    ensures Find(Listed(entries, order), id) < |order| <==> id in entries
    ensures id in entries ==> order[Find(Listed(entries, order), id)] == id
  {
    var items := Listed(entries, order);
    if id in entries {
      var k :| 0 <= k < |order| && order[k] == id;
      assert items[k].id == id;
    }
    var i := Find(items, id);
    if i < |items| { assert items[i].id == order[i]; }
  }

  lemma {:induction false} ListedDrop(entries: map<nat, Entry>, order: seq<nat>, id: nat)
    requires (forall x :: x in order ==> x in entries) && forall x :: x in entries ==> entries[x].id == x
    ensures Listed(entries - {id}, WithoutId(order, id)) == Drop(Listed(entries, order), id)
  {
    if order == [] {
    } else {
      ListedDrop(entries, order[1..], id);
      assert Listed(entries, order)[1..] == Listed(entries, order[1..]);
    }
  }

  lemma ListedUpdate(entries: map<nat, Entry>, order: seq<nat>, id: nat, e: Entry)
    requires Keyed(entries, order) && id in entries && e.id == id
    ensures Keyed(entries[id := e], order)
    ensures
      var i := Find(Listed(entries, order), id);
      i < |order| && Listed(entries[id := e], order) == Listed(entries, order)[i := e]
  {
    ListedFind(entries, order, id);
    var i := Find(Listed(entries, order), id);
    forall k | 0 <= k < |order| && k != i ensures order[k] != id { assert order[i] == id; }
  }

  class InflightQueue {
    var entries: map<nat, Entry>
    var admissionOrder: seq<nat>
    var deadlineQueue: seq<Timer>
    var receiveMaximum: nat
    var publishQuotaUsed: nat
    var lastUpdate: Option<Time>
    const line: Line

    ghost predicate Valid()
      reads this
    {
      Keyed(entries, admissionOrder)
    }

    ghost function View(): (q: Inflight)
      requires Valid()
      reads this
    {
      Inflight(Listed(entries, admissionOrder), deadlineQueue, receiveMaximum, publishQuotaUsed, lastUpdate)
    }

    constructor (receiveMaximum: nat, line: Line)
      ensures Valid() && this.line == line && View() == New(receiveMaximum)
    {
      entries, admissionOrder, deadlineQueue := map[], [], [];
      this.receiveMaximum := if receiveMaximum == 0 then MAX_ID else receiveMaximum;
      publishQuotaUsed, lastUpdate := 0, None;
      this.line := line;
    }

    predicate CheckTime(now: Time)
      reads this
    {
      && (lastUpdate.Some? ==> lastUpdate.value <= now)
      && (line.v5 || now + line.timeout < LIMIT)
    }

    predicate CanPushPublish()
      reads this
    {
      publishQuotaUsed < receiveMaximum
    }

    method Contains(id: nat) returns (r: bool)
      requires Valid()
      ensures r <==> Has(View(), id)
    {
      ListedFind(entries, admissionOrder, id);
      r := id in entries;
    }

    method UpdateReceiveMaximum(limit: nat)
      requires Valid()
      modifies this`receiveMaximum
      ensures Valid() && View() == SetLimit(old(View()), limit)
    {
      if limit > 0 {
        receiveMaximum := limit;
      }
    }

    method RefreshDeadline(id: nat, now: Time)
      modifies this`deadlineQueue
      ensures deadlineQueue == Refresh(line, old(deadlineQueue), id, now)
    {
      if !line.v5 {
        deadlineQueue := DropTimer(deadlineQueue, id) + [Timer(id, now + line.timeout)];
      }
    }

    method PushWithStreamAt(id: nat, packet: Packet, qos: nat, stream: Option<nat>, now: Time) returns (r: Result<()>)
      requires Valid()
      modifies this
      ensures Valid()
      ensures
        var spec := Push(line, old(View()), id, packet, qos, stream, now);
        if spec.Ok? then r == Ok(()) && View() == spec.value else r == Err(spec.error) && View() == old(View())
    {
      ListedFind(entries, admissionOrder, id);
      if !CheckTime(now) {
        return Err(InvalidConfiguration);
      }
      if id == 0 || id in entries {
        return Err(InvalidPacketId);
      }
      if packet.Publish? && !CanPushPublish() {
        return Err(BufferFull);
      }
      if packet.Publish? {
        publishQuotaUsed := publishQuotaUsed + 1;
      }
      var entry := Entry(id, packet, qos, stream, now, 0);
      ghost var before := Listed(entries, admissionOrder);
      entries := entries[id := entry];
      admissionOrder := admissionOrder + [id];
      assert Listed(entries, admissionOrder) == before + [entry];
      lastUpdate := Some(now);
      RefreshDeadline(id, now);
      r := Ok(());
    }

    method AcknowledgeEntry(id: nat) returns (r: Option<Entry>)
      requires Valid()
      modifies this
      ensures Valid() && View() == Acknowledge(old(View()), id)
      ensures r.Some? <==> old(Has(View(), id))
      ensures r.Some? ==> r.value == old(View().items[Find(View().items, id)])
    {
      ListedFind(entries, admissionOrder, id);
      if id !in entries {
        return None;
      }
      var entry := entries[id];
      ListedDrop(entries, admissionOrder, id);
      WithoutIdNoDup(admissionOrder, id);
      entries := entries - {id};
      admissionOrder := WithoutId(admissionOrder, id);
      deadlineQueue := DropTimer(deadlineQueue, id);
      if IsExchange(entry.packet) {
        publishQuotaUsed := Monus(publishQuotaUsed, 1);
      }
      r := Some(entry);
    }

    method TransitionPubRelAt(id: nat, packet: Packet, now: Time) returns (r: Result<()>)
      requires Valid()
      modifies this
      ensures Valid()
      ensures
        if TimeOk(line, old(View()), now) then r == Ok(()) && View() == Transition(line, old(View()), id, packet, now)
        else r == Err(InvalidConfiguration) && View() == old(View())
    {
      if !CheckTime(now) {
        return Err(InvalidConfiguration);
      }
      ListedFind(entries, admissionOrder, id);
      if id in entries {
        var entry := entries[id].(packet := packet, sentAt := now);
        ListedUpdate(entries, admissionOrder, id, entry);
        entries := entries[id := entry];
        RefreshDeadline(id, now);
      }
      lastUpdate := Some(now);
      r := Ok(());
    }

    method SnapshotForReconnect() returns (r: seq<Held>)
      requires Valid()
      ensures r == Snapshot(View().items)
    {
      r := [];
      for i := 0 to |admissionOrder|
        invariant r == Snapshot(View().items)[..i]
      {
        var entry := entries[admissionOrder[i]];
        r := r + [Held(entry.id, entry.packet)];
      }
    }

    method FirstExpiration() returns (r: Option<Time>)
      requires Valid()
      ensures r == NextExpiration(View())
    {
      r := if |deadlineQueue| == 0 then None else Some(deadlineQueue[0].at);
    }

    /** The loop visits at most the deadlines present at the start, so even a zero timeout retries
        every entry once per call. */
    method GetExpiredWithStreamAt(now: Time) returns (r: Result<seq<Resend>>)
      requires Valid() && Sound(line, View())
      modifies this
      ensures Valid()
      ensures
        if TimeOk(line, old(View()), now) then r == Ok(DueResends(old(View()), now)) && View() == Expired(line,
          old(View()), now)
        else r == Err(InvalidConfiguration) && View() == old(View())
    {
      if !CheckTime(now) {
        return Err(InvalidConfiguration);
      }
      ghost var before := View();
      lastUpdate := Some(now);
      var expired := [];
      var count := |deadlineQueue|;
      var i := 0;
      ExpireStart(line, before, now);
      while i < count
        invariant 0 <= i <= count == |before.timers| && Valid()
        invariant i <= DueCount(before.timers, now)
        invariant View() == Fired(line, before, now, i)
        invariant expired == ResendsOf(before.items, before.timers[..i])
      {
        FireParts(line, before, now, i);
        if now < deadlineQueue[0].at {
          break;
        }
        FireNext(line, before, now, i);
        var again := FireFront(now);
        expired := expired + again;
        i := i + 1;
      }
      r := Ok(expired);
    }

    /** Fire the front deadline: count the retry, arm it again at the back. */
    method FireFront(now: Time) returns (r: seq<Resend>)
      requires Valid() && |deadlineQueue| > 0 && !line.v5
      modifies this`entries, this`deadlineQueue
      ensures Valid() && View() == FireOne(line, old(View()), now)
      ensures r == ResendOf(old(View().items), old(View().timers[0].id))
    {
      var due := deadlineQueue[0];
      deadlineQueue := deadlineQueue[1..];
      ListedFind(entries, admissionOrder, due.id);
      r := [];
      if due.id in entries {
        var entry := entries[due.id];
        ListedUpdate(entries, admissionOrder, due.id, Retried(entry, now));
        entries := entries[due.id := Retried(entry, now)];
        r := [Resend(entry.packet, entry.stream)];
        RefreshDeadline(due.id, now);
      }
    }
  }

  /** One round of the retransmission loop, on values. */
  function FireOne(w: Line, q: Inflight, now: Time): (r: Inflight)
    requires q.timers != []
  {
    var id := q.timers[0].id;
    q.(items := TouchOne(q.items, id, now),
       timers := if Find(q.items, id) < |q.items| then Refresh(w, q.timers[1..], id, now) else q.timers[1..])
  }

  /** A round of the loop fires the next deadline of the original list. */
  lemma FireNext(w: Line, q: Inflight, now: Time, i: nat)
    requires Sound(w, q) && !w.v5 && i < |q.timers|
    ensures FireOne(w, Fired(w, q, now, i), now) == Fired(w, q, now, i + 1)
    ensures ResendsOf(q.items, q.timers[..i + 1])
         == ResendsOf(q.items, q.timers[..i]) + ResendOf(Fired(w, q, now, i).items, q.timers[i].id)
  {
    FireItems(w, q, now, i);
    FireTimers(w, q, now, i);
    FireAll(w, q, now, i);
  }

  lemma FireAll(w: Line, q: Inflight, now: Time, i: nat)
    requires i < |q.timers|
    requires
      var f, next, t := Fired(w, q, now, i), Fired(w, q, now, i + 1), q.timers[i];
      && Find(f.items, t.id) < |f.items| && next.items == TouchOne(f.items, t.id, now)
      && Refresh(w, f.timers[1..], t.id, now) == next.timers
    ensures FireOne(w, Fired(w, q, now, i), now) == Fired(w, q, now, i + 1)
  {
    FireParts(w, q, now, i);
  }

  lemma FireTimers(w: Line, q: Inflight, now: Time, i: nat)
    requires TimersOrdered(q.timers) && !w.v5 && i < |q.timers|
    ensures Refresh(w, Fired(w, q, now, i).timers[1..], q.timers[i].id, now) == Fired(w, q, now, i + 1).timers
  {
    RearmStep(q.timers, i, now + w.timeout);
  }

  lemma FireParts(w: Line, q: Inflight, now: Time, i: nat)
    requires i < |q.timers|
    ensures
      var f := Fired(w, q, now, i);
      && f.timers != [] && f.timers[0] == q.timers[i] && f.items == Touch(q.items, q.timers[..i], now)
      && f.timers == q.timers[i..] + Rearm(q.timers[..i], now + w.timeout) && f.last == Some(now)
  {
  }

  lemma FireItems(w: Line, q: Inflight, now: Time, i: nat)
    requires Sound(w, q) && !w.v5 && i < |q.timers|
    ensures
      var t, items := q.timers[i], Touch(q.items, q.timers[..i], now);
      && Touch(q.items, q.timers[..i + 1], now) == TouchOne(items, t.id, now)
      && ResendsOf(q.items, q.timers[..i + 1]) == ResendsOf(q.items, q.timers[..i]) + ResendOf(items, t.id)
      && Find(items, t.id) < |items|
  {
    var t := q.timers[i];
    assert t in q.timers;
    HasIds(q, t.id);
    assert q.timers[..i + 1][..i] == q.timers[..i];
    TouchKeeps(q.items, q.timers[..i], now);
    FindSame(Touch(q.items, q.timers[..i], now), q.items, t.id);
  }

  lemma RearmStep(timers: seq<Timer>, i: nat, at: Time)
    requires TimersOrdered(timers) && i < |timers|
    ensures
      DropTimer((timers[i..] + Rearm(timers[..i], at))[1..], timers[i].id) + [Timer(timers[i].id, at)]
      == timers[i + 1..] + Rearm(timers[..i + 1], at)
  {
    var rest := timers[i + 1..] + Rearm(timers[..i], at);
    assert (timers[i..] + Rearm(timers[..i], at))[1..] == rest;
    forall k | 0 <= k < |rest| ensures rest[k].id != timers[i].id {
      if k >= |timers| - i - 1 { assert rest[k].id == timers[k - (|timers| - i - 1)].id; }
    }
    DropNoTimer(rest, timers[i].id);
  }

  lemma {:induction false} DropNoTimer(timers: seq<Timer>, id: nat)
    requires forall k :: 0 <= k < |timers| ==> timers[k].id != id
    ensures DropTimer(timers, id) == timers
  {
    if timers == [] {
    } else {
      DropNoTimer(timers[1..], id);
    }
  }

  lemma ExpireStart(w: Line, q: Inflight, now: Time)
    ensures Fired(w, q, now, 0) == q.(last := Some(now)) && ResendsOf(q.items, q.timers[..0]) == []
  {
    assert q.timers[0..] + Rearm(q.timers[..0], now + w.timeout) == q.timers;
  }
}
