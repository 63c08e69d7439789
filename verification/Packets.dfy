/** MQTT control packets as far as the client engine looks into them. */
module Packets {
  import opened Basics

  datatype Property = TopicAlias(alias: nat) | OtherProperty(code: nat, data: Bytes)

  datatype Packet =
    | Publish(qos: nat, id: Option<nat>, dup: bool, retain: bool, topic: string, props: seq<Property>, payload: Bytes)
    | PubRel(relId: nat)
    | Subscribe(subId: nat, filters: seq<string>)
    | Unsubscribe(unsubId: nat, filters: seq<string>)
    | Connect(client: string)
    | PingReq
    | Disconnect(reason: nat)
    | Auth(authReason: nat, methods: seq<string>)
    | Response(kind: nat, responseId: nat)

  /** The packets of an outgoing QoS 1 or 2 exchange. */
  predicate IsExchange(p: Packet) {
    p.Publish? || p.PubRel?
  }

  function DropAliases(props: seq<Property>): (r: seq<Property>)
    ensures forall x :: x in r <==> x in props && !x.TopicAlias?
  {
    if props == [] then []
    else if props[0].TopicAlias? then DropAliases(props[1..])
    else [props[0]] + DropAliases(props[1..])
  }

  /** A publication in canonical form: topic aliases belong to one connection only. */
  function StripAliases(p: Packet): (r: Packet)
    ensures p.Publish? ==> r.Publish? && r.qos == p.qos && r.id == p.id && r.retain == p.retain && r.topic == p.topic
    ensures !p.Publish? ==> r == p
  {
    if p.Publish? then p.(props := DropAliases(p.props)) else p
  }

  function SetDup(p: Packet): (r: Packet) {
    if p.Publish? then p.(dup := true) else p
  }

  /** What session resumption sends for a captured packet. */
  function ForReplay(p: Packet): (r: Packet)
    ensures IsExchange(r) == IsExchange(p) && r.PubRel? == p.PubRel?
  {
    StripAliases(SetDup(p))
  }

  lemma {:induction false} DropAliasesIdempotent(props: seq<Property>)
    ensures DropAliases(DropAliases(props)) == DropAliases(props)
  {
    if props == [] {
    } else {
      DropAliasesIdempotent(props[1..]);
      if !props[0].TopicAlias? {
        assert ([props[0]] + DropAliases(props[1..]))[1..] == DropAliases(props[1..]);
      }
    }
  }

  // ----- Ordered lists of identified packets -----

  datatype Held = Held(id: nat, packet: Packet)

  function Ids(xs: seq<Held>): (r: seq<nat>)
    ensures |r| == |xs|
  {
    seq(|xs|, i requires 0 <= i < |xs| => xs[i].id)
  }

  function Position(xs: seq<Held>, id: nat): (i: nat)
    ensures i <= |xs|
    ensures i < |xs| ==> xs[i].id == id
    ensures forall j :: 0 <= j < i ==> xs[j].id != id
  {
    if xs == [] || xs[0].id == id then 0 else 1 + Position(xs[1..], id)
  }

  /** Replace the packet of an identifier where it stands, or append it. */
  function Put(xs: seq<Held>, h: Held): (r: seq<Held>) {
    var i := Position(xs, h.id);
    if i < |xs| then xs[i := h] else xs + [h]
  }

  /** The keyed merge of an interrupted handshake: later packets win, first positions stay. */
  function Merge(xs: seq<Held>, hs: seq<Held>): (r: seq<Held>)
    decreases hs
  {
    if hs == [] then xs else Merge(Put(xs, hs[0]), hs[1..])
  }

  function Retain(xs: seq<Held>, keep: set<nat>): (r: seq<Held>) {
    if xs == [] then []
    else if xs[0].id in keep then [xs[0]] + Retain(xs[1..], keep)
    else Retain(xs[1..], keep)
  }

  function Remove(xs: seq<Held>, id: nat): (r: seq<Held>) {
    if xs == [] then []
    else if xs[0].id == id then Remove(xs[1..], id)
    else [xs[0]] + Remove(xs[1..], id)
  }

  lemma IdsIn(xs: seq<Held>, id: nat)
    ensures id in Ids(xs) <==> exists i :: 0 <= i < |xs| && xs[i].id == id
    ensures id in Ids(xs) <==> Position(xs, id) < |xs|
  {
    if id in Ids(xs) {
      var i :| 0 <= i < |xs| && Ids(xs)[i] == id;
      assert xs[i].id == id;
    }
    if Position(xs, id) < |xs| { assert Ids(xs)[Position(xs, id)] == id; }
    if i :| 0 <= i < |xs| && xs[i].id == id { assert Ids(xs)[i] == id; }
  }

  lemma IdsAppend(xs: seq<Held>, ys: seq<Held>)
    ensures Ids(xs + ys) == Ids(xs) + Ids(ys)
  {
  }

  /** With distinct identifiers, an identifier determines its packet. */
  lemma HeldUnique(xs: seq<Held>, a: Held, b: Held)
    requires NoDup(Ids(xs)) && a in xs && b in xs && a.id == b.id
    ensures a == b
  {
    var i :| 0 <= i < |xs| && xs[i] == a;
    var j :| 0 <= j < |xs| && xs[j] == b;
    assert Ids(xs)[i] == Ids(xs)[j];
  }

  lemma PutIds(xs: seq<Held>, h: Held)
    ensures Ids(Put(xs, h)) == if h.id in Ids(xs) then Ids(xs) else Ids(xs) + [h.id]
    ensures NoDup(Ids(xs)) ==> NoDup(Ids(Put(xs, h)))
  {
    IdsIn(xs, h.id);
    if h.id !in Ids(xs) {
      NoDupAppend(Ids(xs), [h.id]);
      IdsAppend(xs, [h]);
    }
  }

  /** The identifiers of a list that are not known yet, in the order of their first occurrence. */
  function NewIds(known: seq<nat>, hs: seq<Held>): (r: seq<nat>)
    decreases hs
  {
    if hs == [] then []
    else if hs[0].id in known then NewIds(known, hs[1..])
    else [hs[0].id] + NewIds(known + [hs[0].id], hs[1..])
  }

  lemma {:induction false} MergeOrder(xs: seq<Held>, hs: seq<Held>)
    ensures Ids(Merge(xs, hs)) == Ids(xs) + NewIds(Ids(xs), hs)
    decreases hs
  {
    if hs == [] {
    } else {
      PutIds(xs, hs[0]);
      MergeOrder(Put(xs, hs[0]), hs[1..]);
      if hs[0].id !in Ids(xs) {
        var rest := NewIds(Ids(xs) + [hs[0].id], hs[1..]);
        assert Ids(xs) + [hs[0].id] + rest == Ids(xs) + ([hs[0].id] + rest);
      }
    }
  }

  lemma {:induction false} MergeUnique(xs: seq<Held>, hs: seq<Held>)
    requires NoDup(Ids(xs))
    ensures NoDup(Ids(Merge(xs, hs)))
    ensures Elements(Ids(Merge(xs, hs))) == Elements(Ids(xs)) + Elements(Ids(hs))
    decreases hs
  {
    if hs == [] {
    } else {
      PutIds(xs, hs[0]);
      MergeUnique(Put(xs, hs[0]), hs[1..]);
      IdsHead(hs);
    }
  }

  /** The merge keeps the old identifiers in place and appends the new ones in order, each once. */
  lemma MergeIds(xs: seq<Held>, hs: seq<Held>)
    requires NoDup(Ids(xs))
    ensures NoDup(Ids(Merge(xs, hs)))
    ensures Elements(Ids(Merge(xs, hs))) == Elements(Ids(xs)) + Elements(Ids(hs))
    ensures Ids(Merge(xs, hs)) == Ids(xs) + NewIds(Ids(xs), hs)
  {
    MergeOrder(xs, hs);
    MergeUnique(xs, hs);
  }

  lemma IdsHead(xs: seq<Held>)
    requires xs != []
    ensures Ids(xs) == [xs[0].id] + Ids(xs[1..])
    ensures Elements(Ids(xs)) == {xs[0].id} + Elements(Ids(xs[1..]))
    ensures NoDup(Ids(xs)) <==> xs[0].id !in Ids(xs[1..]) && NoDup(Ids(xs[1..]))
  {
    assert Ids(xs) == [xs[0].id] + Ids(xs[1..]);
    NoDupAppend([xs[0].id], Ids(xs[1..]));
    assert xs[0].id in [xs[0].id];
    ElementsAppend([xs[0].id], Ids(xs[1..]));
  }

  lemma HeadIds(h: Held, xs: seq<Held>)
    ensures Ids([h] + xs) == [h.id] + Ids(xs)
    ensures NoDup(Ids([h] + xs)) <==> h.id !in Ids(xs) && NoDup(Ids(xs))
  {
    IdsHead([h] + xs);
    assert ([h] + xs)[1..] == xs;
  }

  /** Which packet an identifier has after the merge: the newest one. */
  lemma {:induction false} MergeHolds(xs: seq<Held>, hs: seq<Held>, h: Held)
    requires NoDup(Ids(xs)) && NoDup(Ids(hs))
    ensures h in Merge(xs, hs) <==> h in hs || (h in xs && h.id !in Ids(hs))
    decreases hs
  {
    if hs == [] {
    } else {
      IdsHead(hs);
      PutIds(xs, hs[0]);
      MergeHolds(Put(xs, hs[0]), hs[1..], h);
      PutHolds(xs, hs[0], h);
    }
  }

  lemma PutHolds(xs: seq<Held>, g: Held, h: Held)
    requires NoDup(Ids(xs))
    ensures h in Put(xs, g) <==> h == g || (h in xs && h.id != g.id)
  {
    var i := Position(xs, g.id);
    if i < |xs| {
      if h in Put(xs, g) && h != g {
        var j :| 0 <= j < |xs| && Put(xs, g)[j] == h;
        assert j != i && xs[j] == h && Ids(xs)[j] == h.id && Ids(xs)[i] == g.id;
      }
      if h in xs && h.id != g.id {
        var j :| 0 <= j < |xs| && xs[j] == h;
        assert Put(xs, g)[j] == h;
      }
      assert Put(xs, g)[i] == g;
    }
  }

  /** Merging packets that are already there changes nothing. */
  lemma {:induction false} MergeKnown(xs: seq<Held>, hs: seq<Held>)
    requires NoDup(Ids(xs)) && forall h :: h in hs ==> h in xs
    ensures Merge(xs, hs) == xs
  {
    if hs == [] {
    } else {
      assert hs[0] in xs;
      var i :| 0 <= i < |xs| && xs[i] == hs[0];
      assert Ids(xs)[i] == hs[0].id;
      IdsIn(xs, hs[0].id);
      var k := Position(xs, hs[0].id);
      assert Ids(xs)[k] == hs[0].id;
      assert k == i;
      assert Put(xs, hs[0]) == xs;
      MergeKnown(xs, hs[1..]);
    }
  }

  lemma {:induction false} RetainIds(xs: seq<Held>, keep: set<nat>)
    ensures forall id :: id in Ids(Retain(xs, keep)) <==> id in Ids(xs) && id in keep
    ensures forall h :: h in Retain(xs, keep) <==> h in xs && h.id in keep
  {
    if xs == [] {
    } else {
      RetainIds(xs[1..], keep);
      assert xs == [xs[0]] + xs[1..];
      IdsHead(xs);
      HeadIds(xs[0], Retain(xs[1..], keep));
    }
  }

  lemma {:induction false} RetainNoDup(xs: seq<Held>, keep: set<nat>)
    requires NoDup(Ids(xs))
    ensures NoDup(Ids(Retain(xs, keep)))
  {
    if xs == [] {
    } else {
      IdsHead(xs);
      RetainNoDup(xs[1..], keep);
      RetainIds(xs[1..], keep);
      HeadIds(xs[0], Retain(xs[1..], keep));
    }
  }

  lemma {:induction false} RetainAll(xs: seq<Held>, keep: set<nat>)
    requires forall id :: id in Ids(xs) ==> id in keep
    ensures Retain(xs, keep) == xs
  {
    if xs == [] {
    } else {
      IdsHead(xs);
      RetainAll(xs[1..], keep);
    }
  }

  lemma {:induction false} RemoveIds(xs: seq<Held>, id: nat)
    ensures forall k :: k in Ids(Remove(xs, id)) <==> k in Ids(xs) && k != id
    ensures forall h :: h in Remove(xs, id) <==> h in xs && h.id != id
    ensures NoDup(Ids(xs)) ==> NoDup(Ids(Remove(xs, id)))
  {
    if xs == [] {
    } else {
      RemoveIds(xs[1..], id);
      assert xs == [xs[0]] + xs[1..];
      IdsHead(xs);
      HeadIds(xs[0], Remove(xs[1..], id));
    }
  }

  lemma {:induction false} RemoveAbsent(xs: seq<Held>, id: nat)
    requires id !in Ids(xs)
    ensures Remove(xs, id) == xs
  {
    if xs == [] {
    } else {
      IdsHead(xs);
      RemoveAbsent(xs[1..], id);
    }
  }

  lemma {:induction false} RemoveAppend(xs: seq<Held>, ys: seq<Held>, id: nat)
    ensures Remove(xs + ys, id) == Remove(xs, id) + Remove(ys, id)
  {
    if xs == [] {
      assert xs + ys == ys;
    } else {
      assert (xs + ys)[1..] == xs[1..] + ys;
      RemoveAppend(xs[1..], ys, id);
    }
  }
}
