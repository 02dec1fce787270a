/** Which routes a step can add to a node's table, and which next hop they go through. */
module Learning {
  import opened Types
  import opened Protocol
  import opened RT = RoutingTable
  import Laws = RoutingTableLaws

  /** Every route of t' is one of t, or a new one through n to a destination in ds. */
  ghost predicate Within(t': Slots, t: Slots, ds: set<byte>, n: byte)
  {
    && StaleBehind(t')
    && forall d: byte :: NextHop(t', d).Some? ==>
         NextHop(t', d) == NextHop(t, d) || (d in ds && NextHop(t', d) == Some(n))
  }

  lemma AddWithin(t': Slots, t: Slots, ds: set<byte>, n: byte, d: byte)
    requires Within(t', t, ds, n)
    ensures Within(AddRoute(t', d, n), t, ds + {d}, n)
    ensures NextHop(AddRoute(t', d, n), d) == Some(n)
  {
    AddKeeps(t', d, n, Valid);
    var u := AddRoute(t', d, n);
    forall o: byte
      ensures o == d ==> NextHop(u, o) == Some(n)
      ensures o != d ==> NextHop(u, o) in {None, NextHop(t', o)}
    {
      Laws.FindAfterAdd(t', d, n, Valid, o);
    }
  }

  lemma DeleteWithin(t': Slots, t: Slots, ds: set<byte>, n: byte, d: byte)
    requires Within(t', t, ds, n)
    ensures Within(DeleteTo(t', d), t, ds, n)
    ensures NextHop(DeleteTo(t', d), d) == None
  {
    if FirstNaming(t', d) < |t'| {
      DeleteKeeps(t', FirstNaming(t', d));
    }
    forall o: byte
      ensures NextHop(DeleteTo(t', d), o) in {None, NextHop(t', o)}
      ensures o == d ==> NextHop(DeleteTo(t', d), o) == None
    {
      Laws.FindAfterDelete(t', d, o);
    }
  }

  ghost function Elements(ds: seq<byte>): set<byte> {
    set i | 0 <= i < |ds| :: ds[i]
  }

  lemma {:induction false} LearnWithin(t': Slots, t: Slots, ds: set<byte>, n: byte, more: seq<byte>)
    requires Within(t', t, ds, n)
    ensures Within(Learn(t', more, n), t, ds + Elements(more), n)
    decreases more
  {
    if more != [] {
      AddWithin(t', t, ds, n, more[0]);
      LearnWithin(AddRoute(t', more[0], n), t, ds + {more[0]}, n, more[1..]);
      forall d | d in Elements(more[1..])
        ensures d in Elements(more)
      {
        var i :| 0 <= i < |more[1..]| && more[1..][i] == d;
        assert more[i + 1] == d;
      }
      assert more[0] in Elements(more);
      assert ds + {more[0]} + Elements(more[1..]) <= ds + Elements(more);
    }
  }

  // ---- The destinations a message can teach ------------------------------------------------------

  /** The destinations node `me` may add a route to on account of message m (arp: the address sought by doArp). */
  ghost function Teaches(me: byte, arp: Option<byte>, m: Routed): set<byte>
  {
    (match m.body
     case Response(target, path) =>
       {target} + Elements(Beyond(path, me)) + (if arp.Some? && m.dest in {me, BROADCAST} then {arp.value} else {})
     case Request(_, path) =>
       if m.dest == BROADCAST && m.source != me && me !in path then {m.source} + Elements(path) else {}
     case _ => {})
    + (if m.dest !in {me, BROADCAST} && m.source != me then {m.source} else {})
  }

  lemma RouteOwnWithin(s: NodeState, m: Routed, why: Cause, t: Slots, ds: set<byte>, n: byte)
    requires Within(s.table, t, ds, n)
    ensures Within(RouteOwn(s, m, why).table, t, ds, n)
  {
    DeleteWithin(s.table, t, ds, n, m.dest);
  }

  lemma UndeliverableWithin(s: NodeState, m: Routed, why: Cause, t: Slots, ds: set<byte>, n: byte)
    requires Within(s.table, t, ds, n)
    requires why.Relay? ==> why.from == n
    ensures Within(Undeliverable(s, m, why).table, t, if m.source != s.me && why.Relay? then ds + {m.source} else ds, n)
  {
    DeleteWithin(s.table, t, ds, n, m.dest);
    if m.source != s.me && why.Relay? {
      var s1 := s.(table := DeleteTo(s.table, m.dest));
      AddWithin(s1.table, t, ds, n, m.source);
      var s2 := s1.(table := AddRoute(s1.table, m.source, n));
      RouteOwnWithin(s2, Routed(m.source, s.me, 0, Failure(m.dest)), Notice(why.from, why.num), t, ds + {m.source}, n);
    }
  }

  lemma Widen(t': Slots, t: Slots, ds: set<byte>, more: set<byte>, n: byte)
    requires Within(t', t, ds, n) && ds <= more
    ensures Within(t', t, more, n)
  {
  }

  lemma PeekWithin(s: NodeState, m: Routed, from: byte)
    requires StaleBehind(s.table)
    ensures Within(Peek(s, m, from).table, s.table, Teaches(s.me, None, m), from)
  {
    match m.body
    case Response(target, path) =>
      AddWithin(s.table, s.table, {}, from, target);
      var ds := {target} + Elements(Beyond(path, s.me));
      LearnWithin(AddRoute(s.table, target, from), s.table, {} + {target}, from, Beyond(path, s.me));
      assert {} + {target} + Elements(Beyond(path, s.me)) == ds;
      Widen(Peek(s, m, from).table, s.table, ds, Teaches(s.me, None, m), from);
    case Failure(lost) => DeleteWithin(s.table, s.table, {}, from, lost);
    case _ =>
  }

  lemma BackwardsWithin(t: Slots, source: byte, path: seq<byte>, n: byte)
    requires StaleBehind(t)
    ensures Within(AddRoute(t, source, n), t, {source} + Elements(path), n)
    ensures Within(Learn(AddRoute(t, source, n), path, n), t, {source} + Elements(path), n)
  {
    AddWithin(t, t, {}, n, source);
    Widen(AddRoute(t, source, n), t, {} + {source}, {source} + Elements(path), n);
    LearnWithin(AddRoute(t, source, n), t, {} + {source}, n, path);
    assert {} + {source} + Elements(path) == {source} + Elements(path);
  }

  lemma OnRequestWithin(s: NodeState, m: Routed, from: byte, num: nat)
    requires StaleBehind(s.table) && m.body.Request? && m.dest == BROADCAST
    ensures Within(OnRequest(s, m, from, num).table, s.table, Teaches(s.me, None, m), from)
  {
    hide Within;
    var path := m.body.path;
    if m.source != s.me && s.me !in path {
      var t1 := AddRoute(s.table, m.source, from);
      BackwardsWithin(s.table, m.source, path, from);
      var s1 := s.(table := if s.router then Learn(t1, path, from) else t1);
      RouteOwnWithin(s1, Routed(m.source, s.me, 0, Response(s.me, path)), Answer(from, num), s.table, {m.source} + Elements(path), from);
      assert Teaches(s.me, None, m) == {m.source} + Elements(path);
      assert OnRequest(s, m, from, num).table in {s1.table, RouteOwn(s1, Routed(m.source, s.me, 0, Response(s.me, path)), Answer(from, num)).table};
    } else {
      Unlearned(s.table, Teaches(s.me, None, m), from);
    }
  }

  lemma Unlearned(t: Slots, ds: set<byte>, n: byte)
    requires StaleBehind(t)
    ensures Within(t, t, ds, n)
  {
  }

  lemma DeliverInArpWithin(s: NodeState, m: Routed, from: byte, t: Slots, ds: set<byte>)
    requires s.arp.Some? && Within(s.table, t, ds, from)
    requires m.body.Response? ==> s.arp.value in ds
    ensures Within(DeliverInArp(s, m, from).table, t, ds, from)
  {
    if m.body.Response? {
      AddWithin(s.table, t, ds, from, s.arp.value);
      assert ds + {s.arp.value} == ds;
      var s1 := s.(table := AddRoute(s.table, s.arp.value, from), arp := None);
      if HasPending(s1) {
        RouteOwnWithin(s1, Pending(s1).m, Pending(s1).why, t, ds, from);
      }
    }
  }

  lemma AcceptWithin(s: NodeState, m: Routed, from: byte, num: nat)
    requires StaleBehind(s.table)
    ensures Within(Accept(s, m, from, num).table, s.table, Teaches(s.me, s.arp, m), from)
  {
    var all := Teaches(s.me, s.arp, m);
    var s1 := Peek(s, m, from);
    PeekWithin(s, m, from);
    Widen(s1.table, s.table, Teaches(s.me, None, m), all, from);
    if m.dest in {s.me, BROADCAST} {
      if s.arp.Some? {
        DeliverInArpWithin(s1, m, from, s.table, all);
      } else if m.body.Request? && m.dest == BROADCAST {
        OnRequestWithin(s1, m, from, num);
      }
    } else if m.hops < MAX_HOPS && s.router {
      var m1 := m.(hops := m.hops + 1);
      UndeliverableWithin(s1, m1, Relay(from, num), s.table, all, from);
      Widen(Forward(s1, m1, Relay(from, num)).table, s.table, all, all, from);
    }
  }

  /** The packet passes the duplicate filter of RHReliableDatagram::recvfromAck. */
  predicate Accepts(s: NodeState, p: Packet) {
    s.hop.NoHop? && p.f.Message? && p.f.id != s.seen[p.f.from]
  }

  /** The next hop new routes of this step go through. */
  ghost function Teacher(s: NodeState, e: Event): byte
  {
    if e.Take? then e.p.f.from else if e.GiveUp? && s.hop.Sending? && s.hop.x.why.Relay? then s.hop.x.why.from else 0
  }

  ghost function Lesson(s: NodeState, e: Event): set<byte>
  {
    if e.Take? && Accepts(s, e.p) then Teaches(s.me, s.arp, e.p.f.m)
    else if e.GiveUp? && s.hop.Sending? && s.hop.x.why.Relay? && s.hop.x.m.source != s.me then {s.hop.x.m.source}
    else {}
  }

  /** Routes come only from the last hop of the message that teaches them. */
  lemma StepWithin(s: NodeState, e: Event, s': NodeState)
    requires Step(s, e, s') && StaleBehind(s.table)
    ensures Within(s'.table, s.table, Lesson(s, e), Teacher(s, e))
  {
    match e
    case Take(p, _) =>
      if Accepts(s, p) {
        AcceptWithin(Noted(s, p), p.f.m, p.f.from, p.num);
      }
    case GiveUp =>
      UndeliverableWithin(s.(hop := NoHop), s.hop.x.m, s.hop.x.why, s.table, {}, Teacher(s, e));
      assert {} + {s.hop.x.m.source} == {s.hop.x.m.source};
    case _ =>
  }
}
