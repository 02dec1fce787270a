/** What holds of whole runs beyond the main theorems: neighbours, packets on the air, lengths, failure repair. */
module Guarantees {
  import opened Types
  import opened Protocol
  import opened Network
  import opened Learning
  import opened HopSafety
  import opened Ledger
  import opened EndToEnd
  import opened Descent
  import opened Paths
  import opened Flood
  import opened Tree
  import Wire

  /** In any topology, every route a node ever has leads to a node it has a link from. */
  lemma NextHopsAreNeighbours(links: Links, trace: seq<Net>, acts: seq<Action>, t: nat, a: byte, d: byte)
    requires Run(links, trace, acts) && t < |trace| && a in trace[t].nodes
    requires NextHop(trace[t].nodes[a].table, d).Some?
    ensures var n := NextHop(trace[t].nodes[a].table, d).value;
            n in trace[t].nodes && n != a && (n, a) in links
  {
    CustodyAlways(links, trace, acts, t);
    hide HopInv, LedgerOk, SendsOk, NextHop;
    assert Neighbours(links, trace[t].nodes, a);
  }

  /**
    Every discovery request waiting anywhere lists the nodes it came through: a duplicate-free path of
    links from its source to the node that transmitted it, at most MAX_HOPS long, without the node sought.
  */
  lemma RequestsOnTheAir(links: Links, trace: seq<Net>, acts: seq<Action>, t: nat, b: byte, i: nat)
    requires Run(links, trace, acts) && t < |trace| && b in trace[t].rx && i < |trace[t].rx[b]|
    requires var f := trace[t].rx[b][i].f; f.Message? && f.m.dest == BROADCAST && f.m.body.Request?
    ensures var f := trace[t].rx[b][i].f;
            && SimplePath(links, [f.m.source] + f.m.body.path) && ([f.m.source] + f.m.body.path)[|f.m.body.path|] == f.from
            && |f.m.body.path| <= MAX_HOPS && f.m.body.sought !in f.m.body.path && (f.from, b) in links && f.from != b
  {
    CustodyAlways(links, trace, acts, t);
    CustodyIsSound(links, trace[t]);
    hide Sound, LedgerOk, SendsOk;
    var p := trace[t].rx[b][i];
    assert PacketOk(links, trace[t].nodes, b, p);
    RequestCarriesItsPath(links, trace[t].nodes, p.f.from, p.num);
  }

  // ---- Lengths -------------------------------------------------------------------------------------

  /** No application payload of the run is longer than `most`. */
  ghost predicate PayloadsUpTo(ns: Nodes, most: nat)
  {
    forall a, i :: a in ns && 0 <= i < |ns[a].asked| ==> |ns[a].asked[i].text| <= most
  }

  lemma ListedAtMost(links: Links, ns: Nodes, a: byte, k: nat)
    requires Sound(links, ns) && IsSend(ns, a, k)
    requires TheSend(ns, a, k).m.body.Request? || TheSend(ns, a, k).m.body.Response?
    ensures |TheSend(ns, a, k).m.body.path| <= MAX_HOPS
  {
    RootIs(links, ns, a, k);
    var r := Root(links, ns, a, k);
    var m := TheSend(ns, a, k).m;
    if m.body.Response? {
      ResponseIsUnicast(links, ns, a, k);
      ResponseFrom(links, ns, r.0, r.1);
      var w := TheSend(ns, r.0, r.1).why;
      RequestCarriesItsPath(links, ns, w.from, w.num);
    } else {
      RequestIsBroadcast(links, ns, a, k);
      RequestCarriesItsPath(links, ns, a, k);
    }
  }

  lemma {:induction false} RequestIsBroadcast(links: Links, ns: Nodes, a: byte, k: nat)
    requires Sound(links, ns) && IsSend(ns, a, k) && TheSend(ns, a, k).m.body.Request?
    ensures TheSend(ns, a, k).m.dest == BROADCAST
    decreases Depth(TheSend(ns, a, k).m)
  {
    assert Founded(ns, a, k);
    var x := TheSend(ns, a, k);
    assert x == ns[a].ledger[k - 1];
    assert OwnOk(ns[a]);
    if x.why.Relay? {
      Parent(links, ns, a, k);
      RequestIsBroadcast(links, ns, x.why.from, x.why.num);
    }
  }

  /**
    Every message of every run fits an 8-bit length, and none is so short that the code's subtractions of
    header lengths would wrap: payloads Node::send lets through never meet Wire.LengthsDoNotWrap's limit.
  */
  lemma LengthsAreSound(links: Links, trace: seq<Net>, acts: seq<Action>, t: nat, limit: byte, a: byte, k: nat)
    requires Run(links, trace, acts) && t < |trace| && IsSend(trace[t].nodes, a, k)
    requires limit >= 8 && PayloadsUpTo(trace[t].nodes, Wire.MaxPayload(limit))
    ensures var m := TheSend(trace[t].nodes, a, k).m;
            && Wire.ROUTER_HEADER + Wire.MESH_HEADER + 1 <= Wire.Length(m) <= Wire.MAX_MESSAGE
            && (m.body.Data? ==> Wire.Length(m) <= limit)
            && (!m.body.Data? ==> Wire.Length(m) <= Wire.ROUTER_HEADER + Wire.MESH_HEADER + 2 + MAX_HOPS)
  {
    hide Sound, PayloadsUpTo, Wire.MaxPayload, Wire.Length, Step, Air;
    SoundAlways(links, trace, acts, t);
    LengthOf(links, trace[t].nodes, Wire.MaxPayload(limit), a, k);
    assert Wire.MaxPayload(limit) + 8 <= limit by { PayloadFits(limit); }
  }

  lemma PayloadFits(limit: byte)
    requires limit >= 8
    ensures Wire.MaxPayload(limit) + 8 <= limit
  {
  }

  lemma SoundAlways(links: Links, trace: seq<Net>, acts: seq<Action>, t: nat)
    requires Run(links, trace, acts) && t < |trace|
    ensures Sound(links, trace[t].nodes)
  {
    hide CustodyInv, Sound;
    CustodyAlways(links, trace, acts, t);
    CustodyIsSound(links, trace[t]);
  }

  lemma LengthOf(links: Links, ns: Nodes, most: nat, a: byte, k: nat)
    requires Sound(links, ns) && IsSend(ns, a, k) && PayloadsUpTo(ns, most)
    ensures var m := TheSend(ns, a, k).m;
            Wire.ROUTER_HEADER + Wire.MESH_HEADER + 1 <= Wire.Length(m)
            <= Wire.ROUTER_HEADER + Wire.MESH_HEADER + 2 + if m.body.Data? then most else MAX_HOPS
  {
    hide Sound;
    var m := TheSend(ns, a, k).m;
    match m.body {
      case Data(_, text) =>
        DataIsOurs(links, ns, Got(m, a, k));
        var j :| 1 <= j <= |ns[m.source].asked| && m == DataOf(ns[m.source], j).(hops := m.hops)
                 && Carries(links, ns, Got(m, a, k), m.source, j);
        assert |ns[m.source].asked[j - 1].text| <= most;
      case Request(_, _) => ListedAtMost(links, ns, a, k);
      case Response(_, _) => ListedAtMost(links, ns, a, k);
      case _ =>
    }
  }

  // ---- Failure repair ------------------------------------------------------------------------------

  /** No message is addressed to its own source. */
  lemma SourceIsNotDest(links: Links, ns: Nodes, a: byte, k: nat)
    requires Sound(links, ns) && IsSend(ns, a, k) && TheSend(ns, a, k).m.dest != BROADCAST
    ensures TheSend(ns, a, k).m.source != TheSend(ns, a, k).m.dest
  {
    RootIs(links, ns, a, k);
    var r := Root(links, ns, a, k);
    RootGoesAway(links, ns, r.0, r.1);
  }

  lemma RootGoesAway(links: Links, ns: Nodes, a: byte, k: nat)
    requires Sound(links, ns) && IsSend(ns, a, k) && !TheSend(ns, a, k).why.Relay? && TheSend(ns, a, k).m.dest != BROADCAST
    ensures TheSend(ns, a, k).m.dest != a
  {
    assert Founded(ns, a, k);
    var x := TheSend(ns, a, k);
    assert x == ns[a].ledger[k - 1];
    if x.why.Answer? && TheSend(ns, x.why.from, x.why.num).m.body.Data? {
      var y := Got(TheSend(ns, x.why.from, x.why.num).m, x.why.from, x.why.num);
      DataIsOurs(links, ns, y);
      assert AppOk(ns[y.m.source]);
    }
  }

  /** The notice for a message m that came from node `via` in its hop send num. */
  ghost function NoticeOf(me: byte, m: Routed, via: byte, num: nat): Sent {
    Sent(Routed(m.source, me, 0, Failure(m.dest)), via, Notice(via, num))
  }

  /** What is left after a message could not be handed over: no route to its destination, and a notice on its way back. */
  ghost predicate Repaired(s: NodeState, m: Routed, why: Cause, s': NodeState)
  {
    && NextHop(s'.table, m.dest).None?
    && if why.Relay? && m.source != s.me
       then var x := NoticeOf(s.me, m, why.from, why.num); s'.hop == Sending(x, 0) && s'.ledger == s.ledger + [x]
       else s'.hop.NoHop? && s'.ledger == s.ledger
  }

  lemma UndeliverableRepairs(s: NodeState, m: Routed, why: Cause)
    requires RT.StaleBehind(s.table) && m.source != m.dest && s.hop.NoHop?
    ensures Repaired(s, m, why, Undeliverable(s, m, why))
  {
    var t1 := RT.DeleteTo(s.table, m.dest);
    DeleteWithin(s.table, s.table, {}, 0, m.dest);
    if why.Relay? && m.source != s.me {
      AddWithin(t1, t1, {}, why.from, m.source);
      assert NextHop(AddRoute(t1, m.source, why.from), m.source) == Some(why.from);
    }
  }

  /**
    When a node gives up a hop send, no route to where the message was going is left. The source of a
    forwarded message is told, back along the hop it came from; nobody is told of the node's own messages, nor
    of a notice that fails in its turn.
  */
  lemma GivingUpRepairs(links: Links, trace: seq<Net>, acts: seq<Action>, t: nat, a: byte)
    requires Run(links, trace, acts) && t < |acts| && acts[t] == Act(a, GiveUp) && a in trace[t].nodes
    ensures trace[t].nodes[a].hop.Sending? && a in trace[t + 1].nodes
    ensures var x := trace[t].nodes[a].hop.x; Repaired(trace[t].nodes[a], x.m, x.why, trace[t + 1].nodes[a])
  {
    CustodyAlways(links, trace, acts, t);
    hide CustodyInv, Init, Repaired;
    assert Next(links, trace[t], acts[t], trace[t + 1]);
    FailedGoesAway(links, trace[t], a);
    GivingUp(trace[t].nodes[a], trace[t + 1].nodes[a]);
  }

  lemma FailedGoesAway(links: Links, n: Net, a: byte)
    requires CustodyInv(links, n) && a in n.nodes
    ensures var s := n.nodes[a];
            && RT.StaleBehind(s.table) && s.me == a
            && (s.hop.Sending? ==> s.hop.x.m.source != s.hop.x.m.dest)
  {
    CustodyIsSound(links, n);
    hide Sound, SendsOk;
    var s := n.nodes[a];
    assert NodeOk(s);
    if s.hop.Sending? {
      assert IsSend(n.nodes, a, |s.ledger|) && TheSend(n.nodes, a, |s.ledger|) == s.hop.x;
      RootIs(links, n.nodes, a, |s.ledger|);
      if s.hop.x.m.dest != BROADCAST {
        SourceIsNotDest(links, n.nodes, a, |s.ledger|);
      }
    }
  }

  lemma GivingUp(s: NodeState, s': NodeState)
    requires Step(s, GiveUp, s') && RT.StaleBehind(s.table) && s.hop.x.m.source != s.hop.x.m.dest
    ensures Repaired(s, s.hop.x.m, s.hop.x.why, s')
  {
    hide Undeliverable, NextHop;
    UndeliverableRepairs(s.(hop := NoHop), s.hop.x.m, s.hop.x.why);
  }

  /**
    The same when a node is to forward a message and has no route, after it has peeked at it: nothing is
    handed over, the source is told, and no route to the destination is there afterwards.
  */
  lemma RefusingRepairs(links: Links, trace: seq<Net>, acts: seq<Action>, t: nat, a: byte, e: Event)
    requires Run(links, trace, acts) && t < |acts| && acts[t] == Act(a, e) && a in trace[t].nodes
    requires e.Take? && Accepts(trace[t].nodes[a], e.p) && trace[t].nodes[a].router
    requires e.p.f.m.dest !in {a, BROADCAST} && e.p.f.m.hops < MAX_HOPS
    requires NextHop(Peek(trace[t].nodes[a], e.p.f.m, e.p.f.from).table, e.p.f.m.dest).None?
    ensures a in trace[t + 1].nodes
    ensures Repaired(trace[t].nodes[a], e.p.f.m, Relay(e.p.f.from, e.p.num), trace[t + 1].nodes[a])
  {
    CustodyAlways(links, trace, acts, t);
    hide CustodyInv, Init, Repaired, Peek, NextHop;
    assert Next(links, trace[t], acts[t], trace[t + 1]);
    TakenGoesAway(links, trace[t], a, e, trace[t + 1]);
    Refusing(trace[t].nodes[a], e, trace[t + 1].nodes[a]);
  }

  /**
    What becomes of an application message for another node, in every run: with hops left, a router passes it
    on, one hop more, along its route; without a route it tells the source; otherwise the message ends here.
  */
  lemma ForwardsExactly(links: Links, trace: seq<Net>, acts: seq<Action>, t: nat, a: byte, e: Event)
    requires Run(links, trace, acts) && t < |acts| && acts[t] == Act(a, e) && a in trace[t].nodes
    requires e.Take? && Accepts(trace[t].nodes[a], e.p) && (e.p.f.m.body.Data? || e.p.f.m.body.EndAck?)
    requires e.p.f.m.dest !in {a, BROADCAST}
    ensures a in trace[t + 1].nodes
    ensures var s, s', m, from := trace[t].nodes[a], trace[t + 1].nodes[a], e.p.f.m, e.p.f.from;
            if !s.router || m.hops >= MAX_HOPS then s'.hop.NoHop? && s'.ledger == s.ledger && s'.table == s.table
            else match NextHop(s.table, m.dest)
                 case Some(n) =>
                   && s'.hop == Sending(Sent(Routed(m.dest, m.source, m.hops + 1, m.body), n, Relay(from, e.p.num)), 0)
                   && s'.table == s.table
                 case None => Repaired(s, m, Relay(from, e.p.num), s')
  {
    CustodyAlways(links, trace, acts, t);
    hide CustodyInv, Init, Repaired, NextHop;
    assert Next(links, trace[t], acts[t], trace[t + 1]);
    TakenGoesAway(links, trace[t], a, e, trace[t + 1]);
    var s := trace[t].nodes[a];
    if s.router && e.p.f.m.hops < MAX_HOPS && NextHop(s.table, e.p.f.m.dest).None? {
      Refusing(s, e, trace[t + 1].nodes[a]);
    } else {
      Passing(s, e, trace[t + 1].nodes[a]);
    }
  }

  lemma Passing(s: NodeState, e: Event, s': NodeState)
    requires Step(s, e, s') && e.Take? && Accepts(s, e.p) && (e.p.f.m.body.Data? || e.p.f.m.body.EndAck?)
    requires e.p.f.m.dest !in {s.me, BROADCAST} && (!s.router || e.p.f.m.hops >= MAX_HOPS || NextHop(s.table, e.p.f.m.dest).Some?)
    ensures var m := e.p.f.m;
            if !s.router || m.hops >= MAX_HOPS then s'.hop.NoHop? && s'.ledger == s.ledger && s'.table == s.table
            else && s'.hop == Sending(Sent(Routed(m.dest, m.source, m.hops + 1, m.body), NextHop(s.table, m.dest).value,
                                           Relay(e.p.f.from, e.p.num)), 0)
                 && s'.table == s.table
  {
    hide NextHop;
  }

  lemma TakenGoesAway(links: Links, n: Net, a: byte, e: Event, n': Net)
    requires CustodyInv(links, n) && Next(links, n, Act(a, e), n') && e.Take? && Accepts(n.nodes[a], e.p)
    requires e.p.f.m.dest != BROADCAST
    ensures RT.StaleBehind(n.nodes[a].table) && n.nodes[a].me == a && e.p.f.m.source != e.p.f.m.dest
  {
    FailedGoesAway(links, n, a);
    NextAdvances(links, n, a, e, n');
    CustodyIsSound(links, n);
    hide Sound, CustodyInv, Step, Moves, LedgerOk;
    SourceIsNotDest(links, n.nodes, e.p.f.from, e.p.num);
  }

  lemma Refusing(s: NodeState, e: Event, s': NodeState)
    requires Step(s, e, s') && RT.StaleBehind(s.table) && e.Take? && Accepts(s, e.p) && s.router
    requires var m := e.p.f.m; m.source != m.dest && m.dest !in {s.me, BROADCAST} && m.hops < MAX_HOPS
    requires NextHop(Peek(s, e.p.f.m, e.p.f.from).table, e.p.f.m.dest).None?
    ensures Repaired(s, e.p.f.m, Relay(e.p.f.from, e.p.num), s')
  {
    hide NextHop, Undeliverable, Peek;
    var m, from := e.p.f.m, e.p.f.from;
    PeekWithin(s, m, from);
    PeeksAlike(s, e.p);
    var s1 := Peek(Noted(s, e.p), m, from);
    UndeliverableRepairs(s1, m.(hops := m.hops + 1), Relay(from, e.p.num));
  }

  /** What a node peeks does not depend on its duplicate filter, and touches the table alone. */
  lemma PeeksAlike(s: NodeState, p: Packet)
    requires Accepts(s, p)
    ensures var s1 := Peek(Noted(s, p), p.f.m, p.f.from);
            && s1.table == Peek(s, p.f.m, p.f.from).table && s1 == Noted(s, p).(table := s1.table)
  {
  }
}
