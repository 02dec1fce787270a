/**
  Routing on a network without cycles. With any loss and any eviction, every table entry names the neighbour
  on the unique path, so a message only ever comes nearer to its destination, provided each route response
  that doArp accepts is about the address it is looking for.
*/
module Tree {
  import opened Types
  import opened Protocol
  import opened Network
  import opened Learning
  import opened HopSafety
  import opened Ledger
  import opened EndToEnd
  import opened Descent
  import opened Flood
  import opened Paths
  import RT = RoutingTable

  /** The hand-over of m by a to `to` is a step along a path from its source to its destination. */
  ghost predicate OnPath(links: Links, m: Routed, a: byte, to: byte)
  {
    exists p :: Leads(links, p, m.source, m.dest) && m.hops + 1 < |p| && p[m.hops] == a && p[m.hops + 1] == to
  }

  ghost predicate TableOk(links: Links, s: NodeState)
  {
    forall d: byte :: NextHop(s.table, d).Some? ==> RouteOk(links, s.me, d, NextHop(s.table, d).value)
  }

  ghost predicate TreeOk(links: Links, ns: Nodes)
  {
    && (forall a :: a in ns ==> TableOk(links, ns[a]))
    && (forall a, k :: IsSend(ns, a, k) && TheSend(ns, a, k).m.dest != BROADCAST ==>
          OnPath(links, TheSend(ns, a, k).m, a, TheSend(ns, a, k).to))
  }

  /** A discovery of s takes this response for its answer. */
  ghost predicate TakesReply(s: NodeState, e: Event)
  {
    e.Take? && Accepts(s, e.p) && s.arp.Some? && e.p.f.m.body.Response? && e.p.f.m.dest in {s.me, BROADCAST}
  }

  /** The guard doArp lacks: the response it takes is about the address it seeks. */
  ghost predicate Matches(s: NodeState, e: Event)
  {
    TakesReply(s, e) ==> s.arp.value == e.p.f.m.body.target
  }

  /** What is needed of a response taken, whatever it is about: it comes from the side the address sought is on. */
  ghost predicate Harmless(links: Links, s: NodeState, e: Event)
  {
    TakesReply(s, e) ==> RouteOk(links, s.me, s.arp.value, e.p.f.from)
  }

  // ---- What the messages teach -------------------------------------------------------------------

  /** A response lists the nodes between its destination and its source. */
  lemma ResponsePath(links: Links, ns: Nodes, a: byte, k: nat)
    requires Sound(links, ns) && IsSend(ns, a, k) && TheSend(ns, a, k).m.body.Response?
    ensures var m := TheSend(ns, a, k).m;
            && m.dest != BROADCAST && m.body.target == m.source
            && Leads(links, [m.dest] + m.body.path + [m.source], m.dest, m.source)
  {
    ResponseIsUnicast(links, ns, a, k);
    RootIs(links, ns, a, k);
    var r := Root(links, ns, a, k);
    ResponseOrigin(links, ns, r.0, r.1);
  }

  lemma ResponseOrigin(links: Links, ns: Nodes, a: byte, k: nat)
    requires Sound(links, ns) && IsSend(ns, a, k) && TheSend(ns, a, k).m.body.Response? && !TheSend(ns, a, k).why.Relay?
    ensures var m := TheSend(ns, a, k).m;
            && m.dest != BROADCAST && m.body.target == m.source
            && Leads(links, [m.dest] + m.body.path + [m.source], m.dest, m.source)
  {
    hide Sound;
    var x := TheSend(ns, a, k);
    ResponseFrom(links, ns, a, k);
    RequestCarriesItsPath(links, ns, x.why.from, x.why.num);
    var y := TheSend(ns, x.why.from, x.why.num).m;
    var p := Route(y) + [a];
    assert p == [x.m.dest] + x.m.body.path + [a];
  }

  lemma ResponseFrom(links: Links, ns: Nodes, a: byte, k: nat)
    requires Sound(links, ns) && IsSend(ns, a, k) && TheSend(ns, a, k).m.body.Response? && !TheSend(ns, a, k).why.Relay?
    ensures var x := TheSend(ns, a, k);
            && x.why.Answer? && IsRequest(ns, x.why.from, x.why.num) && (x.why.from, a) in links
            && Responds(a, TheSend(ns, x.why.from, x.why.num).m, x) && x.m.dest in ns && x.m.dest != BROADCAST
  {
    var x := TheSend(ns, a, k);
    assert Founded(ns, a, k);
    assert x == ns[a].ledger[k - 1];
    assert OwnOk(ns[a]) && RelayOk(ns[a]);
    assert (x.why.from, x.why.num) in ns[a].taken;
    assert TakenOk(links, ns, a);
    RootIs(links, ns, x.why.from, x.why.num);
  }

  lemma {:induction false} ResponseIsUnicast(links: Links, ns: Nodes, a: byte, k: nat)
    requires Sound(links, ns) && IsSend(ns, a, k) && TheSend(ns, a, k).m.body.Response?
    ensures TheSend(ns, a, k).m.dest != BROADCAST
    decreases Depth(TheSend(ns, a, k).m)
  {
    hide Sound, SendsOk, LedgerOk;
    var x := TheSend(ns, a, k);
    if x.why.Relay? {
      Parent(links, ns, a, k);
      ResponseIsUnicast(links, ns, x.why.from, x.why.num);
    } else {
      ResponseFrom(links, ns, a, k);
    }
  }

  /** A request teaches the way back to its source and to every node it came through. */
  lemma RequestTeaches(links: Links, ns: Nodes, f: byte, j: nat, a: byte, d: byte)
    requires Sound(links, ns) && Symmetric(links) && IsRequest(ns, f, j) && (f, a) in links
    requires var m := TheSend(ns, f, j).m; a != m.source && a !in m.body.path && d in {m.source} + Elements(m.body.path)
    ensures RouteOk(links, a, d, f)
  {
    hide Sound;
    RequestCarriesItsPath(links, ns, f, j);
    var m := TheSend(ns, f, j).m;
    var p := Route(m) + [a];
    assert SimplePath(links, p);
    var i :| 0 <= i < |p| - 1 && p[i] == d by {
      if d == m.source {
        assert p[0] == d;
      } else {
        var h :| 0 <= h < |m.body.path| && m.body.path[h] == d;
        assert p[h + 1] == d;
      }
    }
    BackRoute(links, p, i, |p| - 1);
  }

  /** A unicast message teaches the way back to its source. */
  lemma UnicastTeaches(links: Links, m: Routed, f: byte, a: byte)
    requires Symmetric(links) && OnPath(links, m, f, a)
    ensures RouteOk(links, a, m.source, f)
  {
    var p :| Leads(links, p, m.source, m.dest) && m.hops + 1 < |p| && p[m.hops] == f && p[m.hops + 1] == a;
    BackRoute(links, p, 0, m.hops + 1);
  }

  /** A response also teaches the way to every node beyond the one it has reached. */
  lemma ResponseTeaches(links: Links, ns: Nodes, f: byte, j: nat, a: byte, d: byte)
    requires Sound(links, ns) && Forest(links) && IsSend(ns, f, j) && TheSend(ns, f, j).m.body.Response?
    requires OnPath(links, TheSend(ns, f, j).m, f, a)
    requires d in Elements(Beyond(TheSend(ns, f, j).m.body.path, a))
    ensures RouteOk(links, a, d, f)
  {
    hide Sound;
    var m := TheSend(ns, f, j).m;
    ResponsePath(links, ns, f, j);
    var q := [m.dest] + m.body.path + [m.source];
    var here := PlaceOnTheWay(links, m, q, f, a);
    var i := ListedBeyond(m.body.path, m.dest, m.source, a, d, here);
    AheadRoute(links, q, here, i);
  }

  /** Where a message stands on the way back of the request it answers. */
  lemma PlaceOnTheWay(links: Links, m: Routed, q: seq<byte>, f: byte, a: byte) returns (here: nat)
    requires Forest(links) && Leads(links, q, m.dest, m.source) && OnPath(links, m, f, a)
    ensures here + 1 < |q| && q[here] == a && q[here + 1] == f
  {
    var p :| Leads(links, p, m.source, m.dest) && m.hops + 1 < |p| && p[m.hops] == f && p[m.hops + 1] == a;
    ReverseLeads(links, p, m.source, m.dest);
    assert q == Reverse(p);
    here := |q| - 2 - m.hops;
  }

  /** A node listed beyond a comes after a on the way from the first node to the last. */
  lemma ListedBeyond(path: seq<byte>, first: byte, last: byte, a: byte, d: byte, here: nat) returns (i: nat)
    requires var q := [first] + path + [last]; Simple(q) && here < |q| && q[here] == a
    requires d in Elements(Beyond(path, a))
    ensures here < i < |path| + 1 && ([first] + path + [last])[i] == d
  {
    var q := [first] + path + [last];
    var rest := Beyond(path, a);
    var h :| 0 <= h < |rest| && rest[h] == d;
    var there := |path| - |rest|;
    i := there + 1 + h;
    assert q[i] == path[there + h] == d;
    assert q[there] == a;
  }

  // ---- Steps -------------------------------------------------------------------------------------

  /** Every route a step may add is right. */
  lemma LessonsAreRight(links: Links, n: Net, a: byte, e: Event, n': Net, d: byte)
    requires Sound(links, n.nodes) && Advances(links, n, a, e, n') && Forest(links) && TreeOk(links, n.nodes)
    requires Harmless(links, n.nodes[a], e) && TakerIs(n, a, e)
    requires d in Lesson(n.nodes[a], e)
    ensures RouteOk(links, a, d, Teacher(n.nodes[a], e))
  {
    hide Sound, HopStep, NodeOk, Later, Air, LedgerOk, AppStep, EnteredBy, Within;
    var s := n.nodes[a];
    if e.Take? {
      var f, j, m := e.p.f.from, e.p.num, e.p.f.m;
      MessageTeaches(links, n.nodes, f, j, s, d);
    } else {
      var x := s.hop.x;
      var f, j := x.why.from, x.why.num;
      ForwardedFrom(links, n.nodes, a, |s.ledger|);
      assert OnPath(links, TheSend(n.nodes, f, j).m, f, a);
      UnicastTeaches(links, TheSend(n.nodes, f, j).m, f, a);
    }
  }

  /** Facts about the step that the lemma above needs. */
  ghost predicate TakerIs(n: Net, a: byte, e: Event)
    requires a in n.nodes
  {
    var s := n.nodes[a];
    && (e.Take? && Accepts(s, e.p) ==> IsSend(n.nodes, e.p.f.from, e.p.num) && TheSend(n.nodes, e.p.f.from, e.p.num).to in {a, BROADCAST})
    && (e.GiveUp? && s.hop.Sending? ==> IsSend(n.nodes, a, |s.ledger|) && TheSend(n.nodes, a, |s.ledger|) == s.hop.x)
    && (e.GiveUp? && s.hop.Sending? && s.hop.x.why.Relay? ==> s.hop.x.m.dest != BROADCAST)
  }

  lemma MessageTeaches(links: Links, ns: Nodes, f: byte, j: nat, s: NodeState, d: byte)
    requires Sound(links, ns) && Forest(links) && TreeOk(links, ns) && IsSend(ns, f, j)
    requires (f, s.me) in links && TheSend(ns, f, j).to in {s.me, BROADCAST} && s.me != BROADCAST
    requires var m := TheSend(ns, f, j).m;
      && d in Teaches(s.me, s.arp, m)
      && (s.arp.Some? && m.body.Response? && m.dest in {s.me, BROADCAST} ==> RouteOk(links, s.me, s.arp.value, f))
    ensures RouteOk(links, s.me, d, f)
  {
    hide Sound, TreeOk;
    if IsRequest(ns, f, j) {
      RequestTeaches(links, ns, f, j, s.me, d);
    } else {
      AddressedUnicast(links, ns, f, j);
      if TheSend(ns, f, j).m.dest == BROADCAST {
        if TheSend(ns, f, j).m.body.Response? {
          ResponseIsUnicast(links, ns, f, j);
        }
      } else {
        SentOnPath(links, ns, f, j);
        PassingTeaches(links, ns, f, j, s, d);
      }
    }
  }

  lemma SentOnPath(links: Links, ns: Nodes, a: byte, k: nat)
    requires TreeOk(links, ns) && IsSend(ns, a, k) && TheSend(ns, a, k).m.dest != BROADCAST
    ensures OnPath(links, TheSend(ns, a, k).m, a, TheSend(ns, a, k).to)
  {
  }

  lemma IsSymmetric(links: Links)
    requires Forest(links)
    ensures Symmetric(links)
  {
  }

  lemma PassingTeaches(links: Links, ns: Nodes, f: byte, j: nat, s: NodeState, d: byte)
    requires Sound(links, ns) && Forest(links) && IsSend(ns, f, j)
    requires var m := TheSend(ns, f, j).m;
      && m.dest != BROADCAST && OnPath(links, m, f, s.me)
      && d in Teaches(s.me, s.arp, m)
      && (s.arp.Some? && m.body.Response? && m.dest in {s.me, BROADCAST} ==> RouteOk(links, s.me, s.arp.value, f))
    ensures RouteOk(links, s.me, d, f)
  {
    hide Sound, OnPath, RouteOk, Forest, Leads, Beyond, Elements, Root, Symmetric, IsSend;
    var m := TheSend(ns, f, j).m;
    assert Symmetric(links) by { IsSymmetric(links); }
    UnicastTeaches(links, m, f, s.me);
    if m.body.Response? {
      ResponsePath(links, ns, f, j);
      if d in Elements(Beyond(m.body.path, s.me)) {
        ResponseTeaches(links, ns, f, j, s.me, d);
      }
    }
  }

  lemma AddressedUnicast(links: Links, ns: Nodes, a: byte, k: nat)
    requires Sound(links, ns) && IsSend(ns, a, k) && !IsRequest(ns, a, k)
    ensures TheSend(ns, a, k).to in ns && TheSend(ns, a, k).to != BROADCAST
  {
    hide LedgerOk;
    assert Addressed(links, ns, a, k);
  }

  /** The table of the node that moves stays right. */
  lemma TableStaysOk(links: Links, n: Net, a: byte, e: Event, n': Net)
    requires Sound(links, n.nodes) && Advances(links, n, a, e, n') && Forest(links) && TreeOk(links, n.nodes)
    requires Harmless(links, n.nodes[a], e) && TakerIs(n, a, e)
    ensures TableOk(links, n'.nodes[a])
  {
    var s, s' := n.nodes[a], n'.nodes[a];
    forall d: byte | NextHop(s'.table, d).Some?
      ensures RouteOk(links, a, d, NextHop(s'.table, d).value)
    {
      hide Sound, Moves, LedgerOk, AppStep, EnteredBy, RouteOk, TakerIs, Harmless;
      if NextHop(s'.table, d) != NextHop(s.table, d) {
        LessonsAreRight(links, n, a, e, n', d);
      } else {
        assert TableOk(links, s);
      }
    }
  }

  /** A message handed over along a right route is on the path. */
  lemma HandOverOnPath(links: Links, ns: Nodes, a: byte, k: nat)
    requires Sound(links, ns) && Forest(links) && IsSend(ns, a, k)
    requires var x := TheSend(ns, a, k);
      && x.m.dest != BROADCAST && RouteOk(links, a, x.m.dest, x.to)
      && (x.why.Relay? ==> IsSend(ns, x.why.from, x.why.num) && OnPath(links, TheSend(ns, x.why.from, x.why.num).m, x.why.from, a))
    ensures OnPath(links, TheSend(ns, a, k).m, a, TheSend(ns, a, k).to)
  {
    hide Sound;
    var x := TheSend(ns, a, k);
    if x.why.Relay? {
      ForwardedFrom(links, ns, a, k);
      var y, f := TheSend(ns, x.why.from, x.why.num).m, x.why.from;
      var p :| Leads(links, p, y.source, y.dest) && y.hops + 1 < |p| && p[y.hops] == f && p[y.hops + 1] == a;
      RouteFollowsPath(links, p, x.m.hops, x.to);
    } else {
      RootOfOwn(links, ns, a, k);
      var q :| Leads(links, q, a, x.m.dest) && |q| >= 2 && q[1] == x.to;
    }
  }

  lemma TakerFacts(links: Links, n: Net, a: byte, e: Event, n': Net)
    requires CustodyInv(links, n) && Advances(links, n, a, e, n')
    ensures TakerIs(n, a, e)
  {
    hide SendsOk, LedgerOk, AppStep, EnteredBy, Within, Neighbours, GotsOk, Sound;
    if e.Take? && Accepts(n.nodes[a], e.p) {
      TakingIsNew(links, n, a, e, n');
    }
    if e.GiveUp? {
      CustodyIsSound(links, n);
      GivingUp(links, n.nodes, a);
    }
  }

  /** Only the hand-over of a unicast message can be given up: a broadcast is never waited for. */
  lemma GivingUp(links: Links, ns: Nodes, a: byte)
    requires Sound(links, ns) && a in ns && ns[a].hop.Sending? && ns[a].hop.tries > 0
    ensures IsSend(ns, a, |ns[a].ledger|) && TheSend(ns, a, |ns[a].ledger|) == ns[a].hop.x
    ensures ns[a].hop.x.why.Relay? ==> ns[a].hop.x.m.dest != BROADCAST
  {
    assert NodeOk(ns[a]);
    if ns[a].hop.x.why.Relay? {
      Parent(links, ns, a, |ns[a].ledger|);
    }
  }

  lemma NewSendOnPath(links: Links, n: Net, a: byte, e: Event, n': Net, k: nat)
    requires Sound(links, n.nodes) && Sound(links, n'.nodes) && Advances(links, n, a, e, n')
    requires Forest(links) && TreeOk(links, n.nodes) && TableOk(links, n'.nodes[a])
    requires IsSend(n'.nodes, a, k) && !IsSend(n.nodes, a, k) && TheSend(n'.nodes, a, k).m.dest != BROADCAST
    ensures OnPath(links, TheSend(n'.nodes, a, k).m, a, TheSend(n'.nodes, a, k).to)
  {
    hide Sound, LedgerOk, AppStep, Within, TreeOk, HopStep, NodeOk, Air;
    NewSendIs(links, n, a, e, n', a, k);
    var x := TheSend(n'.nodes, a, k);
    assert NextHop(n'.nodes[a].table, x.m.dest) == Some(x.to);
    if x.why.Relay? {
      ForwardedFrom(links, n'.nodes, a, k);
      var f, j := x.why.from, x.why.num;
      assert IsSend(n.nodes, f, j);
      SendStays(n.nodes, n'.nodes, f, j);
      SentOnPath(links, n.nodes, f, j);
    }
    HandOverOnPath(links, n'.nodes, a, k);
  }

  lemma TreeStep(links: Links, n: Net, a: byte, e: Event, n': Net)
    requires CustodyInv(links, n) && Sound(links, n.nodes) && Sound(links, n'.nodes) && Advances(links, n, a, e, n')
    requires Forest(links) && TreeOk(links, n.nodes) && Harmless(links, n.nodes[a], e)
    ensures TreeOk(links, n'.nodes)
  {
    hide CustodyInv, Sound, LedgerOk, AppStep, EnteredBy, Within, TableOk, OnPath, HopStep, NodeOk, Air, Harmless;
    TakerFacts(links, n, a, e, n');
    TableStaysOk(links, n, a, e, n');
    forall b, k | IsSend(n'.nodes, b, k) && TheSend(n'.nodes, b, k).m.dest != BROADCAST
      ensures OnPath(links, TheSend(n'.nodes, b, k).m, b, TheSend(n'.nodes, b, k).to)
    {
      if IsSend(n.nodes, b, k) {
        SendStays(n.nodes, n'.nodes, b, k);
        SentOnPath(links, n.nodes, b, k);
      } else {
        NewSendIs(links, n, a, e, n', b, k);
        NewSendOnPath(links, n, a, e, n', k);
      }
    }
  }

  lemma TreeKept(links: Links, n: Net, act: Action, n': Net)
    requires CustodyInv(links, n) && Next(links, n, act, n') && Forest(links) && TreeOk(links, n.nodes)
    requires act.Act? ==> Harmless(links, n.nodes[act.a], act.e)
    ensures CustodyInv(links, n') && TreeOk(links, n'.nodes)
  {
    hide CustodyInv, Step, Air, TreeOk, Harmless, Forest;
    CustodyKept(links, n, act, n');
    CustodyIsSound(links, n);
    CustodyIsSound(links, n');
    if act.Act? {
      NextAdvances(links, n, act.a, act.e, n');
      TreeStep(links, n, act.a, act.e, n');
    }
  }

  /** No discovery of the run took a response about another address for its own. */
  ghost predicate MatchingReplies(trace: seq<Net>, acts: seq<Action>)
    requires |trace| == |acts| + 1
  {
    forall i :: 0 <= i < |acts| && acts[i].Act? && acts[i].a in trace[i].nodes ==>
      Matches(trace[i].nodes[acts[i].a], acts[i].e)
  }

  /** No discovery of the run took a response from the wrong side. */
  ghost predicate HarmlessReplies(links: Links, trace: seq<Net>, acts: seq<Action>)
    requires |trace| == |acts| + 1
  {
    forall i :: 0 <= i < |acts| && acts[i].Act? && acts[i].a in trace[i].nodes ==>
      Harmless(links, trace[i].nodes[acts[i].a], acts[i].e)
  }

  lemma InitTree(links: Links, n: Net)
    requires Init(n)
    ensures TreeOk(links, n.nodes)
  {
    hide Fresh;
    forall a | a in n.nodes
      ensures TableOk(links, n.nodes[a]) && n.nodes[a].ledger == []
    {
      var memory: Slots :| n.nodes[a] == Fresh(a, n.nodes[a].router, RT.Cleared(memory));
      FreshIsOk(a, n.nodes[a].router, memory);
    }
  }

  lemma {:induction false} HarmlessRouting(links: Links, trace: seq<Net>, acts: seq<Action>, t: nat)
    requires Run(links, trace, acts) && Forest(links) && t < |trace|
    requires forall i :: 0 <= i < t && acts[i].Act? && acts[i].a in trace[i].nodes ==>
               Harmless(links, trace[i].nodes[acts[i].a], acts[i].e)
    ensures CustodyInv(links, trace[t]) && TreeOk(links, trace[t].nodes)
  {
    hide CustodyInv, TreeOk, Step, Air, Harmless, Forest;
    if t == 0 {
      InitCustody(links, trace[0]);
      InitTree(links, trace[0]);
    } else {
      HarmlessRouting(links, trace, acts, t - 1);
      TreeKept(links, trace[t - 1], acts[t - 1], trace[t]);
    }
  }

  /** The reply a discovery takes becomes its route, so a table that stays right has taken it from the right side. */
  lemma RightTablesNeedIt(links: Links, n: Net, a: byte, e: Event, n': Net)
    requires CustodyInv(links, n) && Next(links, n, Act(a, e), n') && TreeOk(links, n'.nodes)
    ensures Harmless(links, n.nodes[a], e)
  {
    var s, s' := n.nodes[a], n'.nodes[a];
    if TakesReply(s, e) {
      assert LedgerOk(s) && s.me == a;
      hide CustodyInv, Air, TreeOk, RouteOk, LedgerOk, TableOk;
      ReplyBecomesRoute(s, e, s');
      assert TableOk(links, s');
      RightAbout(links, s', s.arp.value);
      NextAdvances(links, n, a, e, n');
    }
  }

  lemma RightAbout(links: Links, s: NodeState, d: byte)
    requires TableOk(links, s) && NextHop(s.table, d).Some?
    ensures RouteOk(links, s.me, d, NextHop(s.table, d).value)
  {
  }

  lemma ReplyBecomesRoute(s: NodeState, e: Event, s': NodeState)
    requires Step(s, e, s') && LedgerOk(s) && TakesReply(s, e)
    ensures NextHop(s'.table, s.arp.value) == Some(e.p.f.from)
  {
    hide Peek, AddRoute, NextHop;
    var s1 := Peek(Noted(s, e.p), e.p.f.m, e.p.f.from);
    PeekWithin(Noted(s, e.p), e.p.f.m, e.p.f.from);
    AddWithin(s1.table, s1.table, {}, e.p.f.from, s.arp.value);
    var s2 := s1.(table := AddRoute(s1.table, s.arp.value, e.p.f.from), arp := None);
    assert s' == RouteOwn(s2, Pending(s2).m, Pending(s2).why);
    PendingUnchanged(s, s2);
  }

  lemma PendingUnchanged(s: NodeState, s2: NodeState)
    requires HasPending(s) && s2.job == s.job && s2.out == s.out && s2.me == s.me && s2.asked == s.asked
    ensures HasPending(s2) && Pending(s2) == Pending(s)
  {
  }

  /**
    On a network without cycles, whatever is lost or evicted: all routing tables of a run are right, and every
    unicast message is on its path, in all its states, exactly if no discovery took a reply from the wrong side.
  */
  lemma TreeRoutingExact(links: Links, trace: seq<Net>, acts: seq<Action>)
    requires Run(links, trace, acts) && Forest(links)
    ensures (forall t :: 0 <= t < |trace| ==> TreeOk(links, trace[t].nodes)) <==> HarmlessReplies(links, trace, acts)
  {
    hide CustodyInv, TreeOk, Step, Air, Harmless, Forest;
    if HarmlessReplies(links, trace, acts) {
      forall t | 0 <= t < |trace|
        ensures TreeOk(links, trace[t].nodes)
      {
        HarmlessRouting(links, trace, acts, t);
      }
    }
    if forall t :: 0 <= t < |trace| ==> TreeOk(links, trace[t].nodes) {
      forall i | 0 <= i < |acts| && acts[i].Act? && acts[i].a in trace[i].nodes
        ensures Harmless(links, trace[i].nodes[acts[i].a], acts[i].e)
      {
        CustodyAlways(links, trace, acts, i);
        assert Next(links, trace[i], acts[i], trace[i + 1]);
        RightTablesNeedIt(links, trace[i], acts[i].a, acts[i].e, trace[i + 1]);
      }
    }
  }

  /** A reply about the address sought comes from the right side. */
  lemma MatchingIsHarmless(links: Links, n: Net, a: byte, e: Event, n': Net)
    requires CustodyInv(links, n) && Next(links, n, Act(a, e), n') && Forest(links) && TreeOk(links, n.nodes)
    requires Matches(n.nodes[a], e)
    ensures Harmless(links, n.nodes[a], e)
  {
    hide Sound, CustodyInv, Step, Air, TreeOk, Forest, RouteOk;
    var s := n.nodes[a];
    if TakesReply(s, e) {
      CustodyIsSound(links, n);
      NextAdvances(links, n, a, e, n');
      TakerFacts(links, n, a, e, n');
      var f, j := e.p.f.from, e.p.num;
      hide Advances;
      ResponsePath(links, n.nodes, f, j);
      SentOnPath(links, n.nodes, f, j);
      assert Symmetric(links) by { ForestIsSymmetric(links); }
      AddressedUnicast(links, n.nodes, f, j);
      UnicastTeaches(links, e.p.f.m, f, a);
    }
  }

  lemma ForestIsSymmetric(links: Links)
    requires Forest(links)
    ensures Symmetric(links)
  {
  }

  /** So tree routing is correct in every state of every run with matching replies. */
  lemma {:induction false} TreeRouting(links: Links, trace: seq<Net>, acts: seq<Action>, t: nat)
    requires Run(links, trace, acts) && Forest(links) && MatchingReplies(trace, acts) && t < |trace|
    ensures CustodyInv(links, trace[t]) && TreeOk(links, trace[t].nodes)
    ensures t < |acts| && acts[t].Act? && acts[t].a in trace[t].nodes ==> Harmless(links, trace[t].nodes[acts[t].a], acts[t].e)
  {
    hide CustodyInv, TreeOk, Step, Air, Matches, Harmless, Forest;
    if t == 0 {
      InitCustody(links, trace[0]);
      InitTree(links, trace[0]);
    } else {
      TreeRouting(links, trace, acts, t - 1);
      TreeKept(links, trace[t - 1], acts[t - 1], trace[t]);
    }
    if t < |acts| && acts[t].Act? && acts[t].a in trace[t].nodes {
      assert Next(links, trace[t], acts[t], trace[t + 1]);
      MatchingIsHarmless(links, trace[t], acts[t].a, acts[t].e, trace[t + 1]);
    }
  }

  // ---- What it means -----------------------------------------------------------------------------

  /** d is k hops away from u. */
  ghost predicate Far(links: Links, u: byte, d: byte, k: nat)
  {
    exists p :: Leads(links, p, u, d) && |p| == k + 1
  }

  /** Following a right route brings a message exactly one hop nearer. */
  lemma RouteNears(links: Links, u: byte, d: byte, n: byte, k: nat)
    requires Forest(links) && RouteOk(links, u, d, n) && Far(links, u, d, k)
    ensures k >= 1 && Far(links, n, d, k - 1) && forall j :: Far(links, n, d, j) ==> j == k - 1
  {
    var p :| Leads(links, p, u, d) && |p| == k + 1;
    RouteFollowsPath(links, p, 0, n);
    SliceLeads(links, p, 1, |p| - 1);
    var q := p[1..|p|];
    assert Leads(links, q, n, d) && |q| == k;
  }

  /** A unicast message on a tree visits no node twice: forwarding never loops, whatever was lost or evicted. */
  lemma NoNodeTwice(links: Links, trace: seq<Net>, acts: seq<Action>, t: nat, a: byte, k: nat, i: nat, j: nat)
    requires Run(links, trace, acts) && Forest(links) && HarmlessReplies(links, trace, acts) && t < |trace|
    requires Sound(links, trace[t].nodes) && IsSend(trace[t].nodes, a, k) && TheSend(trace[t].nodes, a, k).m.dest != BROADCAST
    requires i < j < |Trail(links, trace[t].nodes, a, k)|
    ensures Trail(links, trace[t].nodes, a, k)[i].0 != Trail(links, trace[t].nodes, a, k)[j].0
  {
    hide Sound, CustodyInv, Init, Next, Harmless;
    HarmlessRouting(links, trace, acts, t);
    var ns := trace[t].nodes;
    var m, trail := TheSend(ns, a, k).m, Trail(links, ns, a, k);
    HopsCountForwards(links, ns, a, k);
    SentOnPath(links, ns, trail[i].0, trail[i].1);
    SentOnPath(links, ns, trail[j].0, trail[j].1);
    var p :| Leads(links, p, m.source, m.dest) && i + 1 < |p| && p[i] == trail[i].0;
    var q :| Leads(links, q, m.source, m.dest) && j + 1 < |q| && q[j] == trail[j].0;
    assert p == q;
  }
}
