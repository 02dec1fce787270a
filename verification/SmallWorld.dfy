/**
  In a network where at most ten addresses are in use, no table is ever full when a new destination comes:
  nothing is evicted, and a node that answers a discovery still has the route to answer on.
*/
module SmallWorld {
  import opened Types
  import opened Protocol
  import opened Network
  import opened Learning
  import opened HopSafety
  import opened Ledger
  import opened EndToEnd
  import opened Descent
  import opened Flood
  import opened Paths
  import opened Tree
  import RT = RoutingTable
  import Laws = RoutingTableLaws

  /** All addresses in use: the nodes themselves, and whoever an application has sent to. */
  ghost predicate World(ns: Nodes, world: set<byte>)
  {
    && |world| <= RT.SLOTS
    && ns.Keys <= world
    && forall a, i :: a in ns && 0 <= i < |ns[a].asked| ==> ns[a].asked[i].dest in world
  }

  /** Every live route is to an address in use. */
  ghost predicate Within10(t: Slots, world: set<byte>)
  {
    forall d: byte :: NextHop(t, d).Some? ==> d in world
  }

  /** A table with only such routes takes in any address in use without losing another route. */
  lemma NothingEvicted(t: Slots, world: set<byte>, d: byte, n: byte, other: byte)
    requires RT.StaleBehind(t) && Within10(t, world) && d in world && |world| <= RT.SLOTS
    ensures Within10(AddRoute(t, d, n), world) && RT.StaleBehind(AddRoute(t, d, n))
    ensures other != d ==> NextHop(AddRoute(t, d, n), other) == NextHop(t, other)
    ensures NextHop(AddRoute(t, d, n), d) == Some(n)
  {
    RT.AddKeeps(t, d, n, RT.Valid);
    forall i | 0 <= i < |t| && !t[i].state.Invalid?
      ensures t[i].dest in world
    {
      Laws.LiveIsFound(t, i);
    }
    Laws.SmallWorldNeverEvicts(t, d, world);
    forall o: byte
      ensures o != d ==> NextHop(AddRoute(t, d, n), o) == NextHop(t, o)
      ensures o == d ==> NextHop(AddRoute(t, d, n), o) == Some(n)
    {
      Laws.FindAfterAdd(t, d, n, RT.Valid, o);
    }
  }

  lemma {:induction false} LearnsWithout(t: Slots, world: set<byte>, ds: seq<byte>, n: byte, other: byte)
    requires RT.StaleBehind(t) && Within10(t, world) && |world| <= RT.SLOTS
    requires forall i :: 0 <= i < |ds| ==> ds[i] in world
    ensures NextHop(t, other).Some? ==> NextHop(Learn(t, ds, n), other).Some?
    ensures other !in ds ==> NextHop(Learn(t, ds, n), other) == NextHop(t, other)
    ensures Within10(Learn(t, ds, n), world) && RT.StaleBehind(Learn(t, ds, n))
    decreases ds
  {
    if ds != [] {
      NothingEvicted(t, world, ds[0], n, other);
      LearnsWithout(AddRoute(t, ds[0], n), world, ds[1..], n, other);
    }
  }

  /** What a step may teach is about addresses in use. */
  lemma LessonsInWorld(links: Links, n: Net, a: byte, e: Event, n': Net, world: set<byte>, d: byte)
    requires CustodyInv(links, n) && Sound(links, n.nodes) && Advances(links, n, a, e, n') && World(n.nodes, world)
    requires d in Lesson(n.nodes[a], e)
    ensures d in world
  {
    hide Sound, CustodyInv, HopStep, NodeOk, Later, Air, LedgerOk, AppStep, EnteredBy, Within;
    var s := n.nodes[a];
    if e.Take? {
      ArpInWorld(links, n, a, world);
      TaughtInWorld(links, n.nodes, e.p.f.from, e.p.num, s, world, d);
    } else {
      SourceIsNode(links, n, a);
    }
  }

  lemma SourceIsNode(links: Links, n: Net, a: byte)
    requires CustodyInv(links, n) && Sound(links, n.nodes) && a in n.nodes && n.nodes[a].hop.Sending?
    ensures n.nodes[a].hop.x.m.source in n.nodes
  {
    hide Sound, SendsOk;
    var k := |n.nodes[a].ledger|;
    assert NodeOk(n.nodes[a]);
    assert IsSend(n.nodes, a, k) && TheSend(n.nodes, a, k) == n.nodes[a].hop.x;
    RootIs(links, n.nodes, a, k);
  }

  lemma ArpInWorld(links: Links, n: Net, a: byte, world: set<byte>)
    requires CustodyInv(links, n) && Sound(links, n.nodes) && a in n.nodes && World(n.nodes, world)
    ensures n.nodes[a].arp.Some? ==> n.nodes[a].arp.value in world
  {
    hide Sound, SendsOk, HopInv, OwnOk, RelayOk, InboxOk;
    var s := n.nodes[a];
    if s.arp.Some? {
      assert AppOk(s);
      if s.job.Some? {
        assert GotOk(n.nodes, s.job.value);
        RootIs(links, n.nodes, s.job.value.from, s.job.value.num);
      }
    }
  }

  lemma TaughtInWorld(links: Links, ns: Nodes, f: byte, j: nat, s: NodeState, world: set<byte>, d: byte)
    requires Sound(links, ns) && IsSend(ns, f, j) && ns.Keys <= world
    requires s.arp.Some? ==> s.arp.value in world
    requires d in Teaches(s.me, s.arp, TheSend(ns, f, j).m)
    ensures d in world
  {
    hide Sound;
    var m := TheSend(ns, f, j).m;
    RootIs(links, ns, f, j);
    if m.body.Response? {
      ResponseNodes(links, ns, f, j);
      var rest := Beyond(m.body.path, s.me);
      if d in Elements(rest) {
        var i :| 0 <= i < |rest| && rest[i] == d;
        assert d == m.body.path[|m.body.path| - |rest| + i];
      }
    } else if IsRequest(ns, f, j) {
      RequestCarriesItsPath(links, ns, f, j);
    }
  }

  lemma ResponseNodes(links: Links, ns: Nodes, a: byte, k: nat)
    requires Sound(links, ns) && IsSend(ns, a, k) && TheSend(ns, a, k).m.body.Response?
    ensures TheSend(ns, a, k).m.body.target in ns
    ensures forall i :: 0 <= i < |TheSend(ns, a, k).m.body.path| ==> TheSend(ns, a, k).m.body.path[i] in ns
  {
    hide Sound;
    ResponsePath(links, ns, a, k);
    RootIs(links, ns, a, k);
    var r := Root(links, ns, a, k);
    ResponseFrom(links, ns, r.0, r.1);
    var w := TheSend(ns, r.0, r.1).why;
    RequestCarriesItsPath(links, ns, w.from, w.num);
  }

  ghost predicate SmallInv(ns: Nodes, world: set<byte>)
  {
    forall a :: a in ns ==> Within10(ns[a].table, world)
  }

  lemma SmallKept(links: Links, n: Net, act: Action, n': Net, world: set<byte>)
    requires CustodyInv(links, n) && Next(links, n, act, n') && World(n.nodes, world) && SmallInv(n.nodes, world)
    ensures SmallInv(n'.nodes, world)
  {
    hide CustodyInv, Step, Air, World;
    CustodyIsSound(links, n);
    if act.Act? {
      NextAdvances(links, n, act.a, act.e, n');
      SmallStep(links, n, act.a, act.e, n', world);
    }
  }

  lemma SmallStep(links: Links, n: Net, a: byte, e: Event, n': Net, world: set<byte>)
    requires CustodyInv(links, n) && Sound(links, n.nodes) && Advances(links, n, a, e, n')
    requires World(n.nodes, world) && SmallInv(n.nodes, world)
    ensures SmallInv(n'.nodes, world)
  {
    hide CustodyInv, Sound, HopStep, NodeOk, Later, Air, LedgerOk, AppStep, EnteredBy, World;
    forall d: byte | NextHop(n'.nodes[a].table, d).Some?
      ensures d in world
    {
      if d in Lesson(n.nodes[a], e) {
        LessonsInWorld(links, n, a, e, n', world, d);
      } else {
        assert Within10(n.nodes[a].table, world);
      }
    }
  }

  /** In every state of every run, as long as at most ten addresses are in use, tables hold only those. */
  lemma {:induction false} SmallWorldAlways(links: Links, trace: seq<Net>, acts: seq<Action>, t: nat, world: set<byte>)
    requires Run(links, trace, acts) && t < |trace|
    requires forall i :: 0 <= i <= t ==> World(trace[i].nodes, world)
    ensures CustodyInv(links, trace[t]) && SmallInv(trace[t].nodes, world)
  {
    hide CustodyInv, SmallInv, Step, Air, World;
    CustodyAlways(links, trace, acts, t);
    if t == 0 {
      InitSmall(trace[0], world);
    } else {
      SmallWorldAlways(links, trace, acts, t - 1, world);
      SmallKept(links, trace[t - 1], acts[t - 1], trace[t], world);
    }
  }

  lemma InitSmall(n: Net, world: set<byte>)
    requires Init(n)
    ensures SmallInv(n.nodes, world)
  {
    hide Fresh;
    forall a | a in n.nodes
      ensures Within10(n.nodes[a].table, world)
    {
      var memory: Slots :| n.nodes[a] == Fresh(a, n.nodes[a].router, RT.Cleared(memory));
      FreshIsOk(a, n.nodes[a].router, memory);
    }
  }

  // ---- What becomes of a route ---------------------------------------------------------------------

  /** t holds only addresses in use, and every route of t0 but those in `gone`. */
  ghost predicate Keeps(t0: Slots, t: Slots, gone: set<byte>, world: set<byte>)
  {
    && RT.StaleBehind(t) && Within10(t, world)
    && forall o: byte :: NextHop(t0, o).Some? && o !in gone ==> NextHop(t, o).Some?
  }

  lemma AddKeepsAll(t0: Slots, t: Slots, gone: set<byte>, world: set<byte>, d: byte, n: byte)
    requires Keeps(t0, t, gone, world) && d in world && |world| <= RT.SLOTS
    ensures Keeps(t0, AddRoute(t, d, n), gone, world) && NextHop(AddRoute(t, d, n), d).Some?
  {
    NothingEvicted(t, world, d, n, d);
    forall o: byte | NextHop(t0, o).Some? && o !in gone
      ensures NextHop(AddRoute(t, d, n), o).Some?
    {
      NothingEvicted(t, world, d, n, o);
    }
  }

  lemma {:induction false} LearnKeepsAll(t0: Slots, t: Slots, gone: set<byte>, world: set<byte>, ds: seq<byte>, n: byte)
    requires Keeps(t0, t, gone, world) && Elements(ds) <= world && |world| <= RT.SLOTS
    ensures Keeps(t0, Learn(t, ds, n), gone, world)
    ensures forall d: byte :: NextHop(t, d).Some? ==> NextHop(Learn(t, ds, n), d).Some?
    decreases ds
  {
    if ds != [] {
      assert ds[0] in Elements(ds);
      AddKeepsAll(t0, t, gone, world, ds[0], n);
      AddKeepsAll(t, t, {}, world, ds[0], n);
      forall d | d in Elements(ds[1..])
        ensures d in world
      {
        var i :| 0 <= i < |ds[1..]| && ds[1..][i] == d;
        assert ds[i + 1] in Elements(ds);
      }
      LearnKeepsAll(t0, AddRoute(t, ds[0], n), gone, world, ds[1..], n);
    }
  }

  lemma DeleteKeepsAll(t0: Slots, t: Slots, gone: set<byte>, world: set<byte>, d: byte)
    requires Keeps(t0, t, gone, world) && (d in gone || NextHop(t, d).None?)
    ensures Keeps(t0, RT.DeleteTo(t, d), gone, world)
  {
    DeleteWithin(t, t, {}, 0, d);
    forall o: byte
      ensures o != d ==> NextHop(RT.DeleteTo(t, d), o) == NextHop(t, o)
    {
      Laws.FindAfterDelete(t, d, o);
    }
  }

  lemma RouteOwnKeeps(t0: Slots, s: NodeState, m: Routed, why: Cause, gone: set<byte>, world: set<byte>)
    requires Keeps(t0, s.table, gone, world)
    ensures Keeps(t0, RouteOwn(s, m, why).table, gone, world)
  {
    hide Keeps, NextHop;
    if NextHop(s.table, m.dest).None? {
      DeleteKeepsAll(t0, s.table, gone, world, m.dest);
    }
  }

  lemma UndeliverableKeeps(t0: Slots, s: NodeState, m: Routed, why: Cause, gone: set<byte>, world: set<byte>)
    requires Keeps(t0, s.table, gone, world) && (m.dest in gone || NextHop(s.table, m.dest).None?) && |world| <= RT.SLOTS
    requires why.Relay? && m.source != s.me ==> m.source in world
    ensures Keeps(t0, Undeliverable(s, m, why).table, gone, world)
  {
    hide Keeps, NextHop, RouteOwn;
    DeleteKeepsAll(t0, s.table, gone, world, m.dest);
    if why.Relay? && m.source != s.me {
      var s1 := s.(table := RT.DeleteTo(s.table, m.dest));
      AddKeepsAll(t0, s1.table, gone, world, m.source, why.from);
      RouteOwnKeeps(t0, s1.(table := AddRoute(s1.table, m.source, why.from)),
                    Routed(m.source, s.me, 0, Failure(m.dest)), Notice(why.from, why.num), gone, world);
    }
  }

  /** Routes a message may take away: the one a failure notice is about. */
  ghost function Lost(m: Routed): set<byte> {
    if m.body.Failure? then {m.body.lost} else {}
  }

  lemma PeekKeeps(t0: Slots, s: NodeState, m: Routed, from: byte, world: set<byte>)
    requires Keeps(t0, s.table, Lost(m), world) && Teaches(s.me, None, m) <= world && |world| <= RT.SLOTS
    ensures Keeps(t0, Peek(s, m, from).table, Lost(m), world)
  {
    hide Keeps, NextHop, AddRoute, Learn, Beyond;
    match m.body
    case Response(target, path) =>
      assert target in Teaches(s.me, None, m) && Elements(Beyond(path, s.me)) <= Teaches(s.me, None, m);
      AddKeepsAll(t0, s.table, Lost(m), world, target, from);
      LearnKeepsAll(t0, AddRoute(s.table, target, from), Lost(m), world, Beyond(path, s.me), from);
    case Failure(lost) => DeleteKeepsAll(t0, s.table, Lost(m), world, lost);
    case _ =>
  }

  lemma OnRequestKeeps(t0: Slots, s: NodeState, m: Routed, from: byte, num: nat, world: set<byte>)
    requires Keeps(t0, s.table, {}, world) && m.body.Request? && m.dest == BROADCAST && |world| <= RT.SLOTS
    requires Teaches(s.me, None, m) <= world
    ensures Keeps(t0, OnRequest(s, m, from, num).table, {}, world)
  {
    hide Keeps, NextHop, AddRoute, Learn, RouteOwn;
    if m.source != s.me && s.me !in m.body.path {
      assert m.source in Teaches(s.me, None, m) && Elements(m.body.path) <= Teaches(s.me, None, m);
      var t1 := AddRoute(s.table, m.source, from);
      AddKeepsAll(t0, s.table, {}, world, m.source, from);
      LearnKeepsAll(t0, t1, {}, world, m.body.path, from);
      var s1 := s.(table := if s.router then Learn(t1, m.body.path, from) else t1);
      RouteOwnKeeps(t0, s1, Routed(m.source, s.me, 0, Response(s.me, m.body.path)), Answer(from, num), {}, world);
      var answer := Routed(m.source, s.me, 0, Response(s.me, m.body.path));
      assert OnRequest(s, m, from, num).table in {s1.table, RouteOwn(s1, answer, Answer(from, num)).table};
    }
  }

  lemma AcceptKeeps(s: NodeState, m: Routed, from: byte, num: nat, world: set<byte>)
    requires Keeps(s.table, s.table, {}, world) && |world| <= RT.SLOTS && Teaches(s.me, s.arp, m) <= world
    requires m.dest !in {s.me, BROADCAST} ==> m.source in world
    ensures Keeps(s.table, Accept(s, m, from, num).table, Lost(m), world)
  {
    var t0, s1 := s.table, Peek(s, m, from);
    assert Keeps(t0, t0, Lost(m), world);
    assert Teaches(s.me, None, m) <= Teaches(s.me, s.arp, m);
    PeekKeeps(t0, s, m, from, world);
    hide Keeps, NextHop, AddRoute, Peek, RouteOwn, Undeliverable, OnRequest;
    if m.dest in {s.me, BROADCAST} {
      if s.arp.Some? {
        if m.body.Response? {
          assert s.arp.value in Teaches(s.me, s.arp, m);
          AddKeepsAll(t0, s1.table, Lost(m), world, s.arp.value, from);
          var s2 := s1.(table := AddRoute(s1.table, s.arp.value, from), arp := None);
          if HasPending(s2) {
            RouteOwnKeeps(t0, s2, Pending(s2).m, Pending(s2).why, Lost(m), world);
          }
        }
      } else if m.body.Request? && m.dest == BROADCAST {
        OnRequestKeeps(t0, s1, m, from, num, world);
      }
    } else if m.hops < MAX_HOPS && s.router {
      var m1 := m.(hops := m.hops + 1);
      if NextHop(s1.table, m.dest).None? {
        UndeliverableKeeps(t0, s1, m1, Relay(from, num), Lost(m), world);
      }
    }
  }

  /** Routes a step may take away: by a failure notice, or because a message to that destination was given up. */
  ghost function Forgotten(s: NodeState, e: Event): set<byte> {
    if e.Take? && Accepts(s, e.p) then Lost(e.p.f.m)
    else if e.GiveUp? && s.hop.Sending? then {s.hop.x.m.dest}
    else {}
  }

  lemma StepKeeps(s: NodeState, e: Event, s': NodeState, world: set<byte>)
    requires Step(s, e, s') && RT.StaleBehind(s.table) && Within10(s.table, world) && |world| <= RT.SLOTS
    requires Lesson(s, e) <= world
    requires e.Take? && Accepts(s, e.p) && e.p.f.m.dest !in {s.me, BROADCAST} ==> e.p.f.m.source in world
    ensures Keeps(s.table, s'.table, Forgotten(s, e), world)
  {
    hide Accept, Undeliverable, NextHop, RT.StaleBehind, Within10;
    assert Keeps(s.table, s.table, Forgotten(s, e), world) && Keeps(s.table, s.table, {}, world);
    match e
    case Take(p, _) =>
      if Accepts(s, p) {
        AcceptKeeps(Noted(s, p), p.f.m, p.f.from, p.num, world);
      }
    case GiveUp =>
      UndeliverableKeeps(s.table, s.(hop := NoHop), s.hop.x.m, s.hop.x.why, Forgotten(s, e), world);
    case _ =>
  }

  /**
    In such a network no route is ever lost to make room for another: in every step of every run a route
    disappears only if the node is told that its destination cannot be reached, or has just failed to hand over
    a message for it.
  */
  lemma RoutesAreKept(links: Links, trace: seq<Net>, acts: seq<Action>, t: nat, world: set<byte>, a: byte, d: byte)
    requires Run(links, trace, acts) && t < |acts| && a in trace[t].nodes
    requires forall i :: 0 <= i <= t ==> World(trace[i].nodes, world)
    requires NextHop(trace[t].nodes[a].table, d).Some?
    ensures a in trace[t + 1].nodes
    ensures NextHop(trace[t + 1].nodes[a].table, d).None? ==>
              acts[t].Act? && acts[t].a == a && d in Forgotten(trace[t].nodes[a], acts[t].e)
  {
    hide CustodyInv, SmallInv, Step, Air, World, NextHop, Keeps, Forgotten;
    SmallWorldAlways(links, trace, acts, t, world);
    assert Next(links, trace[t], acts[t], trace[t + 1]);
    if acts[t].Act? && acts[t].a == a {
      MoverKeeps(links, trace[t], a, acts[t].e, trace[t + 1], world);
      KeptOrGone(trace[t].nodes[a].table, trace[t + 1].nodes[a].table, Forgotten(trace[t].nodes[a], acts[t].e), world, d);
    }
  }

  lemma KeptOrGone(t0: Slots, t: Slots, gone: set<byte>, world: set<byte>, d: byte)
    requires Keeps(t0, t, gone, world) && NextHop(t0, d).Some?
    ensures NextHop(t, d).None? ==> d in gone
  {
  }

  lemma MoverKeeps(links: Links, n: Net, a: byte, e: Event, n': Net, world: set<byte>)
    requires CustodyInv(links, n) && Next(links, n, Act(a, e), n') && World(n.nodes, world) && SmallInv(n.nodes, world)
    ensures Keeps(n.nodes[a].table, n'.nodes[a].table, Forgotten(n.nodes[a], e), world)
  {
    hide CustodyInv, Sound, Step, Air, Keeps, Forgotten, Within10;
    CustodyIsSound(links, n);
    NextAdvances(links, n, a, e, n');
    TableFacts(links, n, a);
    var s := n.nodes[a];
    forall d | d in Lesson(s, e)
      ensures d in world
    {
      LessonsInWorld(links, n, a, e, n', world, d);
    }
    if e.Take? && Accepts(s, e.p) {
      RootIs(links, n.nodes, e.p.f.from, e.p.num);
    }
    StepKeeps(s, e, n'.nodes[a], world);
  }

  /**
    "We are certain to have a route there, because we just got it": with at most ten addresses in use the
    node sought by a discovery request does put its response on the way, whatever else its table holds.
  */
  lemma ResponseIsSent(links: Links, trace: seq<Net>, acts: seq<Action>, t: nat, world: set<byte>, a: byte, e: Event)
    requires Run(links, trace, acts) && t < |acts| && acts[t] == Act(a, e)
    requires forall i :: 0 <= i <= t ==> World(trace[i].nodes, world)
    requires a in trace[t].nodes && e.Take? && Accepts(trace[t].nodes[a], e.p) && trace[t].nodes[a].arp.None?
    requires var m := e.p.f.m;
      && m.dest == BROADCAST && m.body.Request? && m.body.sought == a && m.source != a && a !in m.body.path
    ensures a in trace[t + 1].nodes
    ensures var s', m := trace[t + 1].nodes[a], e.p.f.m;
            && s'.hop.Sending? && s'.hop.x.m == Routed(m.source, a, 0, Response(a, m.body.path))
            && s'.hop.x.why == Answer(e.p.f.from, e.p.num) && NextHop(s'.table, m.source) == Some(s'.hop.x.to)
  {
    hide CustodyInv, SmallInv;
    SmallWorldAlways(links, trace, acts, t, world);
    var n := trace[t];
    assert Next(links, n, acts[t], trace[t + 1]);
    CustodyIsSound(links, n);
    NextAdvances(links, n, a, e, trace[t + 1]);
    AnswerGoesOut(links, n, a, e, trace[t + 1], world);
  }

  lemma AnswerGoesOut(links: Links, n: Net, a: byte, e: Event, n': Net, world: set<byte>)
    requires CustodyInv(links, n) && Sound(links, n.nodes) && Advances(links, n, a, e, n')
    requires World(n.nodes, world) && SmallInv(n.nodes, world)
    requires e.Take? && Accepts(n.nodes[a], e.p) && n.nodes[a].arp.None? && Step(n.nodes[a], e, n'.nodes[a])
    requires var m := e.p.f.m;
      && m.dest == BROADCAST && m.body.Request? && m.body.sought == a && m.source != a && a !in m.body.path
    ensures var s', m := n'.nodes[a], e.p.f.m;
            && s'.hop.Sending? && s'.hop.x.m == Routed(m.source, a, 0, Response(a, m.body.path))
            && s'.hop.x.why == Answer(e.p.f.from, e.p.num) && NextHop(s'.table, m.source) == Some(s'.hop.x.to)
  {
    hide CustodyInv, Sound, HopStep, NodeOk, Later, Air, LedgerOk, AppStep, EnteredBy, Within;
    var s, m, from := n.nodes[a], e.p.f.m, e.p.f.from;
    RequestCarriesItsPath(links, n.nodes, from, e.p.num);
    RootIs(links, n.nodes, from, e.p.num);
    TableFacts(links, n, a);
    NothingEvicted(s.table, world, m.source, from, m.source);
    LearnsWithout(AddRoute(s.table, m.source, from), world, m.body.path, from, m.source);
  }

  lemma TableFacts(links: Links, n: Net, a: byte)
    requires CustodyInv(links, n) && a in n.nodes
    ensures RT.StaleBehind(n.nodes[a].table)
  {
  }

  // ---- Without the bound -------------------------------------------------------------------------

  /** How many routes are evicted while the listed nodes are learned. */
  function Pushes(t: Slots, ds: seq<byte>, n: byte): nat
    decreases ds
  {
    if ds == [] then 0 else (if Laws.Evicts(t, ds[0]) then 1 else 0) + Pushes(AddRoute(t, ds[0], n), ds[1..], n)
  }

  /** A destination without a route gets none from a list that does not name it. */
  lemma {:induction false} StaysUnknown(t: Slots, ds: seq<byte>, n: byte, other: byte)
    requires RT.StaleBehind(t) && NextHop(t, other).None? && other !in ds
    ensures NextHop(Learn(t, ds, n), other).None?
    decreases ds
  {
    if ds != [] {
      RT.AddKeeps(t, ds[0], n, RT.Valid);
      Laws.FindAfterAdd(t, ds[0], n, RT.Valid, other);
      StaysUnknown(AddRoute(t, ds[0], n), ds[1..], n, other);
    }
  }

  /** One addition moves the live slot p of another destination one place forward, or not at all, or out. */
  lemma SlotMoves(t: Slots, d: byte, n: byte, p: nat)
    requires RT.StaleBehind(t) && p < RT.SLOTS && !t[p].state.Invalid? && t[p].dest != d
    ensures RT.StaleBehind(AddRoute(t, d, n))
    ensures !Laws.Evicts(t, d) ==> AddRoute(t, d, n)[p] == t[p]
    ensures Laws.Evicts(t, d) && p > 0 ==> AddRoute(t, d, n)[p - 1] == t[p]
    ensures Laws.Evicts(t, d) && p == 0 ==> NextHop(AddRoute(t, d, n), t[p].dest).None?
  {
    RT.AddKeeps(t, d, n, RT.Valid);
    Laws.FindAfterAdd(t, d, n, RT.Valid, t[p].dest);
  }

  /**
    Which routes survive a list, for every table and every list that does not name them: the route in slot p
    is still there, unchanged, exactly if no more than p routes are evicted on the way.
  */
  lemma {:induction false} SurvivesExactly(t: Slots, ds: seq<byte>, n: byte, p: nat)
    requires RT.StaleBehind(t) && p < RT.SLOTS && !t[p].state.Invalid? && t[p].dest !in ds
    ensures NextHop(Learn(t, ds, n), t[p].dest) == if Pushes(t, ds, n) <= p then Some(t[p].nextHop) else None
    decreases ds
  {
    if ds == [] {
      Laws.LiveIsFound(t, p);
    } else {
      var u := AddRoute(t, ds[0], n);
      SlotMoves(t, ds[0], n, p);
      if !Laws.Evicts(t, ds[0]) {
        SurvivesExactly(u, ds[1..], n, p);
      } else if p > 0 {
        SurvivesExactly(u, ds[1..], n, p - 1);
      } else {
        StaysUnknown(u, ds[1..], n, t[p].dest);
      }
    }
  }

  /** The slot that holds the route to the requester once it has been added. */
  function RequesterSlot(t: Slots, source: byte, from: byte): nat {
    RT.FirstLive(AddRoute(t, source, from), source)
  }

  lemma RequesterSurvives(t: Slots, source: byte, path: seq<byte>, from: byte)
    requires RT.StaleBehind(t) && source !in path
    ensures var t1, p := AddRoute(t, source, from), RequesterSlot(t, source, from);
            NextHop(Learn(t1, path, from), source) == if Pushes(t1, path, from) <= p then Some(from) else None
  {
    var t1 := AddRoute(t, source, from);
    RT.AddKeeps(t, source, from, RT.Valid);
    Laws.FindAfterAdd(t, source, from, RT.Valid, source);
    SurvivesExactly(t1, path, from, RequesterSlot(t, source, from));
  }

  /**
    "We are certain to have a route there" in a network of any size: in every run the node sought answers a
    request exactly if it is no router (then it learns nothing but the requester) or learning the listed nodes
    evicts no more routes than stand before the requester's.
  */
  lemma AnswersExactly(links: Links, trace: seq<Net>, acts: seq<Action>, t: nat, a: byte, e: Event)
    requires Run(links, trace, acts) && t < |acts| && acts[t] == Act(a, e)
    requires a in trace[t].nodes && e.Take? && Accepts(trace[t].nodes[a], e.p) && trace[t].nodes[a].arp.None?
    requires var m := e.p.f.m;
      && m.dest == BROADCAST && m.body.Request? && m.body.sought == a && m.source != a && a !in m.body.path
    ensures a in trace[t + 1].nodes
    ensures var s, s', m, from := trace[t].nodes[a], trace[t + 1].nodes[a], e.p.f.m, e.p.f.from;
            var t1, p := AddRoute(s.table, m.source, from), RequesterSlot(s.table, m.source, from);
            && (s'.hop.Sending? <==> !s.router || Pushes(t1, m.body.path, from) <= p)
            && (s'.hop.Sending? ==> s'.hop.x == Sent(Routed(m.source, a, 0, Response(a, m.body.path)), from, Answer(from, e.p.num)))
  {
    hide CustodyInv, Init;
    CustodyAlways(links, trace, acts, t);
    var n := trace[t];
    assert Next(links, n, acts[t], trace[t + 1]);
    AnswerMayGoOut(links, n, a, e, trace[t + 1]);
  }

  lemma AnswerMayGoOut(links: Links, n: Net, a: byte, e: Event, n': Net)
    requires CustodyInv(links, n) && Next(links, n, Act(a, e), n')
    requires e.Take? && Accepts(n.nodes[a], e.p) && n.nodes[a].arp.None?
    requires var m := e.p.f.m;
      && m.dest == BROADCAST && m.body.Request? && m.body.sought == a && m.source != a && a !in m.body.path
    ensures var s, s', m, from := n.nodes[a], n'.nodes[a], e.p.f.m, e.p.f.from;
            var t1, p := AddRoute(s.table, m.source, from), RequesterSlot(s.table, m.source, from);
            && (s'.hop.Sending? <==> !s.router || Pushes(t1, m.body.path, from) <= p)
            && (s'.hop.Sending? ==> s'.hop.x == Sent(Routed(m.source, a, 0, Response(a, m.body.path)), from, Answer(from, e.p.num)))
  {
    hide CustodyInv, Sound, Step, Air, Pushes, RequesterSlot;
    var s, m, from := n.nodes[a], e.p.f.m, e.p.f.from;
    CustodyIsSound(links, n);
    NextAdvances(links, n, a, e, n');
    SourceUnlisted(links, n.nodes, from, e.p.num);
    TableFacts(links, n, a);
    RequesterSurvives(s.table, m.source, m.body.path, from);
    KnowsRequester(s.table, m.source, from);
    AnswerStep(s, e, n'.nodes[a]);
  }

  lemma KnowsRequester(t: Slots, source: byte, from: byte)
    requires RT.StaleBehind(t)
    ensures NextHop(AddRoute(t, source, from), source) == Some(from)
  {
    Laws.FindAfterAdd(t, source, from, RT.Valid, source);
  }

  lemma SourceUnlisted(links: Links, ns: Nodes, f: byte, j: nat)
    requires Sound(links, ns) && IsRequest(ns, f, j)
    ensures TheSend(ns, f, j).m.source !in TheSend(ns, f, j).m.body.path
  {
    RequestCarriesItsPath(links, ns, f, j);
  }

  /** The step itself: the answer goes out exactly if the requester is still in the table. */
  lemma AnswerStep(s: NodeState, e: Event, s': NodeState)
    requires Step(s, e, s') && e.Take? && Accepts(s, e.p) && s.arp.None?
    requires var m := e.p.f.m;
      && m.dest == BROADCAST && m.body.Request? && m.body.sought == s.me && m.source != s.me && s.me !in m.body.path
    ensures var m, from := e.p.f.m, e.p.f.from;
            var t1 := AddRoute(s.table, m.source, from);
            var hop := NextHop(if s.router then Learn(t1, m.body.path, from) else t1, m.source);
            if hop.Some?
            then s'.hop == Sending(Sent(Routed(m.source, s.me, 0, Response(s.me, m.body.path)), hop.value, Answer(from, e.p.num)), 0)
            else s'.hop.NoHop?
  {
    hide NextHop, AddRoute, Learn;
  }

  /** The requester in slot 0 of a full table, and a single new node listed: the route is lost before the answer. */
  lemma OneListedNodeIsEnough(t: Slots, source: byte, x: byte, from: byte)
    requires RT.StaleBehind(t) && forall i :: 0 <= i < RT.SLOTS ==> !t[i].state.Invalid? && t[i].dest != x
    requires t[0].dest == source
    ensures NextHop(Learn(AddRoute(t, source, from), [x], from), source).None?
  {
    var t1 := AddRoute(t, source, from);
    assert t1 == t[0 := RT.Entry(source, from, RT.Valid)];
    RT.AddKeeps(t, source, from, RT.Valid);
    assert Laws.Evicts(t1, x);
    assert Pushes(t1, [x], from) >= 1;
    SurvivesExactly(t1, [x], from, 0);
  }

  /** The route back to node 1 is the one the latest copy of its request has come. */
  lemma RouteBack(t: Slots, world: set<byte>, path: seq<byte>, from: byte)
    requires RT.StaleBehind(t) && Within10(t, world) && |world| <= RT.SLOTS
    requires 1 in world && 1 !in path && forall i :: 0 <= i < |path| ==> path[i] in world
    ensures var u := Learn(AddRoute(t, 1, from), path, from);
            NextHop(u, 1) == Some(from) && RT.StaleBehind(u) && Within10(u, world)
  {
    NothingEvicted(t, world, 1, from, 1);
    LearnsWithout(AddRoute(t, 1, from), world, path, from, 1);
  }
}
