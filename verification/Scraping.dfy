/**
  What passing messages teach a node, told by its routes alone: a failure notice takes the lost node's route
  away and no other; a response and a request bring routes to all the nodes they tell of, as far as the table
  has room for them. First for a table, then for every step of every run.
*/
module Scraping {
  import opened Types
  import opened Protocol
  import opened Network
  import opened Learning
  import opened HopSafety
  import opened Ledger
  import opened EndToEnd
  import opened Descent
  import opened SmallWorld
  import opened Flood
  import opened Tree
  import RT = RoutingTable
  import Laws = RoutingTableLaws

  // ---- Learning a list -----------------------------------------------------------------------------

  /** Where there is room, a list is learned entirely, and no other route changes. */
  lemma {:induction false} LearnsAll(t: Slots, ds: seq<byte>, n: byte, d: byte)
    requires RT.StaleBehind(t) && Pushes(t, ds, n) == 0
    ensures RT.StaleBehind(Learn(t, ds, n))
    ensures NextHop(Learn(t, ds, n), d) == if d in ds then Some(n) else NextHop(t, d)
    decreases ds
  {
    if ds != [] {
      RT.AddKeeps(t, ds[0], n, RT.Valid);
      Laws.FindAfterAdd(t, ds[0], n, RT.Valid, d);
      LearnsAll(AddRoute(t, ds[0], n), ds[1..], n, d);
      assert d in ds <==> d == ds[0] || d in ds[1..];
    }
  }

  lemma {:induction false} LearnKeeps(t: Slots, ds: seq<byte>, n: byte)
    requires RT.StaleBehind(t)
    ensures RT.StaleBehind(Learn(t, ds, n))
    decreases ds
  {
    if ds != [] {
      RT.AddKeeps(t, ds[0], n, RT.Valid);
      LearnKeeps(AddRoute(t, ds[0], n), ds[1..], n);
    }
  }

  lemma {:induction false} LearnSplits(t: Slots, a: seq<byte>, b: seq<byte>, n: byte)
    ensures Learn(t, a + b, n) == Learn(Learn(t, a, n), b, n)
    decreases a
  {
    if a == [] {
      assert a + b == b;
    } else {
      assert (a + b)[1..] == a[1..] + b;
      LearnSplits(AddRoute(t, a[0], n), a[1..], b, n);
    }
  }

  /**
    Whether there is room or not, for every table and list: a listed node is known afterwards, through n, exactly
    if what follows its last mention evicts no more routes than stand before its own.
  */
  lemma LearnsExactly(t: Slots, a: seq<byte>, d: byte, b: seq<byte>, n: byte)
    requires RT.StaleBehind(t) && d !in b
    ensures var u := Learn(t, a, n);
            NextHop(Learn(t, a + [d] + b, n), d) ==
            if Pushes(AddRoute(u, d, n), b, n) <= RequesterSlot(u, d, n) then Some(n) else None
  {
    LearnKeeps(t, a, n);
    LearnSplits(t, a + [d], b, n);
    LearnSplits(t, a, [d], n);
    OneListed(Learn(t, a, n), d, n);
    RequesterSurvives(Learn(t, a, n), d, b, n);
  }

  lemma OneListed(t: Slots, d: byte, n: byte)
    ensures Learn(t, [d], n) == AddRoute(t, d, n)
  {
    assert [d][1..] == [];
  }

  /** In a small world there is always room. */
  lemma {:induction false} RoomForWorld(t: Slots, world: set<byte>, ds: seq<byte>, n: byte)
    requires RT.StaleBehind(t) && Within10(t, world) && |world| <= RT.SLOTS
    requires forall i :: 0 <= i < |ds| ==> ds[i] in world
    ensures Pushes(t, ds, n) == 0
    decreases ds
  {
    if ds != [] {
      NothingEvicted(t, world, ds[0], n, ds[0]);
      forall i | 0 <= i < |t| && !t[i].state.Invalid?
        ensures t[i].dest in world
      {
        Laws.LiveIsFound(t, i);
      }
      Laws.SmallWorldNeverEvicts(t, ds[0], world);
      RoomForWorld(AddRoute(t, ds[0], n), world, ds[1..], n);
    }
  }

  // ---- What a node takes from a list ---------------------------------------------------------------

  /** d is listed somewhere after me. */
  ghost predicate ListedAfter(path: seq<byte>, me: byte, d: byte)
  {
    exists i, j :: 0 <= i < j < |path| && path[i] == me && path[j] == d
  }

  lemma {:induction false} BeyondIsAfter(path: seq<byte>, me: byte, d: byte)
    ensures d in Beyond(path, me) <==> ListedAfter(path, me, d)
    decreases path
  {
    if path != [] {
      var rest := path[1..];
      if path[0] == me {
        forall k | 0 <= k < |rest| && rest[k] == d
          ensures ListedAfter(path, me, d)
        {
          assert path[0] == me && path[k + 1] == d;
        }
        if ListedAfter(path, me, d) {
          var i, j :| 0 <= i < j < |path| && path[i] == me && path[j] == d;
          assert rest[j - 1] == d;
        }
      } else {
        BeyondIsAfter(rest, me, d);
        AfterInRest(path, me, d);
      }
    }
  }

  lemma AfterInRest(path: seq<byte>, me: byte, d: byte)
    requires path != [] && path[0] != me
    ensures ListedAfter(path, me, d) <==> ListedAfter(path[1..], me, d)
  {
    var rest := path[1..];
    if ListedAfter(path, me, d) {
      var i, j :| 0 <= i < j < |path| && path[i] == me && path[j] == d;
      assert rest[i - 1] == me && rest[j - 1] == d;
    }
    if ListedAfter(rest, me, d) {
      var i, j :| 0 <= i < j < |rest| && rest[i] == me && rest[j] == d;
      assert path[i + 1] == me && path[j + 1] == d;
    }
  }

  /** The table has room for all that message m tells node me of. */
  ghost predicate RoomFor(t: Slots, me: byte, m: Routed, from: byte)
  {
    match m.body
    case Response(target, path) => Pushes(t, [target] + Beyond(path, me), from) == 0
    case Request(_, path) => Pushes(t, [m.source] + path, from) == 0
    case _ => true
  }

  lemma FirstThenRest(t: Slots, d: byte, ds: seq<byte>, n: byte)
    ensures Learn(t, [d] + ds, n) == Learn(AddRoute(t, d, n), ds, n)
  {
    assert ([d] + ds)[1..] == ds;
  }

  /** A response leaves routes, through the node it came from, to its target and to those listed after this node. */
  lemma ScrapesResponse(s: NodeState, m: Routed, from: byte, d: byte)
    requires RT.StaleBehind(s.table) && m.body.Response? && RoomFor(s.table, s.me, m, from)
    ensures NextHop(Peek(s, m, from).table, d) ==
            if d == m.body.target || ListedAfter(m.body.path, s.me, d) then Some(from) else NextHop(s.table, d)
    ensures RT.StaleBehind(Peek(s, m, from).table)
  {
    hide ListedAfter, Beyond;
    var ds := Beyond(m.body.path, s.me);
    FirstThenRest(s.table, m.body.target, ds, from);
    LearnsAll(s.table, [m.body.target] + ds, from, d);
    BeyondIsAfter(m.body.path, s.me, d);
    assert d in [m.body.target] + ds <==> d == m.body.target || d in ds;
  }

  /** A failure notice takes away the route to the lost node, and no other. */
  lemma HeedsFailure(s: NodeState, m: Routed, from: byte, d: byte)
    requires RT.StaleBehind(s.table) && m.body.Failure?
    ensures NextHop(Peek(s, m, from).table, d) == if d == m.body.lost then None else NextHop(s.table, d)
    ensures RT.StaleBehind(Peek(s, m, from).table)
  {
    Laws.FindAfterDelete(s.table, m.body.lost, d);
    DeleteWithin(s.table, s.table, {}, from, m.body.lost);
  }

  /** Adding a route that is there already changes none. */
  lemma AddsNothing(t: Slots, x: byte, n: byte, d: byte)
    requires RT.StaleBehind(t) && NextHop(t, x) == Some(n)
    ensures NextHop(AddRoute(t, x, n), d) == NextHop(t, d)
  {
    Laws.FindAfterAdd(t, x, n, RT.Valid, d);
  }

  /** A request leaves routes back, through the node it came from: to its source, and at routers to all listed nodes. */
  lemma ScrapesRequest(s: NodeState, m: Routed, from: byte, num: nat, d: byte)
    requires RT.StaleBehind(s.table) && m.body.Request? && RoomFor(s.table, s.me, m, from)
    requires m.source != s.me && s.me !in m.body.path
    ensures NextHop(OnRequest(s, m, from, num).table, d) ==
            if d == m.source || (s.router && d in m.body.path) then Some(from) else NextHop(s.table, d)
  {
    var path := m.body.path;
    var ds := if s.router then path else [];
    var t := Learn(s.table, [m.source] + ds, from);
    FirstThenRest(s.table, m.source, ds, from);
    RoomForFirst(s.table, m.source, path, from);
    LearnsAll(s.table, [m.source] + ds, from, d);
    LearnsAll(s.table, [m.source] + ds, from, m.source);
    assert d in [m.source] + ds <==> d == m.source || d in ds;
    assert [m.source] + [] == [m.source];
    hide NextHop, AddRoute, Learn, Pushes;
    TableOnRequest(s, m, from, num, t);
  }

  lemma RoomForFirst(t: Slots, d: byte, ds: seq<byte>, n: byte)
    requires Pushes(t, [d] + ds, n) == 0
    ensures Pushes(t, [d] + [], n) == 0
  {
    assert ([d] + [])[1..] == [];
  }

  lemma TableOnRequest(s: NodeState, m: Routed, from: byte, num: nat, t: Slots)
    requires m.body.Request? && m.source != s.me && s.me !in m.body.path
    requires t == Learn(AddRoute(s.table, m.source, from), if s.router then m.body.path else [], from)
    requires NextHop(t, m.source).Some?
    ensures OnRequest(s, m, from, num).table == t
  {
    hide NextHop, AddRoute;
  }

  /** The reply to a discovery also leaves a route to the node sought, and that is the one used. */
  lemma AfterReply(s: NodeState, m: Routed, from: byte)
    requires s.arp.Some? && AppOk(s) && RT.StaleBehind(s.table) && m.body.Response?
    ensures DeliverInArp(s, m, from).table == AddRoute(s.table, s.arp.value, from)
    ensures NextHop(AddRoute(s.table, s.arp.value, from), s.arp.value) == Some(from)
  {
    Laws.FindAfterAdd(s.table, s.arp.value, from, RT.Valid, s.arp.value);
    hide RT.Add, RT.Find;
    assert Pending(s.(table := AddRoute(s.table, s.arp.value, from), arp := None)) == Pending(s);
  }

  /** What a step makes of the table after peeking, unless a message for another node has no route. */
  lemma AfterPeek(s: NodeState, e: Event, s': NodeState)
    requires Step(s, e, s') && e.Take? && Accepts(s, e.p) && AppOk(s) && RT.StaleBehind(Peek(s, e.p.f.m, e.p.f.from).table)
    requires var m := e.p.f.m; m.body.Response? || m.body.Failure?
    ensures var m, t := e.p.f.m, Peek(s, e.p.f.m, e.p.f.from).table;
            && (m.dest in {s.me, BROADCAST} ==>
                  s'.table == if s.arp.Some? && m.body.Response? then AddRoute(t, s.arp.value, e.p.f.from) else t)
            && (m.dest !in {s.me, BROADCAST} && (m.hops >= MAX_HOPS || !s.router || NextHop(t, m.dest).Some?) ==> s'.table == t)
            && (m.dest !in {s.me, BROADCAST} && m.hops < MAX_HOPS && s.router && NextHop(t, m.dest).None? ==>
                  s'.table == Undeliverable(Noted(s, e.p).(table := t), m.(hops := m.hops + 1), Relay(e.p.f.from, e.p.num)).table)
  {
    hide Learn, Beyond, NextHop, RT.Add, RT.DeleteTo, RT.StaleBehind, DeliverInArp, Undeliverable, Peek, AppOk;
    var m, from := e.p.f.m, e.p.f.from;
    PeekedAlike(s, e.p);
    var s1 := Peek(Noted(s, e.p), m, from);
    if m.dest in {s.me, BROADCAST} && s.arp.Some? {
      if m.body.Response? {
        SameApp(s, s1);
        AfterReply(s1, m, from);
      } else {
        NoReplyForArp(s1, m, from);
      }
    }
  }

  lemma NoReplyForArp(s: NodeState, m: Routed, from: byte)
    requires s.arp.Some? && !m.body.Response?
    ensures DeliverInArp(s, m, from) == s
  {
  }

  lemma PeekedAlike(s: NodeState, p: Packet)
    requires Accepts(s, p)
    ensures var t := Peek(s, p.f.m, p.f.from).table;
            Peek(Noted(s, p), p.f.m, p.f.from) == Noted(s, p).(table := t)
  {
  }

  lemma SameApp(s: NodeState, s1: NodeState)
    requires AppOk(s) && s.taken <= s1.taken && s1 == s.(seen := s1.seen, lastNum := s1.lastNum, taken := s1.taken, table := s1.table)
    ensures AppOk(s1)
  {
  }

  /** Repairing does not bring back the route a notice has taken away. */
  lemma StaysLost(s: NodeState, m: Routed, why: Cause, lost: byte)
    requires RT.StaleBehind(s.table) && NextHop(s.table, lost).None? && m.source != lost && why.Relay?
    ensures NextHop(Undeliverable(s, m, why).table, lost).None?
  {
    hide NextHop;
    DeleteWithin(s.table, s.table, {}, 0, m.dest);
    var t1 := RT.DeleteTo(s.table, m.dest);
    AddWithin(t1, t1, {}, why.from, m.source);
  }

  // ---- In runs -------------------------------------------------------------------------------------

  /** What the steps below rest on. */
  lemma TakenFacts(links: Links, n: Net, a: byte, e: Event, n': Net)
    requires CustodyInv(links, n) && Next(links, n, Act(a, e), n') && e.Take? && Accepts(n.nodes[a], e.p)
    ensures n.nodes[a].me == a && RT.StaleBehind(n.nodes[a].table) && AppOk(n.nodes[a]) && a in n'.nodes
    ensures Step(n.nodes[a], e, n'.nodes[a])
    ensures IsSend(n.nodes, e.p.f.from, e.p.num) && TheSend(n.nodes, e.p.f.from, e.p.num).m == e.p.f.m && Sound(links, n.nodes)
  {
    NextAdvances(links, n, a, e, n');
    CustodyIsSound(links, n);
    hide Sound, Step, Moves;
  }

  lemma FailureFrom(links: Links, ns: Nodes, a: byte, k: nat)
    requires Sound(links, ns) && IsSend(ns, a, k) && !TheSend(ns, a, k).why.Relay? && TheSend(ns, a, k).m.body.Failure?
    ensures TheSend(ns, a, k).m.body.lost != a
  {
    assert Founded(ns, a, k);
    assert TheSend(ns, a, k) == ns[a].ledger[k - 1];
    assert OwnOk(ns[a]);
  }

  /** A notice never speaks of its own sender. */
  lemma LostIsAnother(links: Links, ns: Nodes, f: byte, j: nat)
    requires Sound(links, ns) && IsSend(ns, f, j)
    requires TheSend(ns, f, j).m.body.Failure? && TheSend(ns, f, j).m.dest != BROADCAST
    ensures TheSend(ns, f, j).m.body.lost != TheSend(ns, f, j).m.source
  {
    hide Sound;
    RootIs(links, ns, f, j);
    var r := Root(links, ns, f, j);
    FailureFrom(links, ns, r.0, r.1);
  }

  /**
    A failure notice is heeded: in every run, whoever takes one has no route to the lost node afterwards, and
    the node it is for keeps all its other routes.
  */
  lemma FailureIsHeeded(links: Links, trace: seq<Net>, acts: seq<Action>, t: nat, a: byte, e: Event, d: byte)
    requires Run(links, trace, acts) && t < |acts| && acts[t] == Act(a, e) && a in trace[t].nodes
    requires e.Take? && Accepts(trace[t].nodes[a], e.p) && e.p.f.m.body.Failure?
    ensures a in trace[t + 1].nodes
    ensures var s, s', m := trace[t].nodes[a], trace[t + 1].nodes[a], e.p.f.m;
            && NextHop(s'.table, m.body.lost).None?
            && (m.dest == a && d != m.body.lost ==> NextHop(s'.table, d) == NextHop(s.table, d))
  {
    CustodyAlways(links, trace, acts, t);
    hide CustodyInv, Init, NextHop, Sound, Step, RT.StaleBehind, AppOk;
    assert Next(links, trace[t], acts[t], trace[t + 1]);
    TakenFacts(links, trace[t], a, e, trace[t + 1]);
    if e.p.f.m.dest !in {a, BROADCAST} {
      LostIsAnother(links, trace[t].nodes, e.p.f.from, e.p.num);
    }
    FailureStep(trace[t].nodes[a], e, trace[t + 1].nodes[a], d);
  }

  lemma FailureStep(s: NodeState, e: Event, s': NodeState, d: byte)
    requires Step(s, e, s') && e.Take? && Accepts(s, e.p) && AppOk(s) && RT.StaleBehind(s.table) && e.p.f.m.body.Failure?
    requires e.p.f.m.dest !in {s.me, BROADCAST} ==> e.p.f.m.body.lost != e.p.f.m.source
    ensures NextHop(s'.table, e.p.f.m.body.lost).None?
    ensures e.p.f.m.dest == s.me && d != e.p.f.m.body.lost ==> NextHop(s'.table, d) == NextHop(s.table, d)
  {
    hide NextHop, Undeliverable, Step, Peek, RT.StaleBehind, AppOk;
    var m := e.p.f.m;
    HeedsFailure(s, m, e.p.f.from, d);
    HeedsFailure(s, m, e.p.f.from, m.body.lost);
    AfterPeek(s, e, s');
    if m.dest !in {s.me, BROADCAST} && m.hops < MAX_HOPS {
      var u := Noted(s, e.p).(table := Peek(s, m, e.p.f.from).table);
      StaysLost(u, m.(hops := m.hops + 1), Relay(e.p.f.from, e.p.num), m.body.lost);
    }
  }

  /**
    A response is scraped: in every run, whoever takes one and has room for what it tells, be it on the way and
    able to pass it on, or the node it is for, reaches the target and all nodes listed after itself through the
    node it came from, and has all its other routes as before. A discovery under way adds the node it seeks.
  */
  lemma ResponseIsScraped(links: Links, trace: seq<Net>, acts: seq<Action>, t: nat, a: byte, e: Event, d: byte)
    requires Run(links, trace, acts) && t < |acts| && acts[t] == Act(a, e) && a in trace[t].nodes
    requires e.Take? && Accepts(trace[t].nodes[a], e.p) && e.p.f.m.body.Response?
    requires RoomFor(trace[t].nodes[a].table, a, e.p.f.m, e.p.f.from)
    requires var s, m := trace[t].nodes[a], e.p.f.m;
      if m.dest == a then s.arp in {None, Some(m.body.target)}
      else m.hops >= MAX_HOPS || !s.router || NextHop(s.table, m.dest).Some?
    ensures a in trace[t + 1].nodes
    ensures var s, s', m := trace[t].nodes[a], trace[t + 1].nodes[a], e.p.f.m;
            NextHop(s'.table, d) ==
            if d == m.body.target || ListedAfter(m.body.path, a, d) then Some(e.p.f.from) else NextHop(s.table, d)
  {
    CustodyAlways(links, trace, acts, t);
    hide CustodyInv, Init, NextHop, Sound, Step, RoomFor, ListedAfter, RT.StaleBehind, AppOk;
    assert Next(links, trace[t], acts[t], trace[t + 1]);
    TakenFacts(links, trace[t], a, e, trace[t + 1]);
    ResponseIsUnicast(links, trace[t].nodes, e.p.f.from, e.p.num);
    ResponseStep(trace[t].nodes[a], e, trace[t + 1].nodes[a], d);
  }

  lemma ResponseStep(s: NodeState, e: Event, s': NodeState, d: byte)
    requires Step(s, e, s') && e.Take? && Accepts(s, e.p) && AppOk(s) && RT.StaleBehind(s.table)
    requires e.p.f.m.body.Response? && RoomFor(s.table, s.me, e.p.f.m, e.p.f.from) && e.p.f.m.dest != BROADCAST
    requires if e.p.f.m.dest == s.me then s.arp in {None, Some(e.p.f.m.body.target)}
             else e.p.f.m.hops >= MAX_HOPS || !s.router || NextHop(s.table, e.p.f.m.dest).Some?
    ensures NextHop(s'.table, d) ==
            if d == e.p.f.m.body.target || ListedAfter(e.p.f.m.body.path, s.me, d) then Some(e.p.f.from) else NextHop(s.table, d)
  {
    hide NextHop, Step, RoomFor, ListedAfter, RT.StaleBehind, AppOk, Peek;
    var m, from := e.p.f.m, e.p.f.from;
    ScrapesResponse(s, m, from, d);
    ScrapesResponse(s, m, from, m.dest);
    ScrapesResponse(s, m, from, m.body.target);
    AfterPeek(s, e, s');
    if m.dest == s.me && s.arp.Some? {
      AddsNothing(Peek(s, m, from).table, m.body.target, from, d);
    }
  }

  /** Whatever a reply is about, the discovery it ends has a route through the node it came from. */
  lemma ReplyIsUsed(links: Links, trace: seq<Net>, acts: seq<Action>, t: nat, a: byte, e: Event)
    requires Run(links, trace, acts) && t < |acts| && acts[t] == Act(a, e) && a in trace[t].nodes
    requires e.Take? && Accepts(trace[t].nodes[a], e.p) && e.p.f.m.body.Response? && e.p.f.m.dest in {a, BROADCAST}
    requires trace[t].nodes[a].arp.Some?
    ensures a in trace[t + 1].nodes
    ensures var s, s' := trace[t].nodes[a], trace[t + 1].nodes[a];
            && HasPending(s) && NextHop(s'.table, s.arp.value) == Some(e.p.f.from) && s'.arp.None?
            && s'.hop == Sending(Sent(Pending(s).m, e.p.f.from, Pending(s).why), 0)
  {
    CustodyAlways(links, trace, acts, t);
    hide CustodyInv, Init, NextHop, Sound, Step, Peek;
    assert Next(links, trace[t], acts[t], trace[t + 1]);
    TakenFacts(links, trace[t], a, e, trace[t + 1]);
    PeekWithin(trace[t].nodes[a], e.p.f.m, e.p.f.from);
    ReplyStep(trace[t].nodes[a], e, trace[t + 1].nodes[a]);
  }

  lemma ReplyStep(s: NodeState, e: Event, s': NodeState)
    requires Step(s, e, s') && e.Take? && Accepts(s, e.p) && AppOk(s) && s.arp.Some?
    requires e.p.f.m.body.Response? && e.p.f.m.dest in {s.me, BROADCAST} && RT.StaleBehind(Peek(s, e.p.f.m, e.p.f.from).table)
    ensures HasPending(s) && NextHop(s'.table, s.arp.value) == Some(e.p.f.from) && s'.arp.None?
    ensures s'.hop == Sending(Sent(Pending(s).m, e.p.f.from, Pending(s).why), 0)
  {
    hide Peek, RT.Add, RT.Find, RT.StaleBehind;
    var m, from := e.p.f.m, e.p.f.from;
    PeekedAlike(s, e.p);
    var s1 := Peek(Noted(s, e.p), m, from);
    SameApp(s, s1);
    AfterReply(s1, m, from);
    assert Pending(s1.(table := AddRoute(s1.table, s.arp.value, from), arp := None)) == Pending(s);
  }

  /** A request is scraped in the same way, by a node that is not looking for a route itself. */
  lemma RequestIsScraped(links: Links, trace: seq<Net>, acts: seq<Action>, t: nat, a: byte, e: Event, d: byte)
    requires Run(links, trace, acts) && t < |acts| && acts[t] == Act(a, e) && a in trace[t].nodes
    requires e.Take? && Accepts(trace[t].nodes[a], e.p) && e.p.f.m.body.Request? && e.p.f.m.dest == BROADCAST
    requires trace[t].nodes[a].arp.None? && e.p.f.m.source != a && a !in e.p.f.m.body.path
    requires RoomFor(trace[t].nodes[a].table, a, e.p.f.m, e.p.f.from)
    ensures a in trace[t + 1].nodes
    ensures var s, s', m := trace[t].nodes[a], trace[t + 1].nodes[a], e.p.f.m;
            NextHop(s'.table, d) ==
            if d == m.source || (s.router && d in m.body.path) then Some(e.p.f.from) else NextHop(s.table, d)
  {
    CustodyAlways(links, trace, acts, t);
    hide CustodyInv, Init, NextHop, Sound, Step, RoomFor;
    assert Next(links, trace[t], acts[t], trace[t + 1]);
    TakenFacts(links, trace[t], a, e, trace[t + 1]);
    ScrapesRequest(Noted(trace[t].nodes[a], e.p), e.p.f.m, e.p.f.from, e.p.num, d);
    RequestStep(trace[t].nodes[a], e, trace[t + 1].nodes[a]);
  }

  lemma RequestStep(s: NodeState, e: Event, s': NodeState)
    requires Step(s, e, s') && e.Take? && Accepts(s, e.p) && s.arp.None?
    requires e.p.f.m.body.Request? && e.p.f.m.dest == BROADCAST
    ensures s' == OnRequest(Noted(s, e.p), e.p.f.m, e.p.f.from, e.p.num)
  {
    hide OnRequest;
  }

  /** While at most ten addresses are in use there is always room. */
  lemma AlwaysRoom(links: Links, trace: seq<Net>, acts: seq<Action>, t: nat, world: set<byte>, a: byte, e: Event)
    requires Run(links, trace, acts) && t < |acts| && acts[t] == Act(a, e) && a in trace[t].nodes
    requires forall i :: 0 <= i <= t ==> World(trace[i].nodes, world)
    requires e.Take? && Accepts(trace[t].nodes[a], e.p) && (e.p.f.m.body.Request? ==> e.p.f.m.dest == BROADCAST)
    ensures RoomFor(trace[t].nodes[a].table, a, e.p.f.m, e.p.f.from)
  {
    SmallWorldAlways(links, trace, acts, t, world);
    hide CustodyInv, Init, Sound, Step, Within10, RT.StaleBehind, AppOk, RoomFor, World;
    assert Next(links, trace[t], acts[t], trace[t + 1]);
    TakenFacts(links, trace[t], a, e, trace[t + 1]);
    RoomForSend(links, trace[t].nodes, e.p.f.from, e.p.num, trace[t].nodes[a].table, world, a);
  }

  lemma RoomForSend(links: Links, ns: Nodes, f: byte, j: nat, t: Slots, world: set<byte>, a: byte)
    requires Sound(links, ns) && IsSend(ns, f, j) && World(ns, world) && RT.StaleBehind(t) && Within10(t, world)
    requires TheSend(ns, f, j).m.body.Request? ==> TheSend(ns, f, j).m.dest == BROADCAST
    ensures RoomFor(t, a, TheSend(ns, f, j).m, f)
  {
    hide Sound, Within10, Pushes, Beyond, RT.StaleBehind, Root;
    var m := TheSend(ns, f, j).m;
    match m.body
    case Response(target, path) =>
      ResponseNodes(links, ns, f, j);
      var rest := Beyond(path, a);
      forall i | 0 <= i < |[target] + rest|
        ensures ([target] + rest)[i] in world
      {
        if i > 0 { assert rest[i - 1] == path[|path| - |rest| + i - 1]; }
      }
      RoomForWorld(t, world, [target] + rest, f);
    case Request(_, path) =>
      RootIs(links, ns, f, j);
      RequestNodes(links, ns, f, j);
      RoomForWorld(t, world, [m.source] + path, f);
    case _ =>
  }

  lemma RequestNodes(links: Links, ns: Nodes, f: byte, j: nat)
    requires Sound(links, ns) && IsRequest(ns, f, j)
    ensures forall i :: 0 <= i < |TheSend(ns, f, j).m.body.path| ==> TheSend(ns, f, j).m.body.path[i] in ns
  {
    RequestCarriesItsPath(links, ns, f, j);
  }
}
