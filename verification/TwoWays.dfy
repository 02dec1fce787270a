/**
  When a node forwards a route request more than once: exactly when two different simple paths lead to it from
  the source, short enough for the visited list and clear of the node sought.
*/
module TwoWays {
  import opened Types
  import opened Protocol
  import opened Network
  import opened Learning
  import opened HopSafety
  import opened Descent
  import opened Paths
  import opened Flood
  import opened Reach
  import EndToEnd
  import RT = RoutingTable

  /** A way for a request of s for d to come to a. */
  ghost predicate Way(links: Links, p: seq<byte>, s: byte, a: byte, d: byte)
  {
    Leads(links, p, s, a) && |p| <= MAX_HOPS + 1 && d !in p && BROADCAST !in p
  }

  ghost predicate HasTwoWays(links: Links, s: byte, a: byte, d: byte)
  {
    exists p, q :: p != q && Way(links, p, s, a, d) && Way(links, q, s, a, d)
  }

  /** Sends k and l of a are requests of one flood, of s for d. */
  ghost predicate Twice(links: Links, ns: Nodes, s: byte, a: byte, d: byte, k: nat, l: nat)
  {
    && k != l && IsRequest(ns, a, k) && IsRequest(ns, a, l) && Sound(links, ns)
    && TheSend(ns, a, k).m.source == s && TheSend(ns, a, k).m.body.sought == d
    && Root(links, ns, a, k) == Root(links, ns, a, l)
  }

  /** In some run a sends two requests of one flood. */
  ghost predicate MayForwardTwice(links: Links, s: byte, a: byte, d: byte)
  {
    exists n0: Net, n: Net, k, l :: Init(n0) && Follows(links, n0, n) && Twice(links, n.nodes, s, a, d, k, l)
  }

  // ---- Two requests have come two ways -------------------------------------------------------------

  lemma CameItsWay(links: Links, ns: Nodes, a: byte, k: nat)
    requires Sound(links, ns) && IsRequest(ns, a, k)
    ensures var m := TheSend(ns, a, k).m; m.body.sought != m.source ==> Way(links, Route(m), m.source, a, m.body.sought)
  {
    RootIs(links, ns, a, k);
    RequestCarriesItsPath(links, ns, a, k);
    var m := TheSend(ns, a, k).m;
    NodesAreNotBroadcast(links, ns);
    hide Sound, Root;
    forall i | 0 <= i < |Route(m)|
      ensures Route(m)[i] in ns
    {
      if i > 0 { assert Route(m)[i] == m.body.path[i - 1]; }
    }
  }

  lemma NodesAreNotBroadcast(links: Links, ns: Nodes)
    requires Sound(links, ns)
    ensures BROADCAST !in ns
  {
  }

  lemma SoughtIsKept(links: Links, ns: Nodes, a: byte, k: nat)
    requires Sound(links, ns) && IsRequest(ns, a, k)
    ensures var r, m := Root(links, ns, a, k), TheSend(ns, a, k).m;
            IsSend(ns, r.0, r.1) && TheSend(ns, r.0, r.1).m == Routed(BROADCAST, m.source, 0, Request(m.body.sought, []))
  {
    RootIs(links, ns, a, k);
  }

  lemma TwiceNeedsTwoWays(links: Links, ns: Nodes, s: byte, a: byte, d: byte, k: nat, l: nat)
    requires Twice(links, ns, s, a, d, k, l) && d != s
    ensures HasTwoWays(links, s, a, d)
  {
    hide Sound, Root, Way;
    var x, y := TheSend(ns, a, k).m, TheSend(ns, a, l).m;
    SoughtIsKept(links, ns, a, k);
    SoughtIsKept(links, ns, a, l);
    CameItsWay(links, ns, a, k);
    CameItsWay(links, ns, a, l);
    if x.body.path == y.body.path {
      OncePerPath(links, ns, a, k, a, l);
      assert false;
    }
    assert Route(x)[1..] == x.body.path && Route(y)[1..] == y.body.path;
  }

  // ---- Two ways bring two requests -----------------------------------------------------------------

  /** The request as p[i] sends it on. */
  ghost function Carried(p: seq<byte>, i: nat, d: byte): Routed
    requires i < |p|
  {
    Routed(BROADCAST, p[0], 0, Request(d, p[1..i + 1]))
  }

  ghost predicate IsFrame(f: Packet, p: seq<byte>, i: nat, d: byte)
  {
    i < |p| && 1 <= f.num <= 200 && f.f == Message(BROADCAST, p[i], Low8(f.num), false, Carried(p, i, d))
  }

  /** A router that can take a request, having sent `most` frames at most. */
  ghost predicate Fit(s: NodeState, x: byte, source: byte, most: nat)
  {
    && s.me == x && s.router && s.hop.NoHop? && s.job.None? && (x != source ==> s.arp.None?)
    && |s.ledger| <= most && s.lastSeq == Low8(|s.ledger|) && (forall u: byte :: s.seen[u] == Low8(s.lastNum[u]))
  }

  /** All nodes are fit, and none has accepted what has not been sent. */
  ghost predicate AllFit(n: Net, source: byte, most: nat)
  {
    && n.nodes.Keys == n.rx.Keys && source in n.nodes && |n.nodes[source].ledger| == 1 && BROADCAST !in n.nodes
    && (forall x :: x in n.nodes ==> Fit(n.nodes[x], x, source, most))
    && NothingEarly(n)
  }

  ghost predicate NothingEarly(n: Net)
  {
    forall x, y :: x in n.nodes && y in n.nodes ==> n.nodes[x].lastNum[y] <= |n.nodes[y].ledger|
  }

  /** The request is on its way along p, from p[i] to the next node, as frame f; or it has arrived. */
  ghost predicate OnItsWay(n: Net, p: seq<byte>, i: nat, d: byte, f: Packet)
  {
    i + 1 < |p| ==>
      && p[i] in n.nodes && p[i + 1] in n.nodes && IsFrame(f, p, i, d)
      && n.nodes[p[i + 1]].lastNum[p[i]] < f.num <= |n.nodes[p[i]].ledger|
  }

  ghost function Queued(p: seq<byte>, i: nat, f: Packet, x: byte): seq<Packet> {
    if i + 1 < |p| && x == p[i + 1] then [f] else []
  }

  /** Both requests on their way, and nothing else on the air; where both wait at one node, the one on p is first. */
  ghost predicate Stage(n: Net, p: seq<byte>, q: seq<byte>, i: nat, j: nat, d: byte, f: Packet, g: Packet, most: nat)
  {
    && p != [] && AllFit(n, p[0], most)
    && OnItsWay(n, p, i, d, f) && OnItsWay(n, q, j, d, g)
    && (forall x :: x in n.rx ==> n.rx[x] == Queued(p, i, f, x) + Queued(q, j, g, x))
    && (i + 1 < |p| && j + 1 < |q| && p[i] == q[j] && p[i + 1] == q[j + 1] ==> f.num < g.num)
  }

  ghost predicate Did(n: Net, p: seq<byte>, d: byte)
  {
    && p != [] && p[|p| - 1] in n.nodes
    && var sends := n.nodes[p[|p| - 1]].ledger;
       exists k :: 0 <= k < |sends| && sends[k].m == Carried(p, |p| - 1, d)
  }

  /** A path is good for a flood in this net. */
  ghost predicate Good(links: Links, n: Net, p: seq<byte>, d: byte)
  {
    SimplePath(links, p) && |p| <= MAX_HOPS + 1 && d !in p && BROADCAST !in p && forall i :: 0 <= i < |p| ==> p[i] in n.nodes
  }

  lemma LastMayPass(links: Links, n: Net, p: seq<byte>, i: nat, d: byte, f: Packet, most: nat)
    requires Good(links, n, p, d) && i + 1 < |p| && OnItsWay(n, p, i, d, f) && AllFit(n, p[0], most) && most <= 199
    ensures PassesOn(n.nodes[p[i + 1]], f)
  {
    var v, s := p[i + 1], n.nodes[p[i + 1]];
    assert Fit(s, v, p[0], most);
    NotListed(p, i, d);
    IdsDiffer(s.lastNum[p[i]], f.num);
  }

  lemma IdsDiffer(x: nat, y: nat)
    requires x < y <= 200
    ensures Low8(x) != Low8(y)
  {
  }

  lemma NotListed(p: seq<byte>, i: nat, d: byte)
    requires Simple(p) && d !in p && i + 1 < |p|
    ensures p[i + 1] !in [p[0], d] + p[1..i + 1]
  {
    var all := [p[0], d] + p[1..i + 1];
    forall h | 0 <= h < |all|
      ensures all[h] != p[i + 1]
    {
      if h >= 2 { assert all[h] == p[h - 1]; }
    }
  }

  /** What one node does: it takes f, and sends the request on. */
  lemma PassedIs(links: Links, n: Net, p: seq<byte>, i: nat, d: byte, f: Packet, most: nat)
    requires Good(links, n, p, d) && i + 1 < |p| && OnItsWay(n, p, i, d, f) && AllFit(n, p[0], most) && most <= 199
    ensures PassesOn(n.nodes[p[i + 1]], f)
    ensures var s, s', v := n.nodes[p[i + 1]], Passed(n.nodes[p[i + 1]], f), p[i + 1];
            && Fit(s', v, p[0], most + 1) && s'.ledger == s.ledger + [RelayOf(v, f)] && s'.lastNum == s.lastNum[p[i] := f.num]
            && RelayOf(v, f).m == Carried(p, i + 1, d) && IsFrame(FrameOf(v, RelayOf(v, f), |s.ledger| + 1), p, i + 1, d)
  {
    hide PassesOn, Passed, RelayOf, Carried;
    LastMayPass(links, n, p, i, d, f, most);
    var v, s := p[i + 1], n.nodes[p[i + 1]];
    assert Fit(s, v, p[0], most);
    PassedKeeps(s, f);
    RelayGrows(p, i, d, f);
  }

  lemma RelayGrows(p: seq<byte>, i: nat, d: byte, f: Packet)
    requires IsFrame(f, p, i, d) && i + 1 < |p|
    ensures RelayOf(p[i + 1], f) == Sent(Carried(p, i + 1, d), BROADCAST, Relay(p[i], f.num))
  {
    assert p[1..i + 2] == p[1..i + 1] + [p[i + 1]];
  }

  lemma PassedKeeps(s: NodeState, f: Packet)
    requires PassesOn(s, f)
    ensures var s' := Passed(s, f);
            && s'.me == s.me && s'.router == s.router && s'.hop == s.hop && s'.job == s.job && s'.arp == s.arp
            && s'.ledger == s.ledger + [RelayOf(s.me, f)] && s'.lastSeq == Low8(|s'.ledger|)
            && s'.seen == s.seen[f.f.from := f.f.id] && s'.lastNum == s.lastNum[f.f.from := f.num]
  {
    hide Learn, AddRoute;
  }

  /** Node p[i + 1] has taken f and sent f' on; n' is the net afterwards. */
  ghost predicate Moved(n: Net, n': Net, p: seq<byte>, i: nat, d: byte, f: Packet, f': Packet, heard: set<byte>)
  {
    && IsFrame(f, p, i, d) && i + 1 < |p| && p[i] in n.nodes && p[i + 1] in n.nodes && OnlyMoved(n, n', {p[i + 1]})
    && Queues(n, n', p[i + 1], true, heard, f')
    && var s, s' := n.nodes[p[i + 1]], n'.nodes[p[i + 1]];
       && s'.ledger == s.ledger + [RelayOf(p[i + 1], f)] && s'.lastNum == s.lastNum[p[i] := f.num]
       && RelayOf(p[i + 1], f).m == Carried(p, i + 1, d) && IsFrame(f', p, i + 1, d) && f'.num == |s'.ledger|
  }

  lemma OneRelay(links: Links, n0: Net, n: Net, p: seq<byte>, i: nat, d: byte, f: Packet, most: nat, heard: set<byte>)
    returns (n': Net, f': Packet)
    requires Follows(links, n0, n) && Good(links, n, p, d) && i + 1 < |p| && OnItsWay(n, p, i, d, f) && AllFit(n, p[0], most) && most <= 199
    requires n.rx[p[i + 1]] != [] && n.rx[p[i + 1]][0] == f && InReach(links, n, p[i + 1], heard)
    ensures Follows(links, n0, n') && Moved(n, n', p, i, d, f, f', heard) && Fit(n'.nodes[p[i + 1]], p[i + 1], p[0], most + 1)
  {
    hide Follows, PassesOn, Passed, AllFit, Fit, RelayOf, InReach;
    var v := p[i + 1];
    PassedIs(links, n, p, i, d, f, most);
    IsFit(n, p[0], most, v);
    f' := FrameOf(v, RelayOf(v, f), |n.nodes[v].ledger| + 1);
    n' := Relays(links, n0, n, v, heard);
  }

  lemma IsFit(n: Net, source: byte, most: nat, x: byte)
    requires AllFit(n, source, most) && x in n.nodes
    ensures Fit(n.nodes[x], x, source, most) && n.nodes[x].me == x && n.rx.Keys == n.nodes.Keys
  {
  }

  lemma StillFit(n: Net, n': Net, p: seq<byte>, i: nat, d: byte, f: Packet, f': Packet, most: nat, heard: set<byte>)
    requires i + 1 < |p| && AllFit(n, p[0], most) && OnItsWay(n, p, i, d, f) && Moved(n, n', p, i, d, f, f', heard) && Simple(p)
    requires Fit(n'.nodes[p[i + 1]], p[i + 1], p[0], most + 1)
    ensures AllFit(n', p[0], most + 1)
  {
    hide Carried, RelayOf, IsFrame, Queues, Fit, NothingEarly;
    forall x | x in n'.nodes
      ensures Fit(n'.nodes[x], x, p[0], most + 1)
    {
      FitForMore(n.nodes[x], x, p[0], most);
    }
    NothingUnsent(n, n', p, i, d, f, f', most, heard);
  }

  lemma FitForMore(s: NodeState, x: byte, source: byte, most: nat)
    requires Fit(s, x, source, most)
    ensures Fit(s, x, source, most + 1)
  {
  }

  lemma NotEarly(n: Net, x: byte, y: byte)
    requires NothingEarly(n) && x in n.nodes && y in n.nodes
    ensures n.nodes[x].lastNum[y] <= |n.nodes[y].ledger|
  {
  }

  lemma LedgersGrow(n: Net, n': Net, p: seq<byte>, i: nat, d: byte, f: Packet, f': Packet, y: byte, heard: set<byte>)
    requires Moved(n, n', p, i, d, f, f', heard) && y in n.nodes
    ensures y in n'.nodes && |n.nodes[y].ledger| <= |n'.nodes[y].ledger|
    ensures n'.nodes[y].lastNum == if y == p[i + 1] then n.nodes[y].lastNum[p[i] := f.num] else n.nodes[y].lastNum
  {
    hide Carried, RelayOf, IsFrame, Queues;
  }

  lemma NothingUnsent(n: Net, n': Net, p: seq<byte>, i: nat, d: byte, f: Packet, f': Packet, most: nat, heard: set<byte>)
    requires i + 1 < |p| && AllFit(n, p[0], most) && OnItsWay(n, p, i, d, f) && Moved(n, n', p, i, d, f, f', heard)
    ensures NothingEarly(n')
  {
    hide *;
    SentAlready(n, n', p, i, d, f, f', most, heard);
    forall x, y | x in n'.nodes && y in n'.nodes
      ensures n'.nodes[x].lastNum[y] <= |n'.nodes[y].ledger|
    {
      NotEarly(n, x, y);
      LedgersGrow(n, n', p, i, d, f, f', x, heard);
      LedgersGrow(n, n', p, i, d, f, f', y, heard);
    }
    NothingIsEarly(n');
  }

  lemma SentAlready(n: Net, n': Net, p: seq<byte>, i: nat, d: byte, f: Packet, f': Packet, most: nat, heard: set<byte>)
    requires i + 1 < |p| && AllFit(n, p[0], most) && OnItsWay(n, p, i, d, f) && Moved(n, n', p, i, d, f, f', heard)
    ensures NothingEarly(n) && p[i] in n.nodes && f.num <= |n.nodes[p[i]].ledger| && n'.nodes.Keys == n.nodes.Keys
  {
    hide Carried, RelayOf, IsFrame, Queues, Fit, NothingEarly;
  }

  lemma NothingIsEarly(n: Net)
    requires forall x, y :: x in n.nodes && y in n.nodes ==> n.nodes[x].lastNum[y] <= |n.nodes[y].ledger|
    ensures NothingEarly(n)
  {
  }

  /** The other request is not disturbed. */
  lemma OtherOnItsWay(n: Net, n': Net, p: seq<byte>, q: seq<byte>, i: nat, j: nat, d: byte, f: Packet, f': Packet, g: Packet, heard: set<byte>)
    requires Moved(n, n', p, i, d, f, f', heard) && OnItsWay(n, q, j, d, g)
    requires j + 1 < |q| && p[i] == q[j] && p[i + 1] == q[j + 1] ==> f.num < g.num
    ensures OnItsWay(n', q, j, d, g)
  {
    hide Carried, RelayOf, IsFrame, Queues;
  }

  lemma GoesOnItsWay(links: Links, n: Net, n': Net, p: seq<byte>, i: nat, d: byte, f: Packet, f': Packet, most: nat, heard: set<byte>)
    requires i + 1 < |p| && AllFit(n, p[0], most) && Moved(n, n', p, i, d, f, f', heard) && Good(links, n, p, d)
    ensures OnItsWay(n', p, i + 1, d, f')
  {
    hide Carried, RelayOf, IsFrame, Queues, NothingEarly, Fit;
    if i + 2 < |p| {
      NotEarly(n, p[i + 2], p[i + 1]);
      assert p[i + 2] != p[i + 1];
    }
  }

  lemma QueuesAre(n: Net, n': Net, p: seq<byte>, q: seq<byte>, i: nat, j: nat, d: byte, f: Packet, f': Packet, g: Packet, heard: set<byte>)
    requires Moved(n, n', p, i, d, f, f', heard) && Simple(p) && n.rx.Keys == n.nodes.Keys
    requires heard == Ahead(p, i + 1)
    requires forall x :: x in n.rx ==> n.rx[x] == Queued(p, i, f, x) + Queued(q, j, g, x)
    ensures forall x :: x in n'.rx ==> n'.rx[x] == Queued(q, j, g, x) + Queued(p, i + 1, f', x)
  {
    hide Carried, RelayOf, IsFrame;
    forall x | x in n'.rx
      ensures n'.rx[x] == Queued(q, j, g, x) + Queued(p, i + 1, f', x)
    {
      assert n.rx[x] == Queued(p, i, f, x) + Queued(q, j, g, x);
      if x == p[i + 1] {
        assert ([f] + Queued(q, j, g, x))[1..] == Queued(q, j, g, x);
      } else {
        assert [] + Queued(q, j, g, x) == Queued(q, j, g, x);
      }
    }
  }

  /** The node after p[i]. */
  ghost function Ahead(p: seq<byte>, i: nat): set<byte> {
    if i + 1 < |p| then {p[i + 1]} else {}
  }

  lemma AheadHears(links: Links, n: Net, p: seq<byte>, i: nat, d: byte)
    requires Good(links, n, p, d) && i < |p| && n.rx.Keys == n.nodes.Keys
    ensures InReach(links, n, p[i], Ahead(p, i))
  {
    if i + 1 < |p| { assert p[i] != p[i + 1]; }
  }

  /** The request on p comes one node further; then it is the other one's turn. */
  lemma Advance(links: Links, n0: Net, n: Net, p: seq<byte>, q: seq<byte>, i: nat, j: nat, d: byte, f: Packet, g: Packet, most: nat)
    returns (n': Net, f': Packet)
    requires Follows(links, n0, n) && Stage(n, p, q, i, j, d, f, g, most) && Good(links, n, p, d) && i + 1 < |p| && most <= 199
    requires q != [] && q[0] == p[0]
    ensures Follows(links, n0, n') && Moved(n, n', p, i, d, f, f', Ahead(p, i + 1))
    ensures Stage(n', q, p, j, i + 1, d, g, f', most + 1)
  {
    hide Follows, OnItsWay, Moved, AllFit, Queued, Fit;
    HeadIs(n, p, q, i, j, d, f, g, most);
    var heard := Ahead(p, i + 1);
    AheadHears(links, n, p, i + 1, d);
    n', f' := OneRelay(links, n0, n, p, i, d, f, most, heard);
    StillFit(n, n', p, i, d, f, f', most, heard);
    OtherOnItsWay(n, n', p, q, i, j, d, f, f', g, heard);
    GoesOnItsWay(links, n, n', p, i, d, f, f', most, heard);
    QueuesAre(n, n', p, q, i, j, d, f, f', g, heard);
    NumbersGrow(n, n', p, q, i, j, d, f, f', g, heard);
  }

  lemma HeadIs(n: Net, p: seq<byte>, q: seq<byte>, i: nat, j: nat, d: byte, f: Packet, g: Packet, most: nat)
    requires Stage(n, p, q, i, j, d, f, g, most) && i + 1 < |p|
    ensures p[i + 1] in n.rx && n.rx[p[i + 1]] != [] && n.rx[p[i + 1]][0] == f && n.rx.Keys == n.nodes.Keys
  {
  }

  lemma NumbersGrow(n: Net, n': Net, p: seq<byte>, q: seq<byte>, i: nat, j: nat, d: byte, f: Packet, f': Packet, g: Packet, heard: set<byte>)
    requires Moved(n, n', p, i, d, f, f', heard) && OnItsWay(n, q, j, d, g)
    ensures j + 1 < |q| && q[j] == p[i + 1] ==> g.num < f'.num
  {
    hide Carried, RelayOf, IsFrame, Queues;
  }

  // ---- The whole run -------------------------------------------------------------------------------

  lemma StillDid(n: Net, n': Net, p: seq<byte>, i: nat, d: byte, f: Packet, f': Packet, heard: set<byte>, q: seq<byte>)
    requires Moved(n, n', p, i, d, f, f', heard) && Did(n, q, d)
    ensures Did(n', q, d)
  {
    hide RelayOf, IsFrame, Queues, Carried;
    var a := q[|q| - 1];
    var sends := n.nodes[a].ledger;
    var k :| 0 <= k < |sends| && sends[k].m == Carried(q, |q| - 1, d);
    assert n'.nodes[a].ledger[k] == sends[k];
  }

  lemma NowDid(n: Net, n': Net, p: seq<byte>, i: nat, d: byte, f: Packet, f': Packet, heard: set<byte>)
    requires Moved(n, n', p, i, d, f, f', heard) && i + 2 == |p|
    ensures Did(n', p, d)
  {
    hide RelayOf, IsFrame, Queues, Carried;
    var sends := n'.nodes[p[i + 1]].ledger;
    assert sends[|sends| - 1].m == Carried(p, i + 1, d);
  }

  lemma StillGood(links: Links, n: Net, n': Net, p: seq<byte>, d: byte)
    requires Good(links, n, p, d) && n'.nodes.Keys == n.nodes.Keys
    ensures Good(links, n', p, d)
  {
  }

  /** Both requests come to the end of their ways, in turns. */
  lemma {:induction false} BothArrive(links: Links, n0: Net, n: Net, p: seq<byte>, q: seq<byte>, i: nat, j: nat, d: byte,
                                      f: Packet, g: Packet, most: nat) returns (n': Net)
    requires Follows(links, n0, n) && Stage(n, p, q, i, j, d, f, g, most) && Good(links, n, p, d) && Good(links, n, q, d)
    requires q[0] == p[0] && i < |p| && j < |q| && most + (|p| - i) + (|q| - j) <= 199
    requires (i + 1 == |p| ==> Did(n, p, d)) && (j + 1 == |q| ==> Did(n, q, d))
    ensures Follows(links, n0, n') && Did(n', p, d) && Did(n', q, d) && n'.nodes.Keys == n.nodes.Keys
    ensures p[0] in n'.nodes && |n'.nodes[p[0]].ledger| == 1
    decreases (|p| - i) + (|q| - j)
  {
    hide Follows, Did, Good, OnItsWay, Moved, Queued, Fit, NothingEarly;
    if i + 1 < |p| {
      var m, f' := Advance(links, n0, n, p, q, i, j, d, f, g, most);
      AfterAdvance(links, n, m, p, q, i, j, d, f, f', Ahead(p, i + 1));
      n' := BothArrive(links, n0, m, q, p, j, i + 1, d, g, f', most + 1);
    } else if j + 1 < |q| {
      Turns(n, p, q, i, j, d, f, g, most);
      var m, g' := Advance(links, n0, n, q, p, j, i, d, g, f, most);
      AfterAdvance(links, n, m, q, p, j, i, d, g, g', Ahead(q, j + 1));
      n' := BothArrive(links, n0, m, p, q, i, j + 1, d, f, g', most + 1);
    } else {
      n' := n;
    }
  }

  /** What an advance on p means for the ends of both ways. */
  lemma AfterAdvance(links: Links, n: Net, n': Net, p: seq<byte>, q: seq<byte>, i: nat, j: nat, d: byte, f: Packet, f': Packet, heard: set<byte>)
    requires Moved(n, n', p, i, d, f, f', heard) && Good(links, n, p, d) && Good(links, n, q, d) && i + 1 < |p| && j < |q|
    requires j + 1 == |q| ==> Did(n, q, d)
    ensures n'.nodes.Keys == n.nodes.Keys && Good(links, n', p, d) && Good(links, n', q, d)
    ensures (i + 2 == |p| ==> Did(n', p, d)) && (j + 1 == |q| ==> Did(n', q, d))
  {
    assert n'.nodes.Keys == n.nodes.Keys;
    hide Moved, Did, Good;
    StillGood(links, n, n', p, d);
    StillGood(links, n, n', q, d);
    if i + 2 == |p| { NowDid(n, n', p, i, d, f, f', heard); }
    if j + 1 == |q| { StillDid(n, n', p, i, d, f, f', heard, q); }
  }

  /** When the request on p has arrived it is always the other one's turn. */
  lemma Turns(n: Net, p: seq<byte>, q: seq<byte>, i: nat, j: nat, d: byte, f: Packet, g: Packet, most: nat)
    requires Stage(n, p, q, i, j, d, f, g, most) && i + 1 >= |p| && q != [] && q[0] == p[0]
    ensures Stage(n, q, p, j, i, d, g, f, most)
  {
    hide AllFit, OnItsWay;
    forall x | x in n.rx
      ensures n.rx[x] == Queued(q, j, g, x) + Queued(p, i, f, x)
    {
      assert n.rx[x] == Queued(p, i, f, x) + Queued(q, j, g, x);
      assert [] + Queued(q, j, g, x) == Queued(q, j, g, x) == Queued(q, j, g, x) + [];
    }
  }

  /** Where two different ways to the same node part. */
  lemma Part(p: seq<byte>, q: seq<byte>) returns (l: nat)
    requires p != [] && q != [] && p != q && Simple(p) && Simple(q) && p[0] == q[0] && p[|p| - 1] == q[|q| - 1]
    ensures 1 <= l < |p| && l < |q| && p[..l] == q[..l] && p[l] != q[l]
  {
    l := 1;
    while l < |p| && l < |q| && p[l] == q[l]
      invariant 1 <= l <= |p| && l <= |q| && p[..l] == q[..l]
    {
      l := l + 1;
    }
    assert p[l - 1] == p[..l][l - 1] == q[..l][l - 1] == q[l - 1];
    assert p[..|p|] == p && q[..|q|] == q;
  }

  /** As long as the ways are one, a single request travels. */
  lemma {:induction false} Together(links: Links, n0: Net, n: Net, p: seq<byte>, i: nat, l: nat, d: byte, f: Packet, most: nat)
    returns (n': Net, f': Packet)
    requires Follows(links, n0, n) && Good(links, n, p, d) && i <= l < |p| && most + (l - i) <= 199
    requires Stage(n, p, [p[0]], i, 0, d, f, f, most)
    ensures Follows(links, n0, n') && Good(links, n', p, d) && Stage(n', p, [p[0]], l, 0, d, f', f', most + (l - i))
    ensures n'.nodes.Keys == n.nodes.Keys
    decreases l - i
  {
    hide Follows, Good, OnItsWay, Moved, Queued, Fit, NothingEarly;
    if i == l {
      n', f' := n, f;
    } else {
      var m, g := Advance(links, n0, n, p, [p[0]], i, 0, d, f, f, most);
      KeysAre(n, m, p, i, d, f, g, Ahead(p, i + 1));
      StillGood(links, n, m, p, d);
      Alone(m, p, i + 1, d, g, f, most + 1);
      n', f' := Together(links, n0, m, p, i + 1, l, d, g, most + 1);
    }
  }

  lemma KeysAre(n: Net, n': Net, p: seq<byte>, i: nat, d: byte, f: Packet, f': Packet, heard: set<byte>)
    requires Moved(n, n', p, i, d, f, f', heard)
    ensures n'.nodes.Keys == n.nodes.Keys && n'.rx.Keys == n.rx.Keys
  {
  }

  lemma Alone(n: Net, p: seq<byte>, i: nat, d: byte, f: Packet, g: Packet, most: nat)
    requires p != [] && Stage(n, [p[0]], p, 0, i, d, g, f, most)
    ensures Stage(n, p, [p[0]], i, 0, d, f, f, most)
  {
    Turns(n, [p[0]], p, 0, i, d, g, f, most);
    hide AllFit;
  }

  /** Where they part, one transmission starts both. */
  lemma Parts(links: Links, n0: Net, n: Net, p: seq<byte>, q: seq<byte>, l: nat, d: byte, f: Packet, most: nat) returns (n': Net, f': Packet)
    requires Follows(links, n0, n) && Good(links, n, p, d) && Good(links, n, q, d) && 2 <= l < |p| && l < |q| && most <= 199
    requires p[..l] == q[..l] && p[l] != q[l] && Stage(n, p, [p[0]], l - 2, 0, d, f, f, most)
    ensures Follows(links, n0, n') && Stage(n', p, q, l - 1, l - 1, d, f', f', most + 1) && n'.nodes.Keys == n.nodes.Keys
  {
    hide Follows, OnItsWay, Moved, AllFit, Queued, Fit;
    var heard := {p[l], q[l]};
    HeadIs(n, p, [p[0]], l - 2, 0, d, f, f, most);
    assert p[l - 1] == p[..l][l - 1] == q[l - 1] && q[0] == q[..l][0] == p[0];
    assert InReach(links, n, p[l - 1], heard);
    n', f' := OneRelay(links, n0, n, p, l - 2, d, f, most, heard);
    KeysAre(n, n', p, l - 2, d, f, f', heard);
    StillFit(n, n', p, l - 2, d, f, f', most, heard);
    GoesOnItsWay(links, n, n', p, l - 2, d, f, f', most, heard);
    OtherWayToo(links, n, n', p, q, l, d, f, f', most, heard);
    SplitQueues(n, n', p, q, l, d, f, f', heard);
  }

  lemma OtherWayToo(links: Links, n: Net, n': Net, p: seq<byte>, q: seq<byte>, l: nat, d: byte, f: Packet, f': Packet, most: nat, heard: set<byte>)
    requires 2 <= l < |p| && l < |q| && p[..l] == q[..l] && AllFit(n, p[0], most) && Moved(n, n', p, l - 2, d, f, f', heard)
    requires Good(links, n, q, d)
    ensures OnItsWay(n', q, l - 1, d, f')
  {
    hide Carried, RelayOf, Queues, NothingEarly, Fit, IsFrame;
    assert q[l - 1] == q[..l][l - 1] == p[l - 1];
    SameFrame(p, q, l, d, f');
    NotEarly(n, q[l], p[l - 1]);
    assert q[l] != q[l - 1];
  }

  lemma SameFrame(p: seq<byte>, q: seq<byte>, l: nat, d: byte, f: Packet)
    requires 1 <= l <= |p| && l <= |q| && p[..l] == q[..l] && IsFrame(f, p, l - 1, d)
    ensures IsFrame(f, q, l - 1, d)
  {
    assert q[l - 1] == q[..l][l - 1] == p[l - 1] && p[0] == p[..l][0] == q[0];
    assert p[1..l] == p[..l][1..] == q[1..l];
  }

  lemma SplitQueues(n: Net, n': Net, p: seq<byte>, q: seq<byte>, l: nat, d: byte, f: Packet, f': Packet, heard: set<byte>)
    requires 2 <= l < |p| && l < |q| && p[l] != q[l] && heard == {p[l], q[l]} && Moved(n, n', p, l - 2, d, f, f', heard)
    requires forall x :: x in n.rx ==> n.rx[x] == Queued(p, l - 2, f, x) + Queued([p[0]], 0, f, x)
    ensures forall x :: x in n'.rx ==> n'.rx[x] == Queued(p, l - 1, f', x) + Queued(q, l - 1, f', x)
  {
    hide Carried, RelayOf, IsFrame;
    forall x | x in n'.rx
      ensures n'.rx[x] == Queued(p, l - 1, f', x) + Queued(q, l - 1, f', x)
    {
      assert n.rx[x] == Queued(p, l - 2, f, x) + Queued([p[0]], 0, f, x);
      assert [f][1..] == [];
    }
  }

  // ---- The start -----------------------------------------------------------------------------------

  /** The nodes on both ways, all of them routers. */
  ghost function World(p: seq<byte>, q: seq<byte>): set<byte> {
    set x | x in p || x in q
  }

  ghost function Start0(p: seq<byte>, q: seq<byte>, memory: Slots): Net {
    Net(map x | x in World(p, q) :: Fresh(x, true, RT.Cleared(memory)), map x | x in World(p, q) :: [])
  }

  lemma Starts(p: seq<byte>, q: seq<byte>, memory: Slots)
    requires BROADCAST !in p && BROADCAST !in q
    ensures Init(Start0(p, q, memory))
  {
    hide RT.Cleared;
  }

  /** A node just switched on can look for d, and is fit afterwards. */
  lemma FreshIsFit(x: byte, d: byte, memory: Slots, source: byte)
    ensures var s := Fresh(x, true, RT.Cleared(memory));
            && Idle(s) && NextHop(s.table, d).None? && s.lastSeq == Low8(|s.ledger|) && s.ledger == [] && s.me == x
            && Fit(s, x, source, 1) && (x == source ==> Fit(Sought(s, d, []), x, source, 1))
            && |Sought(s, d, []).ledger| == 1 && (forall y: byte :: s.lastNum[y] == 0 && Sought(s, d, []).lastNum[y] == 0)
  {
    EndToEnd.FreshIsOk(x, true, memory);
    hide RT.Cleared, NextHop;
  }

  ghost function FirstFrame(s: byte, d: byte): Packet { FrameOf(s, AskOf(s, d), 1) }

  /** The source has broadcast its request, the nodes in `heard` have it, and nobody has done anything else. */
  ghost predicate AskedBy(n: Net, world: set<byte>, s: byte, d: byte, heard: set<byte>)
  {
    && n.nodes.Keys == n.rx.Keys == world && AllFit(n, s, 1)
    && (forall x :: x in n.rx ==> n.rx[x] == if x in heard then [FirstFrame(s, d)] else [])
    && (forall x, y: byte :: x in n.nodes ==> n.nodes[x].lastNum[y] == 0)
  }

  lemma AsksFirst(links: Links, p: seq<byte>, q: seq<byte>, d: byte, memory: Slots, heard: set<byte>) returns (n: Net)
    requires p != [] && d !in {p[0], BROADCAST} && BROADCAST !in p && BROADCAST !in q
    requires InReach(links, Start0(p, q, memory), p[0], heard)
    ensures Follows(links, Start0(p, q, memory), n) && AskedBy(n, World(p, q), p[0], d, heard)
  {
    hide *;
    var s, n0 := p[0], Start0(p, q, memory);
    StartIs(p, q, memory);
    Stays(links, n0);
    FreshIsFit(s, d, memory, s);
    InWorld(p, q, s);
    n := Seeks(links, n0, n0, s, d, [], heard);
    SoughtOnly(n0, n, p, q, s, d, memory, heard);
  }

  lemma InWorld(p: seq<byte>, q: seq<byte>, x: byte)
    ensures x in World(p, q) <==> x in p || x in q
  {
  }

  lemma StartIs(p: seq<byte>, q: seq<byte>, memory: Slots)
    ensures var n := Start0(p, q, memory);
            && n.nodes.Keys == n.rx.Keys == World(p, q)
            && forall x :: x in n.nodes ==> n.nodes[x] == Fresh(x, true, RT.Cleared(memory)) && n.rx[x] == []
  {
    hide World, RT.Cleared, Fresh;
  }

  lemma SoughtOnly(n0: Net, n: Net, p: seq<byte>, q: seq<byte>, s: byte, d: byte, memory: Slots, heard: set<byte>)
    requires n0 == Start0(p, q, memory) && s in n0.nodes && BROADCAST !in p && BROADCAST !in q
    requires OnlyMoved(n0, n, {s}) && n.nodes[s] == Sought(Fresh(s, true, RT.Cleared(memory)), d, [])
    requires Queues(n0, n, s, false, heard, FrameOf(s, AskOf(s, d), 1))
    ensures AskedBy(n, World(p, q), s, d, heard)
  {
    hide Start0, NextHop, RT.Cleared, Sought, Fit, Fresh, FrameOf, AskOf, Idle, World;
    StartIs(p, q, memory);
    InWorld(p, q, BROADCAST);
    FreshIsFit(s, d, memory, s);
    forall x | x in n.nodes
      ensures Fit(n.nodes[x], x, s, 1) && forall y: byte :: n.nodes[x].lastNum[y] == 0
    {
      FreshIsFit(x, d, memory, s);
    }
    forall x | x in n.rx
      ensures n.rx[x] == if x in heard then [FirstFrame(s, d)] else []
    {
      assert n0.rx[x] == [];
      assert [] + [FirstFrame(s, d)] == [FirstFrame(s, d)];
    }
  }

  lemma FirstOnItsWay(n: Net, world: set<byte>, p: seq<byte>, d: byte, heard: set<byte>)
    requires p != [] && AskedBy(n, world, p[0], d, heard) && forall x :: x in p ==> x in world
    ensures OnItsWay(n, p, 0, d, FirstFrame(p[0], d))
  {
    assert p[1..1] == [];
  }

  /** Where the ways part at once, both requests are on their way; else the one is on its way alone. */
  lemma FirstStage(n: Net, p: seq<byte>, q: seq<byte>, d: byte)
    requires |p| >= 2 && |q| >= 2 && p[0] == q[0]
    requires p[1] != q[1] && AskedBy(n, World(p, q), p[0], d, {p[1], q[1]})
    ensures var f := FirstFrame(p[0], d); Stage(n, p, q, 0, 0, d, f, f, 1)
  {
    hide AllFit, FirstFrame, OnItsWay;
    FirstOnItsWay(n, World(p, q), p, d, {p[1], q[1]});
    FirstOnItsWay(n, World(p, q), q, d, {p[1], q[1]});
  }

  lemma FirstAlone(n: Net, p: seq<byte>, q: seq<byte>, d: byte)
    requires |p| >= 2 && AskedBy(n, World(p, q), p[0], d, {p[1]})
    ensures var f := FirstFrame(p[0], d); Stage(n, p, [p[0]], 0, 0, d, f, f, 1)
  {
    hide AllFit, FirstFrame, OnItsWay;
    FirstOnItsWay(n, World(p, q), p, d, {p[1]});
    assert OnItsWay(n, [p[0]], 0, d, FirstFrame(p[0], d)) by { EndOfWay(n, p[0], d, FirstFrame(p[0], d)); }
  }

  lemma EndOfWay(n: Net, s: byte, d: byte, f: Packet)
    ensures OnItsWay(n, [s], 0, d, f)
  {
  }

  lemma WorldIsGood(links: Links, n: Net, p: seq<byte>, q: seq<byte>, s: byte, a: byte, d: byte)
    requires Way(links, p, s, a, d) && Way(links, q, s, a, d) && n.nodes.Keys == World(p, q)
    ensures Good(links, n, p, d) && Good(links, n, q, d)
  {
  }

  lemma FirstHears(links: Links, p: seq<byte>, q: seq<byte>, memory: Slots, heard: set<byte>)
    requires |p| >= 2 && |q| >= 2 && SimplePath(links, p) && SimplePath(links, q) && p[0] == q[0] && heard <= {p[1], q[1]}
    ensures InReach(links, Start0(p, q, memory), p[0], heard)
  {
    assert p[0] != p[1] && q[0] != q[1];
  }

  /** Two ways part after l nodes: a run brings the request to where each is about to go its own way. */
  lemma ToTheFork(links: Links, p: seq<byte>, q: seq<byte>, l: nat, s: byte, a: byte, d: byte, memory: Slots)
    returns (n: Net, f: Packet)
    requires Way(links, p, s, a, d) && Way(links, q, s, a, d) && d !in {s, BROADCAST}
    requires 1 <= l < |p| && l < |q| && p[..l] == q[..l] && p[l] != q[l]
    ensures Follows(links, Start0(p, q, memory), n) && n.nodes.Keys == World(p, q)
    ensures Stage(n, p, q, l - 1, l - 1, d, f, f, l)
  {
    hide Follows, Stage, AllFit, World, InReach, Good, Way, Start0;
    var n0 := Start0(p, q, memory);
    WaysAre(links, p, s, a, d);
    WaysAre(links, q, s, a, d);
    if l == 1 {
      FirstHears(links, p, q, memory, {p[1], q[1]});
      n := AsksFirst(links, p, q, d, memory, {p[1], q[1]});
      FirstStage(n, p, q, d);
      f := FirstFrame(p[0], d);
    } else {
      FirstHears(links, p, q, memory, {p[1]});
      n := AsksFirst(links, p, q, d, memory, {p[1]});
      FirstAlone(n, p, q, d);
      WorldIsGood(links, n, p, q, s, a, d);
      n, f := Together(links, n0, n, p, 0, l - 2, d, FirstFrame(p[0], d), 1);
      WorldIsGood(links, n, p, q, s, a, d);
      n, f := Parts(links, n0, n, p, q, l, d, f, l - 1);
    }
  }

  lemma WaysAre(links: Links, p: seq<byte>, s: byte, a: byte, d: byte)
    requires Way(links, p, s, a, d)
    ensures SimplePath(links, p) && p != [] && p[0] == s && p[|p| - 1] == a && |p| <= 31 && BROADCAST !in p
  {
  }

  /** Two ways: a run in which a sends the request on twice. */
  lemma BothComeIn(links: Links, p: seq<byte>, q: seq<byte>, s: byte, a: byte, d: byte, memory: Slots) returns (n: Net)
    requires Way(links, p, s, a, d) && Way(links, q, s, a, d) && p != q && d !in {s, BROADCAST}
    ensures Follows(links, Start0(p, q, memory), n) && Did(n, p, d) && Did(n, q, d)
    ensures s in n.nodes && |n.nodes[s].ledger| == 1
  {
    hide Follows, Stage, AllFit, World, Good, Way, Start0, Did, SimplePath;
    WaysAre(links, p, s, a, d);
    WaysAre(links, q, s, a, d);
    var l := SplitAt(links, p, q);
    var f;
    n, f := ToTheFork(links, p, q, l, s, a, d, memory);
    WorldIsGood(links, n, p, q, s, a, d);
    n := BothArrive(links, Start0(p, q, memory), n, p, q, l - 1, l - 1, d, f, f, l);
  }

  lemma SplitAt(links: Links, p: seq<byte>, q: seq<byte>) returns (l: nat)
    requires SimplePath(links, p) && SimplePath(links, q) && p != [] && q != [] && p != q
    requires p[0] == q[0] && p[|p| - 1] == q[|q| - 1]
    ensures 1 <= l < |p| && l < |q| && p[..l] == q[..l] && p[l] != q[l]
  {
    l := Part(p, q);
  }

  /** What both have done: two requests of one flood. */
  lemma DidTwice(links: Links, ns: Nodes, n: Net, p: seq<byte>, q: seq<byte>, s: byte, a: byte, d: byte) returns (k: nat, l: nat)
    requires n.nodes == ns && Sound(links, ns) && Did(n, p, d) && Did(n, q, d) && p != q
    requires p != [] && q != [] && p[0] == q[0] == s && p[|p| - 1] == q[|q| - 1] == a && s in ns && |ns[s].ledger| == 1
    ensures Twice(links, ns, s, a, d, k, l)
  {
    hide Sound, Root;
    var sends := ns[a].ledger;
    var i :| 0 <= i < |sends| && sends[i].m == Carried(p, |p| - 1, d);
    var j :| 0 <= j < |sends| && sends[j].m == Carried(q, |q| - 1, d);
    k, l := i + 1, j + 1;
    assert p == [p[0]] + p[1..] && q == [q[0]] + q[1..];
    assert p[1..|p|] == p[1..] && q[1..|q|] == q[1..];
    RootIs(links, ns, a, k);
    RootIs(links, ns, a, l);
  }

  lemma TwoWaysMayTwice(links: Links, s: byte, a: byte, d: byte)
    requires HasTwoWays(links, s, a, d) && d !in {s, BROADCAST}
    ensures MayForwardTwice(links, s, a, d)
  {
    hide Follows, Way, Did, Start0, Init, Next, Twice, EndToEnd.CustodyInv;
    var p, q :| p != q && Way(links, p, s, a, d) && Way(links, q, s, a, d);
    var memory: Slots := seq(RT.SLOTS, i => RT.Entry(0, 0, RT.Invalid));
    WaysAre(links, p, s, a, d);
    WaysAre(links, q, s, a, d);
    Starts(p, q, memory);
    var n := BothComeIn(links, p, q, s, a, d, memory);
    var trace, acts := AsRun(links, Start0(p, q, memory), n);
    EndToEnd.CustodyAlways(links, trace, acts, |trace| - 1);
    CustodyIsSound(links, n);
    var k, l := DidTwice(links, n.nodes, n, p, q, s, a, d);
    assert Follows(links, Start0(p, q, memory), n) && Twice(links, n.nodes, s, a, d, k, l);
  }

  /**
    When README's "forwards it once" fails: a node may send a request on twice if and only if two different
    simple paths of at most 30 links lead to it from the source, past neither the node sought nor anybody twice.
  */
  lemma ForwardsTwiceExactly(links: Links, s: byte, a: byte, d: byte)
    requires d !in {s, BROADCAST}
    ensures MayForwardTwice(links, s, a, d) <==> HasTwoWays(links, s, a, d)
  {
    hide HasTwoWays, Twice, Follows, Init;
    if MayForwardTwice(links, s, a, d) {
      var n0: Net, n: Net, k, l :| Init(n0) && Follows(links, n0, n) && Twice(links, n.nodes, s, a, d, k, l);
      TwiceNeedsTwoWays(links, n.nodes, s, a, d, k, l);
    }
    if HasTwoWays(links, s, a, d) {
      TwoWaysMayTwice(links, s, a, d);
    }
  }
}
