/**
  Route discovery floods the network. On any links, with any loss: the list a request carries is the path it
  has come, no path is travelled twice by the same request, and so every flood dies out.
*/
module Flood {
  import opened Types
  import opened Protocol
  import opened Network
  import opened HopSafety
  import opened Ledger
  import opened EndToEnd
  import opened Descent
  import opened Paths
  import Laws = RoutingTableLaws

  ghost predicate IsRequest(ns: Nodes, a: byte, k: nat) {
    IsSend(ns, a, k) && TheSend(ns, a, k).m.dest == BROADCAST && TheSend(ns, a, k).m.body.Request?
  }

  /** The nodes a request has come through, its source first. */
  ghost function Route(m: Routed): seq<byte>
    requires m.body.Request?
  {
    [m.source] + m.body.path
  }

  /** What a rebroadcast request adds to the one received. */
  lemma RebroadcastFrom(links: Links, ns: Nodes, a: byte, k: nat)
    requires Sound(links, ns) && IsRequest(ns, a, k) && TheSend(ns, a, k).why.Relay?
    ensures var x := TheSend(ns, a, k).m; var f, j := TheSend(ns, a, k).why.from, TheSend(ns, a, k).why.num;
            && IsRequest(ns, f, j) && (f, a) in links
            && var y := TheSend(ns, f, j).m;
               && y.source == x.source != a && y.body.sought == x.body.sought != a
               && a !in y.body.path && |y.body.path| < MAX_HOPS && x.body.path == y.body.path + [a]
               && Root(links, ns, f, j) == Root(links, ns, a, k)
  {
    hide LedgerOk, SendsOk;
    Parent(links, ns, a, k);
    assert TakenOk(links, ns, a);
  }

  lemma FirstRequest(links: Links, ns: Nodes, a: byte, k: nat)
    requires Sound(links, ns) && IsRequest(ns, a, k) && !TheSend(ns, a, k).why.Relay?
    ensures TheSend(ns, a, k).m.source == a && TheSend(ns, a, k).m.body.path == [] && Root(links, ns, a, k) == (a, k)
  {
    assert Founded(ns, a, k);
    assert TheSend(ns, a, k) == ns[a].ledger[k - 1];
    assert OwnOk(ns[a]);
  }

  /**
    Every discovery request ever put on the air carries a duplicate-free list of at most MAX_HOPS nodes which,
    after its source, is a path over the links ending at its transmitter; neither the source nor the node
    sought is in the list.
  */
  lemma {:induction false} RequestCarriesItsPath(links: Links, ns: Nodes, a: byte, k: nat)
    requires Sound(links, ns) && IsRequest(ns, a, k)
    ensures var m := TheSend(ns, a, k).m;
            && SimplePath(links, Route(m)) && Route(m)[|m.body.path|] == a
            && |m.body.path| <= MAX_HOPS && m.body.sought !in m.body.path
            && (forall i :: 0 <= i < |m.body.path| ==> m.body.path[i] in ns && m.body.path[i] != m.source)
    decreases |TheSend(ns, a, k).m.body.path|
  {
    hide Sound, Root;
    var x := TheSend(ns, a, k);
    if x.why.Relay? {
      RebroadcastFrom(links, ns, a, k);
      RequestCarriesItsPath(links, ns, x.why.from, x.why.num);
      var y := TheSend(ns, x.why.from, x.why.num).m;
      assert Route(x.m) == Route(y) + [a];
    } else {
      FirstRequest(links, ns, a, k);
      assert Route(x.m) == [a];
    }
  }

  /** One flood never travels the same path twice: README's "forwards it once" holds per path. */
  lemma {:induction false} OncePerPath(links: Links, ns: Nodes, a: byte, k: nat, b: byte, l: nat)
    requires Sound(links, ns) && IsRequest(ns, a, k) && IsRequest(ns, b, l)
    requires Root(links, ns, a, k) == Root(links, ns, b, l)
    requires TheSend(ns, a, k).m.body.path == TheSend(ns, b, l).m.body.path
    ensures a == b && k == l
    decreases |TheSend(ns, a, k).m.body.path|
  {
    hide Sound, Root;
    var x, y := TheSend(ns, a, k), TheSend(ns, b, l);
    if x.why.Relay? { RebroadcastFrom(links, ns, a, k); } else { FirstRequest(links, ns, a, k); }
    if y.why.Relay? { RebroadcastFrom(links, ns, b, l); } else { FirstRequest(links, ns, b, l); }
    if x.why.Relay? && y.why.Relay? {
      var p, q := TheSend(ns, x.why.from, x.why.num).m.body.path, TheSend(ns, y.why.from, y.why.num).m.body.path;
      assert p == x.m.body.path[..|p|] && q == x.m.body.path[..|q|];
      assert a == x.m.body.path[|p|] && b == x.m.body.path[|q|];
      OncePerPath(links, ns, x.why.from, x.why.num, y.why.from, y.why.num);
      OneRelayEach(links, ns, a, k, l);
    }
  }

  /** No two simple paths lead from s to a. */
  ghost predicate OneWay(links: Links, s: byte, a: byte)
  {
    forall p, q :: Leads(links, p, s, a) && Leads(links, q, s, a) ==> p == q
  }

  /** Where README is right: a node with one way to it from the source forwards a flood once. */
  lemma ForwardsOnce(links: Links, ns: Nodes, a: byte, k: nat, l: nat)
    requires Sound(links, ns) && IsRequest(ns, a, k) && IsRequest(ns, a, l)
    requires Root(links, ns, a, k) == Root(links, ns, a, l) && OneWay(links, TheSend(ns, a, k).m.source, a)
    ensures k == l
  {
    hide Sound, Root, SimplePath;
    RootIs(links, ns, a, k);
    RootIs(links, ns, a, l);
    RequestCarriesItsPath(links, ns, a, k);
    RequestCarriesItsPath(links, ns, a, l);
    var x, y := TheSend(ns, a, k).m, TheSend(ns, a, l).m;
    assert Leads(links, Route(x), x.source, a) && Leads(links, Route(y), x.source, a);
    assert x.body.path == Route(x)[1..] && y.body.path == Route(y)[1..];
    OncePerPath(links, ns, a, k, a, l);
  }

  /** In particular every node of a network without cycles, in every run. */
  lemma ForestForwardsOnce(links: Links, trace: seq<Net>, acts: seq<Action>, t: nat, a: byte, k: nat, l: nat)
    requires Run(links, trace, acts) && t < |trace| && Forest(links)
    requires IsRequest(trace[t].nodes, a, k) && IsRequest(trace[t].nodes, a, l)
    ensures Sound(links, trace[t].nodes)
    ensures Root(links, trace[t].nodes, a, k) == Root(links, trace[t].nodes, a, l) ==> k == l
  {
    hide Sound, Root, CustodyInv;
    CustodyAlways(links, trace, acts, t);
    CustodyIsSound(links, trace[t]);
    if Root(links, trace[t].nodes, a, k) == Root(links, trace[t].nodes, a, l) {
      ForwardsOnce(links, trace[t].nodes, a, k, l);
    }
  }

  // ---- Work bound --------------------------------------------------------------------------------

  /** All duplicate-free lists of at most h addresses of a set. */
  ghost function Lists(world: set<byte>, h: nat): set<seq<byte>>
    decreases h
  {
    if h == 0 then {[]} else {[]} + set x, p | x in world && p in Lists(world - {x}, h - 1) :: [x] + p
  }

  /** How many there can be among m addresses. */
  function Count(m: nat, h: nat): nat
    decreases h
  {
    if h == 0 || m == 0 then 1 else 1 + m * Count(m - 1, h - 1)
  }

  lemma {:induction false} ListsComplete(world: set<byte>, h: nat, p: seq<byte>)
    requires |p| <= h && Simple(p) && forall i :: 0 <= i < |p| ==> p[i] in world
    ensures p in Lists(world, h)
    decreases h
  {
    if p != [] {
      var rest := p[1..];
      assert forall i :: 0 <= i < |rest| ==> rest[i] == p[i + 1];
      ListsComplete(world - {p[0]}, h - 1, rest);
      assert p == [p[0]] + rest;
    }
  }

  ghost function Behind(x: byte, rest: set<seq<byte>>): set<seq<byte>>
  {
    set p | p in rest :: [x] + p
  }

  lemma {:induction false} BehindBound(x: byte, rest: set<seq<byte>>)
    ensures |Behind(x, rest)| <= |rest|
    decreases |rest|
  {
    if rest != {} {
      var p :| p in rest;
      BehindBound(x, rest - {p});
      assert Behind(x, rest) == Behind(x, rest - {p}) + {[x] + p};
    }
  }

  ghost function StartingIn(some: set<byte>, world: set<byte>, h: nat): set<seq<byte>>
    requires h > 0
  {
    set x, p | x in some && p in Lists(world - {x}, h - 1) :: [x] + p
  }

  lemma StartingSplits(some: set<byte>, x: byte, world: set<byte>, h: nat)
    requires h > 0 && x in some
    ensures StartingIn(some, world, h) == StartingIn(some - {x}, world, h) + Behind(x, Lists(world - {x}, h - 1))
  {
    hide Lists;
    forall q | q in StartingIn(some, world, h)
      ensures q in StartingIn(some - {x}, world, h) + Behind(x, Lists(world - {x}, h - 1))
    {
      var y, p :| y in some && p in Lists(world - {y}, h - 1) && q == [y] + p;
      assert y == x || y in some - {x};
    }
  }

  lemma UnionSize<T>(a: set<T>, b: set<T>)
    ensures |a + b| <= |a| + |b|
  {
    assert a + b == a + (b - a);
    Laws.SubsetSize(b - a, b);
  }

  lemma OneFactorMore(m: nat, c: nat)
    ensures m * c + c == (m + 1) * c
  {
  }

  lemma {:induction false} StartingBound(some: set<byte>, world: set<byte>, h: nat, c: nat)
    requires h > 0 && some <= world
    requires forall x :: x in world ==> |Lists(world - {x}, h - 1)| <= c
    ensures |StartingIn(some, world, h)| <= |some| * c
    decreases |some|
  {
    hide Lists, StartingIn, Behind;
    if some == {} {
      NothingStarts(world, h);
    } else {
      var x :| x in some;
      StartingBound(some - {x}, world, h, c);
      StartingSplits(some, x, world, h);
      BehindBound(x, Lists(world - {x}, h - 1));
      UnionSize(StartingIn(some - {x}, world, h), Behind(x, Lists(world - {x}, h - 1)));
      OneFactorMore(|some - {x}|, c);
      assert |some - {x}| + 1 == |some|;
    }
  }

  lemma NothingStarts(world: set<byte>, h: nat)
    requires h > 0
    ensures StartingIn({}, world, h) == {}
  {
  }

  lemma {:induction false} ListsBound(world: set<byte>, h: nat)
    ensures |Lists(world, h)| <= Count(|world|, h)
    decreases h, 1
  {
    if h == 0 {
    } else if world == {} {
      assert Lists(world, h) == {[]};
    } else {
      ShorterBound(world, h);
      StartingBound(world, world, h, Count(|world| - 1, h - 1));
      assert Lists(world, h) == {[]} + StartingIn(world, world, h);
    }
  }

  lemma {:induction false} ShorterBound(world: set<byte>, h: nat)
    requires h > 0 && world != {}
    ensures forall x :: x in world ==> |Lists(world - {x}, h - 1)| <= Count(|world| - 1, h - 1)
    decreases h, 0
  {
    hide Lists, Count;
    forall x | x in world
      ensures |Lists(world - {x}, h - 1)| <= Count(|world| - 1, h - 1)
    {
      ListsBound(world - {x}, h - 1);
      assert |world - {x}| == |world| - 1;
    }
  }

  /** The requests of one flood, the source's own and all rebroadcasts. */
  ghost function FloodOf(links: Links, ns: Nodes, r: (byte, nat)): set<(byte, nat)>
    requires Sound(links, ns)
  {
    set a, k | a in ns && 1 <= k <= |ns[a].ledger| && IsRequest(ns, a, k) && Root(links, ns, a, k) == r :: (a, k)
  }

  ghost function PathOf(ns: Nodes, s: (byte, nat)): seq<byte> {
    if IsRequest(ns, s.0, s.1) then TheSend(ns, s.0, s.1).m.body.path else []
  }

  ghost function PathsOf(ns: Nodes, sends: set<(byte, nat)>): set<seq<byte>>
  {
    set s | s in sends :: PathOf(ns, s)
  }

  lemma {:induction false} DistinctPaths(links: Links, ns: Nodes, r: (byte, nat), sends: set<(byte, nat)>)
    requires Sound(links, ns) && sends <= FloodOf(links, ns, r)
    ensures |PathsOf(ns, sends)| == |sends|
    decreases |sends|
  {
    hide Sound, Root;
    if sends != {} {
      var s :| s in sends;
      var p := PathOf(ns, s);
      DistinctPaths(links, ns, r, sends - {s});
      assert PathsOf(ns, sends) == PathsOf(ns, sends - {s}) + {p};
      if p in PathsOf(ns, sends - {s}) {
        var q :| q in sends - {s} && PathOf(ns, q) == p;
        OncePerPath(links, ns, s.0, s.1, q.0, q.1);
        assert false;
      }
    }
  }

  /** The requests one discovery causes in the whole network, however long it runs. */
  ghost function FloodLimit(ns: Nodes): nat {
    Count(|ns|, MAX_HOPS)
  }

  /**
    The work one discovery causes is bounded by the number of simple paths: every flood dies out. The
    difference to the bound is the measure that each further rebroadcast uses up.
  */
  lemma FloodIsBounded(links: Links, ns: Nodes, r: (byte, nat))
    requires Sound(links, ns)
    ensures |FloodOf(links, ns, r)| <= FloodLimit(ns)
  {
    var sends := FloodOf(links, ns, r);
    DistinctPaths(links, ns, r, sends);
    var paths := PathsOf(ns, sends);
    forall p | p in paths
      ensures p in Lists(ns.Keys, MAX_HOPS)
    {
      var s :| s in sends && PathOf(ns, s) == p;
      RequestCarriesItsPath(links, ns, s.0, s.1);
      PathListed(ns, TheSend(ns, s.0, s.1).m);
    }
    Laws.SubsetSize(paths, Lists(ns.Keys, MAX_HOPS));
    ListsBound(ns.Keys, MAX_HOPS);
  }

  lemma PathListed(ns: Nodes, m: Routed)
    requires m.body.Request? && Simple(Route(m)) && |m.body.path| <= MAX_HOPS
    requires forall i :: 0 <= i < |m.body.path| ==> m.body.path[i] in ns
    ensures m.body.path in Lists(ns.Keys, MAX_HOPS)
  {
    assert forall i :: 0 <= i < |m.body.path| ==> m.body.path[i] == Route(m)[i + 1];
    ListsComplete(ns.Keys, MAX_HOPS, m.body.path);
  }

  /** In every state of every run. */
  lemma FloodsDieOut(links: Links, trace: seq<Net>, acts: seq<Action>, t: nat, r: (byte, nat))
    requires Run(links, trace, acts) && t < |trace|
    ensures Sound(links, trace[t].nodes) && |FloodOf(links, trace[t].nodes, r)| <= FloodLimit(trace[0].nodes)
  {
    CustodyAlways(links, trace, acts, t);
    CustodyIsSound(links, trace[t]);
    FloodIsBounded(links, trace[t].nodes, r);
    SameNodes(links, trace, acts, t);
  }

  lemma {:induction false} SameNodes(links: Links, trace: seq<Net>, acts: seq<Action>, t: nat)
    requires Run(links, trace, acts) && t < |trace|
    ensures trace[t].nodes.Keys == trace[0].nodes.Keys
    ensures |trace[t].nodes| == |trace[0].nodes|
  {
    hide Step, Air, Init;
    if t > 0 {
      SameNodes(links, trace, acts, t - 1);
      assert Next(links, trace[t - 1], acts[t - 1], trace[t]);
    }
    assert |trace[t].nodes| == |trace[t].nodes.Keys|;
    assert |trace[0].nodes| == |trace[0].nodes.Keys|;
  }
}
