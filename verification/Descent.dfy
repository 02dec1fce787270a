/**
  The descent of a message from its source, hand-over by hand-over, and the theorems that rest on it:
  at most one handler call per Node::send, and an exact, bounded hop count.
*/
module Descent {
  import opened Types
  import opened Protocol
  import opened Network
  import opened HopSafety
  import opened Ledger
  import opened EndToEnd
  import Laws = RoutingTableLaws

  /** How far a message has come from its source: hops of a unicast, visited nodes of a request. */
  ghost function Depth(m: Routed): nat {
    m.hops + (if m.body.Request? then |m.body.path| else 0)
  }

  lemma BroadcastHasNoHops(links: Links, ns: Nodes, a: byte, k: nat)
    requires SendsOk(links, ns) && IsSend(ns, a, k) && LedgerOk(ns[a]) && ns[a].me == a
    ensures TheSend(ns, a, k).m.dest == BROADCAST && TheSend(ns, a, k).m.body.Request? ==> TheSend(ns, a, k).m.hops == 0
  {
    assert Founded(ns, a, k);
  }

  /** The states the lemmas below speak about. */
  ghost predicate Sound(links: Links, ns: Nodes)
  {
    && SendsOk(links, ns)
    && (forall a :: a in ns ==> ns[a].me == a && a != BROADCAST && LedgerOk(ns[a]) && TakenOk(links, ns, a))
  }

  lemma CustodyIsSound(links: Links, n: Net)
    requires CustodyInv(links, n)
    ensures Sound(links, n.nodes)
  {
    hide LedgerOk, SendsOk, TakenOk;
  }

  /** The send a relayed one was made from. */
  lemma Parent(links: Links, ns: Nodes, a: byte, k: nat)
    requires Sound(links, ns) && IsSend(ns, a, k) && TheSend(ns, a, k).why.Relay?
    ensures var x := TheSend(ns, a, k); var f, j := x.why.from, x.why.num;
            && IsSend(ns, f, j) && Relayed(a, TheSend(ns, f, j).m, x) && Depth(TheSend(ns, f, j).m) + 1 == Depth(x.m)
            && (f, j) in ns[a].taken && TheSend(ns, f, j).to in {a, BROADCAST}
            && (TheSend(ns, f, j).m.dest != BROADCAST ==> TheSend(ns, f, j).to == a)
  {
    hide AppOk, OwnOk, InboxOk, NodeOk;
    assert Founded(ns, a, k);
    var x := TheSend(ns, a, k);
    assert x == ns[a].ledger[k - 1];
    assert (x.why.from, x.why.num) in ns[a].taken;
    BroadcastHasNoHops(links, ns, x.why.from, x.why.num);
    assert Addressed(links, ns, x.why.from, x.why.num);
  }

  /** The send of the message's source from which send k of node a descends. */
  ghost function Root(links: Links, ns: Nodes, a: byte, k: nat): (r: (byte, nat))
    requires Sound(links, ns) && IsSend(ns, a, k)
    decreases Depth(TheSend(ns, a, k).m)
  {
    var x := TheSend(ns, a, k);
    if x.why.Relay? then
      Parent(links, ns, a, k);
      Root(links, ns, x.why.from, x.why.num)
    else (a, k)
  }

  /** The root is a send of the node named as source, and carries the same message with no hops. */
  lemma {:induction false} RootIs(links: Links, ns: Nodes, a: byte, k: nat)
    requires Sound(links, ns) && IsSend(ns, a, k)
    ensures var r, m := Root(links, ns, a, k), TheSend(ns, a, k).m;
            && IsSend(ns, r.0, r.1) && !TheSend(ns, r.0, r.1).why.Relay?
            && r.0 == m.source
            && (if m.dest == BROADCAST
                then m.body.Request? ==> TheSend(ns, r.0, r.1).m == Routed(BROADCAST, m.source, 0, Request(m.body.sought, []))
                else TheSend(ns, r.0, r.1).m == m.(hops := 0))
    decreases Depth(TheSend(ns, a, k).m)
  {
    var x := TheSend(ns, a, k);
    if x.why.Relay? {
      Parent(links, ns, a, k);
      RootIs(links, ns, x.why.from, x.why.num);
    } else {
      assert Founded(ns, a, k);
      assert x == ns[a].ledger[k - 1];
    }
  }

  /** A forwarded message: same root, one hop less, and not yet at its destination. */
  lemma ForwardedFrom(links: Links, ns: Nodes, a: byte, k: nat)
    requires Sound(links, ns) && IsSend(ns, a, k) && TheSend(ns, a, k).why.Relay? && TheSend(ns, a, k).m.dest != BROADCAST
    ensures var x := TheSend(ns, a, k); var f, j := x.why.from, x.why.num;
            && IsSend(ns, f, j) && x.m.hops >= 1 && x.m.hops <= MAX_HOPS && x.m.dest != a
            && TheSend(ns, f, j).m == x.m.(hops := x.m.hops - 1) && TheSend(ns, f, j).to == a
            && Root(links, ns, f, j) == Root(links, ns, a, k)
  {
    hide LedgerOk, SendsOk, TakenOk;
    Parent(links, ns, a, k);
  }

  // ---- At most once ------------------------------------------------------------------------------

  /** A unicast message is handed over at most once at each distance from its source. */
  lemma {:induction false} OneSendPerHop(links: Links, ns: Nodes, a: byte, k: nat, b: byte, l: nat)
    requires Sound(links, ns) && IsSend(ns, a, k) && IsSend(ns, b, l)
    requires TheSend(ns, a, k).m.dest != BROADCAST && TheSend(ns, b, l).m.dest != BROADCAST
    requires Root(links, ns, a, k) == Root(links, ns, b, l)
    requires TheSend(ns, a, k).m.hops == TheSend(ns, b, l).m.hops
    ensures a == b && k == l
    decreases TheSend(ns, a, k).m.hops
  {
    var x, y := TheSend(ns, a, k), TheSend(ns, b, l);
    hide *;
    if x.why.Relay? { ForwardedFrom(links, ns, a, k); } else { RootOfOwn(links, ns, a, k); }
    if y.why.Relay? { ForwardedFrom(links, ns, b, l); } else { RootOfOwn(links, ns, b, l); }
    if x.why.Relay? && y.why.Relay? {
      OneSendPerHop(links, ns, x.why.from, x.why.num, y.why.from, y.why.num);
      OneRelayEach(links, ns, a, k, l);
    }
  }

  lemma RootOfOwn(links: Links, ns: Nodes, a: byte, k: nat)
    requires Sound(links, ns) && IsSend(ns, a, k) && !TheSend(ns, a, k).why.Relay?
    ensures Root(links, ns, a, k) == (a, k)
    ensures TheSend(ns, a, k).m.hops == 0 && TheSend(ns, a, k).m.source == a
  {
    RootIs(links, ns, a, k);
    assert Founded(ns, a, k);
    assert TheSend(ns, a, k) == ns[a].ledger[k - 1];
  }

  lemma OneRelayEach(links: Links, ns: Nodes, a: byte, k: nat, l: nat)
    requires Sound(links, ns) && IsSend(ns, a, k) && IsSend(ns, a, l)
    requires TheSend(ns, a, k).why.Relay? && TheSend(ns, a, k).why == TheSend(ns, a, l).why
    ensures k == l
  {
    assert RelayOk(ns[a]);
    assert k == l || k - 1 < l - 1 || l - 1 < k - 1;
  }

  /** The send one hop further from the source than (b, j hops), on the way to send k of node a. */
  lemma {:induction false} Ancestor(links: Links, ns: Nodes, a: byte, k: nat, h: nat) returns (b: byte, l: nat)
    requires Sound(links, ns) && IsSend(ns, a, k) && TheSend(ns, a, k).m.dest != BROADCAST
    requires h <= TheSend(ns, a, k).m.hops
    ensures IsSend(ns, b, l) && Root(links, ns, b, l) == Root(links, ns, a, k)
    ensures TheSend(ns, b, l).m == TheSend(ns, a, k).m.(hops := h)
    decreases TheSend(ns, a, k).m.hops
  {
    var x := TheSend(ns, a, k);
    RootIs(links, ns, a, k);
    if h == x.m.hops {
      b, l := a, k;
    } else {
      Parent(links, ns, a, k);
      b, l := Ancestor(links, ns, x.why.from, x.why.num, h);
    }
  }

  /** Once a message is handed to its destination itself, no other hand-over of it exists at that distance or beyond. */
  lemma LastHopIsLast(links: Links, ns: Nodes, a: byte, k: nat, b: byte, l: nat)
    requires Sound(links, ns) && IsSend(ns, a, k) && IsSend(ns, b, l)
    requires var x := TheSend(ns, a, k); x.m.dest != BROADCAST && x.to == x.m.dest
    requires Root(links, ns, a, k) == Root(links, ns, b, l) && TheSend(ns, b, l).m.dest != BROADCAST
    ensures TheSend(ns, b, l).m.hops <= TheSend(ns, a, k).m.hops
  {
    var x, y := TheSend(ns, a, k), TheSend(ns, b, l);
    hide *;
    if y.m.hops > x.m.hops {
      SameMessage(links, ns, a, k, b, l);
      var c, q := Ancestor(links, ns, b, l, x.m.hops + 1);
      if TheSend(ns, c, q).why.Relay? {
        ForwardedFrom(links, ns, c, q);
        var z := TheSend(ns, c, q);
        OneSendPerHop(links, ns, z.why.from, z.why.num, a, k);
        assert false;
      } else {
        RootOfOwn(links, ns, c, q);
        assert false;
      }
    }
  }

  lemma SameMessage(links: Links, ns: Nodes, a: byte, k: nat, b: byte, l: nat)
    requires Sound(links, ns) && IsSend(ns, a, k) && IsSend(ns, b, l)
    requires TheSend(ns, a, k).m.dest != BROADCAST && TheSend(ns, b, l).m.dest != BROADCAST
    requires Root(links, ns, a, k) == Root(links, ns, b, l)
    ensures TheSend(ns, a, k).m.(hops := 0) == TheSend(ns, b, l).m.(hops := 0)
  {
    hide LedgerOk, SendsOk, TakenOk;
    RootIs(links, ns, a, k);
    RootIs(links, ns, b, l);
  }

  lemma OneLastHop(links: Links, ns: Nodes, a: byte, k: nat, b: byte, l: nat)
    requires Sound(links, ns) && IsSend(ns, a, k) && IsSend(ns, b, l)
    requires var x := TheSend(ns, a, k); x.m.dest != BROADCAST && x.to == x.m.dest
    requires var y := TheSend(ns, b, l); y.m.dest != BROADCAST && y.to == y.m.dest
    requires Root(links, ns, a, k) == Root(links, ns, b, l)
    ensures a == b && k == l
  {
    LastHopIsLast(links, ns, a, k, b, l);
    LastHopIsLast(links, ns, b, l, a, k);
    OneSendPerHop(links, ns, a, k, b, l);
  }

  // ---- Node::send --------------------------------------------------------------------------------

  /** g came out of the k-th Node::send of node s. */
  ghost predicate Carries(links: Links, ns: Nodes, g: Got, s: byte, k: nat)
    requires Sound(links, ns)
  {
    && GotOk(ns, g)
    && var r := Root(links, ns, g.from, g.num);
       r.0 == s && IsSend(ns, r.0, r.1) && TheSend(ns, r.0, r.1).why == Own(k)
  }

  /** DATA reaches its destination only from Node::send of its source, unchanged but for the hop count. */
  lemma DataIsOurs(links: Links, ns: Nodes, g: Got)
    requires Sound(links, ns) && GotOk(ns, g) && g.m.body.Data?
    ensures g.m.source in ns && g.m.dest != BROADCAST
    ensures exists k :: 1 <= k <= |ns[g.m.source].asked| && Carries(links, ns, g, g.m.source, k)
                        && g.m == DataOf(ns[g.m.source], k).(hops := g.m.hops)
  {
    hide Sound;
    RootIs(links, ns, g.from, g.num);
    var r := Root(links, ns, g.from, g.num);
    DataIsUnicast(links, ns, g.from, g.num);
    OriginalData(links, ns, r.0, r.1);
    assert Carries(links, ns, g, r.0, TheSend(ns, r.0, r.1).why.k);
  }

  lemma OriginalData(links: Links, ns: Nodes, a: byte, j: nat)
    requires Sound(links, ns) && IsSend(ns, a, j) && TheSend(ns, a, j).m.body.Data? && !TheSend(ns, a, j).why.Relay?
    ensures var x := TheSend(ns, a, j);
            x.why.Own? && 1 <= x.why.k <= |ns[a].asked| && x.m == DataOf(ns[a], x.why.k)
  {
    assert Founded(ns, a, j);
    assert TheSend(ns, a, j) == ns[a].ledger[j - 1];
  }

  lemma {:induction false} DataIsUnicast(links: Links, ns: Nodes, a: byte, k: nat)
    requires Sound(links, ns) && IsSend(ns, a, k) && TheSend(ns, a, k).m.body.Data?
    ensures TheSend(ns, a, k).m.dest != BROADCAST
    decreases Depth(TheSend(ns, a, k).m)
  {
    assert Founded(ns, a, k);
    var x := TheSend(ns, a, k);
    assert x == ns[a].ledger[k - 1];
    if x.why.Relay? {
      Parent(links, ns, a, k);
      DataIsUnicast(links, ns, x.why.from, x.why.num);
    }
  }

  /** Each Node::send hands its DATA to the hop layer at most once, however often discovery is retried. */
  lemma HandsOverOnce(links: Links, trace: seq<Net>, acts: seq<Action>, i: nat, s: byte, k: nat, l: nat)
    requires Run(links, trace, acts) && i < |trace| && s in trace[i].nodes
    requires IsSend(trace[i].nodes, s, k) && IsSend(trace[i].nodes, s, l)
    requires TheSend(trace[i].nodes, s, k).why.Own? && TheSend(trace[i].nodes, s, l).why == TheSend(trace[i].nodes, s, k).why
    ensures k == l
  {
    CustodyAlways(links, trace, acts, i);
    assert OwnOk(trace[i].nodes[s]);
    assert k == l || k - 1 < l - 1 || l - 1 < k - 1;
  }

  /**
    End to end at most once. In any state of any run two handler calls, at the same node or at different
    ones, never come from the same Node::send.
  */
  lemma EndToEndAtMostOnce(links: Links, trace: seq<Net>, acts: seq<Action>, t: nat,
                           b: byte, i: nat, c: byte, j: nat, s: byte, k: nat)
    requires Run(links, trace, acts) && t < |trace|
    requires b in trace[t].nodes && i < |trace[t].nodes[b].inbox|
    requires c in trace[t].nodes && j < |trace[t].nodes[c].inbox|
    requires Sound(links, trace[t].nodes)
    requires Carries(links, trace[t].nodes, trace[t].nodes[b].inbox[i], s, k)
    requires Carries(links, trace[t].nodes, trace[t].nodes[c].inbox[j], s, k)
    ensures b == c && i == j
  {
    var ns := trace[t].nodes;
    CustodyAlways(links, trace, acts, t);
    var g, h := ns[b].inbox[i], ns[c].inbox[j];
    InboxFacts(links, trace[t], b, i);
    InboxFacts(links, trace[t], c, j);
    var r, q := Root(links, ns, g.from, g.num), Root(links, ns, h.from, h.num);
    HandsOverOnce(links, trace, acts, t, s, r.1, q.1);
    RootIs(links, ns, g.from, g.num);
    RootIs(links, ns, h.from, h.num);
    OneLastHop(links, ns, g.from, g.num, h.from, h.num);
    assert b == c && Same(g, h);
    assert InboxOk(ns[b]);
    assert i == j || i < j || j < i;
  }

  lemma InboxFacts(links: Links, n: Net, b: byte, i: nat)
    requires CustodyInv(links, n) && b in n.nodes && i < |n.nodes[b].inbox|
    ensures Sound(links, n.nodes)
    ensures var g := n.nodes[b].inbox[i];
            && GotOk(n.nodes, g) && g.m.body.Data? && g.m.dest == b && b != BROADCAST
            && TheSend(n.nodes, g.from, g.num).to == b
  {
    CustodyIsSound(links, n);
    var g := n.nodes[b].inbox[i];
    assert GotOk(n.nodes, g);
    assert InboxOk(n.nodes[b]);
    DataIsUnicast(links, n.nodes, g.from, g.num);
    assert Addressed(links, n.nodes, g.from, g.num);
    assert (g.from, g.num) in n.nodes[b].taken;
    assert TakenOk(links, n.nodes, b);
  }

  // ---- Hop budget --------------------------------------------------------------------------------

  /** The hand-overs of a unicast message from its source up to send k of node a, in order. */
  ghost function Trail(links: Links, ns: Nodes, a: byte, k: nat): (t: seq<(byte, nat)>)
    requires Sound(links, ns) && IsSend(ns, a, k) && TheSend(ns, a, k).m.dest != BROADCAST
    decreases TheSend(ns, a, k).m.hops
  {
    var x := TheSend(ns, a, k);
    if x.why.Relay? then
      ForwardedFrom(links, ns, a, k);
      Trail(links, ns, x.why.from, x.why.num) + [(a, k)]
    else [(a, k)]
  }

  /**
    Whatever the routing tables say, the hops field of a unicast message is the number of times it has been
    forwarded, and it never exceeds the limit: at most MAX_HOPS + 1 hand-overs, each to the next forwarder.
  */
  lemma {:induction false} HopsCountForwards(links: Links, ns: Nodes, a: byte, k: nat)
    requires Sound(links, ns) && IsSend(ns, a, k) && TheSend(ns, a, k).m.dest != BROADCAST
    ensures var t, m := Trail(links, ns, a, k), TheSend(ns, a, k).m;
            && |t| == m.hops + 1 && m.hops <= MAX_HOPS
            && t[0] == Root(links, ns, a, k) && t[m.hops] == (a, k)
            && (forall i :: 0 <= i <= m.hops ==> IsSend(ns, t[i].0, t[i].1) && TheSend(ns, t[i].0, t[i].1).m == m.(hops := i))
            && (forall i :: 0 <= i < m.hops ==> TheSend(ns, t[i].0, t[i].1).to == t[i + 1].0)
    decreases TheSend(ns, a, k).m.hops
  {
    hide LedgerOk, SendsOk, TakenOk, Sound, Root;
    var x := TheSend(ns, a, k);
    if x.why.Relay? {
      ForwardedFrom(links, ns, a, k);
      HopsCountForwards(links, ns, x.why.from, x.why.num);
    } else {
      RootOfOwn(links, ns, a, k);
    }
  }

  /** All hand-overs, anywhere in the network, of the unicast message first sent as r. */
  ghost function HandOvers(links: Links, ns: Nodes, r: (byte, nat)): set<(byte, nat)>
    requires Sound(links, ns)
  {
    set a, k | a in ns && 1 <= k <= |ns[a].ledger| && TheSend(ns, a, k).m.dest != BROADCAST && Root(links, ns, a, k) == r :: (a, k)
  }

  ghost function HopsOf(ns: Nodes, s: (byte, nat)): int {
    if IsSend(ns, s.0, s.1) then TheSend(ns, s.0, s.1).m.hops else 0
  }

  lemma {:induction false} DistinctHops(links: Links, ns: Nodes, r: (byte, nat), sends: set<(byte, nat)>)
    requires Sound(links, ns) && sends <= HandOvers(links, ns, r)
    ensures |set s | s in sends :: HopsOf(ns, s)| == |sends|
    decreases |sends|
  {
    hide Sound, Root;
    if sends != {} {
      var s :| s in sends;
      DistinctHops(links, ns, r, sends - {s});
      var rest := set q | q in sends - {s} :: HopsOf(ns, q);
      assert (set q | q in sends :: HopsOf(ns, q)) == rest + {HopsOf(ns, s)};
      if HopsOf(ns, s) in rest {
        var q :| q in sends - {s} && HopsOf(ns, q) == HopsOf(ns, s);
        OneSendPerHop(links, ns, s.0, s.1, q.0, q.1);
        assert false;
      }
    }
  }

  ghost function UpTo(h: nat): (s: set<int>)
    ensures |s| == h && forall i :: i in s <==> 0 <= i < h
  {
    if h == 0 then {} else UpTo(h - 1) + {h - 1}
  }

  /**
    The hop budget of a message: in any run, with any routing tables, it is handed to the hop layer at most
    MAX_HOPS + 1 times in the whole network.
  */
  lemma HandOversAreBounded(links: Links, trace: seq<Net>, acts: seq<Action>, t: nat, r: (byte, nat))
    requires Run(links, trace, acts) && t < |trace|
    ensures Sound(links, trace[t].nodes) && |HandOvers(links, trace[t].nodes, r)| <= MAX_HOPS + 1
  {
    hide CustodyInv, Sound, Root;
    CustodyAlways(links, trace, acts, t);
    CustodyIsSound(links, trace[t]);
    HandOversAtMost(links, trace[t].nodes, r);
  }

  lemma HandOversAtMost(links: Links, ns: Nodes, r: (byte, nat))
    requires Sound(links, ns)
    ensures |HandOvers(links, ns, r)| <= MAX_HOPS + 1
  {
    hide Sound, Root;
    var sends := HandOvers(links, ns, r);
    DistinctHops(links, ns, r, sends);
    var hops: set<int> := set s | s in sends :: HopsOf(ns, s);
    forall h | h in hops
      ensures h <= MAX_HOPS
    {
      var s :| s in sends && HopsOf(ns, s) == h;
      HopsCountForwards(links, ns, s.0, s.1);
    }
    assert hops <= UpTo(MAX_HOPS + 1);
    Laws.SubsetSize(hops, UpTo(MAX_HOPS + 1));
  }

  /** The hop count the handler is given is the number of nodes that forwarded the message to it. */
  lemma HandlerHopsExact(links: Links, trace: seq<Net>, acts: seq<Action>, t: nat, b: byte, i: nat)
    requires Run(links, trace, acts) && t < |trace|
    requires b in trace[t].nodes && i < |trace[t].nodes[b].inbox|
    ensures var ns, g := trace[t].nodes, trace[t].nodes[b].inbox[i];
            && Sound(links, ns) && IsSend(ns, g.from, g.num) && TheSend(ns, g.from, g.num).m == g.m
            && g.m.dest != BROADCAST && g.m.hops + 1 == |Trail(links, ns, g.from, g.num)| <= MAX_HOPS + 1
  {
    CustodyAlways(links, trace, acts, t);
    InboxFacts(links, trace[t], b, i);
    var g := trace[t].nodes[b].inbox[i];
    HopsCountForwards(links, trace[t].nodes, g.from, g.num);
  }
}
