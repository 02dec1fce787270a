/** Building runs: what can follow a state of the network, step by step and in larger moves. */
module Reach {
  import opened Types
  import opened Protocol
  import opened Network
  import opened Learning
  import RT = RoutingTable

  /** Each state follows from the one before by the action beside it. */
  ghost predicate Chain(links: Links, trace: seq<Net>, acts: seq<Action>)
  {
    && |trace| == |acts| + 1
    && forall i :: 0 <= i < |acts| ==> Next(links, trace[i], acts[i], trace[i + 1])
  }

  /** n can follow n0. */
  ghost predicate Follows(links: Links, n0: Net, n: Net)
  {
    exists trace, acts :: Chain(links, trace, acts) && trace[0] == n0 && trace[|trace| - 1] == n
  }

  lemma Stays(links: Links, n: Net)
    ensures Follows(links, n, n)
  {
    assert Chain(links, [n], []);
  }

  lemma Continues(links: Links, n0: Net, n: Net, act: Action, n': Net)
    requires Follows(links, n0, n) && Next(links, n, act, n')
    ensures Follows(links, n0, n')
  {
    hide Next;
    var trace, acts :| Chain(links, trace, acts) && trace[0] == n0 && trace[|trace| - 1] == n;
    var trace', acts' := trace + [n'], acts + [act];
    forall i | 0 <= i < |acts'|
      ensures Next(links, trace'[i], acts'[i], trace'[i + 1])
    {
      if i < |acts| {
        assert trace'[i] == trace[i] && acts'[i] == acts[i] && trace'[i + 1] == trace[i + 1];
      }
    }
    assert Chain(links, trace', acts');
  }

  lemma {:induction false} FollowsOn(links: Links, n0: Net, n: Net, m: Net)
    requires Follows(links, n0, n) && Follows(links, n, m)
    ensures Follows(links, n0, m)
  {
    hide Next;
    var trace, acts :| Chain(links, trace, acts) && trace[0] == n && trace[|trace| - 1] == m;
    FollowsChain(links, n0, trace, acts, |acts|);
  }

  lemma {:induction false} FollowsChain(links: Links, n0: Net, trace: seq<Net>, acts: seq<Action>, i: nat)
    requires Chain(links, trace, acts) && i < |trace| && Follows(links, n0, trace[0])
    ensures Follows(links, n0, trace[i])
  {
    hide Next, Follows;
    if i > 0 {
      FollowsChain(links, n0, trace, acts, i - 1);
      Continues(links, n0, trace[i - 1], acts[i - 1], trace[i]);
    }
  }

  /** A chain from the beginning is a run. */
  lemma AsRun(links: Links, n0: Net, n: Net) returns (trace: seq<Net>, acts: seq<Action>)
    requires Init(n0) && Follows(links, n0, n)
    ensures Run(links, trace, acts) && trace[0] == n0 && trace[|trace| - 1] == n
  {
    hide Next, Init;
    trace, acts :| Chain(links, trace, acts) && trace[0] == n0 && trace[|trace| - 1] == n;
  }

  // ---- One step ------------------------------------------------------------------------------------

  ghost function Hear(rx: map<byte, seq<Packet>>, heard: set<byte>, p: Packet): map<byte, seq<Packet>>
  {
    map b | b in rx :: if b in heard then rx[b] + [p] else rx[b]
  }

  lemma HeardByOne(rx: map<byte, seq<Packet>>, b: byte, p: Packet)
    requires b in rx
    ensures Hear(rx, {b}, p) == rx[b := rx[b] + [p]]
  {
  }

  /** These nodes can hear c. */
  ghost predicate InReach(links: Links, n: Net, c: byte, heard: set<byte>)
  {
    forall b :: b in heard ==> b in n.rx && b != c && (c, b) in links
  }

  lemma HearingSpreads(links: Links, n: Net, c: byte, rx: map<byte, seq<Packet>>, heard: set<byte>, p: Packet)
    requires InReach(links, n, c, heard) && rx.Keys == n.rx.Keys
    ensures Spread(links, c, p, rx, Hear(rx, heard, p))
  {
  }

  /** A step without the radio. */
  lemma Acts(links: Links, n0: Net, n: Net, c: byte, e: Event, s': NodeState)
    requires Follows(links, n0, n) && c in n.nodes && c in n.rx && Step(n.nodes[c], e, s') && !e.Take? && !e.Transmit?
    ensures Follows(links, n0, n.(nodes := n.nodes[c := s']))
  {
    hide Follows, Step;
    Continues(links, n0, n, Act(c, e), n.(nodes := n.nodes[c := s']));
  }

  /** A transmission that exactly the nodes in `heard` receive. */
  lemma Sends(links: Links, n0: Net, n: Net, c: byte, p: Packet, s': NodeState, heard: set<byte>)
    requires Follows(links, n0, n) && c in n.nodes && c in n.rx && Step(n.nodes[c], Transmit(p), s')
    requires InReach(links, n, c, heard)
    ensures Follows(links, n0, Net(n.nodes[c := s'], Hear(n.rx, heard, p)))
  {
    hide Follows, Step, Spread, InReach, Hear;
    HearingSpreads(links, n, c, n.rx, heard, p);
    var n' := Net(n.nodes[c := s'], Hear(n.rx, heard, p));
    assert n'.nodes == n.nodes[c := n'.nodes[c]];
    Continues(links, n0, n, Act(c, Transmit(p)), n');
  }

  /** A frame taken and not answered. */
  lemma Takes(links: Links, n0: Net, n: Net, c: byte, p: Packet, s': NodeState)
    requires Follows(links, n0, n) && c in n.nodes && c in n.rx && Step(n.nodes[c], Take(p, None), s')
    requires n.rx[c] != [] && n.rx[c][0] == p
    ensures Follows(links, n0, Net(n.nodes[c := s'], n.rx[c := n.rx[c][1..]]))
  {
    hide Follows, Step;
    var n' := Net(n.nodes[c := s'], n.rx[c := n.rx[c][1..]]);
    assert n'.nodes == n.nodes[c := n'.nodes[c]];
    Continues(links, n0, n, Act(c, Take(p, None)), n');
  }

  /** A frame taken and answered with q. */
  lemma Replies(links: Links, n0: Net, n: Net, c: byte, p: Packet, q: Packet, s': NodeState, heard: set<byte>)
    requires Follows(links, n0, n) && c in n.nodes && c in n.rx && Step(n.nodes[c], Take(p, Some(q)), s')
    requires n.rx[c] != [] && n.rx[c][0] == p && InReach(links, n, c, heard)
    ensures Follows(links, n0, Net(n.nodes[c := s'], Hear(n.rx[c := n.rx[c][1..]], heard, q)))
  {
    hide Follows, Step, Spread, InReach, Hear;
    var rx := n.rx[c := n.rx[c][1..]];
    assert rx.Keys == n.rx.Keys;
    HearingSpreads(links, n, c, rx, heard, q);
    var n' := Net(n.nodes[c := s'], Hear(rx, heard, q));
    assert n'.nodes == n.nodes[c := n'.nodes[c]];
    Continues(links, n0, n, Act(c, Take(p, Some(q))), n');
  }

  /** The first k frames in b's queue are lost. */
  lemma {:induction false} Loses(links: Links, n0: Net, n: Net, b: byte, k: nat)
    requires Follows(links, n0, n) && b in n.rx && k <= |n.rx[b]|
    ensures Follows(links, n0, n.(rx := n.rx[b := n.rx[b][k..]]))
    decreases k
  {
    hide Follows;
    if k == 0 {
      assert n.rx[b := n.rx[b][0..]] == n.rx;
    } else {
      Loses(links, n0, n, b, k - 1);
      var q := n.rx[b];
      var m := n.(rx := n.rx[b := q[k - 1..]]);
      var n' := n.(rx := n.rx[b := q[k..]]);
      assert m.rx[b] == q[k - 1..] && q[k - 1..][..0] + q[k - 1..][1..] == q[k..];
      assert m.rx[b := q[k..]] == n'.rx;
      Continues(links, n0, m, Lose(b, 0), n');
    }
  }

  /** From n to n', only the listed nodes have moved. */
  ghost predicate OnlyMoved(n: Net, n': Net, movers: set<byte>)
  {
    && n'.nodes.Keys == n.nodes.Keys && n'.rx.Keys == n.rx.Keys
    && forall b :: b in n.nodes && b !in movers ==> n'.nodes[b] == n.nodes[b]
  }

  /** n' has the queues of n, except that c has taken the first of its own and the nodes in `heard` have got p. */
  ghost predicate Queues(n: Net, n': Net, c: byte, took: bool, heard: set<byte>, p: Packet)
  {
    && n'.rx.Keys == n.rx.Keys
    && forall b :: b in n.rx ==>
         n'.rx[b] == (if took && b == c && n.rx[b] != [] then n.rx[b][1..] else n.rx[b]) + (if b in heard then [p] else [])
  }

  // ---- Larger moves --------------------------------------------------------------------------------

  /** Frame `num` of node me: its first transmission of x. */
  ghost function FrameOf(me: byte, x: Sent, num: nat): Packet {
    Packet(Message(x.to, me, Low8(num), false, x.m), num, 0)
  }

  /** A node with nothing under way in any layer. */
  ghost predicate Idle(s: NodeState) {
    s.hop.NoHop? && s.arp.None? && s.job.None? && s.out.Quiet?
  }

  ghost function AskOf(me: byte, d: byte): Sent {
    Sent(Routed(BROADCAST, me, 0, Request(d, [])), BROADCAST, Ask)
  }

  /** s after Node::send(d, text) has broadcast its request and waits for an answer. */
  ghost function Sought(s: NodeState, d: byte, text: seq<byte>): NodeState {
    s.(out := Seeking(d, s.nextSeq, text), nextSeq := Next8(s.nextSeq), asked := s.asked + [Asked(d, text)],
       arp := Some(d), lastSeq := Next8(s.lastSeq), ledger := s.ledger + [AskOf(s.me, d)])
  }

  lemma SeekSteps(s: NodeState, d: byte, text: seq<byte>)
    requires Idle(s) && d !in {s.me, BROADCAST} && NextHop(s.table, d).None? && s.lastSeq == Low8(|s.ledger|)
    ensures var s3, x := Sought(s, d, text), AskOf(s.me, d);
            var s2 := s3.(hop := Sending(x, 0));
            var s1 := s2.(hop := NoHop, arp := None, lastSeq := s.lastSeq, ledger := s.ledger);
            && Step(s, Call(d, text), s1) && Step(s1, Try, s2) && Step(s2, Transmit(FrameOf(s.me, x, |s.ledger| + 1)), s3)
            && s3.lastSeq == Low8(|s3.ledger|)
  {
    hide NextHop;
  }

  /** A node looks for a route to d, and the nodes in `heard` get its request. */
  lemma Seeks(links: Links, n0: Net, n: Net, c: byte, d: byte, text: seq<byte>, heard: set<byte>) returns (n': Net)
    requires Follows(links, n0, n) && c in n.nodes && c in n.rx && n.nodes[c].me == c && InReach(links, n, c, heard)
    requires var s := n.nodes[c];
      Idle(s) && d !in {c, BROADCAST} && NextHop(s.table, d).None? && s.lastSeq == Low8(|s.ledger|)
    ensures Follows(links, n0, n') && OnlyMoved(n, n', {c}) && n'.nodes[c] == Sought(n.nodes[c], d, text)
    ensures Queues(n, n', c, false, heard, FrameOf(c, AskOf(c, d), |n.nodes[c].ledger| + 1))
  {
    hide Follows, Step, NextHop, Hear, InReach, Sought;
    var s := n.nodes[c];
    SeekSteps(s, d, text);
    var s3 := Sought(s, d, text);
    var s2 := s3.(hop := Sending(AskOf(c, d), 0));
    var s1 := s2.(hop := NoHop, arp := None, lastSeq := s.lastSeq, ledger := s.ledger);
    Acts(links, n0, n, c, Call(d, text), s1);
    var n1 := n.(nodes := n.nodes[c := s1]);
    Acts(links, n0, n1, c, Try, s2);
    var n2 := n.(nodes := n.nodes[c := s2]);
    assert n1.nodes[c := s2] == n2.nodes;
    assert InReach(links, n2, c, heard) by { SameReach(links, n, n2, c, heard); }
    Sends(links, n0, n2, c, FrameOf(c, AskOf(c, d), |s.ledger| + 1), s3, heard);
    n' := Net(n2.nodes[c := s3], Hear(n2.rx, heard, FrameOf(c, AskOf(c, d), |s.ledger| + 1)));
    HearQueues(n, n', c, heard, FrameOf(c, AskOf(c, d), |s.ledger| + 1));
  }

  lemma HearQueues(n: Net, n': Net, c: byte, heard: set<byte>, p: Packet)
    requires n'.rx == Hear(n.rx, heard, p)
    ensures Queues(n, n', c, false, heard, p)
  {
    forall b | b in n.rx
      ensures n'.rx[b] == n.rx[b] + if b in heard then [p] else []
    {
      assert n.rx[b] + [] == n.rx[b];
    }
  }

  lemma TakeQueues(n: Net, n': Net, c: byte, heard: set<byte>, p: Packet)
    requires c in n.rx && n.rx[c] != [] && n'.rx == Hear(n.rx[c := n.rx[c][1..]], heard, p)
    ensures Queues(n, n', c, true, heard, p)
  {
    forall b | b in n.rx
      ensures n'.rx[b] == (if b == c then n.rx[b][1..] else n.rx[b]) + if b in heard then [p] else []
    {
      assert n.rx[b] + [] == n.rx[b] && n.rx[c][1..] + [] == n.rx[c][1..];
    }
  }

  lemma SameReach(links: Links, n: Net, n': Net, c: byte, heard: set<byte>)
    requires InReach(links, n, c, heard) && n'.rx.Keys == n.rx.Keys
    ensures InReach(links, n', c, heard)
  {
  }

  /** The discovery times out, and Node::send returns NoRoute. */
  lemma Desists(links: Links, n0: Net, n: Net, c: byte) returns (n': Net)
    requires Follows(links, n0, n) && c in n.nodes && c in n.rx
    requires var s := n.nodes[c]; s.hop.NoHop? && s.arp.Some? && s.job.None? && s.out.Seeking?
    ensures Follows(links, n0, n') && OnlyMoved(n, n', {c}) && n'.rx == n.rx
    ensures n'.nodes[c] == n.nodes[c].(arp := None, out := Quiet)
  {
    hide Follows;
    var s := n.nodes[c];
    Acts(links, n0, n, c, ArpExpired, s.(arp := None));
    var n1 := n.(nodes := n.nodes[c := s.(arp := None)]);
    Acts(links, n0, n1, c, Abandon, s.(arp := None, out := Quiet));
    n' := n1.(nodes := n1.nodes[c := s.(arp := None, out := Quiet)]);
  }

  /** The rebroadcast of request p by node me. */
  ghost function RelayOf(me: byte, p: Packet): Sent
    requires p.f.Message? && p.f.m.body.Request?
  {
    Sent(Routed(BROADCAST, p.f.m.source, 0, Request(p.f.m.body.sought, p.f.m.body.path + [me])), BROADCAST, Relay(p.f.from, p.num))
  }

  /** s after it has taken request p and rebroadcast it. */
  ghost function Passed(s: NodeState, p: Packet): NodeState
    requires p.f.Message? && p.f.m.body.Request?
  {
    Noted(s, p).(table := Learn(AddRoute(s.table, p.f.m.source, p.f.from), p.f.m.body.path, p.f.from),
                 lastSeq := Next8(s.lastSeq), ledger := s.ledger + [RelayOf(s.me, p)])
  }

  /** A request a router passes on. */
  ghost predicate PassesOn(s: NodeState, p: Packet)
  {
    && Accepts(s, p) && p.f.to == BROADCAST && p.f.from != s.me && s.arp.None? && s.job.None? && s.router
    && p.f.m.dest == BROADCAST && p.f.m.body.Request? && s.me !in [p.f.m.source, p.f.m.body.sought] + p.f.m.body.path
    && |p.f.m.body.path| < MAX_HOPS
    && s.lastSeq == Low8(|s.ledger|) && s.me != BROADCAST
  }

  lemma PassSteps(s: NodeState, p: Packet)
    requires PassesOn(s, p)
    ensures var s2, x := Passed(s, p), RelayOf(s.me, p);
            var s1 := s2.(hop := Sending(x, 0));
            Step(s, Take(p, None), s1) && Step(s1, Transmit(FrameOf(s.me, x, |s.ledger| + 1)), s2)
  {
    hide Learn, AddRoute;
    assert s.me !in p.f.m.body.path && s.me != p.f.m.source && s.me != p.f.m.body.sought by {
      var all := [p.f.m.source, p.f.m.body.sought] + p.f.m.body.path;
      assert all[0] == p.f.m.source && all[1] == p.f.m.body.sought;
      assert forall i :: 0 <= i < |p.f.m.body.path| ==> all[i + 2] == p.f.m.body.path[i];
    }
    assert Receive(s, p) == Passed(s, p).(hop := Sending(RelayOf(s.me, p), 0));
  }

  /** A router takes the request at the head of its queue and passes it on to the nodes in `heard`. */
  lemma Relays(links: Links, n0: Net, n: Net, c: byte, heard: set<byte>) returns (n': Net)
    requires Follows(links, n0, n) && c in n.nodes && c in n.rx && n.nodes[c].me == c && InReach(links, n, c, heard)
    requires n.rx[c] != [] && PassesOn(n.nodes[c], n.rx[c][0])
    ensures Follows(links, n0, n') && OnlyMoved(n, n', {c}) && n'.nodes[c] == Passed(n.nodes[c], n.rx[c][0])
    ensures Queues(n, n', c, true, heard, FrameOf(c, RelayOf(c, n.rx[c][0]), |n.nodes[c].ledger| + 1))
  {
    hide Follows, Step, Hear, InReach, Passed;
    var s, p := n.nodes[c], n.rx[c][0];
    PassSteps(s, p);
    hide PassesOn;
    var s2 := Passed(s, p);
    var s1 := s2.(hop := Sending(RelayOf(c, p), 0));
    Takes(links, n0, n, c, p, s1);
    var n1 := Net(n.nodes[c := s1], n.rx[c := n.rx[c][1..]]);
    SameReach(links, n, n1, c, heard);
    Sends(links, n0, n1, c, FrameOf(c, RelayOf(c, p), |s.ledger| + 1), s2, heard);
    n' := Net(n1.nodes[c := s2], Hear(n1.rx, heard, FrameOf(c, RelayOf(c, p), |s.ledger| + 1)));
    TakeQueues(n, n', c, heard, FrameOf(c, RelayOf(c, p), |s.ledger| + 1));
  }

  /** The state of the sender once its message x has been acknowledged at the first try. */
  ghost function HandedOver(s: NodeState): NodeState
  {
    if s.hop.NoHop? then s
    else Complete(s.(hop := Sending(s.hop.x, 1), handed := s.handed + [Handed(|s.ledger|, s.hop.x.to, |s.ledger|, |s.ledger|)]), true)
  }

  ghost predicate CanHandOver(u: byte, su: NodeState, v: byte, sv: NodeState)
  {
    && su.me == u && sv.me == v && u != v && u != BROADCAST && v != BROADCAST
    && su.hop.Sending? && su.hop.tries == 0 && su.hop.x.to == v && su.lastSeq == Low8(|su.ledger|)
    && Listening(sv) && Accepts(sv, FrameOf(u, su.hop.x, |su.ledger|))
  }

  lemma HandOverSteps(u: byte, su: NodeState, v: byte, sv: NodeState)
    requires CanHandOver(u, su, v, sv)
    ensures var num := |su.ledger|;
            var p, q := FrameOf(u, su.hop.x, num), Packet(HopAck(u, v, Low8(num), false), num, num);
            var su1 := su.(hop := Sending(su.hop.x, 1));
            && Step(su, Transmit(p), su1) && Step(sv, Take(p, Some(q)), Receive(sv, p)) && Step(su1, Take(q, None), HandedOver(su))
  {
    hide Complete, Accept;
    var num := |su.ledger|;
    var p, q := FrameOf(u, su.hop.x, num), Packet(HopAck(u, v, Low8(num), false), num, num);
    assert Reacts(Noted(sv, p), Receive(sv, p));
    assert Receive(sv, p).lastNum[u] == num;
    assert q == Packet(HopAck(p.f.from, sv.me, p.f.id, false), p.num, Receive(sv, p).lastNum[u]);
  }

  /** u hands its message over to v at the first try: v takes it, u takes the acknowledgement. */
  lemma HandsOver(links: Links, n0: Net, n: Net, u: byte, v: byte) returns (n': Net)
    requires Follows(links, n0, n) && u in n.nodes && v in n.nodes && n.rx.Keys == n.nodes.Keys
    requires CanHandOver(u, n.nodes[u], v, n.nodes[v]) && n.rx[u] == [] && n.rx[v] == [] && (u, v) in links && (v, u) in links
    ensures Follows(links, n0, n') && OnlyMoved(n, n', {u, v}) && n'.rx == n.rx
    ensures n'.nodes[u] == HandedOver(n.nodes[u])
    ensures n'.nodes[v] == Receive(n.nodes[v], FrameOf(u, n.nodes[u].hop.x, |n.nodes[u].ledger|))
  {
    hide Follows, Step, HandedOver, Receive;
    var su, sv := n.nodes[u], n.nodes[v];
    HandOverSteps(u, su, v, sv);
    var num := |su.ledger|;
    var p, q := FrameOf(u, su.hop.x, num), Packet(HopAck(u, v, Low8(num), false), num, num);
    var su1, sv1 := su.(hop := Sending(su.hop.x, 1)), Receive(sv, p);
    assert u != v;
    hide CanHandOver, Hear;
    Sends(links, n0, n, u, p, su1, {v});
    var n1 := Net(n.nodes[u := su1], n.rx[v := [p]]);
    HeardByOne(n.rx, v, p);
    assert [] + [p] == [p] && [] + [q] == [q] && [p][1..] == [] && [q][1..] == [];
    HeardByOne(n1.rx[v := []], u, q);
    Replies(links, n0, n1, v, p, q, sv1, {u});
    var n2 := Net(n.nodes[u := su1][v := sv1], n.rx[u := [q]]);
    assert n1.rx[v := []][u := [q]] == n2.rx;
    Takes(links, n0, n2, u, q, HandedOver(su));
    assert n2.rx[u := []] == n.rx;
    n' := Net(n2.nodes[u := HandedOver(su)], n.rx);
  }
}
