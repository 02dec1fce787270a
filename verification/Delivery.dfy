/**
  The protocol can succeed: there is a run in which a first send discovers its route through another node, is
  forwarded there, is handled at the destination and returns Delivered. So the theorems about all runs speak
  about runs in which something happens.
*/
module Delivery {
  import opened Types
  import opened Protocol
  import opened Network
  import opened Learning
  import opened Reach
  import RT = RoutingTable
  import EndToEnd
  import SmallWorld

  /** a sends text to b; c stands between them. All have just been switched on, with this memory. */
  datatype Cast = Cast(a: byte, c: byte, b: byte, text: seq<byte>, memory: Slots) {
    ghost predicate Ok() {
      a != b && a != c && b != c && BROADCAST !in {a, b, c}
    }

    function World(): set<byte> { {a, b, c} }

    ghost function Line(): Links { {(a, c), (c, a), (c, b), (b, c)} }

    ghost function New(x: byte): NodeState { Fresh(x, true, RT.Cleared(memory)) }

    ghost function Start(): Net {
      Net(map[a := New(a), c := New(c), b := New(b)], map[a := [], c := [], b := []])
    }
  }

  ghost predicate Are(k: Cast, n: Net, sa: NodeState, sc: NodeState, sb: NodeState, qc: seq<Packet>, qb: seq<Packet>)
  {
    && n.nodes.Keys == n.rx.Keys == {k.a, k.b, k.c}
    && n.nodes[k.a] == sa && n.nodes[k.c] == sc && n.nodes[k.b] == sb
    && n.rx[k.a] == [] && n.rx[k.c] == qc && n.rx[k.b] == qb
  }

  // ---- The messages, in order ----------------------------------------------------------------------

  ghost function Wanted(k: Cast): Packet { FrameOf(k.a, AskOf(k.a, k.b), 1) }
  ghost function Passed1(k: Cast): Packet { FrameOf(k.c, RelayOf(k.c, Wanted(k)), 1) }
  ghost function Found(k: Cast): Sent { Sent(Routed(k.a, k.b, 0, Response(k.b, [k.c])), k.c, Answer(k.c, 1)) }
  ghost function Found'(k: Cast): Sent { Sent(Routed(k.a, k.b, 1, Response(k.b, [k.c])), k.a, Relay(k.b, 1)) }
  ghost function Carried(k: Cast): Sent { Sent(Routed(k.b, k.a, 0, Data(0, k.text)), k.c, Own(1)) }
  ghost function Carried'(k: Cast): Sent { Sent(Routed(k.b, k.a, 1, Data(0, k.text)), k.b, Relay(k.a, 2)) }
  ghost function Told(k: Cast): Sent { Sent(Routed(k.a, k.b, 0, EndAck(0)), k.c, Answer(k.c, 3)) }
  ghost function Told'(k: Cast): Sent { Sent(Routed(k.a, k.b, 1, EndAck(0)), k.a, Relay(k.b, 2)) }

  // ---- The states ----------------------------------------------------------------------------------

  ghost function A1(k: Cast): NodeState { Sought(k.New(k.a), k.b, k.text) }
  ghost function A2(k: Cast): NodeState { Receive(A1(k), FrameOf(k.c, Found'(k), 2)) }
  ghost function A3(k: Cast): NodeState { HandedOver(A2(k)) }
  ghost function A4(k: Cast): NodeState { Receive(A3(k), FrameOf(k.c, Told'(k), 4)) }

  ghost function C1(k: Cast): NodeState { Passed(k.New(k.c), Wanted(k)) }
  ghost function C2(k: Cast): NodeState { Receive(C1(k), FrameOf(k.b, Found(k), 1)) }
  ghost function C3(k: Cast): NodeState { HandedOver(C2(k)) }
  ghost function C4(k: Cast): NodeState { Receive(C3(k), FrameOf(k.a, Carried(k), 2)) }
  ghost function C5(k: Cast): NodeState { HandedOver(C4(k)) }
  ghost function C6(k: Cast): NodeState { Receive(C5(k), FrameOf(k.b, Told(k), 2)) }

  ghost function B1(k: Cast): NodeState { Receive(k.New(k.b), Passed1(k)) }
  ghost function B2(k: Cast): NodeState { HandedOver(B1(k)) }
  ghost function B3(k: Cast): NodeState { Receive(B2(k), FrameOf(k.c, Carried'(k), 3)) }
  ghost function B4(k: Cast): NodeState { Launch'(B3(k)) }
  ghost function B5(k: Cast): NodeState { HandedOver(B4(k)) }

  ghost function Launch'(s: NodeState): NodeState { if HasPending(s) then Launch(s) else s }

  /** What most of the states have in common: who it is, and its counters. */
  ghost predicate Counts(s: NodeState, me: byte, sends: nat) {
    s.me == me && s.router && |s.ledger| == sends && s.lastSeq == Low8(sends)
  }

  lemma NewIs(k: Cast, x: byte)
    ensures var s := k.New(x); Idle(s) && Counts(s, x, 0) && s.table == RT.Cleared(k.memory) && s.seen == seq(256, i => 0)
    ensures k.New(x).asked == [] && k.New(x).inbox == [] && k.New(x).confirmed == [] && k.New(x).nextSeq == 0
  {
    hide RT.Cleared;
  }

  lemma Empty(k: Cast)
    ensures RT.StaleBehind(RT.Cleared(k.memory)) && SmallWorld.Within10(RT.Cleared(k.memory), k.World()) && |k.World()| <= RT.SLOTS
    ensures forall d: byte :: NextHop(RT.Cleared(k.memory), d).None?
  {
    EndToEnd.FreshIsOk(1, true, k.memory);
  }

  lemma A1Is(k: Cast)
    ensures var s := A1(k);
            && Counts(s, k.a, 1) && s.hop.NoHop? && s.arp == Some(k.b) && s.job.None? && s.out == Seeking(k.b, 0, k.text)
            && s.asked == [Asked(k.b, k.text)] && s.seen[k.c] == 0 && s.confirmed == [] && s.table == RT.Cleared(k.memory)
  {
    hide Cast.New, RT.Cleared;
    NewIs(k, k.a);
  }

  /** Nobody is listed beyond a node that is not in the list, or the last in it. */
  lemma NobodyBeyond(x: byte, me: byte)
    ensures Beyond([x], me) == []
  {
    var path := [x];
    assert path[1..] == [] && Beyond([], me) == [];
  }

  lemma Hears(s: NodeState, m: Routed, from: byte)
    requires m.body.Response? && Beyond(m.body.path, s.me) == []
    ensures Peek(s, m, from) == s.(table := AddRoute(s.table, m.body.target, from))
  {
    hide Beyond, AddRoute;
  }

  lemma A2Is(k: Cast)
    requires k.Ok()
    ensures var s := A2(k);
            && Counts(s, k.a, 2) && s.hop == Sending(Carried(k), 0) && s.arp.None? && s.job.None? && s.out == Seeking(k.b, 0, k.text)
            && s.asked == [Asked(k.b, k.text)] && s.seen[k.c] == 2 && s.confirmed == []
  {
    hide A1, RT.Cleared, AddRoute, NextHop, RT.StaleBehind, SmallWorld.Within10, Peek, Noted;
    A1Is(k);
    Empty(k);
    var t := RT.Cleared(k.memory);
    SmallWorld.NothingEvicted(t, k.World(), k.b, k.c, k.b);
    SmallWorld.NothingEvicted(AddRoute(t, k.b, k.c), k.World(), k.b, k.c, k.b);
    A2Comes(k);
    NotedIs(A1(k), FrameOf(k.c, Found'(k), 2));
  }

  lemma A2Comes(k: Cast)
    requires k.Ok()
    ensures var s, p := A1(k), FrameOf(k.c, Found'(k), 2);
            A2(k) == DeliverInArp(Noted(s, p).(table := AddRoute(RT.Cleared(k.memory), k.b, k.c)), p.f.m, k.c)
  {
    hide A1, RT.Cleared, AddRoute, Peek, Noted, DeliverInArp;
    A1Is(k);
    var s, p := A1(k), FrameOf(k.c, Found'(k), 2);
    NotedIs(s, p);
    NobodyBeyond(k.c, k.a);
    Hears(Noted(s, p), p.f.m, k.c);
  }

  lemma NotedIs(s: NodeState, p: Packet)
    ensures Noted(s, p) == s.(seen := s.seen[p.f.from := p.f.id], lastNum := Noted(s, p).lastNum, taken := Noted(s, p).taken)
  {
  }

  lemma A3Is(k: Cast)
    requires k.Ok()
    ensures var s := A3(k);
            && s.me == k.a && s.hop.NoHop? && s.arp.None? && s.job.None? && s.out == Waiting(k.b, 0)
            && s.asked == [Asked(k.b, k.text)] && s.seen[k.c] == 2 && s.confirmed == []
  {
    hide A2;
    A2Is(k);
  }

  lemma A4Is(k: Cast)
    requires k.Ok()
    ensures var s := A4(k);
            s.out.Quiet? && s.asked == [Asked(k.b, k.text)] && s.confirmed == [Confirmed(1, Got(Told'(k).m, k.c, 4))]
  {
    hide A3, NextHop;
    A3Is(k);
  }

  lemma C1Is(k: Cast)
    requires k.Ok()
    ensures var s := C1(k);
            && Counts(s, k.c, 1) && s.hop.NoHop? && s.arp.None? && s.job.None?
            && s.seen[k.b] == 0 && s.seen[k.a] == 1 && s.table == AddRoute(RT.Cleared(k.memory), k.a, k.a)
  {
    hide Cast.New, RT.Cleared, RT.Add;
    NewIs(k, k.c);
  }

  /** A node between two that it has routes to. */
  ghost predicate Between(k: Cast, s: NodeState, sends: nat, idA: byte, idB: byte)
  {
    && Counts(s, k.c, sends) && s.arp.None? && s.job.None? && s.seen[k.a] == idA && s.seen[k.b] == idB
    && NextHop(s.table, k.a) == Some(k.a) && NextHop(s.table, k.b) == Some(k.b)
  }

  lemma C2Is(k: Cast)
    requires k.Ok()
    ensures Between(k, C2(k), 2, 1, 1) && C2(k).hop == Sending(Found'(k), 0)
  {
    hide C1, RT.Cleared, RT.Add, NextHop, RT.StaleBehind, SmallWorld.Within10, Peek;
    C1Is(k);
    Empty(k);
    var t := RT.Cleared(k.memory);
    SmallWorld.NothingEvicted(t, k.World(), k.a, k.a, k.a);
    SmallWorld.NothingEvicted(AddRoute(t, k.a, k.a), k.World(), k.b, k.b, k.a);
    var s, p := C1(k), FrameOf(k.b, Found(k), 1);
    NobodyBeyond(k.c, k.c);
    Hears(Noted(s, p), p.f.m, k.b);
  }

  /** It has passed a message on, and been acknowledged. */
  lemma FreeAgain(k: Cast, s: NodeState, sends: nat, idA: byte, idB: byte)
    requires Between(k, s, sends, idA, idB) && s.hop.Sending? && s.hop.x.why.Relay?
    ensures Between(k, HandedOver(s), sends, idA, idB) && HandedOver(s).hop.NoHop? && HandedOver(s).ledger == s.ledger
  {
    hide NextHop;
  }

  /** It takes another to pass on. */
  lemma PassesOnwards(k: Cast, s: NodeState, sends: nat, idA: byte, idB: byte, p: Packet, to: byte)
    requires k.Ok() && Between(k, s, sends, idA, idB) && s.hop.NoHop? && Accepts(s, p) && p.f.from in {k.a, k.b} && to in {k.a, k.b}
    requires (p.f.m.body.Data? || p.f.m.body.EndAck?) && p.f.m.dest == to && p.f.m.hops == 0
    ensures var s' := Receive(s, p);
            && Between(k, s', sends + 1, if p.f.from == k.a then p.f.id else idA, if p.f.from == k.b then p.f.id else idB)
            && s'.hop == Sending(Sent(p.f.m.(hops := 1), to, Relay(p.f.from, p.num)), 0)
            && s'.ledger == s.ledger + [Sent(p.f.m.(hops := 1), to, Relay(p.f.from, p.num))]
  {
    hide NextHop;
  }

  lemma CsAre(k: Cast)
    requires k.Ok()
    ensures Between(k, C3(k), 2, 1, 1) && C3(k).hop.NoHop?
    ensures Between(k, C4(k), 3, 2, 1) && C4(k).hop == Sending(Carried'(k), 0)
    ensures Between(k, C5(k), 3, 2, 1) && C5(k).hop.NoHop?
    ensures Between(k, C6(k), 4, 2, 2) && C6(k).hop == Sending(Told'(k), 0)
    ensures |HandedOver(C6(k)).ledger| == 4 && HandedOver(C6(k)).ledger[2] == Carried'(k)
  {
    hide C2, Between, Receive, HandedOver;
    C2Is(k);
    FreeAgain(k, C2(k), 2, 1, 1);
    Filters(k, C3(k), 2, 1, 1);
    PassesOnwards(k, C3(k), 2, 1, 1, FrameOf(k.a, Carried(k), 2), k.b);
    FreeAgain(k, C4(k), 3, 2, 1);
    Filters(k, C5(k), 3, 2, 1);
    PassesOnwards(k, C5(k), 3, 2, 1, FrameOf(k.b, Told(k), 2), k.a);
    FreeAgain(k, C6(k), 4, 2, 2);
    Filters(k, C6(k), 4, 2, 2);
  }

  lemma Filters(k: Cast, s: NodeState, sends: nat, idA: byte, idB: byte)
    requires Between(k, s, sends, idA, idB)
    ensures s.me == k.c && s.seen[k.a] == idA && s.seen[k.b] == idB && (s.hop.NoHop? ==> Listening(s))
    ensures |s.ledger| == sends && s.lastSeq == Low8(sends)
  {
  }

  lemma B1Is(k: Cast)
    requires k.Ok()
    ensures Step(k.New(k.b), Take(Passed1(k), None), B1(k))
    ensures var s := B1(k);
            && Counts(s, k.b, 1) && s.hop == Sending(Found(k), 0) && s.arp.None? && s.job.None? && s.seen[k.c] == 1 && s.inbox == []
            && s.out.Quiet? && NextHop(s.table, k.a) == Some(k.c)
  {
    hide Cast.New, RT.Cleared, RT.Add, NextHop, RT.StaleBehind, SmallWorld.Within10;
    NewIs(k, k.b);
    Empty(k);
    var none: seq<byte> := [];
    assert none + [k.c] == [k.c];
    var t := RT.Cleared(k.memory);
    SmallWorld.NothingEvicted(t, k.World(), k.a, k.c, k.a);
    SmallWorld.NothingEvicted(AddRoute(t, k.a, k.c), k.World(), k.c, k.c, k.a);
    assert Learn(AddRoute(t, k.a, k.c), [k.c], k.c) == AddRoute(AddRoute(t, k.a, k.c), k.c, k.c) by { LearnsOne(AddRoute(t, k.a, k.c), k.c, k.c); }
  }

  lemma LearnsOne(t: Slots, d: byte, n: byte)
    ensures Learn(t, [d], n) == AddRoute(t, d, n)
  {
    assert [d][1..] == [];
  }

  lemma B2Is(k: Cast)
    requires k.Ok()
    ensures var s := B2(k);
            && Counts(s, k.b, 1) && s.hop.NoHop? && s.arp.None? && s.job.None? && s.seen[k.c] == 1 && s.inbox == [] && s.out.Quiet?
            && NextHop(s.table, k.a) == Some(k.c)
  {
    hide B1, NextHop;
    B1Is(k);
  }

  lemma B3Is(k: Cast)
    requires k.Ok()
    ensures var s := B3(k);
            && Counts(s, k.b, 1) && s.hop.NoHop? && s.arp.None? && s.job == Some(Got(Carried'(k).m, k.c, 3)) && s.inbox == []
            && s.out.Quiet? && NextHop(s.table, k.a) == Some(k.c)
  {
    hide B2, NextHop;
    B2Is(k);
  }

  lemma B4Is(k: Cast)
    requires k.Ok()
    ensures Step(B3(k), Try, B4(k)) && Counts(B4(k), k.b, 2) && B4(k).hop == Sending(Told(k), 0)
    ensures B5(k).inbox == [Got(Carried'(k).m, k.c, 3)]
  {
    hide B3, NextHop;
    B3Is(k);
  }

  // ---- The run -------------------------------------------------------------------------------------

  lemma LineStarts(k: Cast)
    requires k.Ok()
    ensures Init(k.Start()) && Follows(k.Line(), k.Start(), k.Start())
    ensures Are(k, k.Start(), k.New(k.a), k.New(k.c), k.New(k.b), [], [])
  {
    hide Follows, RT.Cleared, Init;
    Stays(k.Line(), k.Start());
    AllNew(k);
  }

  lemma AllNew(k: Cast)
    requires k.Ok()
    ensures Init(k.Start())
  {
    hide RT.Cleared;
  }

  lemma Asking(k: Cast) returns (n: Net)
    requires k.Ok()
    ensures Follows(k.Line(), k.Start(), n) && Are(k, n, A1(k), k.New(k.c), k.New(k.b), [Wanted(k)], [])
  {
    hide Follows, NextHop, Init, Sought, Cast.New, Cast.Start, RT.Cleared;
    LineStarts(k);
    NewIs(k, k.a);
    Empty(k);
    n := Seeks(k.Line(), k.Start(), k.Start(), k.a, k.b, k.text, {k.c});
  }

  lemma Relaying(k: Cast) returns (n: Net)
    requires k.Ok()
    ensures Follows(k.Line(), k.Start(), n) && Are(k, n, A1(k), C1(k), k.New(k.b), [], [Passed1(k)])
  {
    hide Follows, NextHop, Passed, Cast.New, Cast.Start, A1;
    n := Asking(k);
    NewIs(k, k.c);
    n := Relays(k.Line(), k.Start(), n, k.c, {k.b});
  }

  lemma Discovery(k: Cast) returns (n: Net)
    requires k.Ok()
    ensures Follows(k.Line(), k.Start(), n) && Are(k, n, A1(k), C1(k), B1(k), [], [])
  {
    hide Follows, NextHop, Receive, Cast.New, Cast.Start, A1, C1, B1, Step;
    n := Relaying(k);
    B1Is(k);
    assert [Passed1(k)][1..] == [];
    Takes(k.Line(), k.Start(), n, k.b, Passed1(k), B1(k));
    n := Net(n.nodes[k.b := B1(k)], n.rx[k.b := n.rx[k.b][1..]]);
  }

  lemma RouteFound(k: Cast) returns (n: Net)
    requires k.Ok()
    ensures Follows(k.Line(), k.Start(), n) && Are(k, n, A2(k), C3(k), B2(k), [], [])
  {
    hide Follows, NextHop, Receive, HandedOver, Cast.New, Cast.Start, Between, Sought, Passed;
    n := Discovery(k);
    A1Is(k);
    C1Is(k);
    B1Is(k);
    n := HandsOver(k.Line(), k.Start(), n, k.b, k.c);
    C2Is(k);
    Filters(k, C2(k), 2, 1, 1);
    n := HandsOver(k.Line(), k.Start(), n, k.c, k.a);
  }

  lemma DataForwarded(k: Cast) returns (n: Net)
    requires k.Ok()
    ensures Follows(k.Line(), k.Start(), n) && Are(k, n, A3(k), C5(k), B3(k), [], [])
  {
    hide Follows, NextHop, Receive, HandedOver, Cast.New, Cast.Start, Between, Sought, Passed;
    n := RouteFound(k);
    A2Is(k);
    CsAre(k);
    Filters(k, C3(k), 2, 1, 1);
    n := HandsOver(k.Line(), k.Start(), n, k.a, k.c);
    Filters(k, C4(k), 3, 2, 1);
    B2Is(k);
    n := HandsOver(k.Line(), k.Start(), n, k.c, k.b);
  }

  lemma AckForwarded(k: Cast) returns (n: Net)
    requires k.Ok()
    ensures Follows(k.Line(), k.Start(), n) && Are(k, n, A4(k), HandedOver(C6(k)), B5(k), [], [])
  {
    hide Follows, NextHop, Receive, HandedOver, Cast.New, Cast.Start, Between, Sought, Passed, Step, Launch';
    n := DataForwarded(k);
    B4Is(k);
    Acts(k.Line(), k.Start(), n, k.b, Try, B4(k));
    n := n.(nodes := n.nodes[k.b := B4(k)]);
    CsAre(k);
    Filters(k, C5(k), 3, 2, 1);
    n := HandsOver(k.Line(), k.Start(), n, k.b, k.c);
    Filters(k, C6(k), 4, 2, 2);
    A3Is(k);
    n := HandsOver(k.Line(), k.Start(), n, k.c, k.a);
  }

  /**
    A send through another node can be delivered: discovered, forwarded, handled once with its bytes and one
    hop, and confirmed.
  */
  lemma DeliveryHappens(a: byte, c: byte, b: byte, text: seq<byte>, memory: Slots) returns (trace: seq<Net>, acts: seq<Action>)
    requires a != b && a != c && b != c && BROADCAST !in {a, b, c}
    ensures Run({(a, c), (c, a), (c, b), (b, c)}, trace, acts)
    ensures var ns := trace[|trace| - 1].nodes;
            && ns.Keys == {a, b, c} && ns[a].asked == [Asked(b, text)] && ns[a].out.Quiet?
            && |ns[a].confirmed| == 1 && ns[a].confirmed[0].k == 1
            && |ns[b].inbox| == 1 && ns[b].inbox[0].m == Routed(b, a, 1, Data(0, text))
            && |ns[c].ledger| == 4 && ns[c].ledger[2] == Sent(Routed(b, a, 1, Data(0, text)), b, Relay(a, 2))
  {
    var k := Cast(a, c, b, text, memory);
    hide Follows, Receive, HandedOver, Init, Next, NextHop, Between, Cast.Start, Launch', Cast.New;
    LineStarts(k);
    var n := AckForwarded(k);
    A4Is(k);
    B4Is(k);
    CsAre(k);
    trace, acts := AsRun(k.Line(), k.Start(), n);
  }
}
