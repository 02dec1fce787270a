/** Two runs in which route discovery goes wrong: on a cycle, and with a late reply on a tree. */
module Scenes {
  import opened Types
  import opened Protocol
  import opened Network
  import opened Learning
  import opened Paths
  import opened Reach
  import RT = RoutingTable
  import SmallWorld
  import EndToEnd

  // ---- A cycle -------------------------------------------------------------------------------------

  /** The cycle 1 - 2 - 3 - 4 - 1. */
  ghost const CYCLE: Links := {(1, 2), (2, 1), (2, 3), (3, 2), (3, 4), (4, 3), (4, 1), (1, 4)}

  /** Four nodes and their queues. */
  ghost function Four(s1: NodeState, s2: NodeState, s3: NodeState, s4: NodeState,
                      q2: seq<Packet>, q3: seq<Packet>, q4: seq<Packet>): Net
  {
    Net(map[1 := s1, 2 := s2, 3 := s3, 4 := s4], map[1 := [], 2 := q2, 3 := q3, 4 := q4])
  }

  ghost function New(me: byte, memory: Slots): NodeState { Fresh(me, true, RT.Cleared(memory)) }

  ghost function Ring(memory: Slots): Net {
    Four(New(1, memory), New(2, memory), New(3, memory), New(4, memory), [], [], [])
  }

  // The frames: 1 asks for `sought`, and who passes that on. The list of each is in its name.
  ghost function Asked1(sought: byte): Packet { FrameOf(1, AskOf(1, sought), 1) }
  ghost function Via4(sought: byte): Packet { FrameOf(4, RelayOf(4, Asked1(sought)), 1) }
  ghost function Via2(sought: byte): Packet { FrameOf(2, RelayOf(2, Asked1(sought)), 1) }
  ghost function Via43(sought: byte): Packet { FrameOf(3, RelayOf(3, Via4(sought)), 1) }

  ghost function One(memory: Slots, sought: byte): NodeState { Sought(New(1, memory), sought, []) }
  ghost function Two(memory: Slots, sought: byte): NodeState { Passed(New(2, memory), Asked1(sought)) }
  ghost function Two'(memory: Slots, sought: byte): NodeState { Passed(Two(memory, sought), Via43(sought)) }
  ghost function Three(memory: Slots, sought: byte): NodeState { Passed(New(3, memory), Via4(sought)) }
  ghost function Three'(memory: Slots, sought: byte): NodeState { Passed(Three(memory, sought), Via2(sought)) }
  ghost function Fourth(memory: Slots, sought: byte): NodeState { Passed(New(4, memory), Asked1(sought)) }

  lemma RingStarts(memory: Slots)
    ensures Init(Ring(memory)) && Follows(CYCLE, Ring(memory), Ring(memory))
    ensures forall d: byte :: NextHop(RT.Cleared(memory), d).None?
  {
    hide Follows, NextHop, RT.StaleBehind, RT.Cleared;
    Stays(CYCLE, Ring(memory));
    EndToEnd.FreshIsOk(1, true, memory);
  }

  /** The four nodes and their queues are in these states. */
  ghost predicate IsFour(n: Net, s1: NodeState, s2: NodeState, s3: NodeState, s4: NodeState,
                         q2: seq<Packet>, q3: seq<Packet>, q4: seq<Packet>)
  {
    && n.nodes.Keys == n.rx.Keys == {1, 2, 3, 4}
    && n.nodes[1] == s1 && n.nodes[2] == s2 && n.nodes[3] == s3 && n.nodes[4] == s4
    && n.rx[2] == q2 && n.rx[3] == q3 && n.rx[4] == q4
  }

  lemma RingIs(memory: Slots)
    ensures IsFour(Ring(memory), New(1, memory), New(2, memory), New(3, memory), New(4, memory), [], [], [])
    ensures Ring(memory).rx[1] == []
    ensures forall me: byte {:trigger New(me, memory)} :: var s := New(me, memory);
              Idle(s) && s.me == me && s.router && s.ledger == [] && s.lastSeq == Low8(|s.ledger|) && s.seen == seq(256, i => 0)
              && s.table == RT.Cleared(memory)
  {
    hide RT.Cleared;
  }

  lemma Lists(sought: byte)
    ensures Via4(sought).f.m == Routed(BROADCAST, 1, 0, Request(sought, [4])) && Via4(sought).f.from == 4
    ensures Via2(sought).f.m == Routed(BROADCAST, 1, 0, Request(sought, [2])) && Via2(sought).f.from == 2
    ensures Via43(sought).f.m == Routed(BROADCAST, 1, 0, Request(sought, [4, 3])) && Via43(sought).f.from == 3
    ensures RelayOf(3, Via2(sought)).m == Routed(BROADCAST, 1, 0, Request(sought, [2, 3]))
    ensures RelayOf(2, Via43(sought)).m == Routed(BROADCAST, 1, 0, Request(sought, [4, 3, 2]))
    ensures Asked1(sought).f.m == Routed(BROADCAST, 1, 0, Request(sought, [])) && Asked1(sought).f.from == 1
  {
    var none: seq<byte> := [];
    assert none + [4] == [4] && none + [2] == [2] && [4] + [3] == [4, 3] && [2] + [3] == [2, 3] && [4, 3] + [2] == [4, 3, 2];
    assert Asked1(sought).f.m.body.path == none;
    assert Via4(sought).f.m.body.path == [4] && Via2(sought).f.m.body.path == [2];
    assert Via43(sought).f.m.body.path == [4, 3];
  }

  lemma FirstAsk(memory: Slots, sought: byte) returns (n: Net)
    requires sought !in {1, 2, 3, 4, BROADCAST}
    ensures Follows(CYCLE, Ring(memory), n)
    ensures IsFour(n, One(memory, sought), New(2, memory), New(3, memory), New(4, memory), [Asked1(sought)], [], [Asked1(sought)])
  {
    hide Follows, Sought, FrameOf, NextHop, RT.StaleBehind, Ring, New, Init;
    RingStarts(memory);
    RingIs(memory);
    n := Seeks(CYCLE, Ring(memory), Ring(memory), 1, sought, [], {2, 4});
  }

  lemma FourPassesOn(memory: Slots, sought: byte) returns (n: Net)
    requires sought !in {1, 2, 3, 4, BROADCAST}
    ensures Follows(CYCLE, Ring(memory), n)
    ensures IsFour(n, One(memory, sought), New(2, memory), New(3, memory), Fourth(memory, sought), [Asked1(sought)], [Via4(sought)], [])
  {
    hide Follows, Passed, Sought, Ring, RT.Cleared;
    n := FirstAsk(memory, sought);
    n := Relays(CYCLE, Ring(memory), n, 4, {3});
  }

  lemma BothPassOn(memory: Slots, sought: byte) returns (n: Net)
    requires sought !in {1, 2, 3, 4, BROADCAST}
    ensures Follows(CYCLE, Ring(memory), n)
    ensures IsFour(n, One(memory, sought), Two(memory, sought), New(3, memory), Fourth(memory, sought), [], [Via4(sought), Via2(sought)], [])
  {
    hide Follows, Passed, Sought, Ring, RT.Cleared;
    n := FourPassesOn(memory, sought);
    n := Relays(CYCLE, Ring(memory), n, 2, {3});
  }

  lemma ThreePassesOn(memory: Slots, sought: byte) returns (n: Net)
    requires sought !in {1, 2, 3, 4, BROADCAST}
    ensures Follows(CYCLE, Ring(memory), n)
    ensures IsFour(n, One(memory, sought), Two(memory, sought), Three(memory, sought), Fourth(memory, sought), [Via43(sought)], [Via2(sought)], [])
  {
    hide Follows, Sought, Learn, AddRoute, Ring, RT.Cleared;
    n := BothPassOn(memory, sought);
    Lists(sought);
    n := Relays(CYCLE, Ring(memory), n, 3, {2});
  }

  lemma ThreePassesBothOn(memory: Slots, sought: byte) returns (n: Net)
    requires sought !in {1, 2, 3, 4, BROADCAST}
    ensures Follows(CYCLE, Ring(memory), n)
    ensures IsFour(n, One(memory, sought), Two(memory, sought), Three'(memory, sought), Fourth(memory, sought), [Via43(sought)], [], [])
  {
    hide Follows, Sought, Learn, AddRoute, Ring, RT.Cleared;
    n := ThreePassesOn(memory, sought);
    Lists(sought);
    n := Relays(CYCLE, Ring(memory), n, 3, {});
  }

  lemma TwoPassesAgain(memory: Slots, sought: byte) returns (n: Net)
    requires sought !in {1, 2, 3, 4, BROADCAST}
    ensures Follows(CYCLE, Ring(memory), n)
    ensures IsFour(n, One(memory, sought), Two'(memory, sought), Three'(memory, sought), Fourth(memory, sought), [], [], [])
  {
    hide Follows, Sought, Learn, AddRoute, Ring, RT.Cleared;
    n := ThreePassesBothOn(memory, sought);
    Lists(sought);
    n := Relays(CYCLE, Ring(memory), n, 2, {});
  }

  lemma CycleTables(memory: Slots, sought: byte)
    ensures NextHop(Two'(memory, sought).table, 1) == Some(3) && NextHop(Three'(memory, sought).table, 1) == Some(2)
  {
    hide NextHop, AddRoute, Learn, SmallWorld.Within10, RT.StaleBehind;
    Lists(sought);
    var t := RT.Cleared(memory);
    var world: set<byte> := {1, 2, 3, 4};
    EmptyTable(memory, world);
    SmallWorld.RouteBack(t, world, [], 1);
    SmallWorld.RouteBack(Learn(AddRoute(t, 1, 1), [], 1), world, [4, 3], 3);
    SmallWorld.RouteBack(t, world, [4], 4);
    SmallWorld.RouteBack(Learn(AddRoute(t, 1, 4), [4], 4), world, [2], 2);
  }

  lemma EmptyTable(memory: Slots, world: set<byte>)
    ensures RT.StaleBehind(RT.Cleared(memory)) && SmallWorld.Within10(RT.Cleared(memory), world)
  {
    EndToEnd.FreshIsOk(1, true, memory);
  }

  /**
    On a cycle a run leads into a loop: 1 asks for a node that is not there; later copies of its request
    overwrite the first routes back, and 2 and 3 end up sending messages for 1 to each other. Both have
    rebroadcast the request twice.
  */
  lemma CyclesMayLoop(memory: Slots, sought: byte) returns (trace: seq<Net>, acts: seq<Action>)
    requires sought !in {1, 2, 3, 4, BROADCAST}
    ensures Run(CYCLE, trace, acts)
    ensures var ns := trace[|trace| - 1].nodes;
            && ns.Keys == {1, 2, 3, 4}
            && NextHop(ns[2].table, 1) == Some(3) && NextHop(ns[3].table, 1) == Some(2)
            && |ns[2].ledger| == |ns[3].ledger| == 2
            && ns[2].ledger[0].m == Routed(BROADCAST, 1, 0, Request(sought, [2]))
            && ns[2].ledger[1].m == Routed(BROADCAST, 1, 0, Request(sought, [4, 3, 2]))
            && ns[3].ledger[0].m == Routed(BROADCAST, 1, 0, Request(sought, [4, 3]))
            && ns[3].ledger[1].m == Routed(BROADCAST, 1, 0, Request(sought, [2, 3]))
            && |ns[1].ledger| == 1
  {
    hide Follows, NextHop, AddRoute, Learn, Init, Next;
    Lists(sought);
    var n := TwoPassesAgain(memory, sought);
    RingStarts(memory);
    CycleTables(memory, sought);
    trace, acts := AsRun(CYCLE, Ring(memory), n);
  }

  // ---- A late reply --------------------------------------------------------------------------------

  /** The tree 3 - 2 - 1 - 5. */
  ghost const ROW: seq<byte> := [3, 2, 1, 5]
  ghost const TREE: Links := {(3, 2), (2, 3), (2, 1), (1, 2), (1, 5), (5, 1)}

  lemma TreeIsARow()
    ensures InARow(TREE, ROW) && Forest(TREE)
  {
    assert ROW[0] == 3 && ROW[1] == 2 && ROW[2] == 1 && ROW[3] == 5;
    forall a, b | (a, b) in TREE
      ensures exists i, j :: 0 <= i < |ROW| && 0 <= j < |ROW| && ROW[i] == a && ROW[j] == b && (j == i + 1 || i == j + 1)
    {
      var i := if a == 3 then 0 else if a == 2 then 1 else if a == 1 then 2 else 3;
      var j := if b == 3 then 0 else if b == 2 then 1 else if b == 1 then 2 else 3;
      assert ROW[i] == a && ROW[j] == b;
    }
    RowIsForest(TREE, ROW);
  }

  ghost function Trunk(memory: Slots): Net
  {
    Net(map[1 := New(1, memory), 2 := New(2, memory), 3 := New(3, memory), 5 := New(5, memory)],
        map[1 := [], 2 := [], 3 := [], 5 := []])
  }

  // What is on the air: the request for 3, passed on by 2, and the answer on its two hops back.
  ghost function For3(): Packet { FrameOf(1, AskOf(1, 3), 1) }
  ghost function For3By2(): Packet { FrameOf(2, RelayOf(2, For3()), 1) }
  ghost function Answer3(): Sent { Sent(Routed(1, 3, 0, Response(3, [2])), 2, Answer(2, 1)) }
  ghost function Answer3By2(): Sent { Sent(Routed(1, 3, 1, Response(3, [2])), 1, Relay(3, 1)) }

  ghost function Seeking3(memory: Slots): NodeState { Sought(New(1, memory), 3, []) }
  ghost function Stopped(memory: Slots): NodeState { Seeking3(memory).(arp := None, out := Quiet) }
  ghost function Seeking5(memory: Slots): NodeState { Sought(Stopped(memory), 5, []) }
  ghost function Misled(memory: Slots): NodeState { Receive(Seeking5(memory), FrameOf(2, Answer3By2(), 2)) }
  ghost function Between2(memory: Slots): NodeState { Passed(New(2, memory), For3()) }
  ghost function Carrying2(memory: Slots): NodeState { Receive(Between2(memory), FrameOf(3, Answer3(), 1)) }
  ghost function Answering3(memory: Slots): NodeState { Receive(New(3, memory), For3By2()) }

  lemma TrunkStarts(memory: Slots)
    ensures Init(Trunk(memory)) && Follows(TREE, Trunk(memory), Trunk(memory))
    ensures forall d: byte :: NextHop(RT.Cleared(memory), d).None?
  {
    hide Follows, NextHop, RT.StaleBehind, RT.Cleared;
    Stays(TREE, Trunk(memory));
    EndToEnd.FreshIsOk(1, true, memory);
  }

  /** The four nodes of the tree are in these states; queues not named are empty. */
  ghost predicate IsTrunk(n: Net, s1: NodeState, s2: NodeState, s3: NodeState, q2: seq<Packet>, q3: seq<Packet>)
  {
    && n.nodes.Keys == n.rx.Keys == {1, 2, 3, 5}
    && n.nodes[1] == s1 && n.nodes[2] == s2 && n.nodes[3] == s3
    && n.rx[1] == [] && n.rx[2] == q2 && n.rx[3] == q3
  }

  lemma TrunkIs(memory: Slots)
    ensures IsTrunk(Trunk(memory), New(1, memory), New(2, memory), New(3, memory), [], [])
  {
    hide New;
  }

  lemma FramesFor3()
    ensures For3().f == AskFrame() && For3By2().f == AskFrameBy2()
  {
    var none: seq<byte> := [];
    assert none + [2] == [2];
  }

  ghost function AskFrame(): Frame { Message(BROADCAST, 1, 1, false, Routed(BROADCAST, 1, 0, Request(3, []))) }
  ghost function AskFrameBy2(): Frame { Message(BROADCAST, 2, 1, false, Routed(BROADCAST, 1, 0, Request(3, [2]))) }

  /** 1 asks for 3, and 2 passes it on. */
  lemma Asks3(memory: Slots) returns (n: Net)
    ensures Follows(TREE, Trunk(memory), n)
    ensures IsTrunk(n, Seeking3(memory), Between2(memory), New(3, memory), [], [For3By2()])
  {
    hide Follows, NextHop, Trunk, Init, RT.Cleared, Passed;
    TrunkStarts(memory);
    TrunkIs(memory);
    n := Seeks(TREE, Trunk(memory), Trunk(memory), 1, 3, [], {2});
    n := Relays(TREE, Trunk(memory), n, 2, {3});
  }

  /** 3 answers, but 1 gives up waiting. */
  lemma Answers3(memory: Slots) returns (n: Net)
    ensures Follows(TREE, Trunk(memory), n)
    ensures IsTrunk(n, Stopped(memory), Between2(memory), Answering3(memory), [], [])
  {
    hide Follows, NextHop, Trunk, Init, RT.Cleared, Passed, Receive, New;
    var m := Asks3(memory);
    Answers3Step(memory);
    Takes(TREE, Trunk(memory), m, 3, For3By2(), Answering3(memory));
    assert [For3By2()][1..] == [];
    n := Net(m.nodes[3 := Answering3(memory)], m.rx[3 := []]);
    SeekingIs(memory);
    n := Desists(TREE, Trunk(memory), n, 1);
  }

  lemma SeekingIs(memory: Slots)
    ensures var s := Seeking3(memory); s.hop.NoHop? && s.arp.Some? && s.job.None? && s.out.Seeking?
    ensures var s := Stopped(memory); Idle(s) && s.me == 1 && s.table == RT.Cleared(memory) && s.lastSeq == Low8(|s.ledger|) && |s.ledger| == 1
    ensures var s := Seeking5(memory);
            && s.hop.NoHop? && s.arp == Some(5) && s.job.None? && s.out == Seeking(5, 1, []) && s.me == 1 && |s.asked| == 2
            && s.table == RT.Cleared(memory) && s.seen[2] == 0
  {
    hide RT.Cleared;
  }

  lemma Answers3Step(memory: Slots)
    ensures Step(New(3, memory), Take(For3By2(), None), Answering3(memory))
    ensures var s := Answering3(memory);
            s.hop == Sending(Answer3(), 0) && s.me == 3 && |s.ledger| == 1 && s.lastSeq == 1
  {
    hide RT.Add, RT.Cleared, SmallWorld.Within10, NextHop, RT.StaleBehind;
    FramesFor3();
    EmptyTable(memory, {1, 2, 3, 5});
    SmallWorld.RouteBack(RT.Cleared(memory), {1, 2, 3, 5}, [2], 2);
  }

  lemma BetweenIs(memory: Slots)
    ensures var s := Between2(memory);
            && s.hop.NoHop? && s.arp.None? && s.job.None? && s.me == 2 && s.router && s.seen[3] == 0
            && |s.ledger| == 1 && s.lastSeq == 1
            && s.table == AddRoute(RT.Cleared(memory), 1, 1)
  {
    hide RT.Cleared, RT.Add;
  }

  /** 2 has the answer, and the route for it. */
  lemma CarryingIs(memory: Slots)
    ensures var s := Carrying2(memory);
            s.hop == Sending(Answer3By2(), 0) && s.me == 2 && |s.ledger| == 2 && s.lastSeq == 2
  {
    hide RT.Cleared, RT.Add, SmallWorld.Within10, NextHop, RT.StaleBehind, Between2, Passed;
    var world: set<byte> := {1, 2, 3, 5};
    var t := RT.Cleared(memory);
    BetweenIs(memory);
    EmptyTable(memory, world);
    SmallWorld.NothingEvicted(t, world, 1, 1, 1);
    SmallWorld.NothingEvicted(AddRoute(t, 1, 1), world, 3, 3, 1);
    NothingBeyond([2], 2);
  }

  lemma NothingBeyond(path: seq<byte>, me: byte)
    requires |path| == 1
    ensures Beyond(path, me) == []
  {
  }

  /** The answer reaches 2, and 1 has begun to seek 5. */
  lemma AnswerAtTwo(memory: Slots) returns (n: Net)
    ensures Follows(TREE, Trunk(memory), n) && n.nodes.Keys == n.rx.Keys == {1, 2, 3, 5}
    ensures n.nodes[1] == Seeking5(memory) && n.nodes[2] == Carrying2(memory) && n.rx[1] == n.rx[2] == []
  {
    hide Follows, NextHop, Trunk, RT.Cleared, Receive, Passed, New, Complete;
    n := Answers3(memory);
    Answers3Step(memory);
    BetweenIs(memory);
    n := HandsOver(TREE, Trunk(memory), n, 3, 2);
    SeekingIs(memory);
    TrunkStarts(memory);
    n := Seeks(TREE, Trunk(memory), n, 1, 5, [], {});
  }

  /** Then it reaches 1. */
  lemma AnswerComes(memory: Slots) returns (n: Net)
    ensures Follows(TREE, Trunk(memory), n) && n.nodes.Keys == {1, 2, 3, 5} && n.nodes[1] == Misled(memory)
  {
    hide Follows, NextHop, Trunk, Receive, Complete, Seeking5, Carrying2;
    n := AnswerAtTwo(memory);
    SeekingIs(memory);
    CarryingIs(memory);
    n := HandsOver(TREE, Trunk(memory), n, 2, 1);
  }

  lemma MisledPeek(memory: Slots)
    ensures var s, p := Seeking5(memory), FrameOf(2, Answer3By2(), 2);
            && Accepts(s, p) && Peek(Noted(s, p), p.f.m, 2) == Noted(s, p).(table := AddRoute(RT.Cleared(memory), 3, 2))
  {
    hide RT.Cleared, AddRoute, Seeking5, Peek;
    SeekingIs(memory);
    NothingBeyond([2], 1);
    var s, p := Seeking5(memory), FrameOf(2, Answer3By2(), 2);
    assert Noted(s, p).table == s.table && Noted(s, p).me == 1;
    LastToHear(Noted(s, p), p.f.m, 2);
  }

  /** A response that lists nobody beyond this node teaches the way to its sender alone. */
  lemma LastToHear(s: NodeState, m: Routed, from: byte)
    requires m.body.Response? && Beyond(m.body.path, s.me) == []
    ensures Peek(s, m, from) == s.(table := AddRoute(s.table, m.body.target, from))
  {
    hide Beyond, AddRoute;
  }

  lemma MisledIs(memory: Slots)
    ensures NextHop(Misled(memory).table, 5) == Some(2)
  {
    hide RT.Cleared, AddRoute, SmallWorld.Within10, NextHop, RT.StaleBehind, Seeking5, Peek, Noted;
    var world: set<byte> := {1, 2, 3, 5};
    var t := RT.Cleared(memory);
    SeekingIs(memory);
    EmptyTable(memory, world);
    SmallWorld.NothingEvicted(t, world, 3, 2, 3);
    SmallWorld.NothingEvicted(AddRoute(t, 3, 2), world, 5, 2, 5);
    MisledPeek(memory);
    var s, p := Seeking5(memory), FrameOf(2, Answer3By2(), 2);
    NotedKeeps(s, p);
    var s1 := Noted(s, p).(table := AddRoute(t, 3, 2));
    assert Misled(memory) == DeliverInArp(s1, p.f.m, 2);
  }

  lemma NotedKeeps(s: NodeState, p: Packet)
    ensures var s1 := Noted(s, p); s1.me == s.me && s1.arp == s.arp && s1.out == s.out && s1.job == s.job && s1.hop == s.hop
  {
  }

  /**
    Tree routing needs its guard: on the tree 3 - 2 - 1 - 5 there is a run in which 1 seeks 3, stops waiting,
    seeks 5, and takes the late answer of 3 for one of 5. It then sends messages for 5 to 2, the wrong way.
  */
  lemma LateReplyMisroutes(memory: Slots) returns (trace: seq<Net>, acts: seq<Action>)
    ensures Forest(TREE) && Run(TREE, trace, acts)
    ensures 1 in trace[|trace| - 1].nodes && NextHop(trace[|trace| - 1].nodes[1].table, 5) == Some(2)
    ensures RouteOk(TREE, 1, 5, 5) && !RouteOk(TREE, 1, 5, 2)
  {
    hide Follows, NextHop, Trunk, Init, Next, Misled, InARow, Forest;
    TreeIsARow();
    WaysTo5();
    TrunkStarts(memory);
    var n := AnswerComes(memory);
    MisledIs(memory);
    trace, acts := AsRun(TREE, Trunk(memory), n);
  }

  lemma WaysTo5()
    ensures RouteOk(TREE, 1, 5, 5) && !RouteOk(TREE, 1, 5, 2)
  {
    TreeIsARow();
    hide InARow;
    assert Leads(TREE, [1, 5], 1, 5);
    forall p | Leads(TREE, p, 1, 5)
      ensures p == [1, 5]
    {
      OnePathOnARow(TREE, ROW, 1, 5, p, [1, 5]);
    }
  }
}
