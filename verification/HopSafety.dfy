/**
  The hop layer hands over at most once, and an acknowledged send was accepted.

  Ids are 8 bits wide and wrap; the packets' unbounded num says which hop send a frame belongs to. Per
  sender a queue is FIFO and every retransmission of one send precedes the next send, so what a receiver
  has accepted and what is still on its way are ordered by num, whatever the ids do.
*/
module HopSafety {
  import opened Types
  import opened Protocol
  import opened Network
  import opened Learning
  import RT = RoutingTable

  // ---- One node ----------------------------------------------------------------------------------

  ghost predicate NodeOk(s: NodeState)
  {
    && s.lastSeq == Low8(|s.ledger|)
    && (s.hop.Sending? ==> s.ledger != [] && s.hop.x == s.ledger[|s.ledger| - 1])
    && (s.hop.Sending? && s.hop.x.to == BROADCAST ==> s.hop.tries == 0)
    && (forall a: byte :: s.seen[a] == Low8(s.lastNum[a]))
  }

  /** What a step does to the hop layer's own fields, and what it puts on the air. */
  ghost predicate HopStep(s: NodeState, e: Event, s': NodeState)
  {
    && s'.me == s.me
    && (s'.ledger == s.ledger || (|s'.ledger| == |s.ledger| + 1 && s'.ledger[..|s.ledger|] == s.ledger))
    && (if e.Take? && Accepts(s, e.p)
        then s'.lastNum == s.lastNum[e.p.f.from := e.p.num] && s'.taken == s.taken + {(e.p.f.from, e.p.num)}
        else s'.lastNum == s.lastNum && s'.taken == s.taken)
    && s'.handed == (if e.Take? && IsOurAck(s, e.p.f)
                     then s.handed + [Handed(|s.ledger|, s.hop.x.to, e.p.num, e.p.last)] else s.handed)
    && (match e
        case Transmit(p) => IsCurrent(s, p)
        case Take(p, reply) =>
          && p.f.to in {s.me, BROADCAST}
          && (reply.Some? ==> IsReply(s, p, reply.value, s'))
        case GiveUp => s.hop.Sending? && s.hop.tries > 0
        case _ => true)
  }

  ghost predicate IsCurrent(s: NodeState, p: Packet) {
    && p.f.Message? && p.f.from == s.me && p.f.id == Low8(p.num) && p.num == |s.ledger| >= 1
    && p.f.m == s.ledger[p.num - 1].m && p.f.to == s.ledger[p.num - 1].to
  }

  /** The acknowledgement a frame provokes: same id, and founded on what is then accepted last. */
  ghost predicate IsReply(s: NodeState, p: Packet, q: Packet, s': NodeState) {
    && p.f.Message? && q.f.HopAck? && q.f.to == p.f.from && q.f.from == s.me && q.f.id == p.f.id
    && q.num == p.num && q.last == s'.lastNum[p.f.from] && Low8(q.last) == p.f.id
  }

  lemma StepIsHopStep(s: NodeState, e: Event, s': NodeState)
    requires Step(s, e, s') && NodeOk(s)
    requires e.Take? && e.p.f.Message? ==> e.p.f.id == Low8(e.p.num)
    ensures HopStep(s, e, s') && NodeOk(s')
  {
    hide Step, HopStep, NodeOk, Accept, Complete, Launch, FinishJob;
    match e
    case Take(_, _) => TakeIsHopStep(s, e, s');
    case Transmit(_) => TransmitIsHopStep(s, e, s');
    case GiveUp => GiveUpIsHopStep(s, s');
    case _ => OtherIsHopStep(s, e, s');
  }

  lemma TransmitIsHopStep(s: NodeState, e: Event, s': NodeState)
    requires Step(s, e, s') && NodeOk(s) && e.Transmit?
    ensures HopStep(s, e, s') && NodeOk(s')
  {
    hide Complete;
  }

  lemma GiveUpIsHopStep(s: NodeState, s': NodeState)
    requires Step(s, GiveUp, s') && NodeOk(s)
    ensures HopStep(s, GiveUp, s') && NodeOk(s')
  {
    hide Complete;
  }

  lemma OtherIsHopStep(s: NodeState, e: Event, s': NodeState)
    requires Step(s, e, s') && NodeOk(s) && (e.Call? || e.Try? || e.ArpExpired? || e.Abandon?)
    ensures HopStep(s, e, s') && NodeOk(s')
  {
    hide Launch, FinishJob;
  }

  lemma TakeIsHopStep(s: NodeState, e: Event, s': NodeState)
    requires Step(s, e, s') && NodeOk(s) && e.Take?
    requires e.p.f.Message? ==> e.p.f.id == Low8(e.p.num)
    ensures HopStep(s, e, s') && NodeOk(s')
  {
    hide Accept, Complete, Launch, FinishJob;
    if Accepts(s, e.p) {
      assert Reacts(Noted(s, e.p), s');
    }
  }

  // ---- The network -------------------------------------------------------------------------------

  /** p is on its way to b. */
  ghost predicate PacketOk(links: Links, ns: Nodes, b: byte, p: Packet)
    requires b in ns
  {
    && p.f.from in ns && p.f.from != b && (p.f.from, b) in links
    && p.num >= 1
    && p.f.id == Low8(p.num)
    && (match p.f
        case Message(to, a, _, _, m) =>
          && IsSend(ns, a, p.num)
          && TheSend(ns, a, p.num).m == m && TheSend(ns, a, p.num).to == to
          && p.num >= ns[b].lastNum[a]
        case HopAck(to, a, _, _) =>
          && IsSend(ns, to, p.num)
          && AckFounded(ns, to, a, p.num, p.last))
  }

  /** Node a acknowledged hop send num of node s, having accepted `last` last: the same send, as far as 8 bits tell. */
  ghost predicate AckFounded(ns: Nodes, s: byte, a: byte, num: nat, last: nat)
  {
    && last <= num && Low8(last) == Low8(num)
    && (last > 0 ==> a in ns && (s, last) in ns[a].taken)
  }

  /** Frames of one sender wait in the order of its hop sends. */
  ghost predicate InOrder(q: seq<Packet>)
  {
    forall i, j :: 0 <= i < j < |q| && q[i].f.Message? && q[j].f.Message? && q[i].f.from == q[j].f.from
      ==> q[i].num <= q[j].num
  }

  /** What b has accepted from others so far. */
  ghost predicate TakenOk(links: Links, ns: Nodes, b: byte)
    requires b in ns
  {
    var s := ns[b];
    && (forall a, k :: (a, k) in s.taken ==>
          && a != b && (a, b) in links && IsSend(ns, a, k) && TheSend(ns, a, k).to in {b, BROADCAST}
          && k <= s.lastNum[a])
    && (forall a: byte :: s.lastNum[a] > 0 ==> (a, s.lastNum[a]) in s.taken)
  }

  ghost predicate HandedOk(ns: Nodes, a: byte)
    requires a in ns
  {
    forall h :: h in ns[a].handed ==>
      && IsSend(ns, a, h.num) && TheSend(ns, a, h.num).to == h.to
      && h.ackNum <= h.num && Low8(h.ackNum) == Low8(h.num)
      && AckFounded(ns, a, h.to, h.ackNum, h.last)
  }

  ghost predicate HopInv(links: Links, n: Net)
  {
    && IsNet(n)
    && (forall b :: b in n.nodes ==> NodeOk(n.nodes[b]) && TakenOk(links, n.nodes, b) && HandedOk(n.nodes, b) && InOrder(n.rx[b]))
    && (forall b, i :: b in n.nodes && 0 <= i < |n.rx[b]| ==> PacketOk(links, n.nodes, b, n.rx[b][i]))
  }

  lemma InitHop(links: Links, n: Net)
    requires Init(n)
    ensures HopInv(links, n)
  {
    hide NodeOk, TakenOk, HandedOk, InOrder, PacketOk;
    forall b | b in n.nodes
      ensures NodeOk(n.nodes[b]) && TakenOk(links, n.nodes, b) && HandedOk(n.nodes, b) && InOrder(n.rx[b]) && n.rx[b] == []
    {
      assert n.rx[b] == [];
      FreshOk(links, n.nodes, b);
    }
  }

  lemma FreshOk(links: Links, ns: Nodes, b: byte)
    requires b in ns && exists memory: Slots :: ns[b] == Fresh(b, ns[b].router, RT.Cleared(memory))
    ensures NodeOk(ns[b]) && TakenOk(links, ns, b) && HandedOk(ns, b) && InOrder([])
  {
  }

  /** History only grows, except that b's filter moves on to `low` for sender `from`. */
  ghost predicate Later(ns: Nodes, ns': Nodes)
  {
    && ns'.Keys == ns.Keys
    && (forall a :: a in ns ==>
          && |ns[a].ledger| <= |ns'[a].ledger|
          && ns'[a].ledger[..|ns[a].ledger|] == ns[a].ledger
          && ns[a].taken <= ns'[a].taken)
  }

  lemma SendStays(ns: Nodes, ns': Nodes, a: byte, k: nat)
    requires Later(ns, ns') && IsSend(ns, a, k)
    ensures IsSend(ns', a, k) && TheSend(ns', a, k) == TheSend(ns, a, k)
  {
    assert ns'[a].ledger[..|ns[a].ledger|][k - 1] == ns'[a].ledger[k - 1];
  }

  lemma PacketStays(links: Links, ns: Nodes, ns': Nodes, b: byte, p: Packet)
    requires Later(ns, ns') && b in ns && PacketOk(links, ns, b, p)
    requires p.f.Message? ==> p.num >= ns'[b].lastNum[p.f.from]
    ensures PacketOk(links, ns', b, p)
  {
    SendStays(ns, ns', if p.f.Message? then p.f.from else p.f.to, p.num);
  }

  /** All that the hop layer's invariant needs to know about a step. */
  ghost predicate Moves(links: Links, n: Net, a: byte, e: Event, n': Net)
  {
    && a in n.nodes && a in n.rx && a in n'.nodes && IsNet(n')
    && n'.nodes == n.nodes[a := n'.nodes[a]]
    && Later(n.nodes, n'.nodes)
    && HopStep(n.nodes[a], e, n'.nodes[a]) && NodeOk(n'.nodes[a])
    && Air(links, a, e, n.rx, n'.rx)
  }

  lemma HopStepGrows(s: NodeState, e: Event, s': NodeState)
    requires HopStep(s, e, s')
    ensures s'.me == s.me && |s.ledger| <= |s'.ledger| && s'.ledger[..|s.ledger|] == s.ledger && s.taken <= s'.taken
  {
    assert s.ledger[..|s.ledger|] == s.ledger;
  }

  lemma NextMoves(links: Links, n: Net, a: byte, e: Event, n': Net)
    requires HopInv(links, n) && Next(links, n, Act(a, e), n')
    ensures Moves(links, n, a, e, n')
  {
    hide Step, HopStep, NodeOk, TakenOk, HandedOk, InOrder;
    if e.Take? {
      assert PacketOk(links, n.nodes, a, n.rx[a][0]);
    }
    StepIsHopStep(n.nodes[a], e, n'.nodes[a]);
    HopStepGrows(n.nodes[a], e, n'.nodes[a]);
  }

  lemma TakenStays(links: Links, n: Net, a: byte, e: Event, n': Net, b: byte)
    requires HopInv(links, n) && Moves(links, n, a, e, n') && b in n.nodes
    ensures TakenOk(links, n'.nodes, b)
  {
    hide NodeOk, HandedOk, InOrder, AckFounded, TakenOk, Later;
    if a == b && e.Take? && Accepts(n.nodes[b], e.p) {
      assert PacketOk(links, n.nodes, b, n.rx[b][0]);
      TakenMore(links, n.nodes, n'.nodes, b, e.p);
    } else {
      TakenSame(links, n.nodes, n'.nodes, b);
    }
  }

  lemma TakenSame(links: Links, ns: Nodes, ns': Nodes, b: byte)
    requires Later(ns, ns') && b in ns && TakenOk(links, ns, b)
    requires ns'[b].taken == ns[b].taken && ns'[b].lastNum == ns[b].lastNum
    ensures TakenOk(links, ns', b)
  {
    forall x, k | (x, k) in ns'[b].taken
      ensures IsSend(ns', x, k) && TheSend(ns', x, k).to in {b, BROADCAST}
    {
      SendStays(ns, ns', x, k);
    }
  }

  lemma TakenMore(links: Links, ns: Nodes, ns': Nodes, b: byte, p: Packet)
    requires Later(ns, ns') && b in ns && TakenOk(links, ns, b)
    requires p.f.Message? && PacketOk(links, ns, b, p) && p.f.to in {b, BROADCAST}
    requires ns'[b].taken == ns[b].taken + {(p.f.from, p.num)} && ns'[b].lastNum == ns[b].lastNum[p.f.from := p.num]
    ensures TakenOk(links, ns', b)
  {
    forall x, k | (x, k) in ns'[b].taken
      ensures IsSend(ns', x, k) && TheSend(ns', x, k).to in {b, BROADCAST} && x != b && (x, b) in links
      ensures k <= ns'[b].lastNum[x]
    {
      assert (x, k) in ns[b].taken || (x, k) == (p.f.from, p.num);
      SendStays(ns, ns', x, k);
    }
  }

  lemma HandedStays(links: Links, n: Net, a: byte, e: Event, n': Net, b: byte)
    requires HopInv(links, n) && Moves(links, n, a, e, n') && b in n.nodes
    ensures HandedOk(n'.nodes, b)
  {
    hide InOrder, TakenOk;
    forall h | h in n'.nodes[b].handed
      ensures && IsSend(n'.nodes, b, h.num) && TheSend(n'.nodes, b, h.num).to == h.to
              && h.ackNum <= h.num && Low8(h.ackNum) == Low8(h.num)
              && AckFounded(n'.nodes, b, h.to, h.ackNum, h.last)
    {
      if h !in n.nodes[b].handed {
        assert PacketOk(links, n.nodes, b, e.p);
        assert IsSend(n.nodes, b, h.num);
      }
      SendStays(n.nodes, n'.nodes, b, h.num);
    }
  }

  /** What is left in the queues after the step has taken its frame, still in order and above the filters. */
  lemma QueueStays(links: Links, n: Net, a: byte, e: Event, n': Net, b: byte, q: seq<Packet>)
    requires HopInv(links, n) && Moves(links, n, a, e, n') && b in n.nodes
    requires q == if e.Take? && b == a then n.rx[b][1..] else n.rx[b]
    ensures InOrder(q)
    ensures forall i :: 0 <= i < |q| ==> PacketOk(links, n'.nodes, b, q[i])
  {
    hide NodeOk, HandedOk, TakenOk, AckFounded, HopStep, Later, IsSend, TheSend;
    forall i | 0 <= i < |q|
      ensures PacketOk(links, n'.nodes, b, q[i])
    {
      var j := if e.Take? && b == a then i + 1 else i;
      assert q[i] == n.rx[b][j];
      assert PacketOk(links, n.nodes, b, n.rx[b][j]);
      if b == a && q[i].f.Message? {
        FilterAfter(n.nodes[a], e, n'.nodes[a], q[i]);
      }
      PacketStays(links, n.nodes, n'.nodes, b, q[i]);
    }
  }

  /** What waits behind the frame just accepted is not below the filter's new mark. */
  lemma FilterAfter(s: NodeState, e: Event, s': NodeState, p: Packet)
    requires HopStep(s, e, s') && p.f.Message? && p.num >= s.lastNum[p.f.from]
    requires e.Take? && e.p.f.Message? && e.p.f.from == p.f.from ==> p.num >= e.p.num
    ensures p.num >= s'.lastNum[p.f.from]
  {
  }

  /** A packet this step puts on the air is well founded and belongs behind everything already queued. */
  lemma NewAck(links: Links, n: Net, a: byte, p: Packet, q: Packet, n': Net, b: byte)
    requires HopInv(links, n) && Moves(links, n, a, Take(p, Some(q)), n') && b in n.nodes
    requires b != a && (a, b) in links
    ensures PacketOk(links, n'.nodes, b, q) && q.f.HopAck?
  {
    TakenStays(links, n, a, Take(p, Some(q)), n', a);
    assert PacketOk(links, n.nodes, a, n.rx[a][0]);
    SendStays(n.nodes, n'.nodes, q.f.to, q.num);
    assert q.last > 0 ==> (q.f.to, q.last) in n'.nodes[a].taken;
    assert AckFounded(n'.nodes, q.f.to, a, q.num, q.last);
  }

  lemma NewMessage(links: Links, n: Net, a: byte, p: Packet, n': Net, b: byte)
    requires HopInv(links, n) && Moves(links, n, a, Transmit(p), n') && b in n.nodes
    requires b != a && (a, b) in links
    ensures PacketOk(links, n'.nodes, b, p)
    ensures p.num == |n.nodes[a].ledger| && p.f.Message? && p.f.from == a
  {
    hide HandedOk, InOrder, NodeOk;
    assert IsSend(n.nodes, a, p.num);
    SendStays(n.nodes, n'.nodes, a, p.num);
    assert n'.nodes[b] == n.nodes[b];
    FilterBelow(links, n.nodes, b, a);
  }

  lemma FilterBelow(links: Links, ns: Nodes, b: byte, a: byte)
    requires a in ns && b in ns && TakenOk(links, ns, b)
    ensures ns[b].lastNum[a] <= |ns[a].ledger|
  {
    var l := ns[b].lastNum[a];
    assert l > 0 ==> (a, l) in ns[b].taken;
    assert l > 0 ==> IsSend(ns, a, l);
  }

  lemma NewPacket(links: Links, n: Net, a: byte, e: Event, n': Net, b: byte, p: Packet)
    requires HopInv(links, n) && Moves(links, n, a, e, n') && b in n.nodes
    requires e == Transmit(p) || (e.Take? && e.reply == Some(p))
    requires b != a && (a, b) in links
    ensures PacketOk(links, n'.nodes, b, p)
    ensures forall i :: 0 <= i < |n.rx[b]| ==> InOrder([n.rx[b][i], p])
  {
    hide HopStep, NodeOk, TakenOk, HandedOk, Later, AckFounded;
    if e.Transmit? {
      NewMessage(links, n, a, p, n', b);
    } else {
      NewAck(links, n, a, e.p, p, n', b);
    }
    forall i | 0 <= i < |n.rx[b]|
      ensures InOrder([n.rx[b][i], p])
    {
      assert PacketOk(links, n.nodes, b, n.rx[b][i]);
    }
  }

  lemma QueueAfter(links: Links, n: Net, a: byte, e: Event, n': Net, b: byte)
    requires HopInv(links, n) && Moves(links, n, a, e, n') && b in n.nodes
    ensures InOrder(n'.rx[b])
    ensures forall i :: 0 <= i < |n'.rx[b]| ==> PacketOk(links, n'.nodes, b, n'.rx[b][i])
  {
    var q := if e.Take? && b == a then n.rx[b][1..] else n.rx[b];
    QueueStays(links, n, a, e, n', b, q);
    if n'.rx[b] != q {
      var p := if e.Transmit? then e.p else e.reply.value;
      assert n'.rx[b] == q + [p];
      NewPacket(links, n, a, e, n', b, p);
      forall i | 0 <= i < |q|
        ensures InOrder([q[i], p])
      {
        assert q[i] == n.rx[b][i];
      }
      AppendInOrder(q, p);
    }
  }

  lemma AppendInOrder(q: seq<Packet>, p: Packet)
    requires InOrder(q)
    requires forall i :: 0 <= i < |q| ==> InOrder([q[i], p])
    ensures InOrder(q + [p])
  {
    var r := q + [p];
    forall i, j | 0 <= i < j < |r| && r[i].f.Message? && r[j].f.Message? && r[i].f.from == r[j].f.from
      ensures r[i].num <= r[j].num
    {
      if j == |q| {
        var two := [q[i], p];
        assert InOrder(two) && two[0] == r[i] && two[1] == r[j];
      }
    }
  }

  lemma DropKeepsOrder(q: seq<Packet>, i: nat)
    requires InOrder(q) && i < |q|
    ensures InOrder(q[..i] + q[i + 1..])
    ensures forall p :: p in q[..i] + q[i + 1..] ==> p in q
  {
    var r := q[..i] + q[i + 1..];
    assert forall j :: 0 <= j < |r| ==> r[j] == q[if j < i then j else j + 1];
  }

  lemma LoseKeeps(links: Links, n: Net, b: byte, i: nat, n': Net)
    requires HopInv(links, n) && Next(links, n, Lose(b, i), n')
    ensures HopInv(links, n')
  {
    hide NodeOk, TakenOk, HandedOk, PacketOk, InOrder;
    DropKeepsOrder(n.rx[b], i);
    forall c, j | c in n'.nodes && 0 <= j < |n'.rx[c]|
      ensures PacketOk(links, n'.nodes, c, n'.rx[c][j])
    {
      assert n'.rx[c][j] in n.rx[c];
      var k :| 0 <= k < |n.rx[c]| && n.rx[c][k] == n'.rx[c][j];
      assert PacketOk(links, n.nodes, c, n.rx[c][k]);
    }
  }

  lemma HopInvKept(links: Links, n: Net, act: Action, n': Net)
    requires HopInv(links, n) && Next(links, n, act, n')
    ensures HopInv(links, n')
  {
    match act
    case Lose(b, i) => LoseKeeps(links, n, b, i, n');
    case Act(a, e) =>
      NextMoves(links, n, a, e, n');
      forall b | b in n'.nodes
        ensures NodeOk(n'.nodes[b]) && TakenOk(links, n'.nodes, b) && HandedOk(n'.nodes, b) && InOrder(n'.rx[b])
        ensures forall i :: 0 <= i < |n'.rx[b]| ==> PacketOk(links, n'.nodes, b, n'.rx[b][i])
      {
        TakenStays(links, n, a, e, n', b);
        HandedStays(links, n, a, e, n', b);
        QueueAfter(links, n, a, e, n', b);
      }
  }

  /** Every state of every run satisfies the hop invariant. */
  lemma {:induction false} HopInvAlways(links: Links, trace: seq<Net>, acts: seq<Action>, i: nat)
    requires Run(links, trace, acts) && i < |trace|
    ensures HopInv(links, trace[i])
  {
    if i == 0 {
      InitHop(links, trace[0]);
    } else {
      HopInvAlways(links, trace, acts, i - 1);
      HopInvKept(links, trace[i - 1], acts[i - 1], trace[i]);
    }
  }

  // ---- What it means -----------------------------------------------------------------------------

  /**
    At most once: in any run, over any loss and any aliasing of ids, node b accepts a given hop send of
    node a in at most one step, and only as its addressee.
  */
  lemma AtMostOncePerHop(links: Links, trace: seq<Net>, acts: seq<Action>, i: nat, b: byte, e: Event)
    requires Run(links, trace, acts) && i < |acts| && acts[i] == Act(b, e)
    requires b in trace[i].nodes && e.Take? && Accepts(trace[i].nodes[b], e.p)
    ensures (e.p.f.from, e.p.num) !in trace[i].nodes[b].taken
    ensures forall j :: i < j < |trace| ==> b in trace[j].nodes && (e.p.f.from, e.p.num) in trace[j].nodes[b].taken
    ensures IsSend(trace[i].nodes, e.p.f.from, e.p.num) && TheSend(trace[i].nodes, e.p.f.from, e.p.num).m == e.p.f.m
    ensures TheSend(trace[i].nodes, e.p.f.from, e.p.num).to in {b, BROADCAST}
  {
    HopInvAlways(links, trace, acts, i);
    assert Next(links, trace[i], acts[i], trace[i + 1]);
    NextMoves(links, trace[i], b, e, trace[i + 1]);
    TakingIsNew(links, trace[i], b, e, trace[i + 1]);
    forall j | i < j < |trace|
      ensures b in trace[j].nodes && (e.p.f.from, e.p.num) in trace[j].nodes[b].taken
    {
      TakenForever(links, trace, acts, i + 1, j, b, (e.p.f.from, e.p.num));
    }
  }

  lemma TakingIsNew(links: Links, n: Net, b: byte, e: Event, n': Net)
    requires HopInv(links, n) && Moves(links, n, b, e, n') && e.Take? && Accepts(n.nodes[b], e.p)
    ensures (e.p.f.from, e.p.num) !in n.nodes[b].taken && (e.p.f.from, e.p.num) in n'.nodes[b].taken
    ensures IsSend(n.nodes, e.p.f.from, e.p.num) && TheSend(n.nodes, e.p.f.from, e.p.num).m == e.p.f.m
    ensures TheSend(n.nodes, e.p.f.from, e.p.num).to == e.p.f.to && e.p.f.to in {b, BROADCAST}
    ensures e.p.f.from != b && (e.p.f.from, b) in links
  {
    assert PacketOk(links, n.nodes, b, n.rx[b][0]);
    FilteredIsNew(links, n.nodes, b, e.p);
  }

  lemma FilteredIsNew(links: Links, ns: Nodes, b: byte, p: Packet)
    requires b in ns && NodeOk(ns[b]) && TakenOk(links, ns, b) && PacketOk(links, ns, b, p) && Accepts(ns[b], p)
    ensures (p.f.from, p.num) !in ns[b].taken
  {
    var a: byte := p.f.from;
    assert ns[b].seen[a] == Low8(ns[b].lastNum[a]);
  }

  lemma {:induction false} TakenForever(links: Links, trace: seq<Net>, acts: seq<Action>, i: nat, j: nat, b: byte, x: (byte, nat))
    requires Run(links, trace, acts) && i <= j < |trace|
    requires b in trace[i].nodes && x in trace[i].nodes[b].taken
    ensures b in trace[j].nodes && x in trace[j].nodes[b].taken
    decreases j - i
  {
    hide HopInv, Step, HopStep;
    if i < j {
      HopInvAlways(links, trace, acts, i);
      assert Next(links, trace[i], acts[i], trace[i + 1]);
      if acts[i].Act? {
        NextMoves(links, trace[i], acts[i].a, acts[i].e, trace[i + 1]);
      }
      TakenForever(links, trace, acts, i + 1, j, b, x);
    }
  }

  /**
    What a true result of a unicast sendtoWait proves, for every run: the next hop had accepted a send
    with the same 8-bit id, no later than this one (or had accepted nothing yet, and the id is 0).
  */
  lemma HandedMeansAlias(links: Links, trace: seq<Net>, acts: seq<Action>, i: nat, a: byte, h: Handed)
    requires Run(links, trace, acts) && i < |trace|
    requires a in trace[i].nodes && h in trace[i].nodes[a].handed
    ensures h.last <= h.ackNum <= h.num && Low8(h.last) == Low8(h.ackNum) == Low8(h.num)
    ensures h.last > 0 ==> h.to in trace[i].nodes && (a, h.last) in trace[i].nodes[h.to].taken
  {
    HopInvAlways(links, trace, acts, i);
  }

  /** So while ids have not come round, a true result means that this very send was accepted. */
  lemma HandedMeansAccepted(links: Links, trace: seq<Net>, acts: seq<Action>, i: nat, a: byte, h: Handed)
    requires Run(links, trace, acts) && i < |trace|
    requires a in trace[i].nodes && h in trace[i].nodes[a].handed && h.num <= 255
    ensures h.to in trace[i].nodes && (a, h.num) in trace[i].nodes[h.to].taken
  {
    HopInvAlways(links, trace, acts, i);
    assert IsSend(trace[i].nodes, a, h.num);
    HandedMeansAlias(links, trace, acts, i, a, h);
    SameLowByte(h.last, h.num);
  }

  lemma SameLowByte(x: nat, y: nat)
    requires x <= y && Low8(x) == Low8(y)
    ensures y - x < 256 ==> x == y
  {
    assert (y - x) % 256 == 0;
  }
}
