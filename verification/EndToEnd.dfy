/**
  From Node::send to the handler: every message on the air descends, hop by hop, from one message its source
  handed over, and no step of that descent happens twice.
*/
module EndToEnd {
  import opened Types
  import opened Protocol
  import opened Network
  import opened Learning
  import opened HopSafety
  import opened Ledger
  import RT = RoutingTable

  // ---- Invariant ---------------------------------------------------------------------------------

  /** The routes of a lead to nodes a has heard. */
  ghost predicate Neighbours(links: Links, ns: Nodes, a: byte)
    requires a in ns
  {
    forall d: byte :: NextHop(ns[a].table, d).Some? ==> Heard(links, ns, a, NextHop(ns[a].table, d).value)
  }

  ghost predicate Heard(links: Links, ns: Nodes, a: byte, h: byte) {
    h in ns && h != a && (h, a) in links
  }

  /** Entry k of a's ledger comes from the entry it names. */
  ghost predicate Founded(ns: Nodes, a: byte, k: nat)
    requires IsSend(ns, a, k)
  {
    var x := TheSend(ns, a, k);
    match x.why
    case Own(_) => true
    case Ask => x.m.body.Request? && x.m == Routed(BROADCAST, a, 0, Request(x.m.body.sought, []))
    case Relay(f, j) => IsSend(ns, f, j) && Relayed(a, TheSend(ns, f, j).m, x)
    case Answer(f, j) =>
      && IsSend(ns, f, j)
      && var y := TheSend(ns, f, j).m;
         if y.body.Data? then x.m == EndAckOf(a, y) && y.dest == a && Handled(ns[a], Got(y, f, j)) else Responds(a, y, x)
    case Notice(f, j) => x.m.source == a && x.m.hops == 0 && x.m.body.Failure? && a !in {x.m.dest, x.m.body.lost}
  }

  ghost predicate Addressed(links: Links, ns: Nodes, a: byte, k: nat)
    requires IsSend(ns, a, k)
  {
    var x := TheSend(ns, a, k);
    if x.m.dest == BROADCAST && x.m.body.Request? then x.to == BROADCAST else Heard(links, ns, a, x.to)
  }

  ghost predicate GotOk(ns: Nodes, g: Got) {
    IsSend(ns, g.from, g.num) && TheSend(ns, g.from, g.num).m == g.m
  }

  ghost predicate GotsOk(ns: Nodes, a: byte)
    requires a in ns
  {
    && (ns[a].job.Some? ==> GotOk(ns, ns[a].job.value))
    && (forall i :: 0 <= i < |ns[a].inbox| ==> GotOk(ns, ns[a].inbox[i]))
  }

  ghost predicate SendsOk(links: Links, ns: Nodes)
  {
    forall a, k {:trigger Founded(ns, a, k)} {:trigger Addressed(links, ns, a, k)} ::
      IsSend(ns, a, k) ==> Founded(ns, a, k) && Addressed(links, ns, a, k)
  }

  ghost predicate CustodyInv(links: Links, n: Net)
  {
    && HopInv(links, n)
    && (forall a :: a in n.nodes ==> LedgerOk(n.nodes[a]) && Neighbours(links, n.nodes, a) && GotsOk(n.nodes, a))
    && SendsOk(links, n.nodes)
  }

  lemma FreshIsOk(a: byte, router: bool, memory: Slots)
    ensures var s := Fresh(a, router, RT.Cleared(memory));
            LedgerOk(s) && s.ledger == [] && s.job.None? && s.inbox == [] && s.confirmed == [] && s.taken == {}
            && forall d: byte :: NextHop(s.table, d).None?
  {
  }

  lemma InitCustody(links: Links, n: Net)
    requires Init(n)
    ensures CustodyInv(links, n)
  {
    hide HopInv, LedgerOk, Fresh;
    InitHop(links, n);
    forall a | a in n.nodes
      ensures LedgerOk(n.nodes[a]) && Neighbours(links, n.nodes, a) && GotsOk(n.nodes, a) && n.nodes[a].ledger == []
    {
      var memory: Slots :| n.nodes[a] == Fresh(a, n.nodes[a].router, RT.Cleared(memory));
      FreshIsOk(a, n.nodes[a].router, memory);
    }
  }

  /** All that is needed of a step of node a. */
  ghost predicate Advances(links: Links, n: Net, a: byte, e: Event, n': Net)
  {
    && Moves(links, n, a, e, n')
    && var s, s' := n.nodes[a], n'.nodes[a];
    && s.me == a && s'.me == a
    && LedgerOk(s') && AppStep(s, e, s') && EnteredBy(s, e, s')
    && Within(s'.table, s.table, Lesson(s, e), Teacher(s, e))
    && (e.Take? && Accepts(s, e.p) ==>
          && TakesNew(s, e)
          && IsSend(n.nodes, e.p.f.from, e.p.num) && TheSend(n.nodes, e.p.f.from, e.p.num).m == e.p.f.m
          && Heard(links, n.nodes, a, e.p.f.from))
    && (e.GiveUp? && s.hop.Sending? && s.hop.x.why.Relay? ==> Heard(links, n.nodes, a, s.hop.x.why.from))
  }

  lemma NextAdvances(links: Links, n: Net, a: byte, e: Event, n': Net)
    requires CustodyInv(links, n) && Next(links, n, Act(a, e), n')
    ensures Advances(links, n, a, e, n')
  {
    NextMoves(links, n, a, e, n');
    StepFacts(links, n, a, e, n');
    hide Step, HopStep, NodeOk, AppOk, OwnOk, RelayOk, InboxOk, Accepts;
    var s, s' := n.nodes[a], n'.nodes[a];
    StepWithin(s, e, s');
    StepLedger(s, e, s');
  }

  lemma StepFacts(links: Links, n: Net, a: byte, e: Event, n': Net)
    requires CustodyInv(links, n) && Moves(links, n, a, e, n')
    ensures e.Take? ==> PacketOk(links, n.nodes, a, e.p)
    ensures TakesNew(n.nodes[a], e)
    ensures e.Take? && Accepts(n.nodes[a], e.p) ==>
          && IsSend(n.nodes, e.p.f.from, e.p.num) && TheSend(n.nodes, e.p.f.from, e.p.num).m == e.p.f.m
          && Heard(links, n.nodes, a, e.p.f.from)
    ensures e.GiveUp? && n.nodes[a].hop.Sending? && n.nodes[a].hop.x.why.Relay? ==> Heard(links, n.nodes, a, n.nodes[a].hop.x.why.from)
  {
    hide HopStep, AppOk, OwnOk, InboxOk, HandedOk, InOrder, AckFounded, Later, SendsOk;
    var s := n.nodes[a];
    if e.Take? {
      assert PacketOk(links, n.nodes, a, n.rx[a][0]);
      if Accepts(s, e.p) {
        FilteredIsNew(links, n.nodes, a, e.p);
      }
    } else if e.GiveUp? && s.hop.Sending? && s.hop.x.why.Relay? {
      var x := s.ledger[|s.ledger| - 1];
      assert (x.why.from, x.why.num) in s.taken;
    }
  }

  lemma NeighboursStay(links: Links, n: Net, a: byte, e: Event, n': Net, b: byte)
    requires CustodyInv(links, n) && Advances(links, n, a, e, n') && b in n.nodes
    ensures Neighbours(links, n'.nodes, b)
  {
    hide HopInv, HopStep, LedgerOk, AppStep, EnteredBy, SendsOk, GotsOk, Later;
  }

  lemma HandledStays(s: NodeState, e: Event, s': NodeState, g: Got)
    requires AppStep(s, e, s') && Handled(s, g)
    ensures Handled(s', g)
  {
  }

  lemma GotStays(ns: Nodes, ns': Nodes, g: Got)
    requires Later(ns, ns') && GotOk(ns, g)
    ensures GotOk(ns', g)
  {
    SendStays(ns, ns', g.from, g.num);
  }

  lemma GotsStay(links: Links, n: Net, a: byte, e: Event, n': Net, b: byte)
    requires CustodyInv(links, n) && Advances(links, n, a, e, n') && b in n.nodes
    ensures GotsOk(n'.nodes, b)
  {
    hide HopInv, HopStep, LedgerOk, EnteredBy, SendsOk, Neighbours, Later;
    var s, s' := n.nodes[b], n'.nodes[b];
    assert GotsOk(n.nodes, b);
    if s'.job.Some? {
      GotStays(n.nodes, n'.nodes, s'.job.value);
    }
    forall i | 0 <= i < |s'.inbox|
      ensures GotOk(n'.nodes, s'.inbox[i])
    {
      GotStays(n.nodes, n'.nodes, s'.inbox[i]);
    }
  }

  /** An entry that was there before is as well founded as before. */
  lemma OldSendStays(links: Links, n: Net, a: byte, e: Event, n': Net, b: byte, k: nat)
    requires CustodyInv(links, n) && Advances(links, n, a, e, n') && IsSend(n.nodes, b, k)
    ensures IsSend(n'.nodes, b, k) && TheSend(n'.nodes, b, k) == TheSend(n.nodes, b, k)
    ensures Founded(n'.nodes, b, k) && Addressed(links, n'.nodes, b, k)
  {
    hide HopInv, HopStep, LedgerOk, EnteredBy, Neighbours, Later, GotsOk, Handled, AppStep;
    SendStays(n.nodes, n'.nodes, b, k);
    assert Founded(n.nodes, b, k) && Addressed(links, n.nodes, b, k);
    var x := TheSend(n.nodes, b, k);
    if x.why.Relay? || x.why.Answer? {
      SendStays(n.nodes, n'.nodes, x.why.from, x.why.num);
      if x.why.Answer? && b == a {
        var g := Got(TheSend(n.nodes, x.why.from, x.why.num).m, x.why.from, x.why.num);
        if Handled(n.nodes[a], g) {
          HandledStays(n.nodes[a], e, n'.nodes[a], g);
        }
      }
    }
  }

  /** The entry this step makes, if any. */
  lemma NewSendFounded(links: Links, n: Net, a: byte, e: Event, n': Net)
    requires CustodyInv(links, n) && Advances(links, n, a, e, n') && Grows(n.nodes[a], n'.nodes[a])
    ensures Founded(n'.nodes, a, |n'.nodes[a].ledger|) && Addressed(links, n'.nodes, a, |n'.nodes[a].ledger|)
  {
    hide Founded, Addressed, CustodyInv, EnteredBy, AppStep, Within;
    NewSendAddressed(links, n, a, e, n');
    if n'.nodes[a].ledger[|n'.nodes[a].ledger| - 1].why.Answer? {
      AnswerFounded(links, n, a, e, n');
    } else {
      OtherFounded(links, n, a, e, n');
    }
  }

  lemma NewSendAddressed(links: Links, n: Net, a: byte, e: Event, n': Net)
    requires CustodyInv(links, n) && Advances(links, n, a, e, n') && Grows(n.nodes[a], n'.nodes[a])
    ensures Addressed(links, n'.nodes, a, |n'.nodes[a].ledger|)
  {
    hide HopInv, HopStep, OwnOk, RelayOk, InboxOk, Later, NodeOk, Founded, Entered;
    NeighboursStay(links, n, a, e, n', a);
  }

  lemma OtherFounded(links: Links, n: Net, a: byte, e: Event, n': Net)
    requires CustodyInv(links, n) && Advances(links, n, a, e, n') && Grows(n.nodes[a], n'.nodes[a])
    requires !n'.nodes[a].ledger[|n'.nodes[a].ledger| - 1].why.Answer?
    ensures Founded(n'.nodes, a, |n'.nodes[a].ledger|)
  {
    hide HopInv, HopStep, OwnOk, RelayOk, InboxOk, Later, NodeOk, Addressed;
    var x := n'.nodes[a].ledger[|n'.nodes[a].ledger| - 1];
    if x.why.Relay? {
      SendStays(n.nodes, n'.nodes, x.why.from, x.why.num);
    }
    if x.why.Notice? && e.GiveUp? {
      RelayedGoesAway(links, n, a);
    }
  }

  /** A message being relayed is for another node. */
  lemma RelayedGoesAway(links: Links, n: Net, a: byte)
    requires CustodyInv(links, n) && a in n.nodes && n.nodes[a].hop.Sending? && n.nodes[a].hop.x.why.Relay?
    ensures n.nodes[a].hop.x.m.dest != a
  {
    hide LedgerOk, Addressed;
    var k := |n.nodes[a].ledger|;
    assert NodeOk(n.nodes[a]);
    assert IsSend(n.nodes, a, k) && TheSend(n.nodes, a, k) == n.nodes[a].hop.x;
    assert Founded(n.nodes, a, k);
  }

  lemma AnswerFounded(links: Links, n: Net, a: byte, e: Event, n': Net)
    requires CustodyInv(links, n) && Advances(links, n, a, e, n') && Grows(n.nodes[a], n'.nodes[a])
    requires n'.nodes[a].ledger[|n'.nodes[a].ledger| - 1].why.Answer?
    ensures Founded(n'.nodes, a, |n'.nodes[a].ledger|)
  {
    hide HopInv, HopStep, OwnOk, RelayOk, InboxOk, Later, NodeOk, Addressed;
    var s, s' := n.nodes[a], n'.nodes[a];
    var x := s'.ledger[|s'.ledger| - 1];
    if e.Take? && Accepts(s, e.p) && Responds(s.me, e.p.f.m, x) && x.why.from == e.p.f.from && x.why.num == e.p.num {
      SendStays(n.nodes, n'.nodes, x.why.from, x.why.num);
    } else {
      var g := s.job.value;
      assert GotOk(n.nodes, g);
      GotStays(n.nodes, n'.nodes, g);
      HandledStays(s, e, s', g);
    }
  }

  lemma NewSendIs(links: Links, n: Net, a: byte, e: Event, n': Net, b: byte, k: nat)
    requires Moves(links, n, a, e, n') && IsSend(n'.nodes, b, k) && !IsSend(n.nodes, b, k)
    ensures b == a && k == |n'.nodes[a].ledger| && Grows(n.nodes[a], n'.nodes[a])
  {
    hide NodeOk, IsNet, Air, IsCurrent, IsReply, Accepts;
  }

  lemma SendsStay(links: Links, n: Net, a: byte, e: Event, n': Net)
    requires CustodyInv(links, n) && Advances(links, n, a, e, n')
    ensures SendsOk(links, n'.nodes)
  {
    hide CustodyInv, Moves, LedgerOk, EnteredBy, AppStep, Founded, Addressed, Within, Accepts;
    forall b, k | IsSend(n'.nodes, b, k)
      ensures Founded(n'.nodes, b, k) && Addressed(links, n'.nodes, b, k)
    {
      if IsSend(n.nodes, b, k) {
        OldSendStays(links, n, a, e, n', b, k);
      } else {
        NewSendIs(links, n, a, e, n', b, k);
        NewSendFounded(links, n, a, e, n');
      }
    }
  }

  lemma CustodyKept(links: Links, n: Net, act: Action, n': Net)
    requires CustodyInv(links, n) && Next(links, n, act, n')
    ensures CustodyInv(links, n')
  {
    hide HopInv, LedgerOk, Step, Air, Neighbours, GotsOk, SendsOk;
    HopInvKept(links, n, act, n');
    if act.Act? {
      NextAdvances(links, n, act.a, act.e, n');
      forall b | b in n'.nodes
        ensures LedgerOk(n'.nodes[b]) && Neighbours(links, n'.nodes, b) && GotsOk(n'.nodes, b)
      {
        NeighboursStay(links, n, act.a, act.e, n', b);
        GotsStay(links, n, act.a, act.e, n', b);
      }
      SendsStay(links, n, act.a, act.e, n');
    }
  }

  /** Every state of every run. */
  lemma {:induction false} CustodyAlways(links: Links, trace: seq<Net>, acts: seq<Action>, i: nat)
    requires Run(links, trace, acts) && i < |trace|
    ensures CustodyInv(links, trace[i])
  {
    hide CustodyInv, Next, Init;
    if i == 0 {
      InitCustody(links, trace[0]);
    } else {
      CustodyAlways(links, trace, acts, i - 1);
      CustodyKept(links, trace[i - 1], acts[i - 1], trace[i]);
    }
  }
}
