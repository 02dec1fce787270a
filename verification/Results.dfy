/** What the results of Node::send mean: NoRoute was never on the air, Delivered was handled at its destination. */
module Results {
  import opened Types
  import opened Protocol
  import opened Network
  import opened Learning
  import opened HopSafety
  import opened Ledger
  import opened EndToEnd
  import opened Descent

  // ---- No route ----------------------------------------------------------------------------------

  ghost predicate NeverSent(s: NodeState, k: nat)
  {
    && 1 <= k <= |s.asked| && (k == |s.asked| ==> !s.out.Seeking?)
    && forall i :: 0 <= i < |s.ledger| ==> s.ledger[i].why != Own(k)
  }

  /** When Node::send gives up on finding a route, its DATA has not been handed to the hop layer, and never will be. */
  lemma NoRouteNeverSent(links: Links, trace: seq<Net>, acts: seq<Action>, t: nat, s: byte, u: nat)
    requires Run(links, trace, acts) && t < |acts| && acts[t] == Act(s, Abandon)
    requires s in trace[t].nodes && trace[t].nodes[s].out.Seeking?
    requires t < u < |trace|
    ensures s in trace[u].nodes && NeverSent(trace[u].nodes[s], |trace[t].nodes[s].asked|)
  {
    hide NeverSent, CustodyInv, Init, LedgerOk;
    CustodyAlways(links, trace, acts, t);
    assert Next(links, trace[t], acts[t], trace[t + 1]);
    assert LedgerOk(trace[t].nodes[s]) by { LedgerAt(links, trace[t], s); }
    AbandonNeverSent(trace[t].nodes[s], trace[t + 1].nodes[s]);
    NeverSentStays(links, trace, acts, t + 1, s, |trace[t].nodes[s].asked|, u);
  }

  lemma LedgerAt(links: Links, n: Net, s: byte)
    requires CustodyInv(links, n) && s in n.nodes
    ensures LedgerOk(n.nodes[s])
  {
  }

  lemma AbandonNeverSent(s: NodeState, s': NodeState)
    requires LedgerOk(s) && Step(s, Abandon, s') && s.out.Seeking?
    ensures NeverSent(s', |s.asked|)
  {
  }

  lemma {:induction false} NeverSentStays(links: Links, trace: seq<Net>, acts: seq<Action>, t: nat, s: byte, k: nat, u: nat)
    requires Run(links, trace, acts) && t <= u < |trace|
    requires s in trace[t].nodes && NeverSent(trace[t].nodes[s], k)
    ensures s in trace[u].nodes && NeverSent(trace[u].nodes[s], k)
    decreases u - t
  {
    hide CustodyInv, NeverSent, Step, Air, Init;
    if t < u {
      CustodyAlways(links, trace, acts, t);
      assert Next(links, trace[t], acts[t], trace[t + 1]);
      hide Next;
      NextNeverSent(links, trace[t], acts[t], trace[t + 1], s, k);
      NeverSentStays(links, trace, acts, t + 1, s, k, u);
    }
  }

  lemma NextNeverSent(links: Links, n: Net, act: Action, n': Net, s: byte, k: nat)
    requires CustodyInv(links, n) && Next(links, n, act, n') && s in n.nodes && NeverSent(n.nodes[s], k)
    ensures s in n'.nodes && NeverSent(n'.nodes[s], k)
  {
    hide CustodyInv, Step, Air, LedgerOk, NeverSent;
    if act.Act? {
      NextAdvances(links, n, act.a, act.e, n');
      NeverSentStep(n.nodes[act.a], act.e, n'.nodes[act.a], k);
    }
  }

  lemma NeverSentStep(s: NodeState, e: Event, s': NodeState, k: nat)
    requires HopStep(s, e, s') && AppStep(s, e, s') && EnteredBy(s, e, s')
    ensures NeverSent(s, k) ==> NeverSent(s', k)
  {
  }

  // ---- Delivered ---------------------------------------------------------------------------------

  /** An end-to-end ACK descends from the destination of a DATA that has been handled there. */
  lemma EndAckShape(links: Links, ns: Nodes, g: Got)
    requires Sound(links, ns) && GotOk(ns, g) && g.m.body.EndAck?
    ensures g.m.dest != BROADCAST
    ensures var r := Root(links, ns, g.from, g.num);
            && r.0 == g.m.source && IsSend(ns, r.0, r.1) && TheSend(ns, r.0, r.1).why.Answer?
            && var w := TheSend(ns, r.0, r.1).why;
               && IsSend(ns, w.from, w.num)
               && var y := TheSend(ns, w.from, w.num).m;
                  && y.body.Data? && y.dest == r.0 && y.source == g.m.dest && y.body.seq8 == g.m.body.seq8
                  && Handled(ns[r.0], Got(y, w.from, w.num))
  {
    EndAckIsUnicast(links, ns, g.from, g.num);
    hide LedgerOk, SendsOk, TakenOk;
    RootIs(links, ns, g.from, g.num);
    var r := Root(links, ns, g.from, g.num);
    EndAckOrigin(links, ns, r.0, r.1);
  }

  lemma EndAckOrigin(links: Links, ns: Nodes, a: byte, k: nat)
    requires Sound(links, ns) && IsSend(ns, a, k) && !TheSend(ns, a, k).why.Relay? && TheSend(ns, a, k).m.body.EndAck?
    ensures TheSend(ns, a, k).why.Answer?
    ensures var x := TheSend(ns, a, k); var w := x.why;
            && IsSend(ns, w.from, w.num)
            && var y := TheSend(ns, w.from, w.num).m;
               && y.body.Data? && y.dest == a && x.m == EndAckOf(a, y) && Handled(ns[a], Got(y, w.from, w.num))
  {
    assert Founded(ns, a, k);
    assert TheSend(ns, a, k) == ns[a].ledger[k - 1];
    assert OwnOk(ns[a]);
  }

  lemma {:induction false} EndAckIsUnicast(links: Links, ns: Nodes, a: byte, k: nat)
    requires Sound(links, ns) && IsSend(ns, a, k) && TheSend(ns, a, k).m.body.EndAck?
    ensures TheSend(ns, a, k).m.dest != BROADCAST
    decreases Depth(TheSend(ns, a, k).m)
  {
    assert Founded(ns, a, k);
    var x := TheSend(ns, a, k);
    assert x == ns[a].ledger[k - 1];
    if x.why.Relay? {
      Parent(links, ns, a, k);
      EndAckIsUnicast(links, ns, x.why.from, x.why.num);
    } else {
      DataIsOurs(links, ns, Got(TheSend(ns, x.why.from, x.why.num).m, x.why.from, x.why.num));
    }
  }

  /** The DATA an end-to-end ACK answers, as it reached its destination. */
  ghost function AckedData(links: Links, ns: Nodes, g: Got): (y: Got)
    requires Sound(links, ns) && GotOk(ns, g) && g.m.body.EndAck?
    ensures GotOk(ns, y) && y.m.body.Data? && y.m.dest == g.m.source && y.m.source == g.m.dest
    ensures y.m.body.seq8 == g.m.body.seq8 && g.m.source in ns && Handled(ns[g.m.source], y)
  {
    EndAckShape(links, ns, g);
    var r := Root(links, ns, g.from, g.num);
    var w := TheSend(ns, r.0, r.1).why;
    Got(TheSend(ns, w.from, w.num).m, w.from, w.num)
  }

  /** Which Node::send of its receiver an end-to-end ACK answers. */
  ghost function AckedSend(links: Links, ns: Nodes, g: Got): (k: nat)
    requires Sound(links, ns) && GotOk(ns, g) && g.m.body.EndAck?
    ensures g.m.dest in ns && 1 <= k <= |ns[g.m.dest].asked|
    ensures Carries(links, ns, AckedData(links, ns, g), g.m.dest, k)
    ensures var y := AckedData(links, ns, g); y.m == DataOf(ns[g.m.dest], k).(hops := y.m.hops)
  {
    var y := AckedData(links, ns, g);
    DataIsOurs(links, ns, y);
    var k :| 1 <= k <= |ns[y.m.source].asked| && Carries(links, ns, y, y.m.source, k)
             && y.m == DataOf(ns[y.m.source], k).(hops := y.m.hops);
    k
  }

  lemma {:induction false} RootStays(links: Links, ns: Nodes, ns': Nodes, a: byte, k: nat)
    requires Sound(links, ns) && Sound(links, ns') && Later(ns, ns') && IsSend(ns, a, k)
    ensures IsSend(ns', a, k) && TheSend(ns', a, k) == TheSend(ns, a, k) && Root(links, ns', a, k) == Root(links, ns, a, k)
    decreases Depth(TheSend(ns, a, k).m)
  {
    hide LedgerOk, SendsOk, TakenOk, Later;
    SendStays(ns, ns', a, k);
    var x := TheSend(ns, a, k);
    if x.why.Relay? {
      Parent(links, ns, a, k);
      RootStays(links, ns, ns', x.why.from, x.why.num);
    }
  }

  lemma AckedStays(links: Links, ns: Nodes, ns': Nodes, g: Got)
    requires Sound(links, ns) && Sound(links, ns') && Later(ns, ns') && GotOk(ns, g) && g.m.body.EndAck?
    ensures GotOk(ns', g) && AckedSend(links, ns', g) == AckedSend(links, ns, g)
  {
    hide LedgerOk, SendsOk, TakenOk, Later, Handled;
    RootStays(links, ns, ns', g.from, g.num);
    EndAckShape(links, ns, g);
    var y := AckedData(links, ns, g);
    RootStays(links, ns, ns', y.from, y.num);
    var r := Root(links, ns, y.from, y.num);
    RootIs(links, ns, y.from, y.num);
    SendStays(ns, ns', r.0, r.1);
    var q := Root(links, ns, g.from, g.num);
    SendStays(ns, ns', q.0, q.1);
    SendStays(ns, ns', y.from, y.num);
  }

  /** c at node s: a matching ACK, answering this send or an earlier one with the same 8-bit number. */
  ghost predicate ConfirmedOk(links: Links, ns: Nodes, s: byte, c: Confirmed)
    requires Sound(links, ns) && s in ns
  {
    && 1 <= c.k <= |ns[s].asked|
    && GotOk(ns, c.ack) && c.ack.m.body.EndAck? && c.ack.m.dest == s
    && c.ack.m.source == ns[s].asked[c.k - 1].dest && c.ack.m.body.seq8 == Low8(c.k - 1)
    && AckedSend(links, ns, c.ack) <= c.k
  }

  ghost predicate AllConfirmedOk(links: Links, ns: Nodes)
    requires Sound(links, ns)
  {
    forall s, i :: s in ns && 0 <= i < |ns[s].confirmed| ==> ConfirmedOk(links, ns, s, ns[s].confirmed[i])
  }

  lemma ConfirmedStays(links: Links, n: Net, a: byte, e: Event, n': Net, s: byte, c: Confirmed)
    requires Sound(links, n.nodes) && Sound(links, n'.nodes) && Advances(links, n, a, e, n')
    requires s in n.nodes && ConfirmedOk(links, n.nodes, s, c)
    ensures ConfirmedOk(links, n'.nodes, s, c)
  {
    hide LedgerOk, SendsOk, TakenOk, Later, HopStep, Air, EnteredBy, Within, Sound;
    AckedStays(links, n.nodes, n'.nodes, c.ack);
  }

  /** The end-to-end ACK that makes a send return Delivered. */
  lemma NewConfirmed(links: Links, n: Net, a: byte, e: Event, n': Net)
    requires Sound(links, n.nodes) && Sound(links, n'.nodes) && Advances(links, n, a, e, n')
    requires n'.nodes[a].confirmed != n.nodes[a].confirmed
    ensures var c := n'.nodes[a].confirmed; c != [] && ConfirmedOk(links, n'.nodes, a, c[|c| - 1])
  {
    hide LedgerOk, SendsOk, TakenOk, Later, HopStep, Air, EnteredBy, Within;
    var s := n.nodes[a];
    var g := Got(e.p.f.m, e.p.f.from, e.p.num);
    assert GotOk(n.nodes, g);
    EndAckShape(links, n.nodes, g);
    AckedStays(links, n.nodes, n'.nodes, g);
    assert AckedSend(links, n.nodes, g) <= |s.asked|;
  }

  lemma ConfirmedKept(links: Links, n: Net, act: Action, n': Net)
    requires CustodyInv(links, n) && Next(links, n, act, n') && Sound(links, n.nodes) && AllConfirmedOk(links, n.nodes)
    ensures CustodyInv(links, n') && Sound(links, n'.nodes) && AllConfirmedOk(links, n'.nodes)
  {
    hide CustodyInv, Sound, Step, Air;
    CustodyKept(links, n, act, n');
    CustodyIsSound(links, n');
    if act.Act? {
      NextAdvances(links, n, act.a, act.e, n');
      ActKeepsConfirmed(links, n, act.a, act.e, n');
    }
  }

  lemma ActKeepsConfirmed(links: Links, n: Net, a: byte, e: Event, n': Net)
    requires Sound(links, n.nodes) && Sound(links, n'.nodes) && Advances(links, n, a, e, n') && AllConfirmedOk(links, n.nodes)
    ensures AllConfirmedOk(links, n'.nodes)
  {
    hide Sound, ConfirmedOk, LedgerOk, HopStep, Air, EnteredBy, Within, Later;
    forall s, i | s in n'.nodes && 0 <= i < |n'.nodes[s].confirmed|
      ensures ConfirmedOk(links, n'.nodes, s, n'.nodes[s].confirmed[i])
    {
      if i < |n.nodes[s].confirmed| {
        assert n'.nodes[s].confirmed[i] == n.nodes[s].confirmed[i];
        ConfirmedStays(links, n, a, e, n', s, n.nodes[s].confirmed[i]);
      } else {
        NewConfirmed(links, n, a, e, n');
      }
    }
  }

  lemma {:induction false} ConfirmedAlways(links: Links, trace: seq<Net>, acts: seq<Action>, t: nat)
    requires Run(links, trace, acts) && t < |trace|
    ensures CustodyInv(links, trace[t]) && Sound(links, trace[t].nodes) && AllConfirmedOk(links, trace[t].nodes)
  {
    hide CustodyInv, Sound, Next;
    if t == 0 {
      InitCustody(links, trace[0]);
      CustodyIsSound(links, trace[0]);
    } else {
      ConfirmedAlways(links, trace, acts, t - 1);
      ConfirmedKept(links, trace[t - 1], acts[t - 1], trace[t]);
    }
  }

  /**
    Whenever the k-th Node::send of s has returned Delivered, its destination has passed on to its handler
    (or is about to) the DATA of a send of s to that destination with the same 8-bit number, no later than
    the k-th; and of the k-th itself while numbers have not come round.
  */
  lemma DeliveredWasHandled(links: Links, trace: seq<Net>, acts: seq<Action>, t: nat, s: byte, c: Confirmed)
    requires Run(links, trace, acts) && t < |trace| && s in trace[t].nodes && c in trace[t].nodes[s].confirmed
    ensures var ns := trace[t].nodes;
            && Sound(links, ns) && GotOk(ns, c.ack) && c.ack.m.body.EndAck?
            && 1 <= c.k <= |ns[s].asked|
            && var k, y, d := AckedSend(links, ns, c.ack), AckedData(links, ns, c.ack), ns[s].asked[c.k - 1].dest;
               && 1 <= k <= c.k && Low8(k) == Low8(c.k) && ns[s].asked[k - 1].dest == d
               && d in ns && Handled(ns[d], y) && Carries(links, ns, y, s, k)
               && y.m == DataOf(ns[s], k).(hops := y.m.hops)
               && (c.k <= 256 ==> k == c.k)
  {
    ConfirmedAlways(links, trace, acts, t);
    hide CustodyInv, Sound, Run;
    assert c in trace[t].nodes[s].confirmed;
    ConfirmedMeans(links, trace[t].nodes, s, c);
  }

  lemma ConfirmedMeans(links: Links, ns: Nodes, s: byte, c: Confirmed)
    requires Sound(links, ns) && AllConfirmedOk(links, ns) && s in ns && c in ns[s].confirmed
    ensures GotOk(ns, c.ack) && c.ack.m.body.EndAck? && 1 <= c.k <= |ns[s].asked|
    ensures var k, y, d := AckedSend(links, ns, c.ack), AckedData(links, ns, c.ack), ns[s].asked[c.k - 1].dest;
            && 1 <= k <= c.k && Low8(k) == Low8(c.k) && ns[s].asked[k - 1].dest == d
            && d in ns && Handled(ns[d], y) && Carries(links, ns, y, s, k)
            && y.m == DataOf(ns[s], k).(hops := y.m.hops)
            && (c.k <= 256 ==> k == c.k)
  {
    hide Sound, Root, Handled, Carries, DataOf, GotOk, Low8;
    var i :| 0 <= i < |ns[s].confirmed| && ns[s].confirmed[i] == c;
    assert ConfirmedOk(links, ns, s, ns[s].confirmed[i]);
    var k, y := AckedSend(links, ns, c.ack), AckedData(links, ns, c.ack);
    DataShows(ns[s], k, y);
    NextLow(k - 1, c.k - 1);
    SameLowByte(k, c.k);
  }

  lemma DataShows(s: NodeState, k: nat, y: Got)
    requires 1 <= k <= |s.asked| && y.m == DataOf(s, k).(hops := y.m.hops)
    ensures y.m.body.seq8 == Low8(k - 1) && y.m.dest == s.asked[k - 1].dest
  {
  }

  lemma NextLow(x: nat, y: nat)
    requires Low8(x) == Low8(y)
    ensures Low8(x + 1) == Low8(y + 1)
  {
  }
}
