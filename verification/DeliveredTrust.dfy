/**
  When Delivered can be trusted: as long as no DATA or end-to-end ACK of an older send with the same 8-bit
  number is left anywhere in the network.
*/
module DeliveredTrust {
  import opened Types
  import opened Protocol
  import opened Network
  import opened Learning
  import opened HopSafety
  import opened Ledger
  import opened EndToEnd
  import opened Descent
  import opened Results
  import HE = HopExact
  import opened Reach

  /**
    Which Node::send of s a message is about, judged by the message it descends from: DATA of s carries one,
    an end-to-end ACK for s answers one.
  */
  ghost function About(links: Links, ns: Nodes, s: byte, a: byte, j: nat): Option<nat>
    requires Sound(links, ns) && IsSend(ns, a, j)
  {
    var m := TheSend(ns, a, j).m;
    RootIs(links, ns, a, j);
    var x := TheSend(ns, Root(links, ns, a, j).0, Root(links, ns, a, j).1);
    if m.body.Data? && m.source == s then Carried(x)
    else if m.body.EndAck? && m.dest == s && x.why.Answer? && IsSend(ns, x.why.from, x.why.num) then
      RootIs(links, ns, x.why.from, x.why.num);
      var r := Root(links, ns, x.why.from, x.why.num);
      Carried(TheSend(ns, r.0, r.1))
    else None
  }

  ghost function Carried(x: Sent): Option<nat> {
    if x.why.Own? then Some(x.why.k) else None
  }

  /** A message that may still travel: being sent, on the air, or received and waiting for its end-to-end ACK. */
  ghost predicate Live(n: Net, a: byte, j: nat)
  {
    || (a in n.nodes && n.nodes[a].hop.Sending? && j == |n.nodes[a].ledger|)
    || (exists b, i :: b in n.rx && 0 <= i < |n.rx[b]| && n.rx[b][i].f.Message? && n.rx[b][i].f.from == a && n.rx[b][i].num == j)
    || (exists b :: b in n.nodes && n.nodes[b].job.Some? && n.nodes[b].job.value.from == a && n.nodes[b].job.value.num == j)
  }

  /** Nothing that still travels passes for send k of s and is older; nor has such an ACK confirmed it already. */
  ghost predicate NothingOld(links: Links, n: Net, s: byte, k: nat)
  {
    && Sound(links, n.nodes) && s in n.nodes && |n.nodes[s].asked| + 256 > k
    && (forall a, j :: Live(n, a, j) && IsSend(n.nodes, a, j) ==>
          var o := About(links, n.nodes, s, a, j); o.Some? ==> !HE.Stale(o.value, k))
    && (forall c :: c in n.nodes[s].confirmed && c.k == k ==>
          GotOk(n.nodes, c.ack) && c.ack.m.body.EndAck? && AckedSend(links, n.nodes, c.ack) == k)
  }

  // ---- What a message is about ---------------------------------------------------------------------

  lemma AboutStays(links: Links, ns: Nodes, ns': Nodes, s: byte, a: byte, j: nat)
    requires Sound(links, ns) && Sound(links, ns') && Later(ns, ns') && IsSend(ns, a, j)
    ensures IsSend(ns', a, j) && About(links, ns', s, a, j) == About(links, ns, s, a, j)
  {
    hide Sound, Later, Root;
    SendStays(ns, ns', a, j);
    RootStays(links, ns, ns', a, j);
    RootIs(links, ns, a, j);
    var r := Root(links, ns, a, j);
    SendStays(ns, ns', r.0, r.1);
    var x := TheSend(ns, r.0, r.1);
    if TheSend(ns, a, j).m.body.EndAck? && x.why.Answer? {
      AnswersSomething(links, ns, r.0, r.1);
      RootStays(links, ns, ns', x.why.from, x.why.num);
      RootIs(links, ns, x.why.from, x.why.num);
      var q := Root(links, ns, x.why.from, x.why.num);
      SendStays(ns, ns', q.0, q.1);
      SendStays(ns, ns', x.why.from, x.why.num);
    }
  }

  lemma AnswersSomething(links: Links, ns: Nodes, a: byte, j: nat)
    requires Sound(links, ns) && IsSend(ns, a, j) && TheSend(ns, a, j).why.Answer?
    ensures IsSend(ns, TheSend(ns, a, j).why.from, TheSend(ns, a, j).why.num)
  {
    assert Founded(ns, a, j);
  }

  /** An end-to-end ACK is about the send it answers. */
  lemma AboutAcked(links: Links, ns: Nodes, s: byte, g: Got)
    requires Sound(links, ns) && GotOk(ns, g) && g.m.body.EndAck? && g.m.dest == s
    ensures About(links, ns, s, g.from, g.num) == Some(AckedSend(links, ns, g))
  {
    hide Sound, Root;
    EndAckShape(links, ns, g);
    var y := AckedData(links, ns, g);
    var k := AckedSend(links, ns, g);
    assert Carries(links, ns, y, s, k);
  }

  /** A relayed message is about what the message it was made of is about. */
  lemma AboutRelayed(links: Links, ns: Nodes, s: byte, a: byte, j: nat)
    requires Sound(links, ns) && IsSend(ns, a, j) && TheSend(ns, a, j).why.Relay?
    ensures var w := TheSend(ns, a, j).why;
            IsSend(ns, w.from, w.num) && About(links, ns, s, a, j) == About(links, ns, s, w.from, w.num)
  {
    hide Sound;
    Parent(links, ns, a, j);
  }

  /** An end-to-end ACK is about the DATA it answers. */
  lemma AboutAnswer(links: Links, ns: Nodes, s: byte, a: byte, j: nat)
    requires Sound(links, ns) && IsSend(ns, a, j) && TheSend(ns, a, j).why.Answer? && TheSend(ns, a, j).m.body.EndAck?
    ensures var w := TheSend(ns, a, j).why;
            IsSend(ns, w.from, w.num) && About(links, ns, s, a, j) == About(links, ns, s, w.from, w.num)
  {
    hide Sound;
    EndAckOrigin(links, ns, a, j);
    RootOfOwn(links, ns, a, j);
  }

  // ---- The condition is kept -----------------------------------------------------------------------

  lemma FreeStaysFree(s: NodeState, e: Event, s': NodeState)
    requires Step(s, e, s') && s'.hop.Sending? && !Grows(s, s')
    ensures s.hop.Sending?
  {
    hide Accept, Complete, Launch, FinishJob;
  }

  lemma SenderTransmits(s: NodeState, p: Packet, s': NodeState)
    requires Step(s, Transmit(p), s')
    ensures s.hop.Sending? && p.num == |s.ledger| && p.f.Message? && p.f.from == s.me
  {
  }

  /** All of a step that the lemmas below need. */
  ghost predicate Moved(links: Links, n: Net, c: byte, e: Event, n': Net)
  {
    && Sound(links, n.nodes) && Sound(links, n'.nodes) && Advances(links, n, c, e, n') && HopInv(links, n)
    && Step(n.nodes[c], e, n'.nodes[c])
  }

  lemma HopWasLive(links: Links, n: Net, c: byte, e: Event, n': Net)
    requires Moved(links, n, c, e, n') && n'.nodes[c].hop.Sending? && !Grows(n.nodes[c], n'.nodes[c])
    ensures Live(n, c, |n'.nodes[c].ledger|)
  {
    hide Step, Sound, HopInv, Within, EnteredBy, AppStep, LedgerOk;
    FreeStaysFree(n.nodes[c], e, n'.nodes[c]);
  }

  lemma PacketWasLive(links: Links, n: Net, c: byte, e: Event, n': Net, b: byte, i: nat)
    requires Moved(links, n, c, e, n') && b in n'.rx && i < |n'.rx[b]| && n'.rx[b][i].f.Message?
    ensures Live(n, n'.rx[b][i].f.from, n'.rx[b][i].num)
  {
    hide Step, Sound, HopInv, Within, EnteredBy, AppStep, LedgerOk;
    var p := n'.rx[b][i];
    HE.NetAt(links, n);
    HE.WasThere(links, n, c, e, n', b, p);
    if p in n.rx[b] {
      var l :| 0 <= l < |n.rx[b]| && n.rx[b][l] == p;
    } else {
      NotAReply(links, n, c, e, n', p);
      SenderTransmits(n.nodes[c], p, n'.nodes[c]);
    }
  }

  lemma NotAReply(links: Links, n: Net, c: byte, e: Event, n': Net, p: Packet)
    requires Moved(links, n, c, e, n') && p.f.Message? && (e == Transmit(p) || (e.Take? && e.reply == Some(p)))
    ensures e == Transmit(p)
  {
    hide Step, Sound, HopInv, Within, EnteredBy, AppStep, LedgerOk, Later;
  }

  lemma JobWasLive(links: Links, n: Net, c: byte, e: Event, n': Net)
    requires Moved(links, n, c, e, n') && n'.nodes[c].job.Some?
    ensures Live(n, n'.nodes[c].job.value.from, n'.nodes[c].job.value.num)
  {
    hide Step, Sound, HopInv, Within, EnteredBy, LedgerOk, Later, HopStep;
    if n'.nodes[c].job != n.nodes[c].job {
      assert c in n.rx && n.rx[c] != [] && n.rx[c][0] == e.p;
    }
  }

  /** What travels after a step travelled before it, or is the send the step has made. */
  lemma LiveBefore(links: Links, n: Net, c: byte, e: Event, n': Net, a: byte, j: nat)
    requires Moved(links, n, c, e, n') && Live(n', a, j) && IsSend(n'.nodes, a, j)
    ensures Live(n, a, j) || (a == c && j == |n'.nodes[c].ledger| && Grows(n.nodes[c], n'.nodes[c]))
  {
    KeysStay(links, n, c, e, n');
    if a in n'.nodes && n'.nodes[a].hop.Sending? && j == |n'.nodes[a].ledger| {
      if a == c && !Grows(n.nodes[c], n'.nodes[c]) {
        HopWasLive(links, n, c, e, n');
      }
    } else if b, i :| b in n'.rx && 0 <= i < |n'.rx[b]| && n'.rx[b][i].f.Message? && n'.rx[b][i].f.from == a && n'.rx[b][i].num == j {
      PacketWasLive(links, n, c, e, n', b, i);
    } else {
      var b :| b in n'.nodes && n'.nodes[b].job.Some? && n'.nodes[b].job.value.from == a && n'.nodes[b].job.value.num == j;
      if b == c {
        JobWasLive(links, n, c, e, n');
      }
    }
    hide Moved;
  }

  lemma KeysStay(links: Links, n: Net, c: byte, e: Event, n': Net)
    requires Moved(links, n, c, e, n')
    ensures c in n.nodes && n'.nodes.Keys == n.nodes.Keys
    ensures forall a :: a in n'.nodes && a != c ==> n'.nodes[a] == n.nodes[a]
    ensures Later(n.nodes, n'.nodes) && |n'.nodes[c].asked| >= |n.nodes[c].asked|
  {
    hide Step, Sound, HopInv, Within, EnteredBy, LedgerOk, Later, HopStep;
  }

  lemma LiveIsSend(links: Links, n: Net, c: byte, e: Event, n': Net, a: byte, j: nat)
    requires Moved(links, n, c, e, n') && IsSend(n'.nodes, a, j) && !(a == c && j == |n'.nodes[c].ledger| && Grows(n.nodes[c], n'.nodes[c]))
    ensures IsSend(n.nodes, a, j)
  {
    hide Step, Sound, HopInv, Within, EnteredBy, LedgerOk, AppStep;
    if !IsSend(n.nodes, a, j) {
      NewSendIs(links, n, c, e, n', a, j);
    }
  }

  /** The send a step makes is about what a travelling message is about, or about the send just called. */
  lemma NewIsAbout(links: Links, n: Net, c: byte, e: Event, n': Net, s: byte)
    requires Moved(links, n, c, e, n') && Grows(n.nodes[c], n'.nodes[c]) && s in n.nodes
    ensures var k := |n'.nodes[c].ledger|;
            && IsSend(n'.nodes, c, k)
            && var o := About(links, n'.nodes, s, c, k);
               || o.None?
               || o == Some(|n.nodes[s].asked|)
               || exists a, j :: Live(n, a, j) && IsSend(n.nodes, a, j) && About(links, n.nodes, s, a, j) == o
  {
    hide Moved, Live, About, Sound, Later, Root;
    KeysStay(links, n, c, e, n');
    SoundAfter(links, n, c, e, n');
    var k := |n'.nodes[c].ledger|;
    var w := n'.nodes[c].ledger[k - 1].why;
    assert TheSend(n'.nodes, c, k) == n'.nodes[c].ledger[k - 1];
    if w.Relay? {
      RelayedIsLive(links, n, c, e, n');
      AboutRelayed(links, n'.nodes, s, c, k);
      AboutStays(links, n.nodes, n'.nodes, s, w.from, w.num);
    } else if w.Answer? && TheSend(n'.nodes, c, k).m.body.EndAck? {
      AnsweredIsLive(links, n, c, e, n');
      AboutAnswer(links, n'.nodes, s, c, k);
      AboutStays(links, n.nodes, n'.nodes, s, w.from, w.num);
    } else {
      OwnIsAbout(links, n'.nodes, s, c, k);
      OwnIsCurrent(links, n, c, e, n');
    }
  }

  lemma SoundAfter(links: Links, n: Net, c: byte, e: Event, n': Net)
    requires Moved(links, n, c, e, n')
    ensures Sound(links, n.nodes) && Sound(links, n'.nodes)
  {
  }

  lemma OwnIsCurrent(links: Links, n: Net, c: byte, e: Event, n': Net)
    requires Moved(links, n, c, e, n') && Grows(n.nodes[c], n'.nodes[c])
    ensures var x := n'.nodes[c].ledger[|n'.nodes[c].ledger| - 1];
            && (x.why.Own? ==> x.why.k == |n.nodes[c].asked|)
            && (x.m.body.EndAck? ==> x.why.Answer? || x.why.Relay?)
  {
    hide Step, Sound, HopInv, Within, LedgerOk, Later, HopStep, AppStep, Moves;
  }

  /** A message that is not relayed is about the send it carries, if it is the node's own, or about none. */
  lemma OwnIsAbout(links: Links, ns: Nodes, s: byte, a: byte, k: nat)
    requires Sound(links, ns) && IsSend(ns, a, k) && !TheSend(ns, a, k).why.Relay?
    ensures TheSend(ns, a, k).why.Own? ==> About(links, ns, s, a, k) == if s == a then Some(TheSend(ns, a, k).why.k) else None
    ensures !TheSend(ns, a, k).why.Own? && !TheSend(ns, a, k).m.body.EndAck? ==> About(links, ns, s, a, k).None?
  {
    assert TheSend(ns, a, k) == ns[a].ledger[k - 1] && OwnOk(ns[a]);
    hide Sound, OwnOk;
    RootIs(links, ns, a, k);
  }

  lemma RelayedIsLive(links: Links, n: Net, c: byte, e: Event, n': Net)
    requires Moved(links, n, c, e, n') && Grows(n.nodes[c], n'.nodes[c])
    requires n'.nodes[c].ledger[|n'.nodes[c].ledger| - 1].why.Relay?
    ensures var w := n'.nodes[c].ledger[|n'.nodes[c].ledger| - 1].why;
            Live(n, w.from, w.num) && IsSend(n.nodes, w.from, w.num)
  {
    hide Step, Sound, HopInv, Within, LedgerOk, Later, HopStep, AppStep;
    assert c in n.rx && n.rx[c] != [] && n.rx[c][0] == e.p;
  }

  lemma AnsweredIsLive(links: Links, n: Net, c: byte, e: Event, n': Net)
    requires Moved(links, n, c, e, n') && Grows(n.nodes[c], n'.nodes[c])
    requires var x := n'.nodes[c].ledger[|n'.nodes[c].ledger| - 1]; x.why.Answer? && x.m.body.EndAck?
    ensures var w := n'.nodes[c].ledger[|n'.nodes[c].ledger| - 1].why;
            Live(n, w.from, w.num) && IsSend(n.nodes, w.from, w.num)
  {
    hide Step, Sound, HopInv, Within, LedgerOk, Later, HopStep, AppStep, TakesNew, Responds, Air;
    JobIsSend(links, n, c);
    if e.Take? && Accepts(n.nodes[c], e.p) {
      ResponsesAreNoAcks(n.nodes[c].me, e, n'.nodes[c].ledger[|n'.nodes[c].ledger| - 1]);
    }
  }

  lemma ResponsesAreNoAcks(me: byte, e: Event, x: Sent)
    requires e.Take? && e.p.f.Message? && x.m.body.EndAck?
    ensures !Responds(me, e.p.f.m, x)
  {
  }

  lemma JobIsSend(links: Links, n: Net, c: byte)
    requires Sound(links, n.nodes) && c in n.nodes
    ensures n.nodes[c].job.Some? ==> IsSend(n.nodes, n.nodes[c].job.value.from, n.nodes[c].job.value.num)
  {
    assert AppOk(n.nodes[c]) && TakenOk(links, n.nodes, c);
  }

  lemma MovedFrom(links: Links, n: Net, c: byte, e: Event, n': Net)
    requires CustodyInv(links, n) && CustodyInv(links, n') && Next(links, n, Act(c, e), n')
    ensures Moved(links, n, c, e, n')
  {
    hide Sound, LedgerOk, Neighbours, GotsOk, SendsOk, Advances, HopInv, Step, Air;
    CustodyIsSound(links, n);
    CustodyIsSound(links, n');
    NextAdvances(links, n, c, e, n');
  }

  /** Every message that travels after the step is no older than the condition allows. */
  lemma TravelsYoung(links: Links, n: Net, c: byte, e: Event, n': Net, s: byte, k: nat, a: byte, j: nat)
    requires Moved(links, n, c, e, n') && NothingOld(links, n, s, k) && Live(n', a, j) && IsSend(n'.nodes, a, j)
    ensures Sound(links, n'.nodes)
    ensures var o := About(links, n'.nodes, s, a, j); o.Some? ==> !HE.Stale(o.value, k)
  {
    hide Moved, Live, About, Sound, Later;
    SoundAfter(links, n, c, e, n');
    KeysStay(links, n, c, e, n');
    if a == c && j == |n'.nodes[c].ledger| && Grows(n.nodes[c], n'.nodes[c]) {
      NewIsAbout(links, n, c, e, n', s);
      if About(links, n'.nodes, s, a, j) == Some(|n.nodes[s].asked|) && HE.Stale(|n.nodes[s].asked|, k) {
        HE.CloseInNumber(|n.nodes[s].asked|, k);
        assert false;
      }
    } else {
      LiveBefore(links, n, c, e, n', a, j);
      LiveIsSend(links, n, c, e, n', a, j);
      AboutStays(links, n.nodes, n'.nodes, s, a, j);
    }
  }

  /** An ACK that confirms send k now is one for send k. */
  lemma ConfirmsYoung(links: Links, n: Net, c: byte, e: Event, n': Net, s: byte, k: nat, f: Confirmed)
    requires Moved(links, n, c, e, n') && NothingOld(links, n, s, k) && AllConfirmedOk(links, n'.nodes)
    requires s in n'.nodes && f in n'.nodes[s].confirmed && f.k == k
    ensures GotOk(n'.nodes, f.ack) && f.ack.m.body.EndAck? && AckedSend(links, n'.nodes, f.ack) == k
  {
    hide Moved, Live, About, Sound, Later, AllConfirmedOk, HE.Stale, AckedSend;
    SoundAfter(links, n, c, e, n');
    KeysStay(links, n, c, e, n');
    ConfirmedMeans(links, n'.nodes, s, f);
    if f in n.nodes[s].confirmed {
      AckedStays(links, n.nodes, n'.nodes, f.ack);
    } else {
      NewAckIsLive(links, n, c, e, n', s, f);
      AckForUs(links, n', s, f);
      AckedStays(links, n.nodes, n'.nodes, f.ack);
      AboutAcked(links, n.nodes, s, f.ack);
      NotStaleIsSame(AckedSend(links, n.nodes, f.ack), k);
    }
  }

  lemma NotStaleIsSame(x: nat, k: nat)
    requires x <= k && Low8(x) == Low8(k) && !HE.Stale(x, k)
    ensures x == k
  {
  }

  lemma AckForUs(links: Links, n: Net, s: byte, f: Confirmed)
    requires Sound(links, n.nodes) && AllConfirmedOk(links, n.nodes) && s in n.nodes && f in n.nodes[s].confirmed
    ensures f.ack.m.dest == s
  {
    hide Sound, AckedSend;
    var i :| 0 <= i < |n.nodes[s].confirmed| && n.nodes[s].confirmed[i] == f;
    assert ConfirmedOk(links, n.nodes, s, n.nodes[s].confirmed[i]);
  }

  lemma NewAckIsLive(links: Links, n: Net, c: byte, e: Event, n': Net, s: byte, f: Confirmed)
    requires Moved(links, n, c, e, n') && s in n.nodes && s in n'.nodes && f in n'.nodes[s].confirmed && f !in n.nodes[s].confirmed
    ensures Live(n, f.ack.from, f.ack.num) && GotOk(n.nodes, f.ack) && f.ack.m.body.EndAck?
  {
    hide Step, Sound, HopInv, Within, EnteredBy, LedgerOk, Later, HopStep, AppStep;
    KeysStay(links, n, c, e, n');
    assert s == c;
    ConfirmedByStep(n.nodes[c], e, n'.nodes[c], f);
    assert c in n.rx && n.rx[c] != [] && n.rx[c][0] == e.p;
  }

  lemma ConfirmedByStep(s: NodeState, e: Event, s': NodeState, f: Confirmed)
    requires AppStep(s, e, s') && f in s'.confirmed && f !in s.confirmed
    ensures e.Take? && Accepts(s, e.p) && f.ack == Got(e.p.f.m, e.p.f.from, e.p.num) && f.ack.m.body.EndAck?
  {
  }

  lemma LoseOld(links: Links, n: Net, b: byte, i: nat, n': Net, s: byte, k: nat)
    requires NothingOld(links, n, s, k) && Next(links, n, Lose(b, i), n')
    ensures NothingOld(links, n', s, k)
  {
    hide Sound, About, AckedSend;
    forall a, j | Live(n', a, j)
      ensures Live(n, a, j)
    {
      if c, l :| c in n'.rx && 0 <= l < |n'.rx[c]| && n'.rx[c][l].f.Message? && n'.rx[c][l].f.from == a && n'.rx[c][l].num == j {
        assert n'.rx[c][l] == n.rx[c][if c == b && l >= i then l + 1 else l];
      }
    }
  }

  lemma OldKept(links: Links, n: Net, act: Action, n': Net, s: byte, k: nat)
    requires CustodyInv(links, n) && CustodyInv(links, n') && Next(links, n, act, n') && NothingOld(links, n, s, k)
    requires Sound(links, n'.nodes) && AllConfirmedOk(links, n'.nodes)
    ensures NothingOld(links, n', s, k)
  {
    hide CustodyInv, Sound, AllConfirmedOk, Step, Air, About, AckedSend, Live, Moved;
    match act
    case Lose(b, i) => LoseOld(links, n, b, i, n', s, k);
    case Act(c, e) =>
      MovedFrom(links, n, c, e, n');
      KeysStay(links, n, c, e, n');
      forall a, j | Live(n', a, j) && IsSend(n'.nodes, a, j)
        ensures var o := About(links, n'.nodes, s, a, j); o.Some? ==> !HE.Stale(o.value, k)
      {
        TravelsYoung(links, n, c, e, n', s, k, a, j);
      }
      forall f | f in n'.nodes[s].confirmed && f.k == k
        ensures GotOk(n'.nodes, f.ack) && f.ack.m.body.EndAck? && AckedSend(links, n'.nodes, f.ack) == k
      {
        ConfirmsYoung(links, n, c, e, n', s, k, f);
      }
  }

  lemma {:induction false} OldAlways(links: Links, trace: seq<Net>, acts: seq<Action>, i: nat, t: nat, s: byte, k: nat)
    requires Run(links, trace, acts) && i <= t < |trace| && NothingOld(links, trace[i], s, k)
    ensures CustodyInv(links, trace[t]) && Sound(links, trace[t].nodes) && AllConfirmedOk(links, trace[t].nodes)
    ensures NothingOld(links, trace[t], s, k)
    decreases t
  {
    hide CustodyInv, Sound, AllConfirmedOk, Next, NothingOld, Init;
    ConfirmedAlways(links, trace, acts, t);
    if i < t {
      OldAlways(links, trace, acts, i, t - 1, s, k);
      OldKept(links, trace[t - 1], acts[t - 1], trace[t], s, k);
    }
  }

  /**
    When Delivered can be trusted. Let no message that still travels, at some time, be about an older send of s
    with the 8-bit number of its k-th: this can be asked before that send is made. Then, whenever the k-th send
    has returned Delivered, its destination has passed exactly its DATA to its handler, or is about to.
  */
  lemma DeliveredIsTrusted(links: Links, trace: seq<Net>, acts: seq<Action>, i: nat, t: nat, s: byte, k: nat, c: Confirmed)
    requires Run(links, trace, acts) && i <= t < |trace| && NothingOld(links, trace[i], s, k)
    requires s in trace[t].nodes && c in trace[t].nodes[s].confirmed && c.k == k
    ensures var ns := trace[t].nodes;
            && Sound(links, ns) && 1 <= k <= |ns[s].asked|
            && var d := ns[s].asked[k - 1].dest;
               d in ns && exists y {:trigger Handled(ns[d], y)} ::
                 Handled(ns[d], y) && Carries(links, ns, y, s, k) && y.m == DataOf(ns[s], k).(hops := y.m.hops)
  {
    hide CustodyInv, Sound, AllConfirmedOk, Run, Live, About, AckedSend, AckedData, Handled, Carries, DataOf;
    OldAlways(links, trace, acts, i, t, s, k);
    ConfirmedMeans(links, trace[t].nodes, s, c);
    var y := AckedData(links, trace[t].nodes, c.ack);
    assert Handled(trace[t].nodes[trace[t].nodes[s].asked[k - 1].dest], y);
  }

  /** Node s would take packet p for the end-to-end ACK of the send it waits for. */
  ghost predicate Passes(s: NodeState, p: Packet)
  {
    && Polling(s) && s.out.Waiting? && Accepts(s, p) && p.f.to in {s.me, BROADCAST} && p.f.from != s.me
    && p.f.m.body == EndAck(s.out.seq8) && p.f.m.source == s.out.dest && p.f.m.dest in {s.me, BROADCAST} && s.me != BROADCAST
  }

  ghost predicate Polling(s: NodeState) {
    s.hop.NoHop? && s.arp.None? && s.job.None?
  }

  lemma PassingConfirms(s: NodeState, p: Packet)
    requires Passes(s, p)
    ensures Receive(s, p).confirmed == s.confirmed + [Confirmed(|s.asked|, Got(p.f.m, p.f.from, p.num))]
  {
  }

  /**
    The other half, for ACKs that have come as far as the queue of s: whichever of them s would take for the
    one it waits for, old or not, there is a way for the run to go on in which the send returns Delivered
    because of it.
  */
  lemma AnyAckMayConfirm(links: Links, n: Net, s: byte, i: nat) returns (m: Net)
    requires s in n.nodes && s in n.rx && n.nodes[s].me == s && i < |n.rx[s]| && Passes(n.nodes[s], n.rx[s][i])
    ensures Follows(links, n, m) && s in m.nodes
    ensures var x, p := n.nodes[s], n.rx[s][i];
            m.nodes[s].confirmed == x.confirmed + [Confirmed(|x.asked|, Got(p.f.m, p.f.from, p.num))]
  {
    hide Follows, Receive;
    Stays(links, n);
    var x, p := n.nodes[s], n.rx[s][i];
    PassingConfirms(x, p);
    HE.NewIsTaken(x, p);
    Loses(links, n, n, s, i);
    var n1 := n.(rx := n.rx[s := n.rx[s][i..]]);
    if p.f.to == s {
      var q := Packet(HopAck(p.f.from, s, p.f.id, false), p.num, p.num);
      Replies(links, n, n1, s, p, q, Receive(x, p), {});
      m := Net(n1.nodes[s := Receive(x, p)], Hear(n1.rx[s := n1.rx[s][1..]], {}, q));
    } else {
      Takes(links, n, n1, s, p, Receive(x, p));
      m := Net(n1.nodes[s := Receive(x, p)], n1.rx[s := n1.rx[s][1..]]);
    }
  }
}
