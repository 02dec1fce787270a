/**
  When a hop acknowledgement can be trusted.

  A true result of sendtoWait need not mean that the next hop has accepted the message, because ids repeat
  after 256 sends. This module says exactly when it does: a condition on the state in which the send is
  handed to the hop layer, true or false before anything of it has been transmitted.
*/
module HopExact {
  import opened Types
  import opened Protocol
  import opened Network
  import opened Learning
  import opened HopSafety
  import opened Reach

  /** x looks like k to a node that sees 8 bits of it, and is older. */
  predicate Stale(x: nat, k: nat) {
    x < k && Low8(x) == Low8(k)
  }

  /**
    Nothing that passes for send k of a is left between a and b: not in b's duplicate filter, not on its way
    to b, and no acknowledgement of it on its way back. The last two clauses hold of themselves for the send
    under way and the next 255.
  */
  ghost predicate Unaliased(n: Net, a: byte, b: byte, k: nat)
    requires a in n.nodes && b in n.nodes && a in n.rx && b in n.rx
  {
    && !Stale(n.nodes[b].lastNum[a], k)
    && (forall p :: p in n.rx[b] && p.f.Message? && p.f.from == a && p.f.to in {b, BROADCAST} ==> !Stale(p.num, k))
    && (forall p :: p in n.rx[a] && p.f.HopAck? && p.f.from == b && p.f.to == a ==> !Stale(p.last, k))
    && |n.nodes[a].ledger| + 256 > k
    && (forall h :: h in n.nodes[a].handed && h.num == k && h.to == b ==> h.last == k)
  }

  /** Whatever follows, a true result of send k of a to b means that b has accepted it. */
  ghost predicate Trustworthy(links: Links, n: Net, a: byte, b: byte, k: nat)
  {
    forall m {:trigger Follows(links, n, m)} :: Follows(links, n, m) ==>
      && a in m.nodes && b in m.nodes
      && forall h :: h in m.nodes[a].handed && h.num == k && h.to == b ==> (a, k) in m.nodes[b].taken
  }

  // ---- The condition is kept -----------------------------------------------------------------------

  lemma LoseUnaliased(links: Links, n: Net, c: byte, i: nat, n': Net, a: byte, b: byte, k: nat)
    requires HopInv(links, n) && Next(links, n, Lose(c, i), n') && a in n.nodes && b in n.nodes && Unaliased(n, a, b, k)
    ensures a in n'.rx && b in n'.rx && Unaliased(n', a, b, k)
  {
    hide NodeOk, TakenOk, HandedOk, InOrder, PacketOk, Stale;
    var q := n.rx[c];
    forall p | p in q[..i] + q[i + 1..]
      ensures p in q
    {
    }
  }

  /** A frame on its way to b after a's step was there before, or is the one the mover put on the air. */
  lemma WasThere(links: Links, n: Net, c: byte, e: Event, n': Net, b: byte, p: Packet)
    requires HopInv(links, n) && Moves(links, n, c, e, n') && b in n.nodes && p in n'.rx[b]
    ensures p in n.rx[b] || e == Transmit(p) || (e.Take? && e.reply == Some(p))
  {
    hide NodeOk, TakenOk, HandedOk, InOrder, PacketOk, HopStep, Later;
  }

  lemma FilterUnaliased(links: Links, n: Net, c: byte, e: Event, n': Net, a: byte, b: byte, k: nat)
    requires HopInv(links, n) && Moves(links, n, c, e, n') && a in n.nodes && b in n.nodes && Unaliased(n, a, b, k)
    ensures !Stale(n'.nodes[b].lastNum[a], k)
  {
    hide NodeOk, TakenOk, HandedOk, InOrder, PacketOk, Later, Stale;
    if c == b && e.Take? && Accepts(n.nodes[b], e.p) && e.p.f.from == a {
      assert e.p in n.rx[b];
    }
  }

  lemma MessagesUnaliased(links: Links, n: Net, c: byte, e: Event, n': Net, a: byte, b: byte, k: nat, p: Packet)
    requires HopInv(links, n) && Moves(links, n, c, e, n') && a in n.nodes && b in n.nodes && Unaliased(n, a, b, k)
    requires p in n'.rx[b] && p.f.Message? && p.f.from == a && p.f.to in {b, BROADCAST}
    ensures !Stale(p.num, k)
  {
    hide NodeOk, TakenOk, HandedOk, InOrder, PacketOk, Later;
    WasThere(links, n, c, e, n', b, p);
    if p !in n.rx[b] && Stale(p.num, k) {
      CloseInNumber(p.num, k);
      assert false;
    }
  }

  lemma CloseInNumber(x: nat, k: nat)
    requires Stale(x, k)
    ensures x + 256 <= k
  {
    if k - x < 256 { SameLowByte(x, k); }
  }

  lemma AcksUnaliased(links: Links, n: Net, c: byte, e: Event, n': Net, a: byte, b: byte, k: nat, p: Packet)
    requires HopInv(links, n) && Moves(links, n, c, e, n') && a in n.nodes && b in n.nodes && Unaliased(n, a, b, k)
    requires p in n'.rx[a] && p.f.HopAck? && p.f.from == b && p.f.to == a
    ensures !Stale(p.last, k)
  {
    hide NodeOk, TakenOk, HandedOk, InOrder, PacketOk, Later, Stale;
    WasThere(links, n, c, e, n', a, p);
    FilterUnaliased(links, n, c, e, n', a, b, k);
  }

  /** A send that is acknowledged now was accepted now or before. */
  lemma HandedUnaliased(links: Links, n: Net, c: byte, e: Event, n': Net, a: byte, b: byte, k: nat, h: Handed)
    requires HopInv(links, n) && Moves(links, n, c, e, n') && a in n.nodes && b in n.nodes && Unaliased(n, a, b, k)
    requires h in n'.nodes[a].handed && h.num == k && h.to == b
    ensures h.last == k
  {
    hide TakenOk, InOrder, Later, HandedOk;
    if h !in n.nodes[a].handed {
      assert c == a && e.p in n.rx[a] && PacketOk(links, n.nodes, a, n.rx[a][0]);
      assert e.p.f.from == b && e.p.f.to == a && h.last == e.p.last;
      assert e.p.last <= e.p.num <= |n.nodes[a].ledger| == k;
      assert Low8(e.p.last) == Low8(e.p.num) == e.p.f.id == n.nodes[a].lastSeq == Low8(k);
    }
  }

  lemma UnaliasedKept(links: Links, n: Net, act: Action, n': Net, a: byte, b: byte, k: nat)
    requires HopInv(links, n) && Next(links, n, act, n') && a in n.nodes && b in n.nodes && Unaliased(n, a, b, k)
    ensures HopInv(links, n') && a in n'.nodes && b in n'.nodes && Unaliased(n', a, b, k)
  {
    hide HopInv, Step, Moves, Unaliased, Stale, Air;
    HopInvKept(links, n, act, n');
    NetAt(links, n');
    match act
    case Lose(c, i) => LoseUnaliased(links, n, c, i, n', a, b, k);
    case Act(c, e) =>
      NextMoves(links, n, c, e, n');
      MoveUnaliased(links, n, c, e, n', a, b, k);
  }

  lemma NetAt(links: Links, n: Net)
    requires HopInv(links, n)
    ensures IsNet(n)
  {
  }

  lemma MoveUnaliased(links: Links, n: Net, c: byte, e: Event, n': Net, a: byte, b: byte, k: nat)
    requires HopInv(links, n) && Moves(links, n, c, e, n') && a in n.nodes && b in n.nodes && Unaliased(n, a, b, k)
    ensures a in n'.rx && b in n'.rx && a in n'.nodes && b in n'.nodes && Unaliased(n', a, b, k)
  {
    assert a in n'.rx && b in n'.rx && a in n'.nodes && b in n'.nodes;
    assert |n'.nodes[a].ledger| >= |n.nodes[a].ledger|;
    hide HopInv, Moves, Stale;
    FilterUnaliased(links, n, c, e, n', a, b, k);
    forall p | p in n'.rx[b] && p.f.Message? && p.f.from == a && p.f.to in {b, BROADCAST}
      ensures !Stale(p.num, k)
    {
      MessagesUnaliased(links, n, c, e, n', a, b, k, p);
    }
    forall p | p in n'.rx[a] && p.f.HopAck? && p.f.from == b && p.f.to == a
      ensures !Stale(p.last, k)
    {
      AcksUnaliased(links, n, c, e, n', a, b, k, p);
    }
    forall h | h in n'.nodes[a].handed && h.num == k && h.to == b
      ensures h.last == k
    {
      HandedUnaliased(links, n, c, e, n', a, b, k, h);
    }
  }

  lemma {:induction false} UnaliasedChain(links: Links, trace: seq<Net>, acts: seq<Action>, t: nat, a: byte, b: byte, k: nat)
    requires Chain(links, trace, acts) && t < |trace| && HopInv(links, trace[0])
    requires a in trace[0].nodes && b in trace[0].nodes && Unaliased(trace[0], a, b, k)
    ensures HopInv(links, trace[t]) && a in trace[t].nodes && b in trace[t].nodes && Unaliased(trace[t], a, b, k)
  {
    hide HopInv, Next, Unaliased;
    NetAt(links, trace[0]);
    if t > 0 {
      UnaliasedChain(links, trace, acts, t - 1, a, b, k);
      UnaliasedKept(links, trace[t - 1], acts[t - 1], trace[t], a, b, k);
    }
  }

  /**
    The condition suffices, for the send under way and for any that may come: in every run through such a state
    a true result of that send means that it was accepted.
  */
  lemma UnaliasedIsTrusted(links: Links, n: Net, a: byte, b: byte, k: nat)
    requires HopInv(links, n) && a in n.nodes && b in n.nodes && k >= 1 && Unaliased(n, a, b, k)
    ensures Trustworthy(links, n, a, b, k)
  {
    hide HopInv, Unaliased, Next;
    NetAt(links, n);
    forall m | Follows(links, n, m)
      ensures a in m.nodes && b in m.nodes
      ensures forall h :: h in m.nodes[a].handed && h.num == k && h.to == b ==> (a, k) in m.nodes[b].taken
    {
      var trace, acts :| Chain(links, trace, acts) && trace[0] == n && trace[|trace| - 1] == m;
      UnaliasedChain(links, trace, acts, |trace| - 1, a, b, k);
      LastIsTaken(links, m, a, b, k);
    }
  }

  lemma LastIsTaken(links: Links, m: Net, a: byte, b: byte, k: nat)
    requires HopInv(links, m) && a in m.nodes && b in m.nodes && k >= 1 && Unaliased(m, a, b, k)
    ensures forall h :: h in m.nodes[a].handed && h.num == k && h.to == b ==> (a, k) in m.nodes[b].taken
  {
    hide NodeOk, TakenOk, InOrder, PacketOk, Stale;
    forall h | h in m.nodes[a].handed && h.num == k && h.to == b
      ensures (a, k) in m.nodes[b].taken
    {
      assert HandedOk(m.nodes, a);
    }
  }

  // ---- And it is needed ----------------------------------------------------------------------------

  /** Nothing but the mover's own business has changed, and not what it has accepted. */
  ghost predicate Apart(n: Net, n': Net, b: byte)
    requires b in n.nodes
  {
    && OnlyMoved(n, n', {b}) && n'.rx == n.rx
    && var s, s' := n.nodes[b], n'.nodes[b];
       s'.me == s.me && s'.seen == s.seen && s'.lastNum == s.lastNum && s'.taken == s.taken
  }

  /** A hop send that is given up, or a broadcast that is out. */
  ghost function Stopped(s: NodeState): NodeState
    requires s.hop.Sending?
  {
    if s.hop.x.to == BROADCAST then Complete(s, true)
    else Complete(s.(hop := Sending(s.hop.x, if s.hop.tries == 0 then 1 else s.hop.tries)), false)
  }

  /** What the hop layer transmits next. */
  ghost function NextFrame(s: NodeState): Packet
    requires s.hop.Sending?
  {
    Packet(Message(s.hop.x.to, s.me, s.lastSeq, s.hop.tries % 256 != 0, s.hop.x.m), |s.ledger|, 0)
  }

  lemma NobodyHears(n: Net, p: Packet)
    ensures Hear(n.rx, {}, p) == n.rx
  {
  }

  /** Unheard, node b ends its hop send. */
  lemma Stops(links: Links, n0: Net, n: Net, b: byte) returns (n': Net)
    requires Follows(links, n0, n) && b in n.nodes && b in n.rx && n.nodes[b].hop.Sending?
    ensures Follows(links, n0, n') && Apart(n, n', b) && n'.nodes[b] == Stopped(n.nodes[b])
  {
    hide Follows, Complete;
    var s := n.nodes[b];
    var p := NextFrame(s);
    NobodyHears(n, p);
    if s.hop.x.to == BROADCAST {
      Sends(links, n0, n, b, p, Complete(s, true), {});
      n' := n.(nodes := n.nodes[b := Complete(s, true)]);
    } else {
      var s1, n1 := s, n;
      if s.hop.tries == 0 {
        s1 := s.(hop := Sending(s.hop.x, 1));
        Sends(links, n0, n, b, p, s1, {});
        n1 := n.(nodes := n.nodes[b := s1]);
      } else {
        assert s.(hop := Sending(s.hop.x, s.hop.tries)) == s;
      }
      Acts(links, n0, n1, b, GiveUp, Complete(s1, false));
      n' := n1.(nodes := n1.nodes[b := Complete(s1, false)]);
    }
  }

  /** Only a message that was relayed provokes a notice. */
  lemma NoSecondNotice(s: NodeState)
    requires s.hop.Sending?
    ensures Stopped(s).hop.Sending? ==> s.hop.x.why.Relay? && !Stopped(s).hop.x.why.Relay?
  {
  }

  /** Node b comes to rest in its hop layer. */
  lemma ComesToRest(links: Links, n0: Net, n: Net, b: byte) returns (n': Net)
    requires Follows(links, n0, n) && b in n.nodes && b in n.rx
    ensures Follows(links, n0, n') && Apart(n, n', b) && n'.nodes[b].hop.NoHop?
  {
    hide Follows, Stopped;
    n' := n;
    if n'.nodes[b].hop.Sending? {
      NoSecondNotice(n'.nodes[b]);
      n' := Stops(links, n0, n', b);
      if n'.nodes[b].hop.Sending? {
        NoSecondNotice(n'.nodes[b]);
        n' := Stops(links, n0, n', b);
      }
    }
  }

  /** A node that has an end-to-end ACK to send tries once, and then polls again. */
  lemma TriesOnce(s: NodeState)
    requires s.hop.NoHop? && s.arp.None? && s.job.Some?
    ensures Step(s, Try, Launch(s)) && Launch(s).hop.Sending?
    ensures var s' := Stopped(Launch(s)); s'.hop.NoHop? && Listening(s')
    ensures var s' := Launch(s); s'.me == s.me && s'.seen == s.seen && s'.lastNum == s.lastNum && s'.taken == s.taken
  {
    hide NextHop;
  }

  /** Node b comes to where it polls for a new message, without having accepted anything meanwhile. */
  lemma ComesToPoll(links: Links, n: Net, b: byte) returns (n': Net)
    requires b in n.nodes && b in n.rx
    ensures Follows(links, n, n') && Apart(n, n', b) && n'.nodes[b].hop.NoHop? && Listening(n'.nodes[b])
  {
    hide Follows, Stopped, Launch, Step;
    Stays(links, n);
    var n1 := ComesToRest(links, n, n, b);
    n' := n1;
    if !Listening(n1.nodes[b]) {
      TriesOnce(n1.nodes[b]);
      Acts(links, n, n1, b, Try, Launch(n1.nodes[b]));
      var n2 := n1.(nodes := n1.nodes[b := Launch(n1.nodes[b])]);
      n' := Stops(links, n, n2, b);
    }
  }

  /** Send k of a to b is under way. */
  ghost predicate UnderWay(links: Links, n: Net, a: byte, b: byte, k: nat)
  {
    && a in n.nodes && b in n.nodes && a in n.rx && b in n.rx && a != b && b != BROADCAST
    && n.nodes[a].hop.Sending? && n.nodes[a].hop.x.to == b && k == |n.nodes[a].ledger|
    && n.nodes[a].me == a && n.nodes[b].me == b && n.nodes[a].lastSeq == Low8(k)
    && (a, b) in links && (b, a) in links
  }

  ghost predicate Fooled(m: Net, a: byte, b: byte, k: nat)
  {
    && a in m.nodes && b in m.nodes && (a, k) !in m.nodes[b].taken
    && exists h :: h in m.nodes[a].handed && h.num == k && h.to == b
  }

  lemma FooledIsUntrusted(links: Links, n: Net, m: Net, a: byte, b: byte, k: nat)
    requires Follows(links, n, m) && Fooled(m, a, b, k)
    ensures !Trustworthy(links, n, a, b, k)
  {
    hide Follows;
  }

  lemma TakesTheAck(s: NodeState, p: Packet)
    requires s.hop.Sending? && s.hop.tries > 0 && p.f.HopAck? && p.f.from == s.hop.x.to && p.f.to == s.me && p.f.id == s.lastSeq
    requires p.f.from != s.me
    ensures Step(s, Take(p, None), Receive(s, p))
    ensures Receive(s, p).handed == s.handed + [Handed(|s.ledger|, s.hop.x.to, p.num, p.last)]
  {
    hide Undeliverable, FinishJob;
  }

  /** A stale acknowledgement on its way to a. */
  lemma StaleAckFools(links: Links, n: Net, a: byte, b: byte, k: nat, i: nat) returns (m: Net)
    requires UnderWay(links, n, a, b, k) && (a, k) !in n.nodes[b].taken && i < |n.rx[a]|
    requires var p := n.rx[a][i]; p.f.HopAck? && p.f.from == b && p.f.to == a && p.f.id == Low8(k)
    ensures Follows(links, n, m) && Fooled(m, a, b, k)
  {
    hide Follows, Complete;
    Stays(links, n);
    var s, p := n.nodes[a], n.rx[a][i];
    var n1 := n;
    if s.hop.tries == 0 {
      NobodyHears(n, NextFrame(s));
      Sends(links, n, n, a, NextFrame(s), s.(hop := Sending(s.hop.x, 1)), {});
      n1 := n.(nodes := n.nodes[a := s.(hop := Sending(s.hop.x, 1))]);
    }
    Loses(links, n, n1, a, i);
    var n2 := n1.(rx := n1.rx[a := n1.rx[a][i..]]);
    var s2 := n2.nodes[a];
    TakesTheAck(s2, p);
    Takes(links, n, n2, a, p, Receive(s2, p));
    m := Net(n2.nodes[a := Receive(s2, p)], n2.rx[a := n2.rx[a][1..]]);
    assert m.nodes[a].handed[|s.handed|] == Handed(k, b, p.num, p.last);
  }

  /** A repeat, as far as the filter can tell, is acknowledged by whoever polls. */
  lemma RepeatIsAcked(s: NodeState, p: Packet)
    requires Listening(s) && p.f.Message? && p.f.to == s.me && p.f.from != s.me && p.f.id == s.seen[p.f.from]
    ensures Step(s, Take(p, Some(Packet(HopAck(p.f.from, s.me, p.f.id, false), p.num, s.lastNum[p.f.from]))), s)
  {
    var q := Packet(HopAck(p.f.from, s.me, p.f.id, false), p.num, s.lastNum[p.f.from]);
    assert exists retry :: q == Packet(HopAck(p.f.from, s.me, p.f.id, retry), p.num, s.lastNum[p.f.from]);
  }

  /** b's filter takes send k for a repeat. */
  lemma StaleFilterFools(links: Links, n: Net, a: byte, b: byte, k: nat) returns (m: Net)
    requires UnderWay(links, n, a, b, k) && (a, k) !in n.nodes[b].taken && n.nodes[b].seen[a] == Low8(k)
    ensures Follows(links, n, m) && Fooled(m, a, b, k)
  {
    hide Follows, Listening;
    var n1 := ComesToPoll(links, n, b);
    var s, p := n.nodes[a], NextFrame(n.nodes[a]);
    var s1 := s.(hop := Sending(s.hop.x, s.hop.tries + 1));
    Sends(links, n, n1, a, p, s1, {b});
    HeardByOne(n1.rx, b, p);
    var n2 := Net(n1.nodes[a := s1], n1.rx[b := n1.rx[b] + [p]]);
    Loses(links, n, n2, b, |n1.rx[b]|);
    var n3 := n2.(rx := n2.rx[b := n2.rx[b][|n1.rx[b]|..]]);
    assert n3.rx[b] == [p];
    var q := Packet(HopAck(a, b, Low8(k), false), k, n3.nodes[b].lastNum[a]);
    RepeatIsAcked(n3.nodes[b], p);
    Replies(links, n, n3, b, p, q, n3.nodes[b], {a});
    HeardByOne(n3.rx[b := []], a, q);
    var n4 := Net(n3.nodes[b := n3.nodes[b]], Hear(n3.rx[b := n3.rx[b][1..]], {a}, q));
    assert n3.rx[b][1..] == [];
    assert n4.rx[a] == n3.rx[a] + [q];
    m := StaleAckFools(links, n4, a, b, k, |n3.rx[a]|);
    FollowsOn(links, n, n4, m);
  }

  /** A frame the filter lets through, as the poll of an idle node takes it. */
  lemma NewIsTaken(s: NodeState, p: Packet)
    requires s.hop.NoHop? && Listening(s) && Accepts(s, p) && p.f.to in {s.me, BROADCAST} && p.f.from != s.me && s.me != BROADCAST
    ensures p.f.to == s.me ==> Step(s, Take(p, Some(Packet(HopAck(p.f.from, s.me, p.f.id, false), p.num, p.num))), Receive(s, p))
    ensures p.f.to != s.me ==> Step(s, Take(p, None), Receive(s, p))
    ensures var s' := Receive(s, p);
            && s'.me == s.me && s'.seen == s.seen[p.f.from := p.f.id] && s'.lastNum == s.lastNum[p.f.from := p.num]
            && s'.taken == s.taken + {(p.f.from, p.num)}
  {
    hide Accept;
    var s' := Receive(s, p);
    assert Reacts(Noted(s, p), s');
    var q := Packet(HopAck(p.f.from, s.me, p.f.id, false), p.num, p.num);
    assert exists retry :: q == Packet(HopAck(p.f.from, s.me, p.f.id, retry), p.num, s'.lastNum[p.f.from]);
  }

  /** An older frame with the id of send k, on its way to b: b accepts that one, and then takes send k for a repeat. */
  lemma StaleFrameFools(links: Links, n: Net, a: byte, b: byte, k: nat, i: nat) returns (m: Net)
    requires UnderWay(links, n, a, b, k) && (a, k) !in n.nodes[b].taken && n.nodes[b].seen[a] != Low8(k) && i < |n.rx[b]|
    requires var p := n.rx[b][i]; p.f.Message? && p.f.from == a && p.f.to in {b, BROADCAST} && p.f.id == Low8(k) && p.num < k
    ensures Follows(links, n, m) && Fooled(m, a, b, k)
  {
    hide Follows, Listening, Receive;
    var p := n.rx[b][i];
    var n1 := ComesToPoll(links, n, b);
    Loses(links, n, n1, b, i);
    var n2 := n1.(rx := n1.rx[b := n1.rx[b][i..]]);
    var s := n2.nodes[b];
    NewIsTaken(s, p);
    var s' := Receive(s, p);
    var n3 := Net(n2.nodes[b := s'], n2.rx[b := n2.rx[b][1..]]);
    if p.f.to == b {
      var q := Packet(HopAck(a, b, p.f.id, false), p.num, p.num);
      NobodyHears(Net(n2.nodes, n2.rx[b := n2.rx[b][1..]]), q);
      Replies(links, n, n2, b, p, q, s', {});
    } else {
      Takes(links, n, n2, b, p, s');
    }
    m := StaleFilterFools(links, n3, a, b, k);
    FollowsOn(links, n, n3, m);
  }

  lemma AliasFools(links: Links, n: Net, a: byte, b: byte, k: nat)
    requires HopInv(links, n) && UnderWay(links, n, a, b, k) && (a, k) !in n.nodes[b].taken && !Unaliased(n, a, b, k)
    ensures !Trustworthy(links, n, a, b, k)
  {
    FilterShows(links, n, a, b);
    hide Follows, Trustworthy, UnderWay, HopInv;
    var m := n;
    if Stale(n.nodes[b].lastNum[a], k) {
      m := StaleFilterFools(links, n, a, b, k);
    } else if i :| 0 <= i < |n.rx[b]| && var p := n.rx[b][i];
                p.f.Message? && p.f.from == a && p.f.to in {b, BROADCAST} && Stale(p.num, k) {
      FrameShows(links, n, a, b, i);
      if n.nodes[b].seen[a] == Low8(k) {
        m := StaleFilterFools(links, n, a, b, k);
      } else {
        m := StaleFrameFools(links, n, a, b, k, i);
      }
    } else if i :| 0 <= i < |n.rx[a]| && var p := n.rx[a][i];
                p.f.HopAck? && p.f.from == b && p.f.to == a && Stale(p.last, k) {
      FrameShows(links, n, b, a, i);
      m := StaleAckFools(links, n, a, b, k, i);
    } else {
      Stays(links, n);
      StillFooled(links, n, a, b, k);
    }
    FooledIsUntrusted(links, n, m, a, b, k);
  }

  /** If nothing else is wrong, a false result is already there. */
  lemma StillFooled(links: Links, n: Net, a: byte, b: byte, k: nat)
    requires UnderWay(links, n, a, b, k) && (a, k) !in n.nodes[b].taken && !Unaliased(n, a, b, k)
    requires !Stale(n.nodes[b].lastNum[a], k)
    requires !exists i :: 0 <= i < |n.rx[b]| && var p := n.rx[b][i];
               p.f.Message? && p.f.from == a && p.f.to in {b, BROADCAST} && Stale(p.num, k)
    requires !exists i :: 0 <= i < |n.rx[a]| && var p := n.rx[a][i]; p.f.HopAck? && p.f.from == b && p.f.to == a && Stale(p.last, k)
    ensures Fooled(n, a, b, k)
  {
    hide Stale;
  }

  lemma FilterShows(links: Links, n: Net, a: byte, b: byte)
    requires HopInv(links, n) && b in n.nodes
    ensures n.nodes[b].seen[a] == Low8(n.nodes[b].lastNum[a])
  {
    assert NodeOk(n.nodes[b]);
  }

  /** Frames show the low byte of their send, acknowledgements that of what they rest on. */
  lemma FrameShows(links: Links, n: Net, a: byte, b: byte, i: nat)
    requires HopInv(links, n) && b in n.nodes && i < |n.rx[b]|
    ensures var p := n.rx[b][i]; p.f.id == Low8(p.num) && (p.f.HopAck? ==> Low8(p.last) == p.f.id)
  {
    assert PacketOk(links, n.nodes, b, n.rx[b][i]);
  }

  lemma {:induction false} TakenChain(links: Links, trace: seq<Net>, acts: seq<Action>, t: nat, b: byte, x: (byte, nat))
    requires Chain(links, trace, acts) && t < |trace| && HopInv(links, trace[0])
    requires b in trace[0].nodes && x in trace[0].nodes[b].taken
    ensures HopInv(links, trace[t]) && b in trace[t].nodes && x in trace[t].nodes[b].taken && trace[t].nodes.Keys == trace[0].nodes.Keys
  {
    hide HopInv, Step, HopStep, Air;
    if t > 0 {
      TakenChain(links, trace, acts, t - 1, b, x);
      assert Next(links, trace[t - 1], acts[t - 1], trace[t]);
      HopInvKept(links, trace[t - 1], acts[t - 1], trace[t]);
      if acts[t - 1].Act? {
        NextMoves(links, trace[t - 1], acts[t - 1].a, acts[t - 1].e, trace[t]);
      }
    }
  }

  lemma TakenIsTrusted(links: Links, n: Net, a: byte, b: byte, k: nat)
    requires HopInv(links, n) && a in n.nodes && b in n.nodes && (a, k) in n.nodes[b].taken
    ensures Trustworthy(links, n, a, b, k)
  {
    hide HopInv, Next;
    forall m | Follows(links, n, m)
      ensures a in m.nodes && b in m.nodes && (a, k) in m.nodes[b].taken
    {
      var trace, acts :| Chain(links, trace, acts) && trace[0] == n && trace[|trace| - 1] == m;
      TakenChain(links, trace, acts, |trace| - 1, b, (a, k));
    }
  }

  /**
    When a hop acknowledgement can be trusted, exactly. Let a have handed send k to its hop layer, for b, which
    it can reach and hear, and let b not have accepted it yet. Then a true result of that send means that b has
    accepted it, in every run from here on, if and only if nothing that passes for it is left between them.
  */
  lemma TrustExactly(links: Links, trace: seq<Net>, acts: seq<Action>, t: nat, a: byte, b: byte, k: nat)
    requires Run(links, trace, acts) && t < |trace| && UnderWay(links, trace[t], a, b, k)
    ensures Trustworthy(links, trace[t], a, b, k) <==> (a, k) in trace[t].nodes[b].taken || Unaliased(trace[t], a, b, k)
  {
    hide HopInv, Next, Trustworthy, Unaliased, Init;
    HopInvAlways(links, trace, acts, t);
    SomethingSent(links, trace[t], a);
    if (a, k) in trace[t].nodes[b].taken {
      TakenIsTrusted(links, trace[t], a, b, k);
    } else if Unaliased(trace[t], a, b, k) {
      UnaliasedIsTrusted(links, trace[t], a, b, k);
    } else {
      AliasFools(links, trace[t], a, b, k);
    }
  }

  lemma SomethingSent(links: Links, n: Net, a: byte)
    requires HopInv(links, n) && a in n.nodes && n.nodes[a].hop.Sending?
    ensures |n.nodes[a].ledger| >= 1
  {
    assert NodeOk(n.nodes[a]);
  }
}
