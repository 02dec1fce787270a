/**
  The simulated radio channel: SimEther with its drivers and links, and SimDriver, the RadioHead driver on
  top of it. Whether a lossy link loses a frame is left open.
*/
module Ether {
  import opened Types
  import opened Protocol
  import opened Network

  /** kRxQueueLen */
  const RX_QUEUE: nat := 8

  /** SimDriver::kMaxMessageLen */
  const MAX_MESSAGE: nat := 251

  /** A link between a and b, in both directions. */
  datatype Link = Link(a: byte, b: byte, rssi: int, drop: real)

  // ---- Links as a sequence -------------------------------------------------------------------------

  predicate Joins(l: Link, a: byte, b: byte) {
    (l.a == a && l.b == b) || (l.a == b && l.b == a)
  }

  /** Index of the first link between a and b; |ls| when there is none. */
  function FirstLink(ls: seq<Link>, a: byte, b: byte): (i: nat)
    ensures i <= |ls|
    ensures i < |ls| ==> Joins(ls[i], a, b)
    ensures forall j :: 0 <= j < i ==> !Joins(ls[j], a, b)
  {
    if ls == [] then 0 else if Joins(ls[0], a, b) then 0 else 1 + FirstLink(ls[1..], a, b)
  }

  predicate Linked(ls: seq<Link>, a: byte, b: byte) {
    FirstLink(ls, a, b) < |ls|
  }

  /** No pair of nodes has two links. */
  ghost predicate OneEach(ls: seq<Link>)
  {
    forall i, j :: 0 <= i < j < |ls| ==> !Joins(ls[j], ls[i].a, ls[i].b)
  }

  function WithLink(ls: seq<Link>, a: byte, b: byte, rssi: int): seq<Link> {
    var i := FirstLink(ls, a, b);
    if i < |ls| then ls[i := ls[i].(rssi := rssi)] else ls + [Link(a, b, rssi, 0.0)]
  }

  function WithoutLink(ls: seq<Link>, a: byte, b: byte): seq<Link> {
    var i := FirstLink(ls, a, b);
    if i < |ls| then ls[..i] + ls[i + 1..] else ls
  }

  /** link() joins a and b, unlink() parts them, and neither concerns any other pair. */
  lemma LinksAre(ls: seq<Link>, a: byte, b: byte, rssi: int, c: byte, d: byte)
    requires OneEach(ls)
    ensures var ls' := WithLink(ls, a, b, rssi);
            OneEach(ls') && (Linked(ls', c, d) <==> Linked(ls, c, d) || (c == a && d == b) || (c == b && d == a))
    ensures var ls' := WithoutLink(ls, a, b);
            OneEach(ls') && (Linked(ls', c, d) <==> Linked(ls, c, d) && !(c == a && d == b) && !(c == b && d == a))
  {
    JoinedAfterLink(ls, a, b, rssi, c, d);
    JoinedAfterUnlink(ls, a, b, c, d);
  }

  /**
    link() sets the signal strength of its pair; a link just made drops nothing, one that was there keeps its drop
    rate, and the links of other pairs stay exactly as they are.
  */
  lemma LinkQuality(ls: seq<Link>, a: byte, b: byte, rssi: int, c: byte, d: byte)
    requires OneEach(ls)
    ensures var ls' := WithLink(ls, a, b, rssi);
            && Linked(ls', a, b)
            && var l := ls'[FirstLink(ls', a, b)];
               l.rssi == rssi && l.drop == if Linked(ls, a, b) then ls[FirstLink(ls, a, b)].drop else 0.0
    ensures Linked(ls, c, d) && !(c == a && d == b) && !(c == b && d == a) ==>
              var ls' := WithLink(ls, a, b, rssi);
              Linked(ls', c, d) && ls'[FirstLink(ls', c, d)] == ls[FirstLink(ls, c, d)]
  {
    var ls' := WithLink(ls, a, b, rssi);
    JoinedAfterLink(ls, a, b, rssi, a, b);
    JoinedAfterLink(ls, a, b, rssi, c, d);
    var k, f := FirstLink(ls, a, b), FirstLink(ls, c, d);
    assert forall i :: 0 <= i < |ls| ==> ls'[i].a == ls[i].a && ls'[i].b == ls[i].b;
    if k < |ls| { assert Joins(ls'[k], a, b); }
    if f < |ls| { assert Joins(ls'[f], c, d); }
  }

  lemma JoinedAfterLink(ls: seq<Link>, a: byte, b: byte, rssi: int, c: byte, d: byte)
    requires OneEach(ls)
    ensures var ls' := WithLink(ls, a, b, rssi);
            OneEach(ls') && (Linked(ls', c, d) <==> Linked(ls, c, d) || (c == a && d == b) || (c == b && d == a))
  {
    var ls' := WithLink(ls, a, b, rssi);
    var f, f' := FirstLink(ls, c, d), FirstLink(ls', c, d);
    assert forall i :: 0 <= i < |ls| ==> ls'[i].a == ls[i].a && ls'[i].b == ls[i].b;
    if f < |ls| { assert Joins(ls'[f], c, d); }
    if f' < |ls| { assert Joins(ls[f'], c, d); }
    if FirstLink(ls, a, b) < |ls| { assert Joins(ls'[FirstLink(ls, a, b)], a, b); } else { assert Joins(ls'[|ls|], a, b); }
  }

  lemma JoinedAfterUnlink(ls: seq<Link>, a: byte, b: byte, c: byte, d: byte)
    requires OneEach(ls)
    ensures var ls' := WithoutLink(ls, a, b);
            OneEach(ls') && (Linked(ls', c, d) <==> Linked(ls, c, d) && !(c == a && d == b) && !(c == b && d == a))
  {
    var ls' := WithoutLink(ls, a, b);
    var k := FirstLink(ls, a, b);
    if k < |ls| {
      var f, f' := FirstLink(ls, c, d), FirstLink(ls', c, d);
      assert forall i :: 0 <= i < |ls'| ==> ls'[i] == ls[if i < k then i else i + 1];
      if f < |ls| && f != k { assert ls'[if f < k then f else f - 1] == ls[f]; }
      if f' < |ls'| { assert Joins(ls[if f' < k then f' else f' + 1], c, d); }
    }
  }

  // ---- Receive queues ------------------------------------------------------------------------------

  predicate PassesFilter(p: Packet, address: byte, promiscuous: bool) {
    promiscuous || p.f.to == address || p.f.to == BROADCAST
  }

  /** Index of the first frame the header filter lets through; |q| when there is none. */
  function FirstFor(q: seq<Packet>, address: byte, promiscuous: bool): (i: nat)
    ensures i <= |q|
    ensures i < |q| ==> PassesFilter(q[i], address, promiscuous)
    ensures forall j :: 0 <= j < i ==> !PassesFilter(q[j], address, promiscuous)
  {
    if q == [] then 0 else if PassesFilter(q[0], address, promiscuous) then 0 else 1 + FirstFor(q[1..], address, promiscuous)
  }

  class SimDriver {
    const address: byte        // _thisAddress
    const ether: SimEther
    var promiscuous: bool
    var rxQueue: seq<Packet>
    var hasCurrent: bool
    var current: Packet
    var powered: bool
    var rxFrom: byte           // _rxHeaderFrom
    var rxGood: nat            // _rxGood
    var txGood: nat            // _txGood

    constructor (address: byte, ether: SimEther, idle: Packet)
      ensures this.address == address && this.ether == ether && powered && !hasCurrent && rxQueue == [] && !promiscuous
    {
      this.address, this.ether := address, ether;
      promiscuous, rxQueue, hasCurrent, current, powered := false, [], false, idle, true;
      rxFrom, rxGood, txGood := 0, 0, 0;
    }

    /** SimDriver::available: a frame is in hand, or one can be popped. */
    method Available() returns (r: bool)
      requires ether.Valid() && ether.Driver(address) == Some(this)
      modifies `rxQueue, `hasCurrent, `current, `rxFrom, `rxGood
      ensures ether.Valid() && r == hasCurrent
      ensures old(hasCurrent) ==> r && rxQueue == old(rxQueue) && current == old(current) && rxFrom == old(rxFrom) && rxGood == old(rxGood)
      ensures !old(hasCurrent) ==>
                var k := FirstFor(old(rxQueue), address, promiscuous);
                && r == (k < |old(rxQueue)|)
                && rxQueue == old(rxQueue)[if r then k + 1 else k..]
                && (r ==> current == old(rxQueue)[k] && rxFrom == current.f.from && rxGood == old(rxGood) + 1)
    {
      if hasCurrent {
        return true;
      }
      var popped := ether.Pop(address, promiscuous);
      if popped.Some? {
        hasCurrent, current := true, popped.value;
        rxFrom := current.f.from;
        rxGood := rxGood + 1;
        return true;
      }
      r := false;
    }

    /** SimDriver::recv */
    method Recv() returns (p: Option<Packet>)
      requires ether.Valid() && ether.Driver(address) == Some(this)
      modifies `rxQueue, `hasCurrent, `current, `rxFrom, `rxGood
      ensures ether.Valid() && !hasCurrent
      ensures old(hasCurrent) ==> p == Some(old(current)) && rxQueue == old(rxQueue)
      ensures !old(hasCurrent) ==>
                var k := FirstFor(old(rxQueue), address, promiscuous);
                if k < |old(rxQueue)| then p == Some(old(rxQueue)[k]) && rxQueue == old(rxQueue)[k + 1..] else p == None && rxQueue == []
    {
      var ready := Available();
      if !ready {
        return None;
      }
      p := Some(current);
      hasCurrent := false;
    }

    /** SimDriver::send for a frame of len octets: too long a frame goes nowhere. */
    method Send(p: Packet, len: nat) returns (ok: bool)
      requires ether.Valid()
      modifies ether.drivers`rxQueue, `txGood
      ensures ether.Valid() && ok == (len <= MAX_MESSAGE) && txGood == old(txGood) + if ok then 1 else 0
      ensures forall d :: d in ether.drivers ==>
                if ok then ether.Hears(address, d, p, old(d.rxQueue), d.rxQueue) else d.rxQueue == old(d.rxQueue)
    {
      hide SimEther.Hears, SimEther.Distinct, SimEther.Reach, SimEther.Queues, Spread, OneEach;
      if len > MAX_MESSAGE {
        return false;
      }
      ether.Transmit(address, p);
      txGood := txGood + 1;
      ok := true;
    }
  }

  class SimEther {
    var drivers: seq<SimDriver>
    var links: seq<Link>
    var fullMesh: bool

    ghost predicate Valid()
      reads this, drivers
    {
      && (forall i, j :: 0 <= i < j < |drivers| ==> drivers[i] != drivers[j])
      && (forall d :: d in drivers ==> |d.rxQueue| <= RX_QUEUE)
      && OneEach(links)
    }

    constructor ()
      ensures Valid() && drivers == [] && links == [] && fullMesh
    {
      drivers, links, fullMesh := [], [], true;
    }

    /** findDriver: the first driver with that address. */
    ghost function Driver(address: byte): (r: Option<SimDriver>)
      reads `drivers
      ensures r.Some? ==> r.value in drivers && r.value.address == address
      ensures r.None? ==> forall d :: d in drivers ==> d.address != address
    {
      DriverFrom(drivers, address)
    }

    method FindDriver(address: byte) returns (r: Option<SimDriver>)
      ensures r == Driver(address)
    {
      var i := 0;
      while i < |drivers|
        invariant i <= |drivers| && DriverFrom(drivers[i..], address) == Driver(address)
      {
        assert drivers[i..][1..] == drivers[i + 1..];
        if drivers[i].address == address {
          return Some(drivers[i]);
        }
        i := i + 1;
      }
      r := None;
    }

    method FindLink(a: byte, b: byte) returns (i: nat)
      ensures i == FirstLink(links, a, b)
    {
      i := 0;
      while i < |links| && !Joins(links[i], a, b)
        invariant i <= |links| && forall j :: 0 <= j < i ==> !Joins(links[j], a, b)
      {
        i := i + 1;
      }
    }

    method Attach(d: SimDriver)
      requires Valid() && d !in drivers && |d.rxQueue| <= RX_QUEUE
      modifies `drivers
      ensures Valid() && drivers == old(drivers) + [d]
    {
      drivers := drivers + [d];
    }

    method Detach(d: SimDriver)
      requires Valid()
      modifies `drivers
      ensures Valid() && d !in drivers
      ensures d !in old(drivers) ==> drivers == old(drivers)
      ensures forall e :: e in drivers <==> e in old(drivers) && e != d
    {
      var i := 0;
      while i < |drivers|
        invariant i <= |drivers| && drivers == old(drivers) && d !in drivers[..i]
      {
        if drivers[i] == d {
          drivers := drivers[..i] + drivers[i + 1..];
          assert forall e :: e in old(drivers) ==> e == d || e in drivers by {
            forall j | 0 <= j < |old(drivers)| && j != i
              ensures old(drivers)[j] in drivers
            {
              assert old(drivers)[j] == drivers[if j < i then j else j - 1];
            }
          }
          return;
        }
        i := i + 1;
      }
    }

    method SetLink(a: byte, b: byte, rssi: int)
      requires Valid()
      modifies `links, `fullMesh
      ensures Valid() && !fullMesh && links == WithLink(old(links), a, b, rssi)
    {
      LinksAre(links, a, b, rssi, a, b);
      fullMesh := false;
      var i := FindLink(a, b);
      if i < |links| {
        links := links[i := links[i].(rssi := rssi)];
      } else {
        links := links + [Link(a, b, rssi, 0.0)];
      }
    }

    method Unlink(a: byte, b: byte)
      requires Valid()
      modifies `links, `fullMesh
      ensures Valid() && !fullMesh && links == WithoutLink(old(links), a, b)
    {
      LinksAre(links, a, b, 0, a, b);
      fullMesh := false;
      var i := FindLink(a, b);
      if i < |links| {
        links := links[..i] + links[i + 1..];
      }
    }

    /** A node that is switched off loses what it had not read. */
    method SetPowered(address: byte, on: bool)
      requires Valid()
      modifies drivers
      ensures Valid()
      ensures forall d :: d in drivers ==>
                if Driver(address) == Some(d) then d.powered == on && d.rxQueue == if on then old(d.rxQueue) else []
                else d.powered == old(d.powered) && d.rxQueue == old(d.rxQueue)
    {
      var d := FindDriver(address);
      if d.Some? {
        d.value.powered := on;
        if !on {
          d.value.rxQueue := [];
        }
      }
    }

    /** d is in reach of a sender at address a. */
    ghost predicate Reaches(a: byte, d: SimDriver)
      reads this, drivers`powered, d`powered
    {
      Driver(a).Some? && Driver(a).value.powered && d != Driver(a).value && d.powered && (fullMesh || Linked(links, a, d.address))
    }

    /** What driver d has queued after p was sent from address a, when it had queued q. */
    ghost predicate Hears(a: byte, d: SimDriver, p: Packet, q: seq<Packet>, q': seq<Packet>)
      reads this, drivers`powered, d`powered
    {
      if !Reaches(a, d) || |q| >= RX_QUEUE then q' == q
      else if fullMesh || links[FirstLink(links, a, d.address)].drop <= 0.0 then q' == q + [p]
      else q' == q || q' == q + [p]
    }

    /** Each node has its own address: only then does it make sense to speak of the queue of an address. */
    ghost predicate Distinct()
      reads this, drivers
    {
      forall d, e :: d in drivers && e in drivers && d.address == e.address ==> d == e
    }

    /** The channel as module Network sees it: who hears whom, and what is on its way to whom. */
    ghost function Reach(): Links
      reads this
    {
      set a: byte, b: byte | 0 <= a < 256 && 0 <= b < 256 && (fullMesh || Linked(links, a, b)) :: (a, b)
    }

    ghost function Queues(): map<byte, seq<Packet>>
      reads this, drivers
      requires Distinct()
    {
      map d | d in drivers :: d.address := d.rxQueue
    }

    lemma HearingSpreads(a: byte, p: Packet, rx: map<byte, seq<Packet>>)
      requires Distinct() && rx.Keys == Queues().Keys
      requires forall d :: d in drivers ==> Hears(a, d, p, rx[d.address], d.rxQueue)
      ensures Spread(Reach(), a, p, rx, Queues())
    {
      forall b | b in rx
        ensures Queues()[b] == rx[b] || (b != a && (a, b) in Reach() && Queues()[b] == rx[b] + [p])
      {
        var d :| d in drivers && d.address == b;
        assert Hears(a, d, p, rx[d.address], d.rxQueue);
      }
    }

    /** SimEther::transmit: behind what it heard before, every node in reach hears p, unless the link loses it or the queue is full. */
    method Transmit(a: byte, p: Packet)
      requires Valid()
      modifies drivers`rxQueue
      ensures Valid()
      ensures forall d :: d in drivers ==> Hears(a, d, p, old(d.rxQueue), d.rxQueue)
      ensures Distinct() ==> Spread(Reach(), a, p, old(Queues()), Queues())
    {
      ghost var rx := if Distinct() then Queues() else map[];
      Broadcast(a, p);
      if Distinct() {
        HearingSpreads(a, p, rx);
      }
    }

    method Broadcast(a: byte, p: Packet)
      requires Valid()
      modifies drivers`rxQueue
      ensures Valid()
      ensures forall d :: d in drivers ==> Hears(a, d, p, old(d.rxQueue), d.rxQueue)
    {
      var sender := FindDriver(a);
      if sender.None? || !sender.value.powered {
        return;
      }
      var i := 0;
      while i < |drivers|
        invariant i <= |drivers| && Valid()
        invariant forall j :: 0 <= j < i ==> Hears(a, drivers[j], p, old(drivers[j].rxQueue), drivers[j].rxQueue)
        invariant forall j :: i <= j < |drivers| ==> drivers[j].rxQueue == old(drivers[j].rxQueue)
      {
        assert drivers[i] in drivers;
        DeliverTo(a, sender.value, drivers[i], p);
        i := i + 1;
      }
    }

    method DeliverTo(a: byte, sender: SimDriver, d: SimDriver, p: Packet)
      requires Valid() && d in drivers && Driver(a) == Some(sender) && sender.powered
      modifies d`rxQueue
      ensures Valid() && Hears(a, d, p, old(d.rxQueue), d.rxQueue)
    {
      if d == sender || !d.powered {
        return;
      }
      if !fullMesh {
        var l := FindLink(a, d.address);
        if l == |links| {
          return;
        }
        var unlucky: bool := *;
        if links[l].drop > 0.0 && unlucky {
          return;
        }
      }
      if |d.rxQueue| < RX_QUEUE {
        d.rxQueue := d.rxQueue + [p];
      }
    }

    /** SimEther::pop: discards frames for others until one passes the header filter. */
    method Pop(address: byte, promiscuous: bool) returns (r: Option<Packet>)
      requires Valid()
      modifies (set d | d in drivers && Driver(address) == Some(d))`rxQueue
      ensures Valid()
      ensures Driver(address).None? ==> r == None
      ensures Driver(address).Some? ==>
                var d := Driver(address).value;
                var k := FirstFor(old(d.rxQueue), address, promiscuous);
                if k < |old(d.rxQueue)| then r == Some(old(d.rxQueue)[k]) && d.rxQueue == old(d.rxQueue)[k + 1..]
                else r == None && d.rxQueue == []
    {
      var found := FindDriver(address);
      if found.None? {
        return None;
      }
      var d := found.value;
      ghost var q := d.rxQueue;
      ghost var i := 0;
      while d.rxQueue != []
        invariant Valid() && i <= |q| && d.rxQueue == q[i..]
        invariant FirstFor(q, address, promiscuous) >= i
        decreases |d.rxQueue|
      {
        var p := d.rxQueue[0];
        d.rxQueue := d.rxQueue[1..];
        if PassesFilter(p, address, promiscuous) {
          return Some(p);
        }
        i := i + 1;
      }
      r := None;
    }
  }

  /**
    What pop does to the queue are steps of module Network: the frames in front of the first one for this
    node are lost, one by one, and that one can then be taken.
  */
  lemma {:induction false} PoppingLoses(links: Links, n: Net, b: byte, k: nat) returns (trace: seq<Net>)
    requires b in n.rx && k <= |n.rx[b]|
    ensures |trace| == k + 1 && trace[0] == n && trace[k] == n.(rx := n.rx[b := n.rx[b][k..]])
    ensures forall i :: 0 <= i < k ==> Next(links, trace[i], Lose(b, 0), trace[i + 1])
  {
    if k == 0 {
      trace := [n];
    } else {
      trace := PoppingLoses(links, n, b, k - 1);
      var q := n.rx[b];
      var last := trace[k - 1];
      assert last.rx[b] == q[k - 1..] && q[k - 1..][..0] + q[k - 1..][1..] == q[k..];
      trace := trace + [n.(rx := n.rx[b := q[k..]])];
      assert last.rx[b := q[k..]] == n.rx[b := q[k..]];
    }
  }

  ghost function DriverFrom(ds: seq<SimDriver>, address: byte): (r: Option<SimDriver>)
    ensures r.Some? ==> r.value in ds && r.value.address == address
    ensures r.None? ==> forall d :: d in ds ==> d.address != address
  {
    if ds == [] then None else if ds[0].address == address then Some(ds[0]) else DriverFrom(ds[1..], address)
  }
}
