/** Any number of mesh nodes on a lossy radio channel with a receive queue per node. */
module Network {
  import opened Types
  import opened Protocol
  import RT = RoutingTable

  /** (a, b): b can hear a. The simulator's links are symmetric; loss on a link is arbitrary. */
  type Links = set<(byte, byte)>

  type Nodes = map<byte, NodeState>

  datatype Net = Net(nodes: Nodes, rx: map<byte, seq<Packet>>)

  /** A node takes a step, or a queued frame is lost: not for this node, radio off, queue full. */
  datatype Action = Act(a: byte, e: Event) | Lose(b: byte, i: nat)

  ghost predicate IsNet(n: Net)
  {
    && n.nodes.Keys == n.rx.Keys
    && BROADCAST !in n.nodes
    && forall a :: a in n.nodes ==> n.nodes[a].me == a
  }

  /** All nodes just switched on, nothing on the air. */
  ghost predicate Init(n: Net)
  {
    && IsNet(n)
    && (forall a :: a in n.nodes ==> exists memory: Slots :: n.nodes[a] == Fresh(a, n.nodes[a].router, RT.Cleared(memory)))
    && (forall a :: a in n.rx ==> n.rx[a] == [])
  }

  /** SimEther::transmit: each node with a link to a hears p, behind what it heard before, or misses it. */
  ghost predicate Spread(links: Links, a: byte, p: Packet, rx: map<byte, seq<Packet>>, rx': map<byte, seq<Packet>>)
  {
    && rx'.Keys == rx.Keys
    && forall b :: b in rx ==> rx'[b] == rx[b] || (b != a && (a, b) in links && rx'[b] == rx[b] + [p])
  }

  /** What a step of node a does to the receive queues. */
  ghost predicate Air(links: Links, a: byte, e: Event, rx: map<byte, seq<Packet>>, rx': map<byte, seq<Packet>>)
    requires a in rx
  {
    match e
    case Transmit(p) => Spread(links, a, p, rx, rx')
    case Take(p, reply) =>
      && rx[a] != [] && rx[a][0] == p
      && (match reply
          case Some(q) => Spread(links, a, q, rx[a := rx[a][1..]], rx')
          case None => rx' == rx[a := rx[a][1..]])
    case _ => rx' == rx
  }

  ghost predicate Next(links: Links, n: Net, act: Action, n': Net)
  {
    match act
    case Act(a, e) =>
      && a in n.nodes && a in n.rx && a in n'.nodes
      && n'.nodes == n.nodes[a := n'.nodes[a]]
      && Step(n.nodes[a], e, n'.nodes[a])
      && Air(links, a, e, n.rx, n'.rx)
    case Lose(b, i) =>
      && n'.nodes == n.nodes
      && b in n.rx && i < |n.rx[b]|
      && n'.rx == n.rx[b := n.rx[b][..i] + n.rx[b][i + 1..]]
  }

  /** A run: each state follows from the one before by the action beside it. */
  ghost predicate Run(links: Links, trace: seq<Net>, acts: seq<Action>)
  {
    && |trace| == |acts| + 1
    && Init(trace[0])
    && forall i :: 0 <= i < |acts| ==> Next(links, trace[i], acts[i], trace[i + 1])
  }

  /** Hop send k of node a, as a entered it in its ledger. */
  ghost predicate IsSend(ns: Nodes, a: byte, k: nat)
  {
    a in ns && 1 <= k <= |ns[a].ledger|
  }

  ghost function TheSend(ns: Nodes, a: byte, k: nat): Sent
    requires IsSend(ns, a, k)
  {
    ns[a].ledger[k - 1]
  }
}
