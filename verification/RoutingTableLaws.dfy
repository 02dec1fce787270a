/** What the slot operations of RoutingTable mean: a bounded map, a queue in insertion order, no loss in a small network. */
module RoutingTableLaws {
  import opened Types
  import opened RoutingTable

  // ---- One live route per destination ------------------------------------------------------------

  /** A live slot is the one Find returns, so no destination has two live routes. */
  lemma LiveIsFound(t: seq<Entry>, i: nat)
    requires StaleBehind(t) && i < |t| && !t[i].state.Invalid?
    ensures Find(t, t[i].dest) == Some(t[i])
  {
    var j := FirstLive(t, t[i].dest);
    assert j <= i;
    assert !(j < i);
  }

  /** Find answers exactly what the live slots say. */
  lemma FoundIsLive(t: seq<Entry>, d: byte, e: Entry)
    requires StaleBehind(t)
    ensures Find(t, d) == Some(e) <==> e in t && e.dest == d && !e.state.Invalid?
  {
    if e in t && e.dest == d && !e.state.Invalid? {
      var i :| 0 <= i < |t| && t[i] == e;
      LiveIsFound(t, i);
    }
  }

  lemma NotFound(t: seq<Entry>, d: byte)
    requires StaleBehind(t)
    ensures Find(t, d) == None <==> forall e :: e in t && e.dest == d ==> e.state.Invalid?
  {
  }

  /** True when a new destination must push out slot 0. */
  predicate Evicts(t: seq<Entry>, d: byte)
  {
    FirstNaming(t, d) == |t| && FirstInvalid(t) == |t|
  }

  /** addRouteTo then getRouteTo agree; another destination loses its route only as the evicted slot 0. */
  lemma FindAfterAdd(t: seq<Entry>, d: byte, n: byte, s: RouteState, other: byte)
    requires |t| > 0 && StaleBehind(t)
    ensures Find(Add(t, d, n, s), d) == if s.Invalid? then None else Some(Entry(d, n, s))
    ensures other != d ==>
              Find(Add(t, d, n, s), other) == if Evicts(t, d) && t[0].dest == other then None else Find(t, other)
  {
    var u := Add(t, d, n, s);
    AddKeeps(t, d, n, s);
    var e := Entry(d, n, s);
    FoundIsLive(u, d, e);
    var at := if FirstNaming(t, d) < |t| then FirstNaming(t, d)
              else if FirstInvalid(t) < |t| then FirstInvalid(t) else |t| - 1;
    assert u[at] == e;
    if s.Invalid? {
      assert forall j :: 0 <= j < |u| && u[j].dest == d ==> u[j].state.Invalid?;
      NotFound(u, d);
    }
    if other != d {
      if Evicts(t, d) {
        SameLive(t[1..], u, other);
        if t[0].dest == other {
          NotFound(t[1..], other);
        } else {
          SameLive(t[1..], t, other);
        }
      } else {
        assert t[at].dest == d || t[at].state.Invalid?;
        forall i | 0 <= i < |t| && i != at
          ensures t[i] in u && u[i] in t
        {
          assert u[i] == t[i];
        }
        SameLive(t, u, other);
      }
    }
  }

  /** Two tables with the same live entries for d answer alike. */
  lemma SameLive(t: seq<Entry>, u: seq<Entry>, d: byte)
    requires StaleBehind(t) && StaleBehind(u)
    requires forall i :: 0 <= i < |t| && t[i].dest == d && !t[i].state.Invalid? ==> t[i] in u
    requires forall i :: 0 <= i < |u| && u[i].dest == d && !u[i].state.Invalid? ==> u[i] in t
    ensures Find(t, d) == Find(u, d)
  {
    if Find(t, d).Some? {
      FoundIsLive(t, d, Find(t, d).value);
      FoundIsLive(u, d, Find(t, d).value);
    } else if Find(u, d).Some? {
      FoundIsLive(u, d, Find(u, d).value);
      FoundIsLive(t, d, Find(u, d).value);
    }
  }

  /** deleteRouteTo leaves no route to d, and every other route as it was. */
  lemma FindAfterDelete(t: seq<Entry>, d: byte, other: byte)
    requires StaleBehind(t)
    ensures Find(DeleteTo(t, d), d) == None
    ensures other != d ==> Find(DeleteTo(t, d), other) == Find(t, other)
  {
    var i := FirstNaming(t, d);
    if i < |t| {
      var u := DeleteAt(t, i);
      DeleteKeeps(t, i);
      forall j | 0 <= j < |u| && !u[j].state.Invalid?
        ensures u[j].dest != d && u[j] in t
      {
        assert u[j] == t[if j < i then j else j + 1];
      }
      NotFound(u, d);
      if other != d {
        forall j | 0 <= j < |t| && t[j].dest == other && !t[j].state.Invalid?
          ensures t[j] in u
        {
          assert t[j] == u[if j < i then j else j - 1];
        }
        SameLive(t, u, other);
      }
    } else {
      NotFound(t, d);
    }
  }

  /** The map a caller sees. */
  ghost function Routes(t: seq<Entry>): (m: map<byte, Entry>)
    ensures forall d :: d in m <==> 0 <= d < 256 && Find(t, d).Some?
    ensures forall d :: d in m ==> m[d] == Find(t, d).value
  {
    map d: byte | 0 <= d < 256 && Find(t, d).Some? :: Find(t, d).value
  }

  datatype Op = AddRoute(dest: byte, nextHop: byte, state: RouteState) | DeleteRoute(dest: byte) | Retire | Clear

  function Apply(t: seq<Entry>, op: Op): (t': seq<Entry>)
    requires |t| == SLOTS
    ensures |t'| == SLOTS
  {
    match op
    case AddRoute(d, n, s) => Add(t, d, n, s)
    case DeleteRoute(d) => DeleteTo(t, d)
    case Retire => DeleteAt(t, 0)
    case Clear => Cleared(t)
  }

  function ApplyAll(t: seq<Entry>, ops: seq<Op>): (t': seq<Entry>)
    requires |t| == SLOTS
    ensures |t'| == SLOTS
  {
    if ops == [] then t else Apply(ApplyAll(t, ops[..|ops| - 1]), ops[|ops| - 1])
  }

  lemma ApplyKeeps(t: seq<Entry>, op: Op)
    requires |t| == SLOTS && StaleBehind(t)
    ensures StaleBehind(Apply(t, op))
  {
    match op
    case AddRoute(d, n, s) => AddKeeps(t, d, n, s);
    case DeleteRoute(d) => if FirstNaming(t, d) < |t| { DeleteKeeps(t, FirstNaming(t, d)); }
    case Retire => DeleteKeeps(t, 0);
    case Clear =>
  }

  lemma RoutesBound(t: seq<Entry>)
    requires StaleBehind(t)
    ensures |Routes(t)| <= |t|
  {
    var keys := Routes(t).Keys;
    forall d | d in keys
      ensures d in Dests(t)
    {
      FoundIsLive(t, d, Find(t, d).value);
    }
    DestsBound(t);
    SubsetSize(keys, Dests(t));
    assert |Routes(t)| == |keys|;
  }

  /** From any memory contents, through any operations: one live route per destination, ten at most. */
  lemma {:induction false} TableIsMap(memory: seq<Entry>, ops: seq<Op>)
    requires |memory| == SLOTS
    ensures StaleBehind(ApplyAll(Cleared(memory), ops))
    ensures |Routes(ApplyAll(Cleared(memory), ops))| <= SLOTS
  {
    if ops != [] {
      TableIsMap(memory, ops[..|ops| - 1]);
      ApplyKeeps(ApplyAll(Cleared(memory), ops[..|ops| - 1]), ops[|ops| - 1]);
    }
    RoutesBound(ApplyAll(Cleared(memory), ops));
  }

  ghost function Dests(t: seq<Entry>): set<byte>
  {
    set i | 0 <= i < |t| :: t[i].dest
  }

  lemma {:induction false} DestsBound(t: seq<Entry>)
    ensures |Dests(t)| <= |t|
    ensures (forall i, j :: 0 <= i < j < |t| ==> t[i].dest != t[j].dest) ==> |Dests(t)| == |t|
  {
    if t != [] {
      var u := t[..|t| - 1];
      DestsBound(u);
      var last := t[|t| - 1].dest;
      forall d | d in Dests(t)
        ensures d in Dests(u) + {last}
      {
        var i :| 0 <= i < |t| && t[i].dest == d;
        assert i < |u| ==> u[i].dest == d;
      }
      forall d | d in Dests(u) + {last}
        ensures d in Dests(t)
      {
        if d in Dests(u) {
          var i :| 0 <= i < |u| && u[i].dest == d;
          assert t[i].dest == d;
        } else {
          assert t[|t| - 1].dest == d;
        }
      }
      assert Dests(t) == Dests(u) + {last};
      if last in Dests(u) {
        var i :| 0 <= i < |u| && u[i].dest == last;
        assert t[i].dest == t[|t| - 1].dest;
      }
    }
  }

  lemma SubsetSize<T>(a: set<T>, b: set<T>)
    requires a <= b
    ensures |a| <= |b|
  {
    if a != {} {
      var x :| x in a;
      SubsetSize(a - {x}, b - {x});
    }
  }

  /**
    deleteRouteTo reports "found" for a stale slot as well. Its answer means "a live route was deleted"
    exactly when the first slot naming d is live or no slot names d.
  */
  lemma DeleteAnswer(t: seq<Entry>, d: byte)
    requires StaleBehind(t)
    ensures (d in Dests(t) <==> Find(t, d).Some?)
        <==> (FirstNaming(t, d) < |t| ==> !t[FirstNaming(t, d)].state.Invalid?)
  {
    var i := FirstNaming(t, d);
    if i < |t| {
      if !t[i].state.Invalid? {
        LiveIsFound(t, i);
      } else {
        assert forall j :: 0 <= j < |t| && t[j].dest == d ==> t[j].state.Invalid?;
        NotFound(t, d);
      }
    }
  }

  lemma DeleteAnswerCounterexample()
    ensures var t := seq(SLOTS, i => Entry(0, 0, Invalid));
            StaleBehind(t) && Find(t, 0) == None && 0 in Dests(t)
  {
    var t := seq(SLOTS, i => Entry(0, 0, Invalid));
    assert t[0].dest == 0;
    NotFound(t, 0);
  }

  // ---- A queue in insertion order ----------------------------------------------------------------

  /** The first k slots are live and name distinct destinations; the stale tail names a single one. */
  ghost predicate Packed(t: seq<Entry>, k: nat)
  {
    && k <= |t|
    && (forall i :: 0 <= i < k ==> !t[i].state.Invalid?)
    && (forall i :: k <= i < |t| ==> t[i].state.Invalid?)
    && (forall i, j :: 0 <= i < j < k ==> t[i].dest != t[j].dest)
    && (forall i, j :: k <= i < |t| && k <= j < |t| ==> t[i].dest == t[j].dest)
  }

  /** The same operations on the live routes alone, oldest first. */
  function QueueStep(q: seq<Entry>, op: Op): seq<Entry>
  {
    match op
    case AddRoute(d, n, s) =>
      if FirstNaming(q, d) < |q| then q[FirstNaming(q, d) := Entry(d, n, s)]
      else if |q| < SLOTS then q + [Entry(d, n, s)]
      else q[1..] + [Entry(d, n, s)]
    case DeleteRoute(d) =>
      if FirstNaming(q, d) < |q| then q[..FirstNaming(q, d)] + q[FirstNaming(q, d) + 1..] else q
    case Retire => if q == [] then q else q[1..]
    case Clear => []
  }

  function QueueRun(ops: seq<Op>): seq<Entry>
  {
    if ops == [] then [] else QueueStep(QueueRun(ops[..|ops| - 1]), ops[|ops| - 1])
  }

  /** Operations that add only live routes and never clear the table. */
  predicate Ordinary(op: Op)
  {
    !op.Clear? && (op.AddRoute? ==> !op.state.Invalid?)
  }

  lemma FirstNamingIs(t: seq<Entry>, d: byte, i: nat)
    requires i < |t| && t[i].dest == d
    requires forall j :: 0 <= j < i ==> t[j].dest != d
    ensures FirstNaming(t, d) == i
  {
  }

  /** A destination that is not among the live ones lands behind them, on a stale slot if there is one. */
  lemma NewLands(t: seq<Entry>, k: nat, d: byte, n: byte, s: RouteState)
    requires |t| == SLOTS && Packed(t, k) && forall j :: 0 <= j < k ==> t[j].dest != d
    ensures Add(t, d, n, s) == if k < |t| then t[k := Entry(d, n, s)] else t[1..] + [Entry(d, n, s)]
  {
    var f := FirstNaming(t, d);
    if f < |t| {
      assert t[k].dest == t[f].dest == d;
      FirstNamingIs(t, d, k);
    } else if k < |t| {
      assert t[k].state.Invalid?;
      assert FirstInvalid(t) == k;
    } else {
      assert FirstInvalid(t) == |t|;
    }
  }

  lemma PackedUpdate(t: seq<Entry>, k: nat, i: nat, e: Entry)
    requires Packed(t, k) && i < k && e.dest == t[i].dest && !e.state.Invalid?
    ensures Packed(t[i := e], k) && t[i := e][..k] == t[..k][i := e]
  {
  }

  lemma PackedGrow(t: seq<Entry>, k: nat, e: Entry)
    requires Packed(t, k) && k < |t| && !e.state.Invalid? && forall j :: 0 <= j < k ==> t[j].dest != e.dest
    ensures Packed(t[k := e], k + 1) && t[k := e][..k + 1] == t[..k] + [e]
  {
  }

  lemma PackedShift(t: seq<Entry>, e: Entry)
    requires t != [] && Packed(t, |t|) && !e.state.Invalid? && forall j :: 0 <= j < |t| ==> t[j].dest != e.dest
    ensures Packed(t[1..] + [e], |t|) && (t[1..] + [e])[..|t|] == t[..|t|][1..] + [e]
  {
  }

  lemma FifoAdd(t: seq<Entry>, k: nat, d: byte, n: byte, s: RouteState)
    requires |t| == SLOTS && Packed(t, k) && !s.Invalid?
    ensures var q := QueueStep(t[..k], AddRoute(d, n, s));
            |q| <= SLOTS && Packed(Add(t, d, n, s), |q|) && Add(t, d, n, s)[..|q|] == q
  {
    assert k <= |t|;
    var q, e := t[..k], Entry(d, n, s);
    var i := FirstNaming(q, d);
    if i < |q| {
      FirstNamingIs(t, d, i);
      PackedUpdate(t, k, i, e);
    } else {
      assert forall j :: 0 <= j < k ==> t[j].dest == q[j].dest != d;
      hide Packed;
      NewLands(t, k, d, n, s);
      if k < |t| { PackedGrow(t, k, e); } else { PackedShift(t, e); }
    }
  }

  lemma FifoDelete(t: seq<Entry>, k: nat, d: byte)
    requires |t| == SLOTS && Packed(t, k)
    ensures var q := QueueStep(t[..k], DeleteRoute(d));
            |q| <= SLOTS && Packed(DeleteTo(t, d), |q|) && DeleteTo(t, d)[..|q|] == q
  {
    var q := t[..k];
    var i := FirstNaming(q, d);
    if i < |q| {
      FirstNamingIs(t, d, i);
      PackedDelete(t, k, i);
    } else {
      var f := FirstNaming(t, d);
      assert forall j :: 0 <= j < k ==> t[j].dest == q[j].dest != d;
      assert QueueStep(q, DeleteRoute(d)) == q;
      if f < |t| {
        assert f >= k;
        PackedDelete(t, k, f);
      }
    }
  }

  lemma PackedDelete(t: seq<Entry>, k: nat, i: nat)
    requires |t| == SLOTS && Packed(t, k) && i < |t|
    ensures i < k ==> Packed(DeleteAt(t, i), k - 1) && DeleteAt(t, i)[..k - 1] == t[..i] + t[i + 1..k]
    ensures i >= k ==> Packed(DeleteAt(t, i), k) && DeleteAt(t, i)[..k] == t[..k]
  {
    var u := DeleteAt(t, i);
    assert forall j :: 0 <= j < |t| - 1 ==> u[j] == t[if j < i then j else j + 1];
    assert u[|t| - 1] == t[|t| - 1].(state := Invalid);
  }

  /**
    From a zeroed table, with live routes only and no clear, the live slots are always a prefix holding the
    routes in insertion order: an update keeps its place, and eviction and retiring take the oldest.
  */
  lemma {:induction false} FifoOrder(zero: seq<Entry>, ops: seq<Op>)
    requires |zero| == SLOTS && forall i :: 0 <= i < SLOTS ==> zero[i] == Entry(0, 0, Invalid)
    requires forall i :: 0 <= i < |ops| ==> Ordinary(ops[i])
    ensures var q := QueueRun(ops);
            |q| <= SLOTS && Packed(ApplyAll(zero, ops), |q|) && ApplyAll(zero, ops)[..|q|] == q
  {
    if ops != [] {
      var before := ops[..|ops| - 1];
      FifoOrder(zero, before);
      var t, k := ApplyAll(zero, before), |QueueRun(before)|;
      match ops[|ops| - 1] {
        case AddRoute(d, n, s) => FifoAdd(t, k, d, n, s);
        case DeleteRoute(d) => FifoDelete(t, k, d);
        case Retire => PackedDelete(t, k, 0);
      }
    }
  }

  /** After a clear the order is lost: the route to 2, added first, ends up behind the later one to 3. */
  lemma FifoNeedsNoClear(t: seq<Entry>)
    requires |t| == SLOTS && t[0] == Entry(1, 1, Valid) && t[1] == Entry(2, 2, Valid)
    requires forall i :: 2 <= i < SLOTS ==> t[i] == Entry(0, 0, Invalid)
    ensures Packed(t, 2)
    ensures var u := ApplyAll(t, [Clear, AddRoute(2, 9, Valid), AddRoute(3, 9, Valid)]);
            u[0] == Entry(3, 9, Valid) && u[1] == Entry(2, 9, Valid)
  {
    var ops := [Clear, AddRoute(2, 9, Valid), AddRoute(3, 9, Valid)];
    assert ops[..2][..1][..0] == [] && ops[..2][..1] == [Clear] && ops[..2] == [Clear, AddRoute(2, 9, Valid)];
    var c := Cleared(t);
    assert ApplyAll(t, [Clear]) == c by { assert [Clear][..0] == []; }
    FirstNamingIs(c, 2, 1);
    var u := c[1 := Entry(2, 9, Valid)];
    assert ApplyAll(t, ops[..2]) == u;
    assert forall j :: 0 <= j < |u| ==> u[j].dest != 3;
    assert FirstNaming(u, 3) == |u| && FirstInvalid(u) == 0;
  }

  // ---- Small networks ----------------------------------------------------------------------------

  ghost predicate LiveWithin(t: seq<Entry>, world: set<byte>)
  {
    forall i :: 0 <= i < |t| && !t[i].state.Invalid? ==> t[i].dest in world
  }

  /** When at most ten addresses are in use, addRouteTo never evicts: every other route survives. */
  lemma SmallWorldNeverEvicts(t: seq<Entry>, d: byte, world: set<byte>)
    requires StaleBehind(t) && LiveWithin(t, world) && d in world && |world| <= |t|
    ensures !Evicts(t, d)
  {
    if Evicts(t, d) {
      DestsBound(t);
      assert Dests(t) <= world - {d};
      SubsetSize(Dests(t), world - {d});
    }
  }
}
