/**
  The 10-slot routing table of RHRouter.

  The slots are an array that keeps stale entries behind: deleting shifts the later slots down and marks
  the last one Invalid without erasing its address. The functions on sequences say what each operation
  does to the slots; the class proves its loops against them; the lemmas say what that means for a reader
  who thinks of the table as a map, or as a queue in insertion order.
*/
module RoutingTable {
  import opened Types

  const SLOTS: nat := 10

  datatype RouteState = Invalid | Discovering | Valid

  datatype Entry = Entry(dest: byte, nextHop: byte, state: RouteState)

  // ---- The slots as a sequence -------------------------------------------------------------------

  /** Index of the first slot that names d, live or stale; |t| when no slot does. */
  function FirstNaming(t: seq<Entry>, d: byte): (i: nat)
    ensures i <= |t|
    ensures i < |t| ==> t[i].dest == d
    ensures forall j :: 0 <= j < i ==> t[j].dest != d
  {
    if t == [] then 0 else if t[0].dest == d then 0 else 1 + FirstNaming(t[1..], d)
  }

  /** Index of the first Invalid slot; |t| when every slot is in use. */
  function FirstInvalid(t: seq<Entry>): (i: nat)
    ensures i <= |t|
    ensures i < |t| ==> t[i].state.Invalid?
    ensures forall j :: 0 <= j < i ==> !t[j].state.Invalid?
  {
    if t == [] then 0 else if t[0].state.Invalid? then 0 else 1 + FirstInvalid(t[1..])
  }

  /** Index of the first live slot that names d; |t| when there is none. */
  function FirstLive(t: seq<Entry>, d: byte): (i: nat)
    ensures i <= |t|
    ensures i < |t| ==> t[i].dest == d && !t[i].state.Invalid?
    ensures forall j :: 0 <= j < i ==> t[j].dest != d || t[j].state.Invalid?
  {
    if t == [] then 0
    else if t[0].dest == d && !t[0].state.Invalid? then 0
    else 1 + FirstLive(t[1..], d)
  }

  /** The live route to d, if there is one. */
  function Find(t: seq<Entry>, d: byte): (r: Option<Entry>)
  {
    var i := FirstLive(t, d);
    if i < |t| then Some(t[i]) else None
  }

  function DeleteAt(t: seq<Entry>, i: nat): (t': seq<Entry>)
    requires i < |t|
    ensures |t'| == |t|
  {
    t[..i] + t[i + 1..] + [t[|t| - 1].(state := Invalid)]
  }

  function DeleteTo(t: seq<Entry>, d: byte): (t': seq<Entry>)
    ensures |t'| == |t|
  {
    var i := FirstNaming(t, d);
    if i < |t| then DeleteAt(t, i) else t
  }

  function Add(t: seq<Entry>, d: byte, n: byte, s: RouteState): (t': seq<Entry>)
    requires |t| > 0
    ensures |t'| == |t|
  {
    var e := Entry(d, n, s);
    if FirstNaming(t, d) < |t| then t[FirstNaming(t, d) := e]
    else if FirstInvalid(t) < |t| then t[FirstInvalid(t) := e]
    else t[1..] + [e]
  }

  function Cleared(t: seq<Entry>): (t': seq<Entry>)
    ensures |t'| == |t|
    ensures forall i :: 0 <= i < |t| ==> t'[i] == t[i].(state := Invalid)
  {
    seq(|t|, i requires 0 <= i < |t| => t[i].(state := Invalid))
  }

  // ---- The class ---------------------------------------------------------------------------------

  class Table {
    const slots: array<Entry>

    ghost predicate Valid()
      reads slots
    {
      slots.Length == SLOTS && StaleBehind(slots[..])
    }

    /** Whatever the memory held before, a new table has no live route. */
    constructor (memory: seq<Entry>)
      requires |memory| == SLOTS
      ensures Valid() && fresh(slots)
      ensures slots[..] == Cleared(memory)
    {
      slots := new Entry[SLOTS](i requires 0 <= i < SLOTS => memory[i]);
      new;
      assert slots[..] == memory;
      ClearRoutingTable();
    }

    method AddRouteTo(dest: byte, nextHop: byte, state: RouteState)
      requires Valid()
      modifies slots
      ensures Valid() && slots[..] == Add(old(slots[..]), dest, nextHop, state)
    {
      ghost var was := slots[..];
      AddKeeps(was, dest, nextHop, state);
      var i := 0;
      while i < slots.Length
        invariant i <= slots.Length && slots[..] == was
        invariant forall j :: 0 <= j < i ==> was[j].dest != dest
      {
        if slots[i].dest == dest {
          slots[i] := Entry(dest, nextHop, state);
          assert i == FirstNaming(was, dest);
          return;
        }
        i := i + 1;
      }
      i := 0;
      while i < slots.Length
        invariant i <= slots.Length && slots[..] == was
        invariant forall j :: 0 <= j < i ==> !was[j].state.Invalid?
      {
        if slots[i].state.Invalid? {
          slots[i] := Entry(dest, nextHop, state);
          assert i == FirstInvalid(was);
          return;
        }
        i := i + 1;
      }
      RetireOldestRoute();
      // The loop below has no early exit: it fills every Invalid slot, and only the last one is.
      assert slots[..] == was[1..] + [was[SLOTS - 1].(state := Invalid)];
      i := 0;
      while i < slots.Length
        invariant i <= slots.Length
        invariant forall j :: 0 <= j < SLOTS - 1 ==> slots[j] == was[j + 1]
        invariant i < SLOTS ==> slots[SLOTS - 1] == was[SLOTS - 1].(state := Invalid)
        invariant i == SLOTS ==> slots[SLOTS - 1] == Entry(dest, nextHop, state)
      {
        if slots[i].state.Invalid? {
          slots[i] := Entry(dest, nextHop, state);
        }
        i := i + 1;
      }
      assert slots[..] == was[1..] + [Entry(dest, nextHop, state)];
    }

    method GetRouteTo(dest: byte) returns (route: Option<Entry>)
      requires Valid()
      ensures route == Find(slots[..], dest)
    {
      var i := 0;
      while i < slots.Length
        invariant i <= slots.Length
        invariant forall j :: 0 <= j < i ==> slots[j].dest != dest || slots[j].state.Invalid?
      {
        if slots[i].dest == dest && !slots[i].state.Invalid? {
          assert i == FirstLive(slots[..], dest);
          return Some(slots[i]);
        }
        i := i + 1;
      }
      route := None;
    }

    method DeleteRoute(index: nat)
      requires Valid() && index < SLOTS
      modifies slots
      ensures Valid() && slots[..] == DeleteAt(old(slots[..]), index)
    {
      ghost var was := slots[..];
      DeleteKeeps(was, index);
      var i := index;
      while i < SLOTS - 1
        invariant index <= i <= SLOTS - 1
        invariant forall j :: 0 <= j < index ==> slots[j] == was[j]
        invariant forall j :: index <= j < i ==> slots[j] == was[j + 1]
        invariant forall j :: i <= j < SLOTS ==> slots[j] == was[j]
      {
        slots[i] := slots[i + 1];
        i := i + 1;
      }
      slots[SLOTS - 1] := slots[SLOTS - 1].(state := Invalid);
      assert slots[..] == DeleteAt(was, index);
    }

    method DeleteRouteTo(dest: byte) returns (found: bool)
      requires Valid()
      modifies slots
      ensures Valid() && slots[..] == DeleteTo(old(slots[..]), dest)
      ensures found <==> exists i :: 0 <= i < SLOTS && old(slots[i].dest) == dest
    {
      ghost var was := slots[..];
      var i := 0;
      while i < slots.Length
        invariant i <= slots.Length && slots[..] == was
        invariant forall j :: 0 <= j < i ==> was[j].dest != dest
      {
        if slots[i].dest == dest {
          assert i == FirstNaming(was, dest);
          DeleteRoute(i);
          return true;
        }
        i := i + 1;
      }
      found := false;
    }

    method RetireOldestRoute()
      requires Valid()
      modifies slots
      ensures Valid() && slots[..] == DeleteAt(old(slots[..]), 0)
    {
      DeleteRoute(0);
    }

    method ClearRoutingTable()
      requires slots.Length == SLOTS
      modifies slots
      ensures Valid() && slots[..] == Cleared(old(slots[..]))
    {
      ghost var was := slots[..];
      var i := 0;
      while i < slots.Length
        invariant i <= slots.Length
        invariant forall j :: 0 <= j < i ==> slots[j] == was[j].(state := Invalid)
        invariant forall j :: i <= j < SLOTS ==> slots[j] == was[j]
      {
        slots[i] := slots[i].(state := Invalid);
        i := i + 1;
      }
      assert slots[..] == Cleared(was);
    }
  }

  // ---- Refinement to a bounded map ---------------------------------------------------------------

  /** A slot whose address already occurs in an earlier slot is never live. */
  ghost predicate StaleBehind(t: seq<Entry>)
  {
    forall i, j :: 0 <= i < j < |t| && t[i].dest == t[j].dest ==> t[j].state.Invalid?
  }

  lemma AddKeeps(t: seq<Entry>, d: byte, n: byte, s: RouteState)
    requires |t| > 0 && StaleBehind(t)
    ensures StaleBehind(Add(t, d, n, s))
  {
    assert FirstNaming(t, d) == |t| ==> forall j :: 0 <= j < |t| ==> t[j].dest != d;
  }

  lemma DeleteKeeps(t: seq<Entry>, i: nat)
    requires i < |t| && StaleBehind(t)
    ensures StaleBehind(DeleteAt(t, i))
  {
    var u := DeleteAt(t, i);
    forall a, b | 0 <= a < b < |u| && u[a].dest == u[b].dest
      ensures u[b].state.Invalid?
    {
      if b < |u| - 1 {
        assert u[a] == t[if a < i then a else a + 1] && u[b] == t[if b < i then b else b + 1];
      }
    }
  }

}
