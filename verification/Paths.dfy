/** Paths over the radio links, and what makes a network a forest. */
module Paths {
  import opened Types
  import opened Network

  /** Each node of p is heard by the next. */
  ghost predicate LinkPath(links: Links, p: seq<byte>)
  {
    p != [] && forall i :: 0 <= i < |p| - 1 ==> (p[i], p[i + 1]) in links
  }

  ghost predicate Simple(p: seq<byte>)
  {
    forall i, j :: 0 <= i < j < |p| ==> p[i] != p[j]
  }

  ghost predicate SimplePath(links: Links, p: seq<byte>) {
    LinkPath(links, p) && Simple(p)
  }

  ghost predicate Leads(links: Links, p: seq<byte>, a: byte, b: byte) {
    SimplePath(links, p) && p[0] == a && p[|p| - 1] == b
  }

  ghost predicate Symmetric(links: Links)
  {
    forall a, b :: (a, b) in links ==> (b, a) in links
  }

  /** No cycles: two nodes are joined by at most one simple path. */
  ghost predicate Forest(links: Links)
  {
    && Symmetric(links)
    && forall a, b, p, q :: Leads(links, p, a, b) && Leads(links, q, a, b) ==> p == q
  }

  /** From u, the way to d starts with n. */
  ghost predicate RouteOk(links: Links, u: byte, d: byte, n: byte)
  {
    exists p :: Leads(links, p, u, d) && |p| >= 2 && p[1] == n
  }

  function Reverse(p: seq<byte>): (r: seq<byte>)
    ensures |r| == |p| && forall i :: 0 <= i < |p| ==> r[i] == p[|p| - 1 - i]
  {
    seq(|p|, i requires 0 <= i < |p| => p[|p| - 1 - i])
  }

  lemma ReverseLeads(links: Links, p: seq<byte>, a: byte, b: byte)
    requires Symmetric(links) && Leads(links, p, a, b)
    ensures Leads(links, Reverse(p), b, a)
  {
    var r := Reverse(p);
    forall i | 0 <= i < |r| - 1
      ensures (r[i], r[i + 1]) in links
    {
      var k := |p| - 2 - i;
      assert (p[k], p[k + 1]) in links;
    }
  }

  lemma SliceLeads(links: Links, p: seq<byte>, i: nat, j: nat)
    requires SimplePath(links, p) && i <= j < |p|
    ensures Leads(links, p[i..j + 1], p[i], p[j])
  {
    var r := p[i..j + 1];
    forall k | 0 <= k < |r| - 1
      ensures (r[k], r[k + 1]) in links
    {
      assert r[k] == p[i + k] && r[k + 1] == p[i + k + 1];
    }
  }

  /** Looking back along a path: from p[j], the way to an earlier p[i] starts with p[j - 1]. */
  lemma BackRoute(links: Links, p: seq<byte>, i: nat, j: nat)
    requires Symmetric(links) && SimplePath(links, p) && i < j < |p|
    ensures RouteOk(links, p[j], p[i], p[j - 1])
  {
    SliceLeads(links, p, i, j);
    ReverseLeads(links, p[i..j + 1], p[i], p[j]);
    var r := Reverse(p[i..j + 1]);
    assert r[1] == p[j - 1];
  }

  /** Looking ahead. */
  lemma AheadRoute(links: Links, p: seq<byte>, i: nat, j: nat)
    requires SimplePath(links, p) && i < j < |p|
    ensures RouteOk(links, p[i], p[j], p[i + 1])
  {
    SliceLeads(links, p, i, j);
    assert p[i..j + 1][1] == p[i + 1];
  }

  /** In a forest, a route at a node of a path, towards its end, continues along the path. */
  lemma RouteFollowsPath(links: Links, p: seq<byte>, i: nat, n: byte)
    requires Forest(links) && SimplePath(links, p) && i < |p|
    requires RouteOk(links, p[i], p[|p| - 1], n)
    ensures i + 1 < |p| && n == p[i + 1]
  {
    var q :| Leads(links, q, p[i], p[|p| - 1]) && |q| >= 2 && q[1] == n;
    SliceLeads(links, p, i, |p| - 1);
    assert q == p[i..|p|];
  }

  // ---- Networks in a row ---------------------------------------------------------------------------

  /** Nodes in a row: each node is linked to the one before it and the one after it, and to nobody else. */
  ghost predicate InARow(links: Links, row: seq<byte>)
  {
    && Simple(row)
    && forall a, b :: (a, b) in links <==>
         exists i, j :: 0 <= i < |row| && 0 <= j < |row| && row[i] == a && row[j] == b && (j == i + 1 || i == j + 1)
  }

  /** Where a node stands. */
  function PlaceIn(row: seq<byte>, a: byte): (i: nat)
    ensures i <= |row| && (i < |row| ==> row[i] == a) && (a in row ==> i < |row|)
  {
    if row == [] then 0 else if row[0] == a then 0 else 1 + PlaceIn(row[1..], a)
  }

  lemma Neighbouring(links: Links, row: seq<byte>, a: byte, b: byte)
    requires InARow(links, row) && (a, b) in links
    ensures a in row && b in row
    ensures PlaceIn(row, b) == PlaceIn(row, a) + 1 || PlaceIn(row, a) == PlaceIn(row, b) + 1
  {
    var i, j :| 0 <= i < |row| && 0 <= j < |row| && row[i] == a && row[j] == b && (j == i + 1 || i == j + 1);
    assert PlaceIn(row, a) == i && PlaceIn(row, b) == j;
  }

  /** On a row a simple path never turns round. */
  lemma {:induction false} GoesOn(links: Links, row: seq<byte>, p: seq<byte>, i: nat)
    requires InARow(links, row) && SimplePath(links, p) && |p| >= 2 && i < |p|
    ensures p[i] in row && p[0] in row && p[1] in row
    ensures PlaceIn(row, p[1]) > PlaceIn(row, p[0]) ==> PlaceIn(row, p[i]) == PlaceIn(row, p[0]) + i
    ensures PlaceIn(row, p[1]) <= PlaceIn(row, p[0]) ==> PlaceIn(row, p[i]) == PlaceIn(row, p[0]) - i
  {
    hide InARow;
    Neighbouring(links, row, p[0], p[1]);
    if i >= 2 {
      GoesOn(links, row, p, i - 1);
      GoesOn(links, row, p, i - 2);
      Neighbouring(links, row, p[i - 1], p[i]);
      assert p[i] != p[i - 2];
      assert row[PlaceIn(row, p[i])] == p[i] && row[PlaceIn(row, p[i - 2])] == p[i - 2];
    }
  }

  lemma OnePathOnARow(links: Links, row: seq<byte>, a: byte, b: byte, p: seq<byte>, q: seq<byte>)
    requires InARow(links, row) && Leads(links, p, a, b) && Leads(links, q, a, b)
    ensures p == q
  {
    hide InARow;
    if |p| >= 2 { GoesOn(links, row, p, |p| - 1); }
    if |q| >= 2 { GoesOn(links, row, q, |q| - 1); }
    assert |p| == |q|;
    forall i | 0 <= i < |p|
      ensures p[i] == q[i]
    {
      if |p| >= 2 {
        GoesOn(links, row, p, i);
        GoesOn(links, row, q, i);
        assert row[PlaceIn(row, p[i])] == p[i] && row[PlaceIn(row, q[i])] == q[i];
      }
    }
  }

  /** A row is a network without cycles. */
  lemma RowIsForest(links: Links, row: seq<byte>)
    requires InARow(links, row)
    ensures Forest(links)
  {
    forall a, b | (a, b) in links
      ensures (b, a) in links
    {
      var i, j :| 0 <= i < |row| && 0 <= j < |row| && row[i] == a && row[j] == b && (j == i + 1 || i == j + 1);
    }
    hide InARow, Leads;
    forall a, b, p, q | Leads(links, p, a, b) && Leads(links, q, a, b)
      ensures p == q
    {
      OnePathOnARow(links, row, a, b, p, q);
    }
  }
}
