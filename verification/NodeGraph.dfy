/** The node hierarchy as rows that name their parent, what reaches what, and when the rows form a forest. */
module NodeGraph {
  import opened Basics

  datatype Node = Node(id: int, parent: int)

  predicate Edge(nodes: seq<Node>, x: int, y: int) {
    Node(y, x) in nodes
  }

  /** z is n steps below x. */
  ghost predicate Path(nodes: seq<Node>, x: int, z: int, n: nat)
    decreases n
  {
    if n == 0 then x == z else exists y :: Edge(nodes, x, y) && Path(nodes, y, z, n - 1)
  }

  ghost predicate Reaches(nodes: seq<Node>, x: int, z: int) {
    exists n: nat :: Path(nodes, x, z, n)
  }

  ghost predicate Below(nodes: seq<Node>, x: int, z: int) {
    exists n: nat :: n > 0 && Path(nodes, x, z, n)
  }

  ghost predicate Acyclic(nodes: seq<Node>) {
    forall x :: !Below(nodes, x, x)
  }

  /** Nothing reachable from x lies on a cycle: what a walk from x needs to end. */
  ghost predicate Grounded(nodes: seq<Node>, x: int) {
    forall z :: Reaches(nodes, x, z) ==> !Below(nodes, z, z)
  }

  predicate UniqueIds(nodes: seq<Node>) {
    forall i, j :: 0 <= i < j < |nodes| ==> nodes[i].id != nodes[j].id
  }

  // ---- Paths ----

  lemma {:induction false} PathJoin(nodes: seq<Node>, x: int, y: int, z: int, a: nat, b: nat)
    requires Path(nodes, x, y, a) && Path(nodes, y, z, b)
    ensures Path(nodes, x, z, a + b)
    decreases a
  {
    if a > 0 {
      var w :| Edge(nodes, x, w) && Path(nodes, w, y, a - 1);
      PathJoin(nodes, w, y, z, a - 1, b);
    }
  }

  lemma EdgeIsPath(nodes: seq<Node>, x: int, y: int)
    requires Edge(nodes, x, y)
    ensures Path(nodes, x, y, 1)
  {
    assert Path(nodes, y, y, 0);
  }

  lemma ReachesJoin(nodes: seq<Node>, x: int, y: int, z: int)
    requires Reaches(nodes, x, y)
    ensures Reaches(nodes, y, z) ==> Reaches(nodes, x, z)
    ensures Below(nodes, y, z) ==> Below(nodes, x, z)
  {
    var a: nat :| Path(nodes, x, y, a);
    if b: nat :| Path(nodes, y, z, b) {
      PathJoin(nodes, x, y, z, a, b);
    }
    if b: nat :| b > 0 && Path(nodes, y, z, b) {
      PathJoin(nodes, x, y, z, a, b);
    }
  }

  /** Reaching is standing there or lying below, and lying below goes through a child. */
  lemma ReachesUnfolds(nodes: seq<Node>, x: int, z: int)
    ensures Reaches(nodes, x, z) <==> x == z || Below(nodes, x, z)
    ensures Below(nodes, x, z) <==> exists y :: Edge(nodes, x, y) && Reaches(nodes, y, z)
  {
    assert Path(nodes, x, x, 0);
    if y :| Edge(nodes, x, y) && Reaches(nodes, y, z) {
      var n: nat :| Path(nodes, y, z, n);
      assert Path(nodes, x, z, n + 1);
    }
    if n: nat :| n > 0 && Path(nodes, x, z, n) {
      var y :| Edge(nodes, x, y) && Path(nodes, y, z, n - 1);
      assert Reaches(nodes, y, z);
    }
  }

  // ---- A measure for walks ----

  ghost function RowsBelow(nodes: seq<Node>, x: int): set<Node> {
    set n | n in nodes && Below(nodes, x, n.id)
  }

  ghost function Height(nodes: seq<Node>, x: int): nat {
    |RowsBelow(nodes, x)|
  }

  lemma ChildIsLower(nodes: seq<Node>, x: int, y: int)
    requires Grounded(nodes, x) && Edge(nodes, x, y)
    ensures Grounded(nodes, y) && Height(nodes, y) < Height(nodes, x)
  {
    EdgeIsPath(nodes, x, y);
    assert Reaches(nodes, x, y) && Below(nodes, x, y);
    forall z
      ensures Reaches(nodes, y, z) ==> Reaches(nodes, x, z)
      ensures Below(nodes, y, z) ==> Below(nodes, x, z)
    {
      ReachesJoin(nodes, x, y, z);
    }
    var row := Node(y, x);
    assert row in RowsBelow(nodes, x) && row !in RowsBelow(nodes, y);
    assert RowsBelow(nodes, y) <= RowsBelow(nodes, x);
    SubsetSameSize(RowsBelow(nodes, y), RowsBelow(nodes, x));
  }

  /** A height that falls along every edge rules out cycles. */
  lemma FallingIsAcyclic(nodes: seq<Node>, height: int -> nat)
    requires forall x, y :: Edge(nodes, x, y) ==> height(y) < height(x)
    ensures Acyclic(nodes)
  {
    forall x
      ensures !Below(nodes, x, x)
    {
      if n: nat :| n > 0 && Path(nodes, x, x, n) {
        PathFalls(nodes, height, x, x, n);
      }
    }
  }

  lemma {:induction false} PathFalls(nodes: seq<Node>, height: int -> nat, x: int, z: int, n: nat)
    requires forall x, y :: Edge(nodes, x, y) ==> height(y) < height(x)
    requires Path(nodes, x, z, n)
    ensures height(z) + n <= height(x)
    decreases n
  {
    if n > 0 {
      var y :| Edge(nodes, x, y) && Path(nodes, y, z, n - 1);
      PathFalls(nodes, height, y, z, n - 1);
    }
  }

  // ---- Changes to the table ----

  function Reparent(nodes: seq<Node>, id: int, parent: int): seq<Node> {
    seq(|nodes|, i requires 0 <= i < |nodes| => if nodes[i].id == id then Node(id, parent) else nodes[i])
  }

  /** The rows after a change that gives `id` this parent and touches no other row. */
  ghost predicate Rewired(nodes: seq<Node>, after: seq<Node>, id: int, parent: int) {
    forall x, y :: Edge(after, x, y) <==> (if y == id then x == parent else Edge(nodes, x, y))
  }

  lemma ReparentRewires(nodes: seq<Node>, id: int, parent: int)
    requires exists n :: n in nodes && n.id == id
    ensures Rewired(nodes, Reparent(nodes, id, parent), id, parent)
  {
    var after := Reparent(nodes, id, parent);
    forall x, y
      ensures Edge(after, x, y) <==> (if y == id then x == parent else Edge(nodes, x, y))
    {
      if Edge(after, x, y) {
        var i :| 0 <= i < |after| && after[i] == Node(y, x);
        assert y != id ==> nodes[i] == Node(y, x);
      }
      if y == id && x == parent {
        var n :| n in nodes && n.id == id;
        var i :| 0 <= i < |nodes| && nodes[i] == n;
        assert after[i] == Node(y, x);
      } else if y != id && Edge(nodes, x, y) {
        var i :| 0 <= i < |nodes| && nodes[i] == Node(y, x);
        assert after[i] == Node(y, x);
      }
    }
  }

  lemma AddingRewires(nodes: seq<Node>, id: int, parent: int)
    requires forall n :: n in nodes ==> n.id != id
    ensures Rewired(nodes, nodes + [Node(id, parent)], id, parent)
  {
  }

  /** The paths that start at `id` are not cut by giving `id` another parent. */
  lemma {:induction false} PathSurvives(nodes: seq<Node>, after: seq<Node>, id: int, parent: int, x: int, z: int, n: nat)
    requires Grounded(nodes, id) && Rewired(nodes, after, id, parent)
    requires Reaches(nodes, id, x) && Path(nodes, x, z, n)
    ensures Path(after, x, z, n)
    decreases n
  {
    if n > 0 {
      var y :| Edge(nodes, x, y) && Path(nodes, y, z, n - 1);
      EdgeIsPath(nodes, x, y);
      assert Below(nodes, x, y);
      ReachesJoin(nodes, id, x, y);
      ReachesUnfolds(nodes, id, y);
      assert Path(nodes, id, id, 0);
      assert y != id;
      PathSurvives(nodes, after, id, parent, y, z, n - 1);
      assert Edge(after, x, y);
    }
  }

  /** The new parent must not already lie in the subtree of the node: that is exactly when a forest stays one. */
  lemma ForestExactlyIfOutside(nodes: seq<Node>, after: seq<Node>, id: int, parent: int)
    requires Acyclic(nodes) && Rewired(nodes, after, id, parent)
    ensures Acyclic(after) <==> !Reaches(nodes, id, parent)
  {
    if n: nat :| Path(nodes, id, parent, n) {
      assert Path(nodes, id, id, 0);
      PathSurvives(nodes, after, id, parent, id, parent, n);
      assert Edge(after, parent, id);
      EdgeIsPath(after, parent, id);
      PathJoin(after, id, parent, id, n, 1);
      assert Below(after, id, id);
    } else {
      var height := (z: int) => if Reaches(nodes, id, z) then Height(nodes, z) else Height(nodes, z) + Height(nodes, id) + 1;
      forall x, y | Edge(after, x, y)
        ensures height(y) < height(x)
      {
        if y == id {
          assert Path(nodes, id, id, 0);
        } else {
          ChildIsLower(nodes, x, y);
          EdgeIsPath(nodes, x, y);
          assert Reaches(nodes, x, y);
          if Reaches(nodes, id, x) {
            ReachesJoin(nodes, id, x, y);
          }
        }
      }
      FallingIsAcyclic(after, height);
    }
  }

  /** A path of the changed table either existed before or enters `id` from its new parent. */
  lemma {:induction false} PathBefore(nodes: seq<Node>, after: seq<Node>, id: int, parent: int, x: int, z: int, n: nat)
    requires Rewired(nodes, after, id, parent) && Path(after, x, z, n)
    ensures Path(nodes, x, z, n) || (n > 0 && Reaches(after, x, parent) && Reaches(after, id, z))
    decreases n
  {
    if n > 0 {
      var y :| Edge(after, x, y) && Path(after, y, z, n - 1);
      assert Path(after, x, x, 0);
      if y == id {
        assert Reaches(after, x, parent) && Reaches(after, id, z);
      } else {
        PathBefore(nodes, after, id, parent, y, z, n - 1);
        if Path(nodes, y, z, n - 1) {
          assert Edge(nodes, x, y);
        } else {
          EdgeIsPath(after, x, y);
          assert Reaches(after, x, y);
          ReachesJoin(after, x, y, parent);
        }
      }
    }
  }

  /** Below `id` nothing changes when its subtree has no cycle and does not contain the new parent. */
  lemma {:induction false} SubtreeStays(nodes: seq<Node>, after: seq<Node>, id: int, parent: int, x: int, z: int, n: nat)
    requires Grounded(nodes, id) && Rewired(nodes, after, id, parent) && !Reaches(nodes, id, parent)
    requires Reaches(nodes, id, x) && Path(after, x, z, n)
    ensures Reaches(nodes, id, z)
    decreases n
  {
    if n > 0 {
      var y :| Edge(after, x, y) && Path(after, y, z, n - 1);
      assert y != id;
      EdgeIsPath(nodes, x, y);
      assert Below(nodes, x, y) && Reaches(nodes, x, y);
      ReachesJoin(nodes, id, x, y);
      SubtreeStays(nodes, after, id, parent, y, z, n - 1);
    }
  }

  /** Giving a node with an acyclic subtree a parent outside it neither makes a cycle nor mends one, in any table. */
  lemma CyclesStay(nodes: seq<Node>, after: seq<Node>, id: int, parent: int, z: int)
    requires Grounded(nodes, id) && Rewired(nodes, after, id, parent) && !Reaches(nodes, id, parent)
    ensures Below(after, z, z) <==> Below(nodes, z, z)
  {
    assert Path(nodes, id, id, 0);
    if n: nat :| n > 0 && Path(after, z, z, n) {
      PathBefore(nodes, after, id, parent, z, z, n);
      if !Path(nodes, z, z, n) {
        ReachesJoin(after, id, z, parent);
        var m: nat :| Path(after, id, parent, m);
        SubtreeStays(nodes, after, id, parent, id, parent, m);
        assert false;
      }
    }
    if n: nat :| n > 0 && Path(nodes, z, z, n) {
      CycleAvoids(nodes, after, id, parent, z, z, n);
    }
  }

  /** A cycle of the table does not pass through `id`, whose subtree has none. */
  lemma {:induction false} CycleAvoids(nodes: seq<Node>, after: seq<Node>, id: int, parent: int, x: int, z: int, n: nat)
    requires Grounded(nodes, id) && Rewired(nodes, after, id, parent) && Path(nodes, x, z, n) && Below(nodes, z, z)
    ensures Path(after, x, z, n)
    decreases n
  {
    if n > 0 {
      var y :| Edge(nodes, x, y) && Path(nodes, y, z, n - 1);
      assert Reaches(nodes, y, z);
      assert y != id;
      CycleAvoids(nodes, after, id, parent, y, z, n - 1);
      assert Edge(after, x, y);
    }
  }
}
