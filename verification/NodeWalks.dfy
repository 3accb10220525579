/** The depth-first walks over the node table: the cycle check, the two closures and the subtree counts. */
module NodeWalks {
  import opened Basics
  import opened NodeGraph

  function Kids(g: map<int, seq<int>>, x: int): seq<int> {
    if x in g then g[x] else []
  }

  ghost predicate Adjacent(g: map<int, seq<int>>, nodes: seq<Node>) {
    forall x, y :: y in Kids(g, x) <==> Edge(nodes, x, y)
  }

  ghost predicate NoTwins(g: map<int, seq<int>>) {
    forall x, i, j :: 0 <= i < j < |Kids(g, x)| ==> Kids(g, x)[i] != Kids(g, x)[j]
  }

  /** The adjacency map every walk begins with. */
  method BuildChildren(nodes: seq<Node>) returns (g: map<int, seq<int>>)
    ensures Adjacent(g, nodes)
    ensures UniqueIds(nodes) ==> NoTwins(g)
  {
    g := map[];
    for k := 0 to |nodes|
      invariant forall x, y :: y in Kids(g, x) <==> Edge(nodes[..k], x, y)
      invariant UniqueIds(nodes) ==> NoTwins(g)
    {
      var n := nodes[k];
      assert nodes[..k + 1] == nodes[..k] + [n];
      ghost var before := g;
      assert UniqueIds(nodes) ==> n !in nodes[..k];
      assert UniqueIds(nodes) ==> !Edge(nodes[..k], n.parent, n.id);
      assert UniqueIds(nodes) ==> n.id !in Kids(before, n.parent);
      g := g[n.parent := Kids(g, n.parent) + [n.id]];
      assert forall x :: x != n.parent ==> Kids(g, x) == Kids(before, x);
    }
    assert nodes[..|nodes|] == nodes;
  }

  // ---- CheckCycle ----

  /** The walk from x that looks for `parent` ends within n nested calls: it stands there, or the children before the
   first that leads there all end without finding it, and that one ends too. */
  ghost predicate Halts(g: map<int, seq<int>>, nodes: seq<Node>, parent: int, x: int, n: nat)
    decreases n, 1
  {
    x == parent || (n > 0 && exists stop :: 0 <= stop <= |Kids(g, x)| && HaltsAt(g, nodes, parent, x, n, stop))
  }

  ghost predicate HaltsAt(g: map<int, seq<int>>, nodes: seq<Node>, parent: int, x: int, n: nat, stop: int)
    requires n > 0 && 0 <= stop <= |Kids(g, x)|
    decreases n, 0
  {
    && (forall k :: 0 <= k < stop ==> Halts(g, nodes, parent, Kids(g, x)[k], n - 1) && !Reaches(nodes, Kids(g, x)[k], parent))
    && (stop < |Kids(g, x)| ==> Halts(g, nodes, parent, Kids(g, x)[stop], n - 1) && Reaches(nodes, Kids(g, x)[stop], parent))
  }

  /** In a subtree without cycles the walk ends. */
  lemma {:induction false} GroundedHalts(g: map<int, seq<int>>, nodes: seq<Node>, parent: int, x: int)
    requires Adjacent(g, nodes) && Grounded(nodes, x)
    ensures Halts(g, nodes, parent, x, Height(nodes, x) + 1)
    decreases Height(nodes, x)
  {
    var kids := Kids(g, x);
    forall k | 0 <= k < |kids| ensures Halts(g, nodes, parent, kids[k], Height(nodes, x)) {
      assert kids[k] in Kids(g, x);
      ChildIsLower(nodes, x, kids[k]);
      GroundedHalts(g, nodes, parent, kids[k]);
      LongerHalts(g, nodes, parent, kids[k], Height(nodes, kids[k]) + 1, Height(nodes, x));
    }
    var stop := FirstFinding(nodes, kids, parent);
    assert HaltsAt(g, nodes, parent, x, Height(nodes, x) + 1, stop);
  }

  lemma FirstFinding(nodes: seq<Node>, kids: seq<int>, parent: int) returns (stop: nat)
    ensures stop <= |kids| && (forall k :: 0 <= k < stop ==> !Reaches(nodes, kids[k], parent))
    ensures stop < |kids| ==> Reaches(nodes, kids[stop], parent)
  {
    stop := 0;
    while stop < |kids| && !Reaches(nodes, kids[stop], parent)
      invariant stop <= |kids| && forall k :: 0 <= k < stop ==> !Reaches(nodes, kids[k], parent)
    {
      stop := stop + 1;
    }
  }

  lemma {:induction false} LongerHalts(g: map<int, seq<int>>, nodes: seq<Node>, parent: int, x: int, n: nat, m: nat)
    requires Halts(g, nodes, parent, x, n) && n <= m
    ensures Halts(g, nodes, parent, x, m)
    decreases n
  {
    if x != parent {
      var stop :| 0 <= stop <= |Kids(g, x)| && HaltsAt(g, nodes, parent, x, n, stop);
      forall k | 0 <= k < |Kids(g, x)| && k <= stop ensures Halts(g, nodes, parent, Kids(g, x)[k], m - 1) {
        LongerHalts(g, nodes, parent, Kids(g, x)[k], n - 1, m - 1);
      }
      assert HaltsAt(g, nodes, parent, x, m, stop);
    }
  }

  /** And a walk that ends without finding the parent has gone through a subtree without cycles. */
  lemma {:induction false} HaltedIsGrounded(g: map<int, seq<int>>, nodes: seq<Node>, parent: int, x: int, n: nat)
    requires Adjacent(g, nodes) && Halts(g, nodes, parent, x, n) && !Reaches(nodes, x, parent)
    ensures Grounded(nodes, x)
    decreases n
  {
    assert Path(nodes, x, x, 0) && Reaches(nodes, x, x);
    var kids := Kids(g, x);
    var stop :| 0 <= stop <= |kids| && HaltsAt(g, nodes, parent, x, n, stop);
    forall y | Edge(nodes, x, y) ensures Grounded(nodes, y) {
      assert y in kids;
      var k :| 0 <= k < |kids| && kids[k] == y;
      EdgeIsPath(nodes, x, y);
      assert Reaches(nodes, x, y);
      ReachesJoin(nodes, x, y, parent);
      if stop < |kids| {
        assert kids[stop] in Kids(g, x);
        EdgeIsPath(nodes, x, kids[stop]);
        assert Reaches(nodes, x, kids[stop]);
        ReachesJoin(nodes, x, kids[stop], parent);
      }
      HaltedIsGrounded(g, nodes, parent, y, n - 1);
    }
    ChildrenGround(nodes, x);
  }

  lemma ChildrenGround(nodes: seq<Node>, x: int)
    requires forall y :: Edge(nodes, x, y) ==> Grounded(nodes, y)
    ensures Grounded(nodes, x)
  {
    forall z | Reaches(nodes, x, z) ensures !Below(nodes, z, z) {
      ReachesUnfolds(nodes, x, z);
      ReachesUnfolds(nodes, x, x);
    }
  }

  method CycleDfs(g: map<int, seq<int>>, ghost nodes: seq<Node>, parent: int, x: int, ghost n: nat) returns (b: bool)
    requires Adjacent(g, nodes) && Halts(g, nodes, parent, x, n)
    ensures b <==> Reaches(nodes, x, parent)
    decreases n
  {
    b := x == parent;
    ReachesUnfolds(nodes, x, parent);
    var kids := Kids(g, x);
    ghost var stop := if x == parent then 0 else var s :| 0 <= s <= |kids| && HaltsAt(g, nodes, parent, x, n, s); s;
    for i := 0 to |kids|
      invariant !b ==> i <= stop
      invariant b <==> x == parent || exists k :: 0 <= k < i && Reaches(nodes, kids[k], parent)
    {
      assert kids[i] in Kids(g, x);
      if !b {
        b := CycleDfs(g, nodes, parent, kids[i], n - 1);
      }
    }
    if y :| Edge(nodes, x, y) && Reaches(nodes, y, parent) {
      assert y in Kids(g, x);
    }
  }

  /** The walk of CheckCycle ends. */
  ghost predicate CheckEnds(nodes: seq<Node>, parent: int, id: int) {
    forall g :: Adjacent(g, nodes) ==> exists n :: Halts(g, nodes, parent, id, n)
  }

  /** Where the parent is not below the node the walk ends exactly if there is no cycle below the node. */
  lemma CheckEndsExactly(nodes: seq<Node>, parent: int, id: int, g: map<int, seq<int>>)
    requires Adjacent(g, nodes)
    ensures Grounded(nodes, id) ==> CheckEnds(nodes, parent, id)
    ensures !Reaches(nodes, id, parent) && CheckEnds(nodes, parent, id) ==> Grounded(nodes, id)
  {
    if Grounded(nodes, id) {
      forall h | Adjacent(h, nodes) ensures exists n :: Halts(h, nodes, parent, id, n) {
        GroundedHalts(h, nodes, parent, id);
      }
    }
    if !Reaches(nodes, id, parent) && CheckEnds(nodes, parent, id) {
      var n :| Halts(g, nodes, parent, id, n);
      HaltedIsGrounded(g, nodes, parent, id, n);
    }
  }

  /** If it ends, it refuses exactly the parents in the subtree, whatever else is in the table. */
  method CheckCycle(nodes: seq<Node>, parent: int, nodeId: int) returns (refused: bool)
    requires CheckEnds(nodes, parent, nodeId)
    ensures refused <==> Reaches(nodes, nodeId, parent)
  {
    var g := BuildChildren(nodes);
    ghost var n :| Halts(g, nodes, parent, nodeId, n);
    refused := CycleDfs(g, nodes, parent, nodeId, n);
  }

  /** UpdateNode: the guarded change of a parent. In a forest it refuses only what would break it; in a table that has
   cycles already, an accepted change neither makes one nor mends one. */
  method Update(nodes: seq<Node>, id: int, parent: int) returns (after: seq<Node>)
    requires CheckEnds(nodes, parent, id) && exists n :: n in nodes && n.id == id
    ensures after == if Reaches(nodes, id, parent) then nodes else Reparent(nodes, id, parent)
    ensures forall z :: Below(after, z, z) <==> Below(nodes, z, z)
    ensures UniqueIds(nodes) ==> UniqueIds(after)
    ensures Acyclic(nodes) ==> after == if Acyclic(Reparent(nodes, id, parent)) then Reparent(nodes, id, parent) else nodes
  {
    var refused := CheckCycle(nodes, parent, id);
    ReparentRewires(nodes, id, parent);
    after := if refused then nodes else Reparent(nodes, id, parent);
    if Acyclic(nodes) { ForestExactlyIfOutside(nodes, Reparent(nodes, id, parent), id, parent); }
    if !refused {
      AcceptedIsGrounded(nodes, id, parent);
      forall z ensures Below(after, z, z) <==> Below(nodes, z, z) { CyclesStay(nodes, after, id, parent, z); }
    }
  }

  lemma AcceptedIsGrounded(nodes: seq<Node>, id: int, parent: int)
    requires CheckEnds(nodes, parent, id) && !Reaches(nodes, id, parent)
    ensures Grounded(nodes, id)
  {
    var g := AdjacencyExists(nodes);
    CheckEndsExactly(nodes, parent, id, g);
  }

  lemma AdjacencyExists(nodes: seq<Node>) returns (g: map<int, seq<int>>)
    ensures Adjacent(g, nodes)
  {
    g := map[];
    var k := 0;
    while k < |nodes|
      invariant k <= |nodes| && forall x, y :: y in Kids(g, x) <==> Edge(nodes[..k], x, y)
    {
      assert nodes[..k + 1] == nodes[..k] + [nodes[k]];
      var before := g;
      g := g[nodes[k].parent := Kids(g, nodes[k].parent) + [nodes[k].id]];
      assert forall x :: x != nodes[k].parent ==> Kids(g, x) == Kids(before, x);
      k := k + 1;
    }
    assert nodes[..|nodes|] == nodes;
  }

  /** CreateNode has no such guard: a forest stays one exactly when the parent is not the new id or below it. */
  lemma CreateExactly(nodes: seq<Node>, id: int, parent: int)
    requires Acyclic(nodes) && forall n :: n in nodes ==> n.id != id
    ensures Acyclic(nodes + [Node(id, parent)]) <==> !Reaches(nodes, id, parent)
  {
    AddingRewires(nodes, id, parent);
    ForestExactlyIfOutside(nodes, nodes + [Node(id, parent)], id, parent);
  }

  /** The smallest table a create can break: a node that names itself as its parent. */
  lemma CreateCanLoop(id: int)
    ensures Acyclic([]) && !Acyclic([] + [Node(id, id)])
  {
    FallingIsAcyclic([], x => 0);
    assert Path([], id, id, 0);
    CreateExactly([], id, id);
  }

  // ---- Closures ----

  /** A proper ancestor of z, reached from x, is listed. */
  ghost predicate UnderListed(nodes: seq<Node>, ids: seq<int>, x: int, z: int) {
    exists a :: a in ids && Reaches(nodes, x, a) && Below(nodes, a, z)
  }

  /** z lies on the way from x to something listed. */
  ghost predicate OverListed(nodes: seq<Node>, ids: seq<int>, x: int, z: int) {
    Reaches(nodes, x, z) && exists a :: a in ids && Reaches(nodes, z, a)
  }

  ghost predicate AnyListed(nodes: seq<Node>, ids: seq<int>, x: int) {
    exists a :: a in ids && Reaches(nodes, x, a)
  }

  /** What the walk from x collects when a listed ancestor has been passed (b) or not. */
  ghost predicate Collected(nodes: seq<Node>, ids: seq<int>, x: int, b: bool, z: int) {
    (b && Reaches(nodes, x, z)) || UnderListed(nodes, ids, x, z)
  }

  lemma CollectedUnfolds(nodes: seq<Node>, ids: seq<int>, x: int, b: bool, z: int)
    ensures Collected(nodes, ids, x, b, z) <==>
      (b && x == z) || exists y :: Edge(nodes, x, y) && Collected(nodes, ids, y, b || x in ids, z)
  {
    ReachesUnfolds(nodes, x, z);
    forall a
      ensures Reaches(nodes, x, a) <==> x == a || exists y :: Edge(nodes, x, y) && Reaches(nodes, y, a)
    {
      ReachesUnfolds(nodes, x, a);
    }
  }

  lemma OverUnfolds(nodes: seq<Node>, ids: seq<int>, x: int, z: int)
    ensures AnyListed(nodes, ids, x) <==> x in ids || exists y :: Edge(nodes, x, y) && AnyListed(nodes, ids, y)
    ensures OverListed(nodes, ids, x, z) <==>
      (x == z && AnyListed(nodes, ids, x)) || exists y :: Edge(nodes, x, y) && OverListed(nodes, ids, y, z)
  {
    ReachesUnfolds(nodes, x, z);
    forall a
      ensures Reaches(nodes, x, a) <==> x == a || exists y :: Edge(nodes, x, y) && Reaches(nodes, y, a)
    {
      ReachesUnfolds(nodes, x, a);
    }
  }

  /** The closure variables of HandleSelfChild. */
  class ChildWalk {
    const g: map<int, seq<int>>
    const ids: seq<int>
    var res: seq<int>

    constructor (g: map<int, seq<int>>, ids: seq<int>)
      ensures this.g == g && this.ids == ids && res == []
    {
      this.g, this.ids, res := g, ids, [];
    }

    method Dfs(ghost nodes: seq<Node>, x: int, b: bool)
      requires Adjacent(g, nodes) && Grounded(nodes, x)
      modifies this`res
      ensures forall z :: z in res <==> z in old(res) || Collected(nodes, ids, x, b, z)
      decreases Height(nodes, x)
    {
      if b {
        res := res + [x];
      }
      var kids := Kids(g, x);
      for i := 0 to |kids|
        invariant forall z :: z in res <==>
          z in old(res) || (b && z == x) || exists k :: 0 <= k < i && Collected(nodes, ids, kids[k], b || x in ids, z)
      {
        assert kids[i] in Kids(g, x);
        ChildIsLower(nodes, x, kids[i]);
        Dfs(nodes, kids[i], b || x in ids);
      }
      forall z
        ensures z in res <==> z in old(res) || Collected(nodes, ids, x, b, z)
      {
        CollectedUnfolds(nodes, ids, x, b, z);
        if k :| 0 <= k < |kids| && Collected(nodes, ids, kids[k], b || x in ids, z) {
          assert kids[k] in Kids(g, x);
        }
        if y :| Edge(nodes, x, y) && Collected(nodes, ids, y, b || x in ids, z) {
          assert y in kids;
        }
      }
    }
  }

  /** The closure variables of HandleSelfParent; `t` is the path from the root. */
  class ParentWalk {
    const g: map<int, seq<int>>
    const ids: seq<int>
    var res: seq<int>
    var t: seq<int>

    constructor (g: map<int, seq<int>>, ids: seq<int>)
      ensures this.g == g && this.ids == ids && res == [] && t == []
    {
      this.g, this.ids, res, t := g, ids, [], [];
    }

    method Dfs(ghost nodes: seq<Node>, x: int)
      requires Adjacent(g, nodes) && Grounded(nodes, x)
      modifies this`res, this`t
      ensures t == old(t)
      ensures forall z :: z in res <==>
        z in old(res) || (z in old(t) && AnyListed(nodes, ids, x)) || OverListed(nodes, ids, x, z)
      decreases Height(nodes, x)
    {
      t := t + [x];
      if x in ids {
        res := res + t;
      }
      var kids := Kids(g, x);
      for i := 0 to |kids|
        invariant t == old(t) + [x]
        invariant forall z :: z in res <==>
          || z in old(res)
          || (z in t && (x in ids || exists k :: 0 <= k < i && AnyListed(nodes, ids, kids[k])))
          || exists k :: 0 <= k < i && OverListed(nodes, ids, kids[k], z)
      {
        assert kids[i] in Kids(g, x);
        ChildIsLower(nodes, x, kids[i]);
        Dfs(nodes, kids[i]);
      }
      t := t[..|t| - 1];
      forall z
        ensures z in res <==> z in old(res) || (z in old(t) && AnyListed(nodes, ids, x)) || OverListed(nodes, ids, x, z)
      {
        OverUnfolds(nodes, ids, x, z);
        if y :| Edge(nodes, x, y) && OverListed(nodes, ids, y, z) {
          assert y in kids;
        }
        if y :| Edge(nodes, x, y) && AnyListed(nodes, ids, y) {
          assert y in kids;
        }
      }
    }
  }

  /** HandleSelfChild: the listed ids and everything below a listed node of the tree. */
  ghost predicate InSelfChild(nodes: seq<Node>, ids: seq<int>, z: int) {
    z in ids || UnderListed(nodes, ids, 0, z)
  }

  method HandleSelfChild(nodes: seq<Node>, ids: seq<int>) returns (res: seq<int>)
    requires Grounded(nodes, 0)
    ensures forall z :: z in res <==> InSelfChild(nodes, ids, z)
    ensures forall i, j :: 0 <= i < j < |res| ==> res[i] != res[j]
  {
    var g := BuildChildren(nodes);
    var walk := new ChildWalk(g, ids);
    walk.Dfs(nodes, 0, false);
    res := Uniq(walk.res + ids);
  }

  /** HandleSelfParent: the listed ids and everything above a listed node of the tree, the virtual root 0 included. */
  ghost predicate InSelfParent(nodes: seq<Node>, ids: seq<int>, z: int) {
    z in ids || OverListed(nodes, ids, 0, z)
  }

  method HandleSelfParent(nodes: seq<Node>, ids: seq<int>) returns (res: seq<int>)
    requires Grounded(nodes, 0)
    ensures forall z :: z in res <==> InSelfParent(nodes, ids, z)
    ensures forall i, j :: 0 <= i < j < |res| ==> res[i] != res[j]
  {
    var g := BuildChildren(nodes);
    var walk := new ParentWalk(g, ids);
    walk.Dfs(nodes, 0);
    res := Uniq(walk.res + ids);
  }

  /** The two closures are adjoint: between nodes of the tree, one is below the other in the first exactly when the
   other is above the one in the second, and both say that the second is reached from the first. */
  lemma ClosuresAreAdjoint(nodes: seq<Node>, x: int, y: int)
    requires Reaches(nodes, 0, x)
    ensures InSelfChild(nodes, [x], y) <==> Reaches(nodes, x, y)
    ensures InSelfParent(nodes, [y], x) <==> Reaches(nodes, x, y)
  {
    ReachesUnfolds(nodes, x, y);
    ReachesUnfolds(nodes, y, y);
    assert x in [x] && y in [y];
    if UnderListed(nodes, [x], 0, y) {
      var a :| a in [x] && Reaches(nodes, 0, a) && Below(nodes, a, y);
    }
  }

  function IdsOf(nodes: seq<Node>): seq<int> {
    seq(|nodes|, i requires 0 <= i < |nodes| => nodes[i].id)
  }

  /** handleNoSelfChild: the ids of the table outside the closure of one node, in the order of the table. */
  method HandleNoSelfChild(nodes: seq<Node>, id: int) returns (res: seq<int>)
    requires Grounded(nodes, 0)
    ensures forall z :: z in res <==> z in IdsOf(nodes) && !InSelfChild(nodes, [id], z)
  {
    var ids := HandleSelfChild(nodes, [id]);
    var all := IdsOf(nodes);
    res := [];
    for k := 0 to |all|
      invariant forall z :: z in res <==> z in all[..k] && !InSelfChild(nodes, [id], z)
    {
      assert all[..k + 1] == all[..k] + [all[k]];
      if all[k] !in ids {
        res := res + [all[k]];
      }
    }
    assert all[..|all|] == all;
  }

  // ---- Subtree counts ----

  /** The parents of the assets, one entry per asset. */
  ghost function Under(nodes: seq<Node>, assets: seq<int>, x: int): set<nat> {
    set i: nat | i < |assets| && Reaches(nodes, x, assets[i])
  }

  /** How many assets lie in the subtree of x. */
  ghost function Total(nodes: seq<Node>, assets: seq<int>, x: int): nat {
    |Under(nodes, assets, x)|
  }

  function Get(m: map<int, nat>, x: int): nat {
    if x in m then m[x] else 0
  }

  ghost function Own(assets: seq<int>, x: int): set<nat> {
    set i: nat | i < |assets| && assets[i] == x
  }

  /** The loop that counts the assets directly under each node. */
  method CountOwn(assets: seq<int>) returns (m: map<int, nat>)
    ensures forall x :: Get(m, x) == |Own(assets, x)|
  {
    m := map[];
    for k := 0 to |assets|
      invariant forall x :: Get(m, x) == |Own(assets[..k], x)|
    {
      forall x
        ensures |Own(assets[..k + 1], x)| == |Own(assets[..k], x)| + (if assets[k] == x then 1 else 0)
      {
        assert Own(assets[..k + 1], x) == Own(assets[..k], x) + (if assets[k] == x then {k} else {});
      }
      ghost var before := m;
      m := m[assets[k] := Get(m, assets[k]) + 1];
      assert forall x :: Get(m, x) == Get(before, x) + (if assets[k] == x then 1 else 0);
    }
    assert assets[..|assets|] == assets;
  }

  /** With one parent per node, two nodes that reach the same one lie on one path. */
  lemma {:induction false} OnOnePath(nodes: seq<Node>, a: int, b: int, z: int, m: nat, n: nat)
    requires UniqueIds(nodes) && Path(nodes, a, z, m) && Path(nodes, b, z, n) && m <= n
    ensures Path(nodes, b, a, n - m)
    decreases m
  {
    if m > 0 {
      var (u, v) := (LastStep(nodes, a, z, m), LastStep(nodes, b, z, n));
      assert Edge(nodes, u, z) && Edge(nodes, v, z);
      OnOnePath(nodes, a, b, u, m - 1, n - 1);
    }
  }

  ghost function LastStep(nodes: seq<Node>, x: int, z: int, n: nat): (u: int)
    requires n > 0 && Path(nodes, x, z, n)
    ensures Path(nodes, x, u, n - 1) && Edge(nodes, u, z)
    decreases n
  {
    if n == 1 then x
    else
      var y :| Edge(nodes, x, y) && Path(nodes, y, z, n - 1);
      LastStep(nodes, y, z, n - 1)
  }

  /** The subtrees of two children of one node have nothing in common. */
  lemma SubtreesDisjoint(nodes: seq<Node>, x: int, y: int, w: int, z: int)
    requires UniqueIds(nodes) && Grounded(nodes, x) && Edge(nodes, x, y) && Edge(nodes, x, w) && y != w
    ensures !(Reaches(nodes, y, z) && Reaches(nodes, w, z))
  {
    if m: nat, n: nat :| Path(nodes, y, z, m) && Path(nodes, w, z, n) {
      if m <= n {
        OnOnePath(nodes, y, w, z, m, n);
        SiblingsApart(nodes, x, y, w, n - m);
      } else {
        OnOnePath(nodes, w, y, z, n, m);
        SiblingsApart(nodes, x, w, y, m - n);
      }
    }
  }

  lemma SiblingsApart(nodes: seq<Node>, x: int, y: int, w: int, n: nat)
    requires UniqueIds(nodes) && Grounded(nodes, x) && Edge(nodes, x, y) && Edge(nodes, x, w) && y != w
    ensures !Path(nodes, w, y, n)
  {
    NoLoopAt(nodes, x, n);
    if Path(nodes, w, y, n) {
      var u := LastStep(nodes, w, y, n);
    }
  }

  lemma NoLoopAt(nodes: seq<Node>, x: int, n: nat)
    requires Grounded(nodes, x)
    ensures n > 0 ==> !Path(nodes, x, x, n)
  {
    assert Path(nodes, x, x, 0);
    assert Reaches(nodes, x, x);
  }

  /** The closure variables of AttachAssetCount: the counts are accumulated in place. */
  class CountWalk {
    const g: map<int, seq<int>>
    var m: map<int, nat>

    constructor (g: map<int, seq<int>>, m: map<int, nat>)
      ensures this.g == g && this.m == m
    {
      this.g, this.m := g, m;
    }

    method Dfs(ghost nodes: seq<Node>, ghost assets: seq<int>, x: int) returns (c: nat)
      requires Adjacent(g, nodes) && NoTwins(g) && UniqueIds(nodes) && Grounded(nodes, x)
      requires forall z :: Reaches(nodes, x, z) ==> Get(m, z) == |Own(assets, z)|
      modifies this`m
      ensures c == Total(nodes, assets, x)
      ensures forall z :: Get(m, z) == (if Reaches(nodes, x, z) then Total(nodes, assets, z) else old(Get(m, z)))
      decreases Height(nodes, x)
    {
      hide Counted, SeenBelow, Total, Own, Grounded, Adjacent, NoTwins, UniqueIds, Height;
      var kids := Kids(g, x);
      StartCount(nodes, g, assets, x);
      for i := 0 to |kids|
        invariant Get(m, x) == Counted(nodes, assets, x, kids[..i])
        invariant forall z :: z != x && SeenBelow(nodes, kids[..i], z) ==> Get(m, z) == Total(nodes, assets, z)
        invariant forall z :: z != x && !SeenBelow(nodes, kids[..i], z) ==> Get(m, z) == old(Get(m, z))
      {
        KidIsNew(nodes, g, x, i);
        CountGrows(nodes, g, assets, x, i);
        var counted := Dfs(nodes, assets, kids[i]);
        m := m[x := Get(m, x) + counted];
      }
      c := Get(m, x);
      assert kids[..|kids|] == kids;
      SeenIsBelow(nodes, g, assets, x);
    }
  }

  ghost predicate SeenBelow(nodes: seq<Node>, kids: seq<int>, z: int) {
    exists y :: y in kids && Reaches(nodes, y, z)
  }

  ghost function CountedSet(nodes: seq<Node>, assets: seq<int>, x: int, kids: seq<int>): set<nat> {
    set i: nat | i < |assets| && (assets[i] == x || SeenBelow(nodes, kids, assets[i]))
  }

  /** The assets directly under x or in the subtrees of these children. */
  ghost function Counted(nodes: seq<Node>, assets: seq<int>, x: int, kids: seq<int>): nat {
    |CountedSet(nodes, assets, x, kids)|
  }

  lemma StartCount(nodes: seq<Node>, g: map<int, seq<int>>, assets: seq<int>, x: int)
    ensures Kids(g, x)[..0] == [] && Counted(nodes, assets, x, []) == |Own(assets, x)|
    ensures Reaches(nodes, x, x) && forall z :: !SeenBelow(nodes, [], z)
  {
    assert Path(nodes, x, x, 0);
    assert CountedSet(nodes, assets, x, []) == Own(assets, x);
  }

  lemma CountGrows(nodes: seq<Node>, g: map<int, seq<int>>, assets: seq<int>, x: int, i: nat)
    requires Adjacent(g, nodes) && NoTwins(g) && UniqueIds(nodes) && Grounded(nodes, x) && i < |Kids(g, x)|
    ensures var kids := Kids(g, x);
      && Counted(nodes, assets, x, kids[..i + 1]) == Counted(nodes, assets, x, kids[..i]) + Total(nodes, assets, kids[i])
      && forall z :: SeenBelow(nodes, kids[..i + 1], z) <==> SeenBelow(nodes, kids[..i], z) || Reaches(nodes, kids[i], z)
  {
    var kids := Kids(g, x);
    KidIsNew(nodes, g, x, i);
    assert kids[..i + 1] == kids[..i] + [kids[i]];
    assert CountedSet(nodes, assets, x, kids[..i]) !! Under(nodes, assets, kids[i]);
    assert CountedSet(nodes, assets, x, kids[..i + 1]) == CountedSet(nodes, assets, x, kids[..i]) + Under(nodes, assets, kids[i]);
  }

  /** The next child's subtree has not been touched yet, and does not contain the node itself. */
  lemma KidIsNew(nodes: seq<Node>, g: map<int, seq<int>>, x: int, i: nat)
    requires Adjacent(g, nodes) && NoTwins(g) && UniqueIds(nodes) && Grounded(nodes, x) && i < |Kids(g, x)|
    ensures var y := Kids(g, x)[i];
      && Grounded(nodes, y) && Height(nodes, y) < Height(nodes, x)
      && forall z :: Reaches(nodes, y, z) ==> z != x && Reaches(nodes, x, z) && !SeenBelow(nodes, Kids(g, x)[..i], z)
  {
    var y := Kids(g, x)[i];
    assert y in Kids(g, x);
    ChildIsLower(nodes, x, y);
    forall z | Reaches(nodes, y, z)
      ensures z != x && Reaches(nodes, x, z) && !SeenBelow(nodes, Kids(g, x)[..i], z)
    {
      ReachesUnfolds(nodes, x, z);
      assert Path(nodes, x, x, 0);
      assert Below(nodes, x, z) && Reaches(nodes, x, x);
      if w :| w in Kids(g, x)[..i] && Reaches(nodes, w, z) {
        assert w in Kids(g, x);
        SubtreesDisjoint(nodes, x, y, w, z);
      }
    }
  }

  lemma SeenIsBelow(nodes: seq<Node>, g: map<int, seq<int>>, assets: seq<int>, x: int)
    requires Adjacent(g, nodes)
    ensures forall z :: Reaches(nodes, x, z) <==> x == z || SeenBelow(nodes, Kids(g, x), z)
    ensures Counted(nodes, assets, x, Kids(g, x)) == Total(nodes, assets, x)
  {
    forall z
      ensures Reaches(nodes, x, z) <==> x == z || SeenBelow(nodes, Kids(g, x), z)
    {
      ReachesUnfolds(nodes, x, z);
    }
    assert CountedSet(nodes, assets, x, Kids(g, x)) == Under(nodes, assets, x);
  }

  /** AttachAssetCount: every node of the tree gets the number of assets in its subtree, a node outside it the number
   of assets directly under it; the root's count is the number of assets anywhere in the tree. */
  method AttachAssetCount(nodes: seq<Node>, assets: seq<int>) returns (m: map<int, nat>)
    requires Grounded(nodes, 0) && UniqueIds(nodes)
    ensures forall x :: Get(m, x) == (if Reaches(nodes, 0, x) then Total(nodes, assets, x) else |Own(assets, x)|)
    ensures Get(m, 0) == |set i: nat | i < |assets| && Reaches(nodes, 0, assets[i])|
  {
    var own := CountOwn(assets);
    var g := BuildChildren(nodes);
    var walk := new CountWalk(g, own);
    var total := walk.Dfs(nodes, assets, 0);
    m := walk.m;
    assert Path(nodes, 0, 0, 0);
  }
}
