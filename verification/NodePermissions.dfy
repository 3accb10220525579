/** Permissions handed down the node tree: each node ends up with its own and those of every node above it, and, where
 every node has a resource of its own, with no others. */
module NodePermissions {
  import opened Basics
  import opened NodeGraph
  import opened NodeWalks

  /** The resource id of a node, as the map lookup of an unknown node yields it. */
  function Resource(rids: map<int, int>, x: int): int {
    if x in rids then rids[x] else 0
  }

  function Perms(res: map<int, seq<string>>, rids: map<int, int>, x: int): seq<string> {
    if Resource(rids, x) in res then res[Resource(rids, x)] else []
  }

  /** The map built from the table: every node has an entry, be it the 0 of a node without a resource. */
  ghost predicate Listed(nodes: seq<Node>, rids: map<int, int>) {
    forall n :: n in nodes ==> n.id in rids
  }

  /** No two nodes share a resource, and none is without. */
  ghost predicate OwnResources(rids: map<int, int>) {
    && (forall a, b :: a in rids && b in rids && rids[a] == rids[b] ==> a == b)
    && (forall a :: a in rids ==> rids[a] != 0)
  }

  ghost predicate Grown(before: map<int, seq<string>>, after: map<int, seq<string>>, rids: map<int, int>) {
    forall z, p :: p in Perms(before, rids, z) ==> p in Perms(after, rids, z)
  }

  /** Some node holds p. */
  ghost predicate Held(res: map<int, seq<string>>, rids: map<int, int>, p: string) {
    exists z :: p in Perms(res, rids, z)
  }

  ghost predicate NothingNew(before: map<int, seq<string>>, after: map<int, seq<string>>, rids: map<int, int>) {
    forall p :: Held(after, rids, p) ==> Held(before, rids, p)
  }

  /** p is granted to some node strictly below x and at or above z, z itself included. */
  ghost predicate GrantedBetween(nodes: seq<Node>, own: map<int, seq<string>>, rids: map<int, int>, x: int, z: int, p: string) {
    exists a :: Below(nodes, x, a) && Reaches(nodes, a, z) && p in Perms(own, rids, a)
  }

  lemma BetweenUnfolds(nodes: seq<Node>, g: map<int, seq<int>>, own: map<int, seq<string>>, rids: map<int, int>, x: int, i: nat, z: int, p: string)
    requires Adjacent(g, nodes) && NoTwins(g) && UniqueIds(nodes) && Grounded(nodes, x) && i < |Kids(g, x)|
    requires Reaches(nodes, Kids(g, x)[i], z)
    ensures GrantedBetween(nodes, own, rids, x, z, p) <==>
      p in Perms(own, rids, Kids(g, x)[i]) || GrantedBetween(nodes, own, rids, Kids(g, x)[i], z, p)
  {
    var y := Kids(g, x)[i];
    assert y in Kids(g, x);
    if a :| Below(nodes, x, a) && Reaches(nodes, a, z) && p in Perms(own, rids, a) {
      ReachesUnfolds(nodes, x, a);
      var w :| Edge(nodes, x, w) && Reaches(nodes, w, a);
      ReachesJoin(nodes, w, a, z);
      if w != y {
        SubtreesDisjoint(nodes, x, y, w, z);
      }
      ReachesUnfolds(nodes, y, a);
    }
    EdgeIsPath(nodes, x, y);
    assert Below(nodes, x, y) && Reaches(nodes, x, y);
    if a :| Below(nodes, y, a) && Reaches(nodes, a, z) && p in Perms(own, rids, a) {
      ReachesJoin(nodes, x, y, a);
    }
  }

  /** The closure variables of handleSelfChildPerms. */
  class PermissionWalk {
    const g: map<int, seq<int>>
    const rids: map<int, int>
    var res: map<int, seq<string>>

    constructor (g: map<int, seq<int>>, rids: map<int, int>, res: map<int, seq<string>>)
      ensures this.g == g && this.rids == rids && this.res == res
    {
      this.g, this.rids, this.res := g, rids, res;
    }

    /** What a child receives from its parent, and with it every node that shares its resource. */
    method HandDown(ghost nodes: seq<Node>, x: int, i: nat)
      requires Adjacent(g, nodes) && Listed(nodes, rids) && i < |Kids(g, x)|
      modifies this`res
      ensures Grown(old(res), res, rids) && NothingNew(old(res), res, rids)
      ensures forall p :: p in Perms(res, rids, Kids(g, x)[i]) <==>
        p in old(Perms(res, rids, Kids(g, x)[i])) || p in old(Perms(res, rids, x))
      ensures OwnResources(rids) ==> forall z :: z != Kids(g, x)[i] ==> Perms(res, rids, z) == old(Perms(res, rids, z))
    {
      ChildHasResource(nodes, g, rids, x, i);
      var y := Kids(g, x)[i];
      ghost var before := res;
      res := res[Resource(rids, y) := Uniq(Perms(res, rids, y) + Perms(res, rids, x))];
      forall p | Held(res, rids, p) ensures Held(before, rids, p) {
        var z :| p in Perms(res, rids, z);
        assert p in Perms(before, rids, z) || p in Perms(before, rids, y) || p in Perms(before, rids, x);
      }
    }

    /** Whatever the resources: nobody loses anything, nothing comes from nowhere, and a node below x gets what x had and
     everything on the way. With resources of their own, exactly that and nobody else anything. */
    method Dfs(ghost nodes: seq<Node>, ghost own: map<int, seq<string>>, x: int)
      requires Adjacent(g, nodes) && NoTwins(g) && UniqueIds(nodes) && Grounded(nodes, x) && Listed(nodes, rids)
      requires OwnResources(rids) ==> forall z :: Below(nodes, x, z) ==> Perms(res, rids, z) == Perms(own, rids, z)
      modifies this`res
      ensures Grown(old(res), res, rids) && NothingNew(old(res), res, rids)
      ensures forall z :: Below(nodes, x, z) ==> Endowed(nodes, old(res), rids, res, old(Perms(res, rids, x)), x, z)
      ensures OwnResources(rids) ==> forall z :: !Below(nodes, x, z) ==> Perms(res, rids, z) == old(Perms(res, rids, z))
      ensures OwnResources(rids) ==> forall z :: Below(nodes, x, z) ==> Settled(nodes, own, rids, res, old(Perms(res, rids, x)), x, z)
      decreases Height(nodes, x)
    {
      hide Grounded, Adjacent, NoTwins, UniqueIds, Height, Settled, Listed, OwnResources, SeenBelow, Perms, Below, Reaches,
           Counted, Total, Grown, NothingNew, Endowed;
      var kids := Kids(g, x);
      ghost var given := Perms(res, rids, x);
      StartCount(nodes, g, [], x);
      KidsAreBelow(nodes, g, x);
      SameIsGrown(res, rids);
      for i := 0 to |kids|
        invariant Grown(old(res), res, rids) && NothingNew(old(res), res, rids)
        invariant forall z :: SeenBelow(nodes, kids[..i], z) ==> Endowed(nodes, old(res), rids, res, given, x, z)
        invariant OwnResources(rids) ==> forall z :: !SeenBelow(nodes, kids[..i], z) ==> Perms(res, rids, z) == old(Perms(res, rids, z))
        invariant OwnResources(rids) ==> forall z :: SeenBelow(nodes, kids[..i], z) ==> Settled(nodes, own, rids, res, given, x, z)
      {
        ghost var y, before := kids[i], res;
        KidIsNew(nodes, g, x, i);
        CountGrows(nodes, g, [], x, i);
        RootUnseen(nodes, g, x, i);
        BelowChild(nodes, g, x, i);
        HandDown(nodes, x, i);
        ghost var middle := res;
        GrownTwice(old(res), before, middle, rids);
        StillGiven(old(res), before, rids, x);
        Dfs(nodes, own, kids[i]);
        GrownTwice(old(res), middle, res, rids);
        GrownTwice(before, middle, res, rids);
        ChildEndowed(nodes, g, old(res), middle, res, rids, given, x, i);
        EndowedFrame(nodes, old(res), rids, before, res, given, x);
        if OwnResources(rids) {
          ChildSettles(nodes, g, own, rids, res, given, Perms(middle, rids, y), x, i);
          SettledFrame(nodes, own, rids, before, res, given, x);
        }
      }
      assert kids[..|kids|] == kids;
    }
  }

  lemma SameIsGrown(res: map<int, seq<string>>, rids: map<int, int>)
    ensures Grown(res, res, rids) && NothingNew(res, res, rids)
  {
  }

  lemma GrownTwice(a: map<int, seq<string>>, b: map<int, seq<string>>, c: map<int, seq<string>>, rids: map<int, int>)
    ensures Grown(a, b, rids) && Grown(b, c, rids) ==> Grown(a, c, rids)
    ensures NothingNew(a, b, rids) && NothingNew(b, c, rids) ==> NothingNew(a, c, rids)
  {
  }

  lemma StillGiven(start: map<int, seq<string>>, now: map<int, seq<string>>, rids: map<int, int>, x: int)
    requires Grown(start, now, rids)
    ensures forall p :: p in Perms(start, rids, x) ==> p in Perms(now, rids, x)
  {
  }

  /** z has at least what x had been given and everything granted on the way. */
  ghost predicate Endowed(nodes: seq<Node>, before: map<int, seq<string>>, rids: map<int, int>, res: map<int, seq<string>>,
                          given: seq<string>, x: int, z: int) {
    forall p :: p in given || GrantedBetween(nodes, before, rids, x, z, p) ==> p in Perms(res, rids, z)
  }

  lemma EndowedFrame(nodes: seq<Node>, start: map<int, seq<string>>, rids: map<int, int>, before: map<int, seq<string>>,
                     after: map<int, seq<string>>, given: seq<string>, x: int)
    requires Grown(before, after, rids)
    ensures forall z :: Endowed(nodes, start, rids, before, given, x, z) ==> Endowed(nodes, start, rids, after, given, x, z)
  {
  }

  /** What the walk below a child adds up to for its parent. */
  lemma ChildEndowed(nodes: seq<Node>, g: map<int, seq<int>>, start: map<int, seq<string>>, middle: map<int, seq<string>>,
                     res: map<int, seq<string>>, rids: map<int, int>, given: seq<string>, x: int, i: nat)
    requires Adjacent(g, nodes) && NoTwins(g) && UniqueIds(nodes) && Grounded(nodes, x) && i < |Kids(g, x)|
    requires Grown(start, middle, rids) && Grown(middle, res, rids)
    requires forall p :: p in given ==> p in Perms(middle, rids, Kids(g, x)[i])
    requires var y := Kids(g, x)[i];
      forall z :: Below(nodes, y, z) ==> Endowed(nodes, middle, rids, res, Perms(middle, rids, y), y, z)
    ensures forall z :: Reaches(nodes, Kids(g, x)[i], z) ==> Endowed(nodes, start, rids, res, given, x, z)
  {
    var y := Kids(g, x)[i];
    KidIsNew(nodes, g, x, i);
    forall z | Reaches(nodes, y, z)
      ensures Endowed(nodes, start, rids, res, given, x, z)
    {
      hide Below, Reaches, Adjacent, NoTwins, UniqueIds, Grounded, GrantedBetween;
      ReachesUnfolds(nodes, y, z);
      forall p | p in given || GrantedBetween(nodes, start, rids, x, z, p)
        ensures p in Perms(res, rids, z)
      {
        BetweenUnfolds(nodes, g, start, rids, x, i, z, p);
        NoneBetween(nodes, start, rids, y, p);
        BetweenGrows(nodes, start, middle, rids, y, z, p);
      }
    }
  }

  lemma BetweenGrows(nodes: seq<Node>, before: map<int, seq<string>>, after: map<int, seq<string>>, rids: map<int, int>,
                     x: int, z: int, p: string)
    requires Grown(before, after, rids)
    ensures GrantedBetween(nodes, before, rids, x, z, p) ==> GrantedBetween(nodes, after, rids, x, z, p)
  {
    if a :| Below(nodes, x, a) && Reaches(nodes, a, z) && p in Perms(before, rids, a) {
      assert p in Perms(after, rids, a);
    }
  }

  /** z ends up with what x had been given and everything granted on the way. */
  ghost predicate Settled(nodes: seq<Node>, own: map<int, seq<string>>, rids: map<int, int>, res: map<int, seq<string>>,
                          given: seq<string>, x: int, z: int) {
    forall p :: p in Perms(res, rids, z) <==> p in given || GrantedBetween(nodes, own, rids, x, z, p)
  }

  lemma SettledFrame(nodes: seq<Node>, own: map<int, seq<string>>, rids: map<int, int>, before: map<int, seq<string>>,
                     after: map<int, seq<string>>, given: seq<string>, x: int)
    ensures forall z :: Perms(before, rids, z) == Perms(after, rids, z) && Settled(nodes, own, rids, before, given, x, z) ==>
      Settled(nodes, own, rids, after, given, x, z)
  {
  }

  /** The walk below a child settles the child's subtree for its parent too. */
  lemma ChildSettles(nodes: seq<Node>, g: map<int, seq<int>>, own: map<int, seq<string>>, rids: map<int, int>, res: map<int, seq<string>>,
                     given: seq<string>, handed: seq<string>, x: int, i: nat)
    requires Adjacent(g, nodes) && NoTwins(g) && UniqueIds(nodes) && Grounded(nodes, x) && i < |Kids(g, x)|
    requires forall p :: p in handed <==> p in Perms(own, rids, Kids(g, x)[i]) || p in given
    requires Perms(res, rids, Kids(g, x)[i]) == handed
    requires forall z :: Below(nodes, Kids(g, x)[i], z) ==> Settled(nodes, own, rids, res, handed, Kids(g, x)[i], z)
    ensures forall z :: Reaches(nodes, Kids(g, x)[i], z) ==> Settled(nodes, own, rids, res, given, x, z)
  {
    var y := Kids(g, x)[i];
    KidIsNew(nodes, g, x, i);
    forall z | Reaches(nodes, y, z)
      ensures Settled(nodes, own, rids, res, given, x, z)
    {
      hide Below, Reaches, Adjacent, NoTwins, UniqueIds, Grounded, GrantedBetween;
      ReachesUnfolds(nodes, y, z);
      forall p
        ensures p in Perms(res, rids, z) <==> p in given || GrantedBetween(nodes, own, rids, x, z, p)
      {
        BetweenUnfolds(nodes, g, own, rids, x, i, z, p);
        NoneBetween(nodes, own, rids, y, p);
      }
    }
  }

  lemma BelowChild(nodes: seq<Node>, g: map<int, seq<int>>, x: int, i: nat)
    requires Adjacent(g, nodes) && Grounded(nodes, x) && i < |Kids(g, x)|
    ensures var y := Kids(g, x)[i];
      && Below(nodes, x, y)
      && (forall z :: Below(nodes, y, z) ==> z != y && Below(nodes, x, z))
      && (forall z :: Reaches(nodes, y, z) <==> z == y || Below(nodes, y, z))
  {
    var y := Kids(g, x)[i];
    assert y in Kids(g, x);
    ChildIsLower(nodes, x, y);
    EdgeIsPath(nodes, x, y);
    assert Reaches(nodes, x, y);
    ReachesUnfolds(nodes, y, y);
    forall z
      ensures Below(nodes, y, z) ==> Below(nodes, x, z)
      ensures Reaches(nodes, y, z) <==> z == y || Below(nodes, y, z)
    {
      ReachesJoin(nodes, x, y, z);
      ReachesUnfolds(nodes, y, z);
    }
  }

  lemma KidsAreBelow(nodes: seq<Node>, g: map<int, seq<int>>, x: int)
    requires Adjacent(g, nodes)
    ensures forall z :: Below(nodes, x, z) <==> SeenBelow(nodes, Kids(g, x), z)
  {
    forall z
      ensures Below(nodes, x, z) <==> SeenBelow(nodes, Kids(g, x), z)
    {
      ReachesUnfolds(nodes, x, z);
    }
  }

  lemma RootUnseen(nodes: seq<Node>, g: map<int, seq<int>>, x: int, i: nat)
    requires Adjacent(g, nodes) && Grounded(nodes, x) && i <= |Kids(g, x)|
    ensures !SeenBelow(nodes, Kids(g, x)[..i], x)
  {
    ReachesUnfolds(nodes, x, x);
    assert forall y :: y in Kids(g, x)[..i] ==> y in Kids(g, x);
  }

  lemma ChildHasResource(nodes: seq<Node>, g: map<int, seq<int>>, rids: map<int, int>, x: int, i: nat)
    requires Adjacent(g, nodes) && Listed(nodes, rids) && i < |Kids(g, x)|
    ensures Kids(g, x)[i] in rids
    ensures OwnResources(rids) ==> forall z :: z != Kids(g, x)[i] ==> Resource(rids, z) != Resource(rids, Kids(g, x)[i])
  {
    var y := Kids(g, x)[i];
    assert y in Kids(g, x);
    assert Node(y, x) in nodes;
  }

  lemma NoneBetween(nodes: seq<Node>, own: map<int, seq<string>>, rids: map<int, int>, y: int, p: string)
    requires Grounded(nodes, y)
    ensures !GrantedBetween(nodes, own, rids, y, y, p)
  {
    if a :| Below(nodes, y, a) && Reaches(nodes, a, y) && p in Perms(own, rids, a) {
      ReachesUnfolds(nodes, y, a);
      ReachesJoin(nodes, a, y, a);
    }
  }

  /** The loop that copies what is granted to each node of the table. */
  method CopyGranted(nodes: seq<Node>, rids: map<int, int>, granted: map<int, seq<string>>) returns (own: map<int, seq<string>>)
    requires Listed(nodes, rids)
    ensures forall z :: z in IdsOf(nodes) ==> Perms(own, rids, z) == Perms(granted, rids, z)
    ensures forall p :: Held(own, rids, p) ==> Held(granted, rids, p)
    ensures OwnResources(rids) ==> 0 !in own
  {
    own := map[];
    for k := 0 to |nodes|
      invariant OwnResources(rids) ==> 0 !in own
      invariant forall i :: 0 <= i < k ==> Perms(own, rids, nodes[i].id) == Perms(granted, rids, nodes[i].id)
      invariant forall x :: x in own ==> own[x] == [] || (x in granted && own[x] == granted[x])
    {
      assert forall i :: 0 <= i <= k ==> nodes[i] in nodes;
      own := own[rids[nodes[k].id] := Perms(granted, rids, nodes[k].id)];
    }
    forall p | Held(own, rids, p) ensures Held(granted, rids, p) {
      var z :| p in Perms(own, rids, z);
      assert p in Perms(granted, rids, z);
    }
  }

  lemma SameBetween(nodes: seq<Node>, own: map<int, seq<string>>, granted: map<int, seq<string>>, rids: map<int, int>)
    requires forall z :: z in IdsOf(nodes) ==> Perms(own, rids, z) == Perms(granted, rids, z)
    ensures forall x, z, p :: GrantedBetween(nodes, own, rids, x, z, p) <==> GrantedBetween(nodes, granted, rids, x, z, p)
  {
    forall x, a | Below(nodes, x, a)
      ensures a in IdsOf(nodes)
    {
      var n: nat :| n > 0 && Path(nodes, x, a, n);
      var u := LastStep(nodes, x, a, n);
      var i :| 0 <= i < |nodes| && nodes[i] == Node(a, u);
      assert IdsOf(nodes)[i] == a;
    }
  }

  /** handleSelfChildPerms: a node of the tree holds whatever is granted to it or to a node above it, and nothing is held
   that nobody was granted. With a resource for each node it holds nothing else, and a node outside the tree what is
   granted to itself. */
  method InheritPermissions(nodes: seq<Node>, rids: map<int, int>, granted: map<int, seq<string>>) returns (res: map<int, seq<string>>)
    requires Grounded(nodes, 0) && UniqueIds(nodes) && Listed(nodes, rids)
    ensures forall z, p :: z in IdsOf(nodes) && p in Perms(granted, rids, z) ==> p in Perms(res, rids, z)
    ensures forall z, p :: Below(nodes, 0, z) && GrantedBetween(nodes, granted, rids, 0, z, p) ==> p in Perms(res, rids, z)
    ensures forall p :: Held(res, rids, p) ==> Held(granted, rids, p)
    ensures OwnResources(rids) && 0 !in rids ==>
      && (forall z, p :: z in IdsOf(nodes) && Below(nodes, 0, z) ==>
            (p in Perms(res, rids, z) <==> GrantedBetween(nodes, granted, rids, 0, z, p)))
      && (forall z :: z in IdsOf(nodes) && !Below(nodes, 0, z) ==> Perms(res, rids, z) == Perms(granted, rids, z))
  {
    var own := CopyGranted(nodes, rids, granted);
    SameBetween(nodes, own, granted, rids);
    hide GrantedBetween, Grounded, UniqueIds, Below;
    var g := BuildChildren(nodes);
    var walk := new PermissionWalk(g, rids, own);
    walk.Dfs(nodes, own, 0);
    res := walk.res;
  }
}
