/**
  buildTreeFromPool and GetAllResourceTrees of backend/resource_tree.go: a
  depth-first expansion of the owner index that cuts ownership cycles by
  emitting a leaf for a UID already on the current root-to-node path.
 */
module TreeBuilding {

  import opened Wrappers
  import opened Resources
  import opened ResourcePools
  import opened ResourceTrees

  /** Every UID of a resource listed in the owner index. */
  ghost function Universe(byOwner: map<Uid, seq<Resource>>): set<Uid>
  {
    set o, r | o in byOwner && r in byOwner[o] :: r.uid
  }

  /** The number of UIDs that may still be expanded below `r` when `path` is marked. */
  ghost function Budget(byOwner: map<Uid, seq<Resource>>, path: set<Uid>, r: Resource): nat
  {
    |(Universe(byOwner) + {r.uid}) - path|
  }

  lemma BudgetDrops(byOwner: map<Uid, seq<Resource>>, path: set<Uid>, r: Resource, child: Resource)
    requires r.uid !in path
    requires child in Lookup(byOwner, r.uid)
    ensures Budget(byOwner, path + {r.uid}, child) < Budget(byOwner, path, r)
  {
    var u := Universe(byOwner);
    assert child.uid in u;
    assert (u + {child.uid}) - (path + {r.uid}) == ((u + {r.uid}) - path) - {r.uid};
  }

  /**
    The tree buildTreeFromPool builds for `r` while the UIDs in `path` are
    marked visited.
   */
  ghost function Build(byOwner: map<Uid, seq<Resource>>, path: set<Uid>, r: Resource): Tree
    decreases Budget(byOwner, path, r), 1
  {
    if r.uid in path then Node(r, [])
    else Node(r, BuildEach(byOwner, path, r, |Lookup(byOwner, r.uid)|))
  }

  /**
    The first `n` children built for `r`, in order, from the resources
    indexed under `r.uid`, while `path` and `r.uid` are marked.
   */
  ghost function BuildEach(byOwner: map<Uid, seq<Resource>>, path: set<Uid>, r: Resource, n: nat): seq<Tree>
    requires r.uid !in path && n <= |Lookup(byOwner, r.uid)|
    decreases Budget(byOwner, path, r), 0, n
  {
    if n == 0 then []
    else
      var c := Lookup(byOwner, r.uid)[n - 1];
      BudgetDrops(byOwner, path, r, c);
      BuildEach(byOwner, path, r, n - 1) + [Build(byOwner, path + {r.uid}, c)]
  }

  /**
    No UID is expanded twice along one root-to-node path: a node with
    children never repeats the UID of an expanded ancestor, nor one in
    `path`.
   */
  ghost predicate ExpandsOncePerPath(t: Tree, path: set<Uid>)
  {
    match t
    case Nil => true
    case Node(r, cs) =>
      cs != [] ==> r.uid !in path && forall i :: 0 <= i < |cs| ==> ExpandsOncePerPath(cs[i], path + {r.uid})
  }

  /**
    The node built for `r` holds `r`; it is a leaf when `r.uid` is already on
    the path, and otherwise its children are built, in order, from the
    resources indexed under `r.uid`.
   */
  lemma BuildMatchesIndex(byOwner: map<Uid, seq<Resource>>, path: set<Uid>, r: Resource)
    ensures Build(byOwner, path, r).Node? && Build(byOwner, path, r).resource == r
    ensures r.uid in path ==> Build(byOwner, path, r).children == []
    ensures r.uid !in path ==>
      |Build(byOwner, path, r).children| == |Lookup(byOwner, r.uid)|
      && forall i :: 0 <= i < |Lookup(byOwner, r.uid)| ==>
           Build(byOwner, path, r).children[i].Node?
           && Build(byOwner, path, r).children[i].resource == Lookup(byOwner, r.uid)[i]
  {
    if r.uid !in path {
      BuildEachIndex(byOwner, path, r, |Lookup(byOwner, r.uid)|);
    }
  }

  /** A built tree has no nil node, so ValidateTree accepts it. */
  lemma {:induction false} BuildHasNoNil(byOwner: map<Uid, seq<Resource>>, path: set<Uid>, r: Resource)
    ensures NoNil(Build(byOwner, path, r))
    decreases Budget(byOwner, path, r)
  {
    if r.uid !in path {
      var cs := Lookup(byOwner, r.uid);
      BuildEachIndex(byOwner, path, r, |cs|);
      forall i | 0 <= i < |cs|
        ensures NoNil(Build(byOwner, path + {r.uid}, cs[i]))
      {
        BudgetDrops(byOwner, path, r, cs[i]);
        BuildHasNoNil(byOwner, path + {r.uid}, cs[i]);
      }
    }
  }

  /** Over a sound index, every child of a built tree names its parent as owner. */
  lemma {:induction false} BuildOwnersConsistent(byOwner: map<Uid, seq<Resource>>, path: set<Uid>, r: Resource)
    requires IndexSound(byOwner)
    ensures OwnersConsistent(Build(byOwner, path, r))
    decreases Budget(byOwner, path, r)
  {
    if r.uid !in path {
      var cs := Lookup(byOwner, r.uid);
      BuildEachIndex(byOwner, path, r, |cs|);
      forall i | 0 <= i < |cs|
        ensures OwnersConsistent(Build(byOwner, path + {r.uid}, cs[i]))
      {
        BudgetDrops(byOwner, path, r, cs[i]);
        BuildOwnersConsistent(byOwner, path + {r.uid}, cs[i]);
      }
    }
  }

  /** The cycle cut works: along every path each UID is expanded at most once. */
  lemma {:induction false} BuildExpandsOncePerPath(byOwner: map<Uid, seq<Resource>>, path: set<Uid>, r: Resource)
    ensures ExpandsOncePerPath(Build(byOwner, path, r), path)
    decreases Budget(byOwner, path, r)
  {
    if r.uid !in path {
      var cs := Lookup(byOwner, r.uid);
      BuildEachIndex(byOwner, path, r, |cs|);
      forall i | 0 <= i < |cs|
        ensures ExpandsOncePerPath(Build(byOwner, path + {r.uid}, cs[i]), path + {r.uid})
      {
        BudgetDrops(byOwner, path, r, cs[i]);
        BuildExpandsOncePerPath(byOwner, path + {r.uid}, cs[i]);
      }
    }
  }

  /**
    Even with ownership cycles the built tree is no deeper than one more than
    the number of UIDs not yet on the path.
   */
  lemma {:induction false} BuildDepthBounded(byOwner: map<Uid, seq<Resource>>, path: set<Uid>, r: Resource)
    ensures Height(Build(byOwner, path, r)) <= Budget(byOwner, path, r) + 1
    decreases Budget(byOwner, path, r)
  {
    var t := Build(byOwner, path, r);
    if r.uid !in path && t.children != [] {
      var cs := Lookup(byOwner, r.uid);
      BuildEachIndex(byOwner, path, r, |cs|);
      forall i | 0 <= i < |cs|
        ensures Height(t.children[i]) <= Budget(byOwner, path, r)
      {
        BudgetDrops(byOwner, path, r, cs[i]);
        BuildDepthBounded(byOwner, path + {r.uid}, cs[i]);
      }
      MaxHeightAtMost(t.children, Budget(byOwner, path, r));
    }
  }

  lemma {:induction false} MaxHeightAtMost(ts: seq<Tree>, bound: nat)
    requires forall i :: 0 <= i < |ts| ==> Height(ts[i]) <= bound
    ensures MaxHeight(ts) <= bound
  {
    if ts != [] {
      MaxHeightAtMost(ts[1..], bound);
    }
  }

  /** The children built for `r` are built one by one from the index. */
  lemma {:induction false} BuildEachIndex(byOwner: map<Uid, seq<Resource>>, path: set<Uid>, r: Resource, n: nat)
    requires r.uid !in path && n <= |Lookup(byOwner, r.uid)|
    ensures |BuildEach(byOwner, path, r, n)| == n
    ensures forall j :: 0 <= j < n ==> BuildEach(byOwner, path, r, n)[j] == Build(byOwner, path + {r.uid}, Lookup(byOwner, r.uid)[j])
    decreases n
  {
    if n > 0 {
      BuildEachIndex(byOwner, path, r, n - 1);
    }
  }

  /**
    The tree builder: the pool it reads and the `visited` marks, which hold
    exactly the UIDs on the current root-to-node path.
   */
  class TreeBuilder {
    const pool: ResourcePool
    var visited: map<Uid, bool>
    /** The UIDs on the current root-to-node path. */
    ghost var path: set<Uid>

    /** A UID is marked visited exactly when it is on the current path. */
    ghost predicate MarksPath()
      reads this
    {
      forall u :: (u in visited && visited[u]) <==> u in path
    }

    /** NewResourceTreeBuilder, with its pool already built. */
    constructor (pool: ResourcePool)
      ensures this.pool == pool && visited == map[] && path == {}
      ensures MarksPath()
    {
      this.pool := pool;
      visited := map[];
      path := {};
    }

    /**
      buildTreeFromPool: the node for `r`, built from the index; the marks
      are restored on return, so they always equal the current path.
     */
    method BuildTreeFromPool(r: Resource) returns (node: Tree)
      requires pool.Valid() && MarksPath()
      modifies this
      ensures node == Build(pool.byOwner, old(path), r)
      ensures MarksPath() && path == old(path)
      decreases Budget(pool.byOwner, path, r)
    {
      var rootUid := r.uid;
      if rootUid in visited && visited[rootUid] {
        return Node(r, []);
      }
      ghost var path0 := path;
      ghost var index := pool.byOwner;
      ghost var inner := path0 + {rootUid};
      visited := visited[rootUid := true];
      path := inner;

      var cs := pool.GetChildrenByOwner(rootUid);
      assert cs == Lookup(index, rootUid);
      var children: seq<Tree> := [];
      var i := 0;
      while i < |cs|
        invariant 0 <= i <= |cs|
        invariant pool.byOwner == index
        invariant MarksPath() && path == inner
        invariant children == BuildEach(index, path0, r, i)
      {
        BudgetDrops(index, path0, r, cs[i]);
        var childNode := BuildTreeFromPool(cs[i]);
        children := children + [childNode];
        i := i + 1;
      }

      visited := visited[rootUid := false];
      path := path0;
      node := Node(r, children);
    }

    /**
      GetResourceTree over a built pool: an error for a nil root, else the
      tree buildTreeFromPool builds from the current marks.
     */
    method GetResourceTree(root: Option<Resource>) returns (tree: Option<Tree>, err: Option<string>)
      requires pool.Valid() && MarksPath()
      modifies this
      ensures root.None? ==> tree.None? && err == Some("root resource cannot be nil")
      ensures root.Some? ==> tree == Some(Build(pool.byOwner, old(path), root.value)) && err.None?
      ensures MarksPath() && path == old(path)
    {
      if root.None? {
        return None, Some("root resource cannot be nil");
      }
      var node := BuildTreeFromPool(root.value);
      return Some(node), None;
    }

    /**
      GetAllResourceTrees: one tree per pool resource without owners, each
      built from cleared marks.
     */
    method GetAllResourceTrees() returns (trees: seq<Tree>)
      requires pool.Valid()
      modifies this
      ensures forall i :: 0 <= i < |trees| ==>
        trees[i].Node? && trees[i].resource in pool.resources.Values && trees[i].resource.owners == []
        && trees[i] == Build(pool.byOwner, {}, trees[i].resource)
      ensures forall r :: r in pool.resources.Values && r.owners == [] ==>
        exists i :: 0 <= i < |trees| && trees[i] == Build(pool.byOwner, {}, r)
      ensures forall i, j :: 0 <= i < j < |trees| ==> trees[i].resource.uid != trees[j].resource.uid
      ensures |trees| > 0 ==> MarksPath() && path == {}
      ensures |trees| == 0 ==> visited == old(visited) && path == old(path)
    {
      var roots := pool.GetRootResources();
      trees := [];
      var i := 0;
      while i < |roots|
        invariant 0 <= i <= |roots|
        invariant |trees| == i
        invariant i > 0 ==> MarksPath() && path == {}
        invariant i == 0 ==> visited == old(visited) && path == old(path)
        invariant forall j :: 0 <= j < i ==> trees[j] == Build(pool.byOwner, {}, roots[j])
      {
        visited := map[];
        path := {};
        var tree := BuildTreeFromPool(roots[i]);
        trees := trees + [tree];
        i := i + 1;
      }
      forall j | 0 <= j < |trees|
        ensures trees[j].Node? && trees[j].resource == roots[j]
      {
        BuildMatchesIndex(pool.byOwner, {}, roots[j]);
      }
      forall r | r in pool.resources.Values && r.owners == []
        ensures exists j :: 0 <= j < |trees| && trees[j] == Build(pool.byOwner, {}, r)
      {
        var j :| 0 <= j < |roots| && roots[j] == r;
        assert trees[j] == Build(pool.byOwner, {}, r);
      }
    }
  }
}
