/**
  ResourceTreeNode and the recursive queries of backend/resource_tree.go.
  A child pointer in the source may be nil, so a tree is either `Nil` or a
  node holding a resource and its ordered children.
 */
module ResourceTrees {

  import opened Wrappers
  import opened Text
  import opened Resources

  datatype Tree = Nil | Node(resource: Resource, children: seq<Tree>)

  /** The error ValidateTree returns: a nil node, reached through a path of child indices. */
  datatype ValidationError = NilNode | InvalidChild(index: nat, cause: ValidationError)

  // ---------------------------------------------------------------------------
  // Specification functions

  /** The resources of a tree in preorder, the root first. */
  function Preorder(t: Tree): seq<Resource>
  {
    match t
    case Nil => []
    case Node(r, cs) => [r] + PreorderAll(cs)
  }

  function PreorderAll(ts: seq<Tree>): seq<Resource>
  {
    if ts == [] then [] else Preorder(ts[0]) + PreorderAll(ts[1..])
  }

  /** The first resource in `rs` whose UID is `uid`. */
  function FirstWithUid(rs: seq<Resource>, uid: Uid): (r: Option<Resource>)
    ensures r.None? <==> forall i :: 0 <= i < |rs| ==> rs[i].uid != uid
    ensures r.Some? ==> exists i :: 0 <= i < |rs| && rs[i] == r.value && rs[i].uid == uid
                          && forall j :: 0 <= j < i ==> rs[j].uid != uid
  {
    if rs == [] then None
    else if rs[0].uid == uid then Some(rs[0])
    else
      var r := FirstWithUid(rs[1..], uid);
      assert r.Some? ==> exists i :: 0 <= i < |rs| - 1 && rs[1..][i] == r.value && rs[1..][i].uid == uid
                          && forall j :: 0 <= j < i ==> rs[1..][j].uid != uid;
      r
  }

  /** The resources of `rs` whose kind equals `kind` up to letter case, in order. */
  function KindFilter(rs: seq<Resource>, kind: string): seq<Resource>
  {
    if rs == [] then []
    else (if EqualFold(rs[0].kind, kind) then [rs[0]] else []) + KindFilter(rs[1..], kind)
  }

  /** The depth GetDepth reports: 1 for nil or a leaf, else one more than the deepest child. */
  function Height(t: Tree): (h: nat)
    ensures h >= 1
  {
    match t
    case Nil => 1
    case Node(_, cs) => if cs == [] then 1 else 1 + MaxHeight(cs)
  }

  function MaxHeight(ts: seq<Tree>): nat
  {
    if ts == [] then 0
    else
      var h, rest := Height(ts[0]), MaxHeight(ts[1..]);
      if h > rest then h else rest
  }

  /** A tree without nil nodes. */
  predicate NoNil(t: Tree)
  {
    t.Node? && forall i :: 0 <= i < |t.children| ==> NoNil(t.children[i])
  }

  /**
    `e` is the error for the first nil node of `t` in depth-first order: it
    follows child indices down to a nil node, and every earlier sibling on
    the way is free of nil nodes.
   */
  predicate LeadsToFirstNil(t: Tree, e: ValidationError)
  {
    match e
    case NilNode => t.Nil?
    case InvalidChild(i, cause) =>
      t.Node? && i < |t.children| && LeadsToFirstNil(t.children[i], cause)
      && forall j :: 0 <= j < i ==> NoNil(t.children[j])
  }

  /**
    Every child names its parent among its owner references: ValidateTree
    logs no ownership warning for such a tree.
   */
  predicate OwnersConsistent(t: Tree)
  {
    match t
    case Nil => true
    case Node(r, cs) =>
      forall i :: 0 <= i < |cs| ==> (cs[i].Node? ==> r.uid in cs[i].resource.owners) && OwnersConsistent(cs[i])
  }

  // ---------------------------------------------------------------------------
  // Lemmas about the specification functions

  lemma {:induction false} PreorderAllAppend(a: seq<Tree>, b: seq<Tree>)
    ensures PreorderAll(a + b) == PreorderAll(a) + PreorderAll(b)
  {
    if a != [] {
      assert (a + b)[1..] == a[1..] + b;
      PreorderAllAppend(a[1..], b);
    } else {
      assert a + b == b;
    }
  }

  lemma PreorderAllSnoc(a: seq<Tree>, t: Tree)
    ensures PreorderAll(a + [t]) == PreorderAll(a) + Preorder(t)
  {
    PreorderAllAppend(a, [t]);
    assert [t][1..] == [];
  }

  lemma {:induction false} FirstWithUidAppend(a: seq<Resource>, b: seq<Resource>, uid: Uid)
    ensures FirstWithUid(a + b, uid) == if FirstWithUid(a, uid).Some? then FirstWithUid(a, uid) else FirstWithUid(b, uid)
  {
    if a != [] {
      assert (a + b)[1..] == a[1..] + b;
      FirstWithUidAppend(a[1..], b, uid);
    } else {
      assert a + b == b;
    }
  }

  lemma {:induction false} KindFilterAppend(a: seq<Resource>, b: seq<Resource>, kind: string)
    ensures KindFilter(a + b, kind) == KindFilter(a, kind) + KindFilter(b, kind)
  {
    if a != [] {
      assert (a + b)[1..] == a[1..] + b;
      KindFilterAppend(a[1..], b, kind);
    } else {
      assert a + b == b;
    }
  }

  /** KindFilter keeps exactly the matching resources, each as often as it occurs. */
  lemma {:induction false} KindFilterCounts(rs: seq<Resource>, kind: string, r: Resource)
    ensures multiset(KindFilter(rs, kind))[r] == if EqualFold(r.kind, kind) then multiset(rs)[r] else 0
  {
    if rs != [] {
      KindFilterCounts(rs[1..], kind, r);
      assert rs == [rs[0]] + rs[1..];
    }
  }

  lemma {:induction false} MaxHeightSnoc(a: seq<Tree>, t: Tree)
    ensures MaxHeight(a + [t]) == if Height(t) > MaxHeight(a) then Height(t) else MaxHeight(a)
  {
    if a != [] {
      assert (a + [t])[1..] == a[1..] + [t];
      MaxHeightSnoc(a[1..], t);
    } else {
      assert [t][1..] == [];
    }
  }

  /** Every child is strictly shallower than its parent, and the depth is at least 1. */
  lemma {:induction false} HeightAboveChildren(t: Tree, i: nat)
    requires t.Node? && i < |t.children|
    ensures 1 <= Height(t.children[i]) < Height(t)
  {
    MaxHeightAtLeast(t.children, i);
  }

  lemma {:induction false} MaxHeightAtLeast(ts: seq<Tree>, i: nat)
    requires i < |ts|
    ensures 1 <= Height(ts[i]) <= MaxHeight(ts)
  {
    if i > 0 {
      MaxHeightAtLeast(ts[1..], i - 1);
    }
  }

  /** The deepest of a non-empty list of trees is one of them. */
  lemma {:induction false} MaxHeightAttained(ts: seq<Tree>)
    requires ts != []
    ensures exists k :: 0 <= k < |ts| && Height(ts[k]) == MaxHeight(ts)
  {
    if |ts| > 1 && Height(ts[0]) <= MaxHeight(ts[1..]) {
      MaxHeightAttained(ts[1..]);
      var j :| 0 <= j < |ts[1..]| && Height(ts[1..][j]) == MaxHeight(ts[1..]);
      assert Height(ts[j + 1]) == MaxHeight(ts);
    } else {
      assert Height(ts[0]) == MaxHeight(ts);
    }
  }

  /** A node with children is exactly one deeper than its deepest child. */
  lemma HeightOfDeepestChild(t: Tree)
    requires t.Node? && t.children != []
    ensures exists k :: 0 <= k < |t.children| && Height(t) == Height(t.children[k]) + 1
              && forall i :: 0 <= i < |t.children| ==> Height(t.children[i]) <= Height(t.children[k])
  {
    MaxHeightAttained(t.children);
    var k :| 0 <= k < |t.children| && Height(t.children[k]) == MaxHeight(t.children);
    forall i | 0 <= i < |t.children|
      ensures Height(t.children[i]) <= Height(t.children[k])
    {
      MaxHeightAtLeast(t.children, i);
    }
  }

  /** A tree without nil nodes is no deeper than it has nodes. */
  lemma {:induction false} HeightAtMostCount(t: Tree)
    requires NoNil(t)
    ensures Height(t) <= |Preorder(t)|
    decreases t, 1
  {
    if t.children != [] {
      MaxHeightAtMostCount(t.children);
    }
  }

  lemma {:induction false} MaxHeightAtMostCount(ts: seq<Tree>)
    requires forall i :: 0 <= i < |ts| ==> NoNil(ts[i])
    ensures MaxHeight(ts) <= |PreorderAll(ts)|
    decreases ts, 0
  {
    if ts != [] {
      HeightAtMostCount(ts[0]);
      MaxHeightAtMostCount(ts[1..]);
    }
  }

  // ---------------------------------------------------------------------------
  // The queries of the source, each the loop the source runs

  /** hasOwnerReference: whether `ownerUid` is among the owner references of `r`. */
  method HasOwnerReference(r: Resource, ownerUid: Uid) returns (found: bool)
    ensures found <==> ownerUid in r.owners
  {
    var i := 0;
    while i < |r.owners|
      invariant 0 <= i <= |r.owners|
      invariant ownerUid !in r.owners[..i]
    {
      if r.owners[i] == ownerUid {
        return true;
      }
      assert r.owners[..i + 1] == r.owners[..i] + [r.owners[i]];
      i := i + 1;
    }
    assert r.owners[..i] == r.owners;
    return false;
  }

  /** CountNodes: 0 for nil, else one plus the counts of the children; the length of the preorder listing. */
  method CountNodes(t: Tree) returns (count: nat)
    ensures count == |Preorder(t)|
    decreases t
  {
    if t.Nil? {
      return 0;
    }
    var cs := t.children;
    count := 1;
    var i := 0;
    while i < |cs|
      invariant 0 <= i <= |cs|
      invariant count == 1 + |PreorderAll(cs[..i])|
    {
      var n := CountNodes(cs[i]);
      assert cs[..i + 1] == cs[..i] + [cs[i]];
      PreorderAllSnoc(cs[..i], cs[i]);
      count := count + n;
      i := i + 1;
    }
    assert cs[..i] == cs;
  }

  /** GetAllResources(node): the resources of the tree, root first, then each child's in order. */
  method GetAllResources(t: Tree) returns (resources: seq<Resource>)
    ensures resources == Preorder(t)
    decreases t
  {
    if t.Nil? {
      return [];
    }
    var cs := t.children;
    resources := [t.resource];
    var i := 0;
    while i < |cs|
      invariant 0 <= i <= |cs|
      invariant resources == [t.resource] + PreorderAll(cs[..i])
    {
      var sub := GetAllResources(cs[i]);
      assert cs[..i + 1] == cs[..i] + [cs[i]];
      PreorderAllSnoc(cs[..i], cs[i]);
      resources := resources + sub;
      i := i + 1;
    }
    assert cs[..i] == cs;
  }

  /**
    With no match among the first `i` children, the first match among the
    first `i + 1` is the first match in child `i`; when that exists, it is
    the first match among all the children.
   */
  lemma FirstWithUidStep(cs: seq<Tree>, i: nat, uid: Uid)
    requires i < |cs|
    requires FirstWithUid(PreorderAll(cs[..i]), uid) == None
    ensures FirstWithUid(PreorderAll(cs[..i + 1]), uid) == FirstWithUid(Preorder(cs[i]), uid)
    ensures FirstWithUid(Preorder(cs[i]), uid).Some? ==>
              FirstWithUid(PreorderAll(cs), uid) == FirstWithUid(Preorder(cs[i]), uid)
  {
    assert cs[..i + 1] == cs[..i] + [cs[i]];
    PreorderAllSnoc(cs[..i], cs[i]);
    FirstWithUidAppend(PreorderAll(cs[..i]), Preorder(cs[i]), uid);
    assert cs == cs[..i + 1] + cs[i + 1..];
    PreorderAllAppend(cs[..i + 1], cs[i + 1..]);
    FirstWithUidAppend(PreorderAll(cs[..i + 1]), PreorderAll(cs[i + 1..]), uid);
  }

  /** FindResourceByUID: the first resource in preorder with this UID, or nil. */
  method FindResourceByUID(t: Tree, uid: Uid) returns (result: Option<Resource>)
    ensures result == FirstWithUid(Preorder(t), uid)
    decreases t
  {
    if t.Nil? {
      return None;
    }
    if t.resource.uid == uid {
      return Some(t.resource);
    }
    var cs := t.children;
    assert FirstWithUid(Preorder(t), uid) == FirstWithUid(PreorderAll(cs), uid) by {
      assert Preorder(t) == [t.resource] + PreorderAll(cs);
    }
    var i := 0;
    while i < |cs|
      invariant 0 <= i <= |cs|
      invariant FirstWithUid(PreorderAll(cs[..i]), uid) == None
    {
      var found := FindResourceByUID(cs[i], uid);
      FirstWithUidStep(cs, i, uid);
      if found.Some? {
        return found;
      }
      i := i + 1;
    }
    assert cs[..i] == cs;
    return None;
  }

  /** GetDepth: 1 for nil or a leaf, else one more than the deepest child. */
  method GetDepth(t: Tree) returns (depth: nat)
    ensures depth == Height(t)
    decreases t
  {
    if t.Nil? || |t.children| == 0 {
      return 1;
    }
    var cs := t.children;
    var maxChildDepth := 0;
    var i := 0;
    while i < |cs|
      invariant 0 <= i <= |cs|
      invariant maxChildDepth == MaxHeight(cs[..i])
    {
      var childDepth := GetDepth(cs[i]);
      assert cs[..i + 1] == cs[..i] + [cs[i]];
      MaxHeightSnoc(cs[..i], cs[i]);
      if childDepth > maxChildDepth {
        maxChildDepth := childDepth;
      }
      i := i + 1;
    }
    assert cs[..i] == cs;
    return 1 + maxChildDepth;
  }

  /** GetResourcesByKind: the preorder resources whose kind matches, ignoring letter case. */
  method GetResourcesByKind(t: Tree, kind: string) returns (resources: seq<Resource>)
    ensures resources == KindFilter(Preorder(t), kind)
    decreases t
  {
    if t.Nil? {
      return [];
    }
    resources := [];
    if EqualFold(t.resource.kind, kind) {
      resources := [t.resource];
    }
    var cs := t.children;
    var i := 0;
    while i < |cs|
      invariant 0 <= i <= |cs|
      invariant resources == KindFilter([t.resource] + PreorderAll(cs[..i]), kind)
    {
      var sub := GetResourcesByKind(cs[i], kind);
      assert cs[..i + 1] == cs[..i] + [cs[i]];
      PreorderAllSnoc(cs[..i], cs[i]);
      assert [t.resource] + PreorderAll(cs[..i + 1]) == ([t.resource] + PreorderAll(cs[..i])) + Preorder(cs[i]);
      KindFilterAppend([t.resource] + PreorderAll(cs[..i]), Preorder(cs[i]), kind);
      resources := resources + sub;
      i := i + 1;
    }
    assert cs[..i] == cs;
  }

  /**
    ValidateTree: fails exactly when the tree contains a nil node, and then
    names the first one in depth-first order. The ownership check it also
    makes only logs a warning (see OwnersConsistent).
   */
  method ValidateTree(t: Tree) returns (err: Option<ValidationError>)
    ensures err.None? <==> NoNil(t)
    ensures err.Some? ==> LeadsToFirstNil(t, err.value)
    decreases t
  {
    if t.Nil? {
      return Some(NilNode);
    }
    var cs := t.children;
    var i := 0;
    while i < |cs|
      invariant 0 <= i <= |cs|
      invariant forall j :: 0 <= j < i ==> NoNil(cs[j])
    {
      var childErr := ValidateTree(cs[i]);
      if childErr.Some? {
        return Some(InvalidChild(i, childErr.value));
      }
      i := i + 1;
    }
    return None;
  }
}
