/**
  The resource pool of backend/resource_tree.go: every resource by UID, and an
  index from owner UID to the resources that name it as owner, in the order
  they were added.
 */
module ResourcePools {

  import opened Wrappers
  import opened Resources

  /** The list stored under `o`; a missing key reads as the empty (nil) list. */
  function Lookup(byOwner: map<Uid, seq<Resource>>, o: Uid): seq<Resource>
  {
    if o in byOwner then byOwner[o] else []
  }

  /** Append `r` to the list under `o`. */
  function Append(byOwner: map<Uid, seq<Resource>>, o: Uid, r: Resource): map<Uid, seq<Resource>>
  {
    byOwner[o := Lookup(byOwner, o) + [r]]
  }

  /** The index after `r` is appended once under each of the owner UIDs `os`, in order. */
  function IndexOwners(byOwner: map<Uid, seq<Resource>>, os: seq<Uid>, r: Resource): map<Uid, seq<Resource>>
    decreases |os|
  {
    if os == [] then byOwner
    else Append(IndexOwners(byOwner, os[..|os| - 1], r), os[|os| - 1], r)
  }

  /** The index after each of `items` is added, in order. */
  function IndexAll(byOwner: map<Uid, seq<Resource>>, items: seq<Resource>): map<Uid, seq<Resource>>
    decreases |items|
  {
    if items == [] then byOwner
    else
      var last := items[|items| - 1];
      IndexOwners(IndexAll(byOwner, items[..|items| - 1]), last.owners, last)
  }

  /** The UID map after each of `items` is stored, in order. */
  function StoreAll(resources: map<Uid, Resource>, items: seq<Resource>): map<Uid, Resource>
    decreases |items|
  {
    if items == [] then resources
    else
      var last := items[|items| - 1];
      StoreAll(resources, items[..|items| - 1])[last.uid := last]
  }

  /** How many times `o` occurs in `os`. */
  function Occurrences(os: seq<Uid>, o: Uid): nat
  {
    if os == [] then 0 else (if os[0] == o then 1 else 0) + Occurrences(os[1..], o)
  }

  /** `n` copies of `r`. */
  function Repeat(r: Resource, n: nat): seq<Resource>
  {
    if n == 0 then [] else [r] + Repeat(r, n - 1)
  }

  /** What adding `items` appends under owner `o`: each item once per reference to `o`. */
  function Expected(items: seq<Resource>, o: Uid): seq<Resource>
  {
    if items == [] then []
    else Expected(items[..|items| - 1], o) + Repeat(items[|items| - 1], Occurrences(items[|items| - 1].owners, o))
  }

  /** Every resource listed under an owner names that owner. */
  ghost predicate IndexSound(byOwner: map<Uid, seq<Resource>>)
  {
    forall o, r :: o in byOwner && r in byOwner[o] ==> o in r.owners
  }

  /** Every resource is stored under its own UID. */
  ghost predicate KeysSound(resources: map<Uid, Resource>)
  {
    forall u :: u in resources ==> resources[u].uid == u
  }

  /** Under sound keys, a stored resource is exactly one found under its own UID. */
  lemma ValuesByUid(resources: map<Uid, Resource>)
    requires KeysSound(resources)
    ensures forall r :: r in resources.Values <==> r.uid in resources && resources[r.uid] == r
  {
    forall r | r in resources.Values
      ensures r.uid in resources && resources[r.uid] == r
    {
      var u :| u in resources && resources[u] == r;
    }
  }

  lemma LookupAppend(byOwner: map<Uid, seq<Resource>>, x: Uid, r: Resource, o: Uid)
    ensures Lookup(Append(byOwner, x, r), o) == if x == o then Lookup(byOwner, o) + [r] else Lookup(byOwner, o)
  {
  }

  lemma {:induction false} OccurrencesSnoc(os: seq<Uid>, x: Uid, o: Uid)
    ensures Occurrences(os + [x], o) == Occurrences(os, o) + (if x == o then 1 else 0)
  {
    if os != [] {
      assert (os + [x])[1..] == os[1..] + [x];
      OccurrencesSnoc(os[1..], x, o);
    } else {
      assert [x][1..] == [];
    }
  }

  lemma {:induction false} RepeatSnoc(r: Resource, n: nat)
    ensures Repeat(r, n) + [r] == Repeat(r, n + 1)
  {
    if n > 0 {
      RepeatSnoc(r, n - 1);
    }
  }

  /**
    Adding one resource appends it under each key as many times as the key
    occurs among its owner references, and leaves every other key as it was.
   */
  lemma {:induction false} IndexOwnersLookup(byOwner: map<Uid, seq<Resource>>, os: seq<Uid>, r: Resource, o: Uid)
    ensures Lookup(IndexOwners(byOwner, os, r), o) == Lookup(byOwner, o) + Repeat(r, Occurrences(os, o))
    decreases |os|
  {
    if os == [] {
    } else {
      var init, x := os[..|os| - 1], os[|os| - 1];
      assert os == init + [x];
      var before := IndexOwners(byOwner, init, r);
      assert IndexOwners(byOwner, os, r) == Append(before, x, r);
      IndexOwnersLookup(byOwner, init, r, o);
      OccurrencesSnoc(init, x, o);
      var n := Occurrences(init, o);
      assert Occurrences(os, o) == n + (if x == o then 1 else 0);
      LookupAppend(before, x, r, o);
      if x == o {
        RepeatSnoc(r, n);
        calc {
          Lookup(IndexOwners(byOwner, os, r), o);
          Lookup(before, o) + [r];
          (Lookup(byOwner, o) + Repeat(r, n)) + [r];
          Lookup(byOwner, o) + (Repeat(r, n) + [r]);
          Lookup(byOwner, o) + Repeat(r, Occurrences(os, o));
        }
      }
    }
  }

  /** The keys of the index grow by exactly the referenced owner UIDs. */
  lemma {:induction false} IndexOwnersKeys(byOwner: map<Uid, seq<Resource>>, os: seq<Uid>, r: Resource)
    ensures forall k :: k in IndexOwners(byOwner, os, r) <==> k in byOwner || k in os
    decreases |os|
  {
    if os != [] {
      var init := os[..|os| - 1];
      IndexOwnersKeys(byOwner, init, r);
      assert os == init + [os[|os| - 1]];
    }
  }

  /** Indexing a resource under its own owner references keeps the index sound. */
  lemma {:induction false} IndexOwnersSound(byOwner: map<Uid, seq<Resource>>, os: seq<Uid>, r: Resource)
    requires IndexSound(byOwner)
    requires forall i :: 0 <= i < |os| ==> os[i] in r.owners
    ensures IndexSound(IndexOwners(byOwner, os, r))
    decreases |os|
  {
    if os != [] {
      IndexOwnersSound(byOwner, os[..|os| - 1], r);
    }
  }

  /**
    After a sequence of additions, the list under `o` is the old list followed
    by every added resource that references `o`, once per reference, in the
    order of addition.
   */
  lemma {:induction false} IndexAllLookup(byOwner: map<Uid, seq<Resource>>, items: seq<Resource>, o: Uid)
    ensures Lookup(IndexAll(byOwner, items), o) == Lookup(byOwner, o) + Expected(items, o)
    decreases |items|
  {
    if items != [] {
      var init, last := items[..|items| - 1], items[|items| - 1];
      IndexAllLookup(byOwner, init, o);
      IndexOwnersLookup(IndexAll(byOwner, init), last.owners, last, o);
    }
  }

  /** A UID that no added resource references gets no children. */
  lemma {:induction false} ExpectedUnreferenced(items: seq<Resource>, o: Uid)
    requires forall i :: 0 <= i < |items| ==> o !in items[i].owners
    ensures Expected(items, o) == []
    decreases |items|
  {
    if items != [] {
      var last := items[|items| - 1];
      ExpectedUnreferenced(items[..|items| - 1], o);
      OccurrencesAbsent(last.owners, o);
    }
  }

  lemma {:induction false} OccurrencesAbsent(os: seq<Uid>, o: Uid)
    requires o !in os
    ensures Occurrences(os, o) == 0
  {
    if os != [] {
      OccurrencesAbsent(os[1..], o);
    }
  }

  /** After a sequence of stores, a UID is present iff it was before or some item carries it. */
  lemma {:induction false} StoreAllKeys(resources: map<Uid, Resource>, items: seq<Resource>, u: Uid)
    ensures u in StoreAll(resources, items) <==> u in resources || exists i :: 0 <= i < |items| && items[i].uid == u
    decreases |items|
  {
    if items != [] {
      var init, last := items[..|items| - 1], items[|items| - 1];
      StoreAllKeys(resources, init, u);
      assert StoreAll(resources, items) == StoreAll(resources, init)[last.uid := last];
      if exists i :: 0 <= i < |items| && items[i].uid == u {
        var i :| 0 <= i < |items| && items[i].uid == u;
        if i < |init| {
          assert init[i] == items[i];
        }
      }
    }
  }

  /** Later stores overwrite: a UID maps to the last item that carries it. */
  lemma {:induction false} StoreAllLast(resources: map<Uid, Resource>, items: seq<Resource>, i: nat)
    requires i < |items|
    requires forall j :: i < j < |items| ==> items[j].uid != items[i].uid
    ensures items[i].uid in StoreAll(resources, items)
    ensures StoreAll(resources, items)[items[i].uid] == items[i]
    decreases |items|
  {
    var init, last := items[..|items| - 1], items[|items| - 1];
    assert StoreAll(resources, items) == StoreAll(resources, init)[last.uid := last];
    if i < |init| {
      assert last.uid != items[i].uid;
      assert init[i] == items[i];
      forall j | i < j < |init|
        ensures init[j].uid != init[i].uid
      {
        assert init[j] == items[j];
      }
      StoreAllLast(resources, init, i);
    }
  }

  /** `all` lists the resources stored under the UIDs in `done`, each once. */
  ghost predicate ListsExactly(all: seq<Resource>, resources: map<Uid, Resource>, done: set<Uid>)
  {
    && done <= resources.Keys
    && |all| == |done|
    && (forall i :: 0 <= i < |all| ==> all[i].uid in done && resources[all[i].uid] == all[i])
    && (forall u :: u in done ==> resources[u] in all)
    && (forall i, j :: 0 <= i < j < |all| ==> all[i].uid != all[j].uid)
  }

  lemma ListsExactlyStep(all: seq<Resource>, resources: map<Uid, Resource>, done: set<Uid>, u: Uid)
    requires KeysSound(resources)
    requires ListsExactly(all, resources, done)
    requires u in resources && u !in done
    ensures ListsExactly(all + [resources[u]], resources, done + {u})
  {
    var all' := all + [resources[u]];
    forall v | v in done + {u}
      ensures resources[v] in all'
    {
      if v != u {
        assert resources[v] in all;
      } else {
        assert all'[|all|] == resources[u];
      }
    }
  }

  /** Once nothing is pending, every key is done. */
  lemma DrainedIsAll(keys: set<Uid>, pending: set<Uid>, done: set<Uid>)
    requires done == keys - pending && pending == {}
    ensures done == keys
  {
  }

  /** A listing of every UID lists every stored resource, and nothing else. */
  lemma ListsExactlyAll(all: seq<Resource>, resources: map<Uid, Resource>, done: set<Uid>)
    requires KeysSound(resources)
    requires ListsExactly(all, resources, done)
    requires done == resources.Keys
    ensures |all| == |resources|
    ensures forall r :: r in all <==> r in resources.Values
    ensures forall i, j :: 0 <= i < j < |all| ==> all[i].uid != all[j].uid
  {
    ValuesByUid(resources);
    forall r | r in all
      ensures r in resources.Values
    {
      var i :| 0 <= i < |all| && all[i] == r;
      assert resources[all[i].uid] == r;
    }
  }

  class ResourcePool {
    var resources: map<Uid, Resource>
    var byOwner: map<Uid, seq<Resource>>

    ghost predicate Valid()
      reads this
    {
      KeysSound(resources) && IndexSound(byOwner)
    }

    /** NewResourcePool: both maps empty. */
    constructor ()
      ensures Valid()
      ensures resources == map[] && byOwner == map[]
    {
      resources := map[];
      byOwner := map[];
    }

    /**
      AddResource: store `r` under its UID (replacing any resource with the
      same UID) and append it under each of its owner references.
     */
    method AddResource(r: Resource)
      requires Valid()
      modifies this
      ensures Valid()
      ensures resources == old(resources)[r.uid := r]
      ensures byOwner == IndexOwners(old(byOwner), r.owners, r)
      ensures Size() == old(Size()) + (if r.uid in old(resources) then 0 else 1)
      ensures GetResource(r.uid) == Some(r)
      ensures forall o :: Lookup(byOwner, o) == Lookup(old(byOwner), o) + Repeat(r, Occurrences(r.owners, o))
      ensures forall o :: o in byOwner <==> o in old(byOwner) || o in r.owners
    {
      resources := resources[r.uid := r];
      var i := 0;
      while i < |r.owners|
        invariant 0 <= i <= |r.owners|
        invariant resources == old(resources)[r.uid := r]
        invariant byOwner == IndexOwners(old(byOwner), r.owners[..i], r)
      {
        var o := r.owners[i];
        if o !in byOwner {
          byOwner := byOwner[o := []];
        }
        byOwner := byOwner[o := byOwner[o] + [r]];
        assert r.owners[..i + 1][..i] == r.owners[..i];
        i := i + 1;
      }
      assert r.owners[..i] == r.owners;
      IndexOwnersSound(old(byOwner), r.owners, r);
      forall o
        ensures Lookup(byOwner, o) == Lookup(old(byOwner), o) + Repeat(r, Occurrences(r.owners, o))
      {
        IndexOwnersLookup(old(byOwner), r.owners, r, o);
      }
      IndexOwnersKeys(old(byOwner), r.owners, r);
    }

    /** The loading loop of buildResourcePool: add each listed item in turn. */
    method AddResources(items: seq<Resource>)
      requires Valid()
      modifies this
      ensures Valid()
      ensures resources == StoreAll(old(resources), items)
      ensures byOwner == IndexAll(old(byOwner), items)
    {
      var i := 0;
      while i < |items|
        invariant 0 <= i <= |items|
        invariant Valid()
        invariant resources == StoreAll(old(resources), items[..i])
        invariant byOwner == IndexAll(old(byOwner), items[..i])
      {
        AddResource(items[i]);
        assert items[..i + 1][..i] == items[..i];
        i := i + 1;
      }
      assert items[..i] == items;
    }

    /** GetChildrenByOwner: the resources indexed under `ownerUid`, in order of addition. */
    function GetChildrenByOwner(ownerUid: Uid): (children: seq<Resource>)
      reads this
      requires Valid()
      ensures forall r :: r in children ==> ownerUid in r.owners
      ensures ownerUid !in byOwner ==> children == []
    {
      Lookup(byOwner, ownerUid)
    }

    /** GetResource: the resource with this UID, or nil. */
    function GetResource(uid: Uid): (r: Option<Resource>)
      reads this
      requires Valid()
      ensures r.Some? <==> uid in resources
      ensures r.Some? ==> r.value.uid == uid && r.value in resources.Values
    {
      if uid in resources then Some(resources[uid]) else None
    }

    /** Size: the number of distinct UIDs stored. */
    function Size(): (n: nat)
      reads this
      ensures n == 0 <==> resources == map[]
    {
      |resources|
    }

    /**
      GetRootResources: every stored resource without owner references, each
      once. The source walks a Go map, so the order is not specified.
     */
    method GetRootResources() returns (roots: seq<Resource>)
      requires Valid()
      ensures forall r :: r in roots <==> r in resources.Values && r.owners == []
      ensures forall i, j :: 0 <= i < j < |roots| ==> roots[i].uid != roots[j].uid
    {
      roots := [];
      var pending := resources.Keys;
      while pending != {}
        invariant pending <= resources.Keys
        invariant forall r :: r in roots <==> r.uid in resources && r.uid !in pending && resources[r.uid] == r && r.owners == []
        invariant forall i, j :: 0 <= i < j < |roots| ==> roots[i].uid != roots[j].uid
        decreases pending
      {
        var u :| u in pending;
        var r := resources[u];
        if r.owners == [] {
          roots := roots + [r];
        }
        pending := pending - {u};
      }
      ValuesByUid(resources);
    }

    /**
      GetAllResources: every stored resource once; `Size()` entries. The order
      is not specified.
     */
    method GetAllResources() returns (all: seq<Resource>)
      requires Valid()
      ensures |all| == Size()
      ensures forall r :: r in all <==> r in resources.Values
      ensures forall i, j :: 0 <= i < j < |all| ==> all[i].uid != all[j].uid
    {
      all := [];
      var pending := resources.Keys;
      ghost var done: set<Uid> := {};
      while pending != {}
        invariant pending <= resources.Keys
        invariant done == resources.Keys - pending
        invariant ListsExactly(all, resources, done)
        decreases pending
      {
        var u :| u in pending;
        ListsExactlyStep(all, resources, done, u);
        all := all + [resources[u]];
        pending := pending - {u};
        done := done + {u};
      }
      DrainedIsAll(resources.Keys, pending, done);
      ListsExactlyAll(all, resources, done);
    }
  }
}
