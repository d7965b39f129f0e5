# Resource ownership trees of kb-cluster-resource-visualizer

This project models the in-memory core of the visualizer's Go backend. It does not model the Kubernetes calls or HTTP serving.

- **Resource pool** (`backend/resource_tree.go`). It holds every resource by UID. It also holds an index from owner UID to the resources that name that owner in their owner references, in the order they were added.
- **Tree builder**. It expands the index depth-first from a root resource. A `visited` map holds the UIDs on the current root-to-node path. A UID already on that path becomes a leaf, which cuts ownership cycles.
- **Tree queries**. These run over the resulting `ResourceTreeNode` trees: count, flatten, find by UID, depth, filter by kind, and validation.
- **Pure helpers** (`backend/main.go`). These are the resource-type lookup table, string-slice membership, status derivation, conversion to the API's `ResourceNode`, and the owner-reference filter of `findChildResources`.

How the source maps to Dafny:

- `ResourcePool` and `ResourceTreeBuilder` update fields in place. They are classes with map fields (`ResourcePools.ResourcePool`, `TreeBuilding.TreeBuilder`).
- A tree is the datatype `ResourceTrees.Tree`: `Nil`, or a node with a resource and its ordered children. Go child pointers may be nil.
- Each loop of the source is a `method` with a `while` loop. Its `ensures` ties the result to an independent specification function:
  - `Preorder` for the flattened tree;
  - `FirstWithUid` for the first match in preorder;
  - `KindFilter` for the kind filter;
  - `Height` for the depth;
  - `Build` for the tree `buildTreeFromPool` builds;
  - `ExpectedStatus` and `NodeFor` for the status and node conversion;
  - `OwnedBy` for the owner filter.

  Lemmas then state what those functions promise.

Modules, one file each:

- `Wrappers` (`wrappers.dfy`): Option.
- `Text` (`text.dfy`): `Lower` and `EqualFold`, the ASCII forms of Go's `strings.ToLower` and `strings.EqualFold`.
- `Resources` (`resources.dfy`): the resource record and its status object.
- `ResourcePools` (`resource_pool.dfy`): the pool.
- `ResourceTrees` (`resource_tree.dfy`): the tree and its queries.
- `TreeBuilding` (`tree_builder.dfy`): the builder.
- `Api` (`api.dfy`): the helpers of `backend/main.go`.

## Model

| member | source | states |
|---|---|---|
| `ResourcePools.ResourcePool.constructor` | backend/resource_tree.go:47-53 | A new pool has no resources and an empty owner index. |
| `ResourcePools.ResourcePool.AddResource` | backend/resource_tree.go:55-68 | Afterwards `GetResource(r.uid)` returns `r`. Each owner UID's list gains `r` once per occurrence of that UID among `r`'s owner references. Every other list is unchanged. The index keys grow by exactly the referenced owners. `Size()` grows by one only for a new UID, so re-adding a UID keeps the size but appends again. The index stays sound. |
| `ResourcePools.ResourcePool.AddResources` | backend/resource_tree.go:231-237 | Adding listed items in turn gives the stores and the index of adding them one by one. The pool invariant is kept. |
| `ResourcePools.IndexOwnersLookup` | backend/resource_tree.go:60-67 | Indexing one resource appends it under key `o` exactly `Occurrences(owners, o)` times after the old list. |
| `ResourcePools.IndexOwnersKeys` | backend/resource_tree.go:62-66 | A key is in the index afterwards iff it was before or it is one of the resource's owner references. |
| `ResourcePools.IndexOwnersSound` | backend/resource_tree.go:61-67 | Indexing a resource only under its own owner references keeps every listed resource naming its index key as owner. |
| `ResourcePools.IndexAllLookup` | backend/resource_tree.go:231-237 | After a sequence of additions, each owner's list is the old list followed by every added resource that references it. Each one appears once per reference, in order of addition. |
| `ResourcePools.ExpectedUnreferenced` | backend/resource_tree.go:70-73 | An owner UID that no added resource references gets no children. |
| `ResourcePools.StoreAllKeys` | backend/resource_tree.go:57-58 | After a sequence of additions, a UID is stored iff it was stored before or some added item carries it. |
| `ResourcePools.StoreAllLast` | backend/resource_tree.go:57-58 | After a sequence of additions, a UID maps to the last item carrying it, because later additions overwrite earlier ones. |
| `ResourcePools.ResourcePool.GetChildrenByOwner` | backend/resource_tree.go:70-73 | Every resource returned has the queried UID among its owner references. An owner that is not a key of the index yields the empty list. |
| `ResourcePools.ResourcePool.GetResource` | backend/resource_tree.go:75-78 | It returns a resource iff the UID is stored. The resource returned carries that UID and is one of the pool's resources. |
| `ResourcePools.ResourcePool.Size` | backend/resource_tree.go:80-83 | The size is zero iff the pool holds no resource. |
| `ResourcePools.ResourcePool.GetRootResources` | backend/resource_tree.go:85-95 | It returns exactly the pool's resources that have no owner references, as a set, with no UID twice. |
| `ResourcePools.ResourcePool.GetAllResources` | backend/resource_tree.go:97-104 | It returns `Size()` entries: every pool resource, each UID once. |
| `ResourceTrees.HasOwnerReference` | backend/resource_tree.go:369-378 | It is true iff the owner UID occurs among the resource's owner references. |
| `ResourceTrees.CountNodes` | backend/resource_tree.go:473-484 | The count equals the length of the preorder listing. It is 0 for nil. |
| `ResourceTrees.GetAllResources` | backend/resource_tree.go:486-497 | It lists the resources in preorder: the root first, then each child's listing in order. |
| `ResourceTrees.FirstWithUid` | backend/resource_tree.go:499-516 | It finds nothing iff no listed resource has the UID. Otherwise it returns the resource at the first position with that UID. |
| `ResourceTrees.FindResourceByUID` | backend/resource_tree.go:499-516 | It returns the first resource in preorder with the UID, or nil if there is none. |
| `ResourceTrees.Height` | backend/resource_tree.go:518-533 | The depth is at least 1. |
| `ResourceTrees.GetDepth` | backend/resource_tree.go:518-533 | It returns 1 for nil or a leaf. Otherwise it returns one more than the deepest child. |
| `ResourceTrees.HeightAboveChildren` | backend/resource_tree.go:524-532 | Every child is at least 1 deep and strictly shallower than its parent. |
| `ResourceTrees.MaxHeightAttained` | backend/resource_tree.go:524-530 | The largest depth among a non-empty list of children is the depth of one of them. |
| `ResourceTrees.HeightOfDeepestChild` | backend/resource_tree.go:518-533 | A node with children is exactly one deeper than some child that is at least as deep as every other child. |
| `ResourceTrees.HeightAtMostCount` | backend/resource_tree.go:518-533 | A tree without nil nodes is no deeper than its node count. |
| `ResourceTrees.GetResourcesByKind` | backend/resource_tree.go:535-552 | It returns the preorder resources whose kind equals the given kind up to letter case, in order. |
| `ResourceTrees.KindFilterCounts` | backend/resource_tree.go:543-549 | The kind filter keeps each matching resource as often as it occurs and drops the rest. |
| `ResourceTrees.PreorderAllAppend` | backend/resource_tree.go:492-495 | Flattening concatenated child lists is concatenating their flattenings. |
| `ResourceTrees.ValidateTree` | backend/resource_tree.go:446-471 | It succeeds iff the tree contains no nil node. Otherwise the error's index path leads to the first nil node in depth-first order. |
| `TreeBuilding.TreeBuilder.constructor` | backend/resource_tree.go:36-45 | A new builder has no visited marks and uses the given pool. |
| `TreeBuilding.TreeBuilder.BuildTreeFromPool` | backend/resource_tree.go:272-328 | It terminates even with ownership cycles, because the number of unmarked UIDs decreases. The result is `Build` from the current path. The marks are restored on return, so the UIDs marked visited are always exactly the current root-to-node path. |
| `TreeBuilding.TreeBuilder.GetResourceTree` | backend/resource_tree.go:255-270 | A nil root gives the error "root resource cannot be nil". Otherwise it returns the built tree. |
| `TreeBuilding.TreeBuilder.GetAllResourceTrees` | backend/resource_tree.go:330-367 | It returns one tree per pool resource without owners. Each tree is built from cleared marks, and no root UID appears twice. After at least one tree, no UID is marked and the path is empty, so the builder can be reused. With no roots, the marks are untouched. |
| `TreeBuilding.BuildMatchesIndex` | backend/resource_tree.go:292-322 | The node built for `r` holds `r`. It is a leaf when `r`'s UID is already on the path. Otherwise its children correspond one-to-one and in order to `GetChildrenByOwner(r.uid)`. |
| `TreeBuilding.BudgetDrops` | backend/resource_tree.go:283-309 | Marking the parent's UID strictly lowers the number of expandable UIDs for each child. This is the termination measure. |
| `TreeBuilding.BuildHasNoNil` | backend/resource_tree.go:292-321 | A built tree has no nil node, so `ValidateTree` accepts it. |
| `TreeBuilding.BuildOwnersConsistent` | backend/resource_tree.go:462-467 | Over a sound index, every child of a built tree names its parent as owner, so `ValidateTree` logs no ownership warning. |
| `TreeBuilding.BuildExpandsOncePerPath` | backend/resource_tree.go:274-287 | Along any root-to-node path, no UID is expanded twice and none that was marked on entry is expanded. |
| `TreeBuilding.BuildDepthBounded` | backend/resource_tree.go:274-287 | A built tree is at most one deeper than the number of UIDs that are not yet on the path. |
| `Api.GetGvrForResourceType` | backend/main.go:237-275 | It succeeds iff the lowercased name is one of the table's 25 keys, and the result then has version "v1". Otherwise the triple is empty and the error reads "unknown resource type: " followed by the input as given. |
| `Api.GvrCaseInsensitive` | backend/main.go:267-272 | A name and its lowercase form give the same triple and the same success. |
| `Api.WorkloadSynonymsAgree` | backend/main.go:240-251 | "pod", "deployment", "replicaset", "statefulset" and "daemonset" each map to the same triple as their plural: ("", "v1", "pods") and ("apps", "v1", …) for the four workload kinds. |
| `Api.SynonymsAgree` | backend/main.go:242-265 | "service", "configmap", "secret", "ingress", "job" and "cronjob" each map to the same triple as their plural. "pvc", "persistentvolumeclaim" and "persistentvolumeclaims" all map to ("", "v1", "persistentvolumeclaims"). |
| `Api.EmptyTypeUnknown` | backend/main.go:274 | The empty name gives the empty triple and an error. |
| `Api.MixedCaseExamples` | backend/main.go:267-272 | "POD" resolves to pods and "Deployment" resolves to deployments. |
| `Api.Contains` | backend/main.go:397-404 | It is true iff some element equals the item exactly, with case-sensitive comparison. |
| `Api.ConvertToResourceNode` | backend/main.go:361-395 | The status is "Unknown" without a status map. It is the phase when the phase is a string. Otherwise it is "Ready" iff some well-formed condition has type "Ready" and status "True", else "Unknown". Every other field is copied. |
| `Api.StatusIgnoresConditionOrder` | backend/main.go:367-379 | Reordering the conditions does not change the status. |
| `Api.PhaseWins` | backend/main.go:365-366 | A string phase is the status, whatever the conditions say. |
| `Api.ReadyFalseIsUnknown` | backend/main.go:372-375 | A Ready condition with status "False" gives "Unknown". |
| `Api.ConvertToResourceNodes` | backend/main.go:353-359 | It keeps length and order: output `i` is the conversion of input `i`. |
| `Api.FindChildResources` | backend/main.go:337-346 | It converts exactly the listed resources that have an owner reference to the parent, in listing order. |
| `Api.OwnedByCounts` | backend/main.go:338-346 | A listed resource appears in the output once per listing occurrence when it references the parent, however many of its references match, and otherwise not at all. |

## Left out

- Tree layout (coordinates, contours, level placement) is not part of this model, because `backend/` contains no layout code.
- HTTP handlers, the gin router, CORS, `main` and `healthCheck` (backend/main.go:50-235) are left out because they are network I/O. So is `initK8sClient`, which reads the environment, files and the cluster configuration.
- Kubernetes calls are left out:
  - The discovery and listing in `buildResourcePool` and `getSupportedResourceTypes` (backend/resource_tree.go:206-253, 380-425). Only the loop that adds listed items is modelled, as `AddResources`.
  - The discovery and listing half of `findChildResources` (backend/main.go:282-336). The listed resources are an input sequence of `FindChildResources`.
- The lazy pool construction in `GetResourceTree` and `GetAllResourceTrees` (the `pool == nil` branches) is left out. The builder is given a built pool.
- `PrintResourcePool`, `PrintResourcePoolSummary`, `PrintTree` and every `log.Printf` are left out as console output. That includes the ownership warning of `ValidateTree`; the predicate `OwnersConsistent` states when that warning is not logged.
- The error branch after the recursive call in `buildTreeFromPool` (backend/resource_tree.go:310-320) is unreachable, because the recursive call never returns an error. The model's builder returns no error.
- A tree node always holds a resource here, so no tree query is modelled on a node whose `Resource` is nil. In the source such a node is possible:
  - ResourceTrees.ValidateTree: the "resource in tree node is nil" error (backend/resource_tree.go:452-454) is not modelled.
  - ResourceTrees.FindResourceByUID and ResourceTrees.GetResourcesByKind would dereference the nil resource and panic (backend/resource_tree.go:505, 543). The model has no such case.
  - ResourceTrees.CountNodes would count such a node, and ResourceTrees.GetAllResources would list a nil entry for it (backend/resource_tree.go:479, 492). The model has no such entry.
- ResourceTrees.ValidateTree: errors are the structure `NilNode` / `InvalidChild(index, cause)`, not the formatted message text.
- Text.Lower: only ASCII letters are lowered. Go's `strings.ToLower` also maps non-ASCII letters.
- Text.EqualFold: only ASCII letters are folded. Go's `strings.EqualFold` uses full Unicode simple folding.
- Go map iteration order in `GetRootResources` and `GetAllResources` is unspecified, so those results are stated as sets with distinct UIDs.
- Resources are values, not pointers. The model does not capture that the pool and the trees share one object per resource.
- Owner references are reduced to their UIDs, because no other field of an owner reference is read.
- The creation time (formatted by `time.Format`), labels and annotations are opaque values that are copied through unchanged.
- `getGVRForResourceType` builds a Go map literal. The model writes the same 25 entries as a `match` over the lowercase names (`ResourceMapping`).
- The tree queries are methods of `ResourceTreeBuilder` in the source but never read its fields. They are module-level methods here.
- Several tests expect behaviour the code does not have. The model follows the code in each case:
  - KubeBlocks abbreviations in the resource-type table;
  - an `isResourceTypeMatch` helper;
  - a 400 response for a missing namespace.
- `example-resource-pool-usage.go` calls a `RemoveResource` that the pool does not define, so it is not modelled.
