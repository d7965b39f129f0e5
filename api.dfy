/**
  The pure helpers of backend/main.go: resource-type lookup, string-slice
  membership, status derivation, conversion to the API's ResourceNode, and
  the owner filter of findChildResources.
 */
module Api {

  import opened Wrappers
  import opened Text
  import opened Resources

  datatype GroupVersionResource = GroupVersionResource(group: string, version: string, resource: string)

  /** The zero GroupVersionResource returned beside an error. */
  const EmptyGvr := GroupVersionResource("", "", "")

  const Pods := GroupVersionResource("", "v1", "pods")
  const Services := GroupVersionResource("", "v1", "services")
  const Deployments := GroupVersionResource("apps", "v1", "deployments")
  const ReplicaSets := GroupVersionResource("apps", "v1", "replicasets")
  const StatefulSets := GroupVersionResource("apps", "v1", "statefulsets")
  const DaemonSets := GroupVersionResource("apps", "v1", "daemonsets")
  const ConfigMaps := GroupVersionResource("", "v1", "configmaps")
  const Secrets := GroupVersionResource("", "v1", "secrets")
  const Ingresses := GroupVersionResource("networking.k8s.io", "v1", "ingresses")
  const Jobs := GroupVersionResource("batch", "v1", "jobs")
  const CronJobs := GroupVersionResource("batch", "v1", "cronjobs")
  const PersistentVolumeClaims := GroupVersionResource("", "v1", "persistentvolumeclaims")

  /** The table of getGVRForResourceType: lowercase resource-type names and their triples. */
  function ResourceMapping(name: string): Option<GroupVersionResource>
  {
    match name
    case "pod" => Some(Pods)
    case "pods" => Some(Pods)
    case "service" => Some(Services)
    case "services" => Some(Services)
    case "deployment" => Some(Deployments)
    case "deployments" => Some(Deployments)
    case "replicaset" => Some(ReplicaSets)
    case "replicasets" => Some(ReplicaSets)
    case "statefulset" => Some(StatefulSets)
    case "statefulsets" => Some(StatefulSets)
    case "daemonset" => Some(DaemonSets)
    case "daemonsets" => Some(DaemonSets)
    case "configmap" => Some(ConfigMaps)
    case "configmaps" => Some(ConfigMaps)
    case "secret" => Some(Secrets)
    case "secrets" => Some(Secrets)
    case "ingress" => Some(Ingresses)
    case "ingresses" => Some(Ingresses)
    case "job" => Some(Jobs)
    case "jobs" => Some(Jobs)
    case "cronjob" => Some(CronJobs)
    case "cronjobs" => Some(CronJobs)
    case "persistentvolumeclaim" => Some(PersistentVolumeClaims)
    case "persistentvolumeclaims" => Some(PersistentVolumeClaims)
    case "pvc" => Some(PersistentVolumeClaims)
    case _ => None
  }

  /** The result of getGVRForResourceType: the triple, and the error if any. */
  datatype GvrLookup = GvrLookup(gvr: GroupVersionResource, err: Option<string>)

  /**
    getGVRForResourceType: look the lowercased name up in the table; an
    unknown name yields the empty triple and an error naming the input as given.
   */
  function GetGvrForResourceType(resourceType: string): (result: GvrLookup)
    ensures result.err.None? <==> ResourceMapping(Lower(resourceType)).Some?
    ensures result.err.None? ==> result.gvr.version == "v1" && result.gvr.resource != ""
    ensures result.err.Some? ==> result.gvr == EmptyGvr && result.err.value == "unknown resource type: " + resourceType
  {
    var normalizedType := Lower(resourceType);
    match ResourceMapping(normalizedType)
    case Some(gvr) => GvrLookup(gvr, None)
    case None => GvrLookup(EmptyGvr, Some("unknown resource type: " + resourceType))
  }

  /** The lookup ignores letter case: a name and its lowercase form resolve alike. */
  lemma GvrCaseInsensitive(resourceType: string)
    ensures GetGvrForResourceType(resourceType).gvr == GetGvrForResourceType(Lower(resourceType)).gvr
    ensures GetGvrForResourceType(resourceType).err.None? == GetGvrForResourceType(Lower(resourceType)).err.None?
  {
    LowerIdempotent(resourceType);
  }

  /** Each singular workload name and its plural resolve to the same triple. */
  lemma WorkloadSynonymsAgree()
    ensures ResourceMapping("pod") == ResourceMapping("pods") == Some(Pods)
    ensures ResourceMapping("deployment") == ResourceMapping("deployments") == Some(Deployments)
    ensures ResourceMapping("replicaset") == ResourceMapping("replicasets") == Some(ReplicaSets)
    ensures ResourceMapping("statefulset") == ResourceMapping("statefulsets") == Some(StatefulSets)
    ensures ResourceMapping("daemonset") == ResourceMapping("daemonsets") == Some(DaemonSets)
  {
  }

  /** Each other singular name and its plural, and "pvc", resolve to the same triple. */
  lemma SynonymsAgree()
    ensures ResourceMapping("service") == ResourceMapping("services") == Some(Services)
    ensures ResourceMapping("configmap") == ResourceMapping("configmaps") == Some(ConfigMaps)
    ensures ResourceMapping("secret") == ResourceMapping("secrets") == Some(Secrets)
    ensures ResourceMapping("ingress") == ResourceMapping("ingresses") == Some(Ingresses)
    ensures ResourceMapping("job") == ResourceMapping("jobs") == Some(Jobs)
    ensures ResourceMapping("cronjob") == ResourceMapping("cronjobs") == Some(CronJobs)
    ensures ResourceMapping("persistentvolumeclaim") == ResourceMapping("persistentvolumeclaims")
            == ResourceMapping("pvc") == Some(PersistentVolumeClaims)
  {
  }

  /** The empty name is unknown. */
  lemma EmptyTypeUnknown()
    ensures GetGvrForResourceType("") == GvrLookup(EmptyGvr, Some("unknown resource type: "))
  {
    assert Lower("") == "";
    assert "unknown resource type: " + "" == "unknown resource type: ";
  }

  /** Mixed-case names resolve like their lowercase forms ("POD", "Deployment"). */
  lemma MixedCaseExamples()
    ensures GetGvrForResourceType("POD") == GvrLookup(Pods, None)
    ensures GetGvrForResourceType("Deployment") == GvrLookup(Deployments, None)
  {
    assert Lower("POD") == "pod";
    assert Lower("Deployment") == "deployment";
  }

  /** contains: whether some element equals `item` exactly (case-sensitive). */
  method Contains(slice: seq<string>, item: string) returns (found: bool)
    ensures found <==> exists i :: 0 <= i < |slice| && slice[i] == item
  {
    var i := 0;
    while i < |slice|
      invariant 0 <= i <= |slice|
      invariant forall j :: 0 <= j < i ==> slice[j] != item
    {
      if slice[i] == item {
        return true;
      }
      i := i + 1;
    }
    return false;
  }

  /** The ResourceNode the API returns for one resource. */
  datatype ResourceNode = ResourceNode(
    name: string,
    kind: string,
    apiVersion: string,
    namespace: string,
    uid: string,
    labels: map<string, string>,
    annotations: map<string, string>,
    creationTime: string,
    status: string)

  /** A well-formed condition of type "Ready" whose status is "True". */
  predicate IsReadyTrue(c: Condition)
  {
    c.ConditionMap? && c.condType == Value("Ready") && c.condStatus == Value("True")
  }

  /**
    The status shown for a resource: its phase when that is a string;
    otherwise "Ready" when some condition is Ready/True; otherwise "Unknown".
   */
  function ExpectedStatus(st: StatusObject): string
  {
    match st
    case NoStatus => "Unknown"
    case NotAMap => "Unknown"
    case StatusMap(phase, conditions) =>
      if phase.Value? then phase.value
      else if conditions.Value? && exists i :: 0 <= i < |conditions.value| && IsReadyTrue(conditions.value[i]) then "Ready"
      else "Unknown"
  }

  /** The node convertToResourceNode produces; every field but the status is copied through. */
  function NodeFor(r: Resource): ResourceNode
  {
    ResourceNode(r.name, r.kind, r.apiVersion, r.namespace, r.uid, r.labels, r.annotations,
                 r.creationTime, ExpectedStatus(r.status))
  }

  /** The order of the conditions does not affect the status. */
  lemma StatusIgnoresConditionOrder(phase: Field<string>, a: seq<Condition>, b: seq<Condition>)
    requires multiset(a) == multiset(b)
    ensures ExpectedStatus(StatusMap(phase, Value(a))) == ExpectedStatus(StatusMap(phase, Value(b)))
  {
    forall x: seq<Condition>, y: seq<Condition>, i | multiset(x) == multiset(y) && 0 <= i < |x| && IsReadyTrue(x[i])
      ensures exists j :: 0 <= j < |y| && IsReadyTrue(y[j])
    {
      assert x[i] in multiset(x);
      assert x[i] in y;
    }
  }

  /** A Ready condition whose status is "False" does not make the resource Ready. */
  lemma ReadyFalseIsUnknown()
    ensures ExpectedStatus(StatusMap(Absent, Value([ConditionMap(Value("Ready"), Value("False"))]))) == "Unknown"
  {
    assert !IsReadyTrue(ConditionMap(Value("Ready"), Value("False")));
  }

  /** A string phase decides the status, whatever the conditions say. */
  lemma PhaseWins(p: string, conditions: Field<seq<Condition>>)
    ensures ExpectedStatus(StatusMap(Value(p), conditions)) == p
  {
  }

  /**
    convertToResourceNode: copy the fields and derive the status, scanning the
    conditions until a Ready/True one is found.
   */
  method ConvertToResourceNode(r: Resource) returns (node: ResourceNode)
    ensures node == NodeFor(r)
  {
    var status := "Unknown";
    if r.status.StatusMap? {
      var phase, conditions := r.status.phase, r.status.conditions;
      if phase.Value? {
        status := phase.value;
      } else if conditions.Value? {
        var cs := conditions.value;
        var i := 0;
        while i < |cs|
          invariant 0 <= i <= |cs|
          invariant status == "Unknown"
          invariant forall j :: 0 <= j < i ==> !IsReadyTrue(cs[j])
        {
          var c := cs[i];
          if c.ConditionMap? && c.condType.Value? && c.condStatus.Value? {
            if c.condType.value == "Ready" && c.condStatus.value == "True" {
              status := "Ready";
              break;
            }
          }
          i := i + 1;
        }
      }
    }
    node := ResourceNode(r.name, r.kind, r.apiVersion, r.namespace, r.uid, r.labels, r.annotations,
                         r.creationTime, status);
  }

  /** convertToResourceNodes: one node per resource, in order. */
  method ConvertToResourceNodes(resources: seq<Resource>) returns (nodes: seq<ResourceNode>)
    ensures |nodes| == |resources|
    ensures forall i :: 0 <= i < |resources| ==> nodes[i] == NodeFor(resources[i])
  {
    nodes := [];
    var i := 0;
    while i < |resources|
      invariant 0 <= i <= |resources|
      invariant |nodes| == i
      invariant forall j :: 0 <= j < i ==> nodes[j] == NodeFor(resources[j])
    {
      var node := ConvertToResourceNode(resources[i]);
      nodes := nodes + [node];
      i := i + 1;
    }
  }

  /** The listed resources that name `parentUid` among their owner references, in order. */
  function OwnedBy(listed: seq<Resource>, parentUid: Uid): seq<Resource>
  {
    if listed == [] then []
    else
      var last := listed[|listed| - 1];
      OwnedBy(listed[..|listed| - 1], parentUid) + (if parentUid in last.owners then [last] else [])
  }

  /**
    The owner filter keeps a listed resource once per listing occurrence when
    it references the parent, however many of its references match, and
    drops it otherwise.
   */
  lemma {:induction false} OwnedByCounts(listed: seq<Resource>, parentUid: Uid, r: Resource)
    ensures multiset(OwnedBy(listed, parentUid))[r] == if parentUid in r.owners then multiset(listed)[r] else 0
  {
    if listed != [] {
      var init, last := listed[..|listed| - 1], listed[|listed| - 1];
      OwnedByCounts(init, parentUid, r);
      assert listed == init + [last];
    }
  }

  /**
    The owner filter of findChildResources over the resources listed for one
    API resource type: convert each resource that has an owner reference to
    the parent, stopping at the first matching reference.
   */
  method FindChildResources(listed: seq<Resource>, parentUid: Uid) returns (children: seq<ResourceNode>)
    ensures |children| == |OwnedBy(listed, parentUid)|
    ensures forall i :: 0 <= i < |children| ==> children[i] == NodeFor(OwnedBy(listed, parentUid)[i])
  {
    children := [];
    var i := 0;
    while i < |listed|
      invariant 0 <= i <= |listed|
      invariant |children| == |OwnedBy(listed[..i], parentUid)|
      invariant forall k :: 0 <= k < |children| ==> children[k] == NodeFor(OwnedBy(listed[..i], parentUid)[k])
    {
      var resource := listed[i];
      assert listed[..i + 1][..i] == listed[..i];
      var ownerRefs := resource.owners;
      var j := 0;
      while j < |ownerRefs|
        invariant 0 <= j <= |ownerRefs|
        invariant forall k :: 0 <= k < j ==> ownerRefs[k] != parentUid
      {
        if ownerRefs[j] == parentUid {
          var node := ConvertToResourceNode(resource);
          children := children + [node];
          break;
        }
        j := j + 1;
      }
      i := i + 1;
    }
    assert listed[..i] == listed;
  }
}
