/**
  The resource record the backend works on: the fields of a Kubernetes
  object (an `unstructured.Unstructured`) that the modelled code reads.
 */
module Resources {

  /** A Kubernetes object UID. */
  type Uid = string

  /**
    The outcome of reading one nested field with `unstructured.NestedString`
    or `unstructured.NestedSlice`: missing, present with another type (an
    error), or present with the expected type.
   */
  datatype Field<T> = Absent | Mistyped | Value(value: T)

  /** One element of `status.conditions`: a map with `type` and `status`, or anything else. */
  datatype Condition =
    | ConditionMap(condType: Field<string>, condStatus: Field<string>)
    | NotAMapCondition

  /** The `status` field of an object. */
  datatype StatusObject =
    | NoStatus
    | NotAMap
    | StatusMap(phase: Field<string>, conditions: Field<seq<Condition>>)

  /**
    A resource. `owners` lists the UIDs of its owner references, in order;
    the other fields of an owner reference are never read by the modelled code.
   */
  datatype Resource = Resource(
    uid: Uid,
    kind: string,
    name: string,
    namespace: string,
    apiVersion: string,
    owners: seq<Uid>,
    labels: map<string, string>,
    annotations: map<string, string>,
    creationTime: string,
    status: StatusObject)
}
