/** Names, references and objects shared by the exporter's modules.
    Names, namespaces, UIDs and resource versions are only ever compared with each
    other and with the empty string, so they are numbers here and 0 is the empty one. */
module Basics {

  datatype Option<+T> = None | Some(value: T)

  type Name = nat
  type Uid = nat
  type Version = nat

  const NO_NAME: Name := 0
  const NO_UID: Uid := 0
  const NO_VERSION: Version := 0

  datatype GroupKind = GroupKind(group: Name, kind: Name)
  datatype Gvk = Gvk(groupKind: GroupKind, version: Name)

  const NO_GVK := Gvk(GroupKind(0, 0), 0)

  datatype ObjectKey = ObjectKey(gvk: Gvk, namespace: Name, name: Name)
  datatype ObjectRef = ObjectRef(gvk: Gvk, namespace: Name, name: Name, uid: Uid, version: Version)

  const NO_REF := ObjectRef(NO_GVK, 0, 0, 0, 0)

  /** One entry of an object's owner references. `parsed` says whether its API version parses. */
  datatype OwnerRef = OwnerRef(controller: bool, parsed: bool, gvk: Gvk, name: Name, uid: Uid)

  type Labels = nat
  type Body = nat

  /** An accepted object. A metadata-only watch keeps everything but the body. */
  datatype Object = Object(gvk: Gvk, namespace: Name, name: Name, uid: Uid, version: Version,
                           owners: seq<OwnerRef>, labels: Labels, body: Option<Body>)

  function KeyOf(ref: ObjectRef): ObjectKey { ObjectKey(ref.gvk, ref.namespace, ref.name) }

  function RefOf(o: Object): ObjectRef { ObjectRef(o.gvk, o.namespace, o.name, o.uid, o.version) }

  function ObjectKeyOf(o: Object): ObjectKey { ObjectKey(o.gvk, o.namespace, o.name) }

  /** What a metadata-only watch keeps of an object. */
  function Strip(o: Object): Object { o.(body := None) }

  /** The sentinel errors an error can wrap. No error is the empty set. */
  datatype Cause = Pending | Stale | NotFound | Denied | Unavailable | Unresolved | BadDefinition | Evaluation | Other

  type Failure = set<Cause>

  const NO_FAILURE: Failure := {}

  datatype Reason = NoReason | PermissionDenied | UnresolvedOwner | InvalidDefinition | EvaluationFailed | ApiUnavailable

  function FailureReason(err: Failure): (r: Reason)
    ensures r == NoReason <==> err == NO_FAILURE
  {
    if err == {} then NoReason
    else if Denied in err then PermissionDenied
    else if Unresolved in err || NotFound in err then UnresolvedOwner
    else if BadDefinition in err then InvalidDefinition
    else if Evaluation in err then EvaluationFailed
    else ApiUnavailable
  }

  datatype OwnerLookup = Malformed | NoOwner | Owner(ref: ObjectRef)

  function Controllers(owners: seq<OwnerRef>): seq<OwnerRef> {
    if owners == [] then []
    else (if owners[0].controller then [owners[0]] else []) + Controllers(owners[1..])
  }

  predicate WellFormedOwner(owner: OwnerRef) {
    owner.parsed && owner.gvk.version != 0 && owner.name != 0 && owner.gvk.groupKind.kind != 0 && owner.uid != 0
  }

  /** The controller reference: absent, unique and well formed, or malformed. */
  function ControllerOwner(owners: seq<OwnerRef>): OwnerLookup {
    var controllers := Controllers(owners);
    if |controllers| == 0 then NoOwner
    else if |controllers| == 1 && WellFormedOwner(controllers[0]) then
      Owner(ObjectRef(controllers[0].gvk, 0, controllers[0].name, controllers[0].uid, 0))
    else Malformed
  }

  function Get<K, V>(m: map<K, V>, key: K): Option<V> {
    if key in m then Some(m[key]) else None
  }

  /** An order in which a loop visits every item once. */
  ghost predicate Ordering<T(!new)>(order: seq<T>, items: set<T>) {
    && (forall x :: x in order <==> x in items)
    && (forall i, j :: 0 <= i < j < |order| ==> order[i] != order[j])
  }

  lemma OrderingExtends<T(!new)>(order: seq<T>, items: set<T>, x: T)
    requires Ordering(order, items) && x !in items
    ensures Ordering(order + [x], items + {x})
  {
  }
}
