/** The owner walk of pkg/discovery: from an object up its controller references to the root. */
module Discovery {
  import opened Basics

  datatype Resolution = Resolved | IgnoredOwner

  datatype Workload = Workload(root: ObjectRef, path: seq<ObjectRef>, resolution: Resolution)

  datatype ReadResult = Found(obj: Object) | Missing(err: Failure)

  datatype Visit = VisitFailed(err: Failure) | VisitRoot(workload: Workload) | VisitOwner(path: seq<ObjectRef>, ref: ObjectRef)

  datatype WalkResult = WalkFailed(err: Failure) | Walked(workload: Workload)

  const MAX_PATH := 1024

  function ReadError(err: Failure): Failure {
    if Pending in err then err
    else if Stale in err then err
    else if Denied in err then err
    else if NotFound in err || Unresolved in err then err + {Unresolved}
    else err + {Unavailable}
  }

  /** The checks before an object is read: no UID twice and a bounded chain. */
  predicate MayVisit(path: seq<ObjectRef>, ref: ObjectRef) {
    && (forall i :: 0 <= i < |path| ==> path[i].uid != ref.uid)
    && |path| < MAX_PATH
  }

  /** One loop iteration after the object was read. */
  function VisitObject(ignored: set<Gvk>, path: seq<ObjectRef>, ref: ObjectRef, o: Object): Visit {
    var namespace := if |path| > 0 && o.namespace == 0 then 0 else ref.namespace;
    if ref.name != o.name || namespace != o.namespace || o.uid == 0 || (ref.uid != 0 && ref.uid != o.uid) then
      VisitFailed({Stale})
    else if ref.version != 0 && ref.version != o.version then
      VisitFailed({Stale})
    else
      var here := ref.(namespace := namespace, uid := o.uid, version := o.version);
      match ControllerOwner(o.owners)
      case Malformed => VisitFailed({Unresolved})
      case NoOwner => VisitRoot(Workload(here, path + [here], Resolved))
      case Owner(owner) =>
        if owner.gvk in ignored then VisitRoot(Workload(here, path + [here], IgnoredOwner))
        else VisitOwner(path + [here], owner.(namespace := namespace))
  }

  /** The whole walk on a fixed reader, continuing from `path` at `ref`. */
  function Walk(read: ObjectRef -> ReadResult, ignored: set<Gvk>, path: seq<ObjectRef>, ref: ObjectRef): WalkResult
    decreases MAX_PATH - |path|
  {
    if !MayVisit(path, ref) then WalkFailed({Unresolved})
    else match read(ref)
      case Missing(err) => WalkFailed(ReadError(err))
      case Found(o) =>
        match VisitObject(ignored, path, ref, o)
        case VisitFailed(err) => WalkFailed(err)
        case VisitRoot(workload) => Walked(workload)
        case VisitOwner(path', ref') => Walk(read, ignored, path', ref')
  }

  lemma {:induction false} ControllersAppend(a: seq<OwnerRef>, b: seq<OwnerRef>)
    ensures Controllers(a + b) == Controllers(a) + Controllers(b)
    decreases |a|
  {
    if a == [] {
      assert a + b == b;
    } else {
      assert (a + b)[1..] == a[1..] + b && (a + b)[0] == a[0];
      ControllersAppend(a[1..], b);
      SeqAssociates(if a[0].controller then [a[0]] else [], Controllers(a[1..]), Controllers(b));
    }
  }

  lemma SeqAssociates<T>(a: seq<T>, b: seq<T>, c: seq<T>)
    ensures (a + b) + c == a + (b + c)
  {
  }

  /** ControllerOwner: one pass, refusing a second or a malformed controller reference. */
  method FindController(owners: seq<OwnerRef>) returns (result: OwnerLookup)
    ensures result == ControllerOwner(owners)
  {
    result := NoOwner;
    ghost var found: seq<OwnerRef> := [];
    for i := 0 to |owners|
      invariant found == Controllers(owners[..i])
      invariant result == ControllerOwner(owners[..i]) && !result.Malformed?
      invariant |found| <= 1 && (result.NoOwner? <==> found == [])
    {
      ControllersAppend(owners[..i], [owners[i]]);
      assert owners[..i + 1] == owners[..i] + [owners[i]];
      var owner := owners[i];
      assert Controllers([owner]) == if owner.controller then [owner] else [];
      if owner.controller {
        if result.Owner? || !WellFormedOwner(owner) {
          ControllersAppend(owners[..i + 1], owners[i + 1..]);
          assert owners == owners[..i + 1] + owners[i + 1..];
          StaysMalformed(found + [owner], Controllers(owners[i + 1..]));
          return Malformed;
        }
        result := Owner(ObjectRef(owner.gvk, 0, owner.name, owner.uid, 0));
        found := [owner];
      }
    }
    assert owners[..|owners|] == owners;
  }

  lemma StaysMalformed(found: seq<OwnerRef>, more: seq<OwnerRef>)
    requires |found| > 1 || (|found| == 1 && !WellFormedOwner(found[0]))
    ensures |found + more| != 0 && !(|found + more| == 1 && WellFormedOwner((found + more)[0]))
  {
  }

  /** Get: one loop, bounded by the UIDs it has seen. */
  method GetWorkload(read: ObjectRef -> ReadResult, ignored: set<Gvk>, start: ObjectRef) returns (result: WalkResult)
    ensures result == Walk(read, ignored, [], start)
  {
    var path: seq<ObjectRef> := [];
    var ref, seen := start, {};
    while true
      invariant seen == (set i | 0 <= i < |path| :: path[i].uid) && |path| <= MAX_PATH
      invariant Walk(read, ignored, path, ref) == Walk(read, ignored, [], start)
      decreases MAX_PATH - |path|
    {
      if ref.uid in seen || |path| >= MAX_PATH {
        assert !MayVisit(path, ref);
        return WalkFailed({Unresolved});
      }
      assert MayVisit(path, ref);
      var o := read(ref);
      if o.Missing? {
        return WalkFailed(ReadError(o.err));
      }
      var visit := VisitObject(ignored, path, ref, o.obj);
      hide VisitObject;
      match visit {
        case VisitFailed(err) => return WalkFailed(err);
        case VisitRoot(workload) => return Walked(workload);
        case VisitOwner(longer, owner) =>
          VisitExtends(ignored, path, ref, o.obj);
          path, ref := longer, owner;
          seen := seen + {o.obj.uid};
      }
    }
  }

  lemma VisitExtends(ignored: set<Gvk>, path: seq<ObjectRef>, ref: ObjectRef, o: Object)
    requires VisitObject(ignored, path, ref, o).VisitOwner?
    ensures var longer := VisitObject(ignored, path, ref, o).path;
            |longer| == |path| + 1 && longer[..|path|] == path && longer[|path|].uid == o.uid
    ensures (set i | 0 <= i < |path| + 1 :: VisitObject(ignored, path, ref, o).path[i].uid) == (set i | 0 <= i < |path| :: path[i].uid) + {o.uid}
  {
    var longer := VisitObject(ignored, path, ref, o).path;
    assert forall i :: 0 <= i < |path| ==> longer[i] == path[i];
  }
}
