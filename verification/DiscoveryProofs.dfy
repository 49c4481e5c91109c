/** Owner discovery on a snapshot: what Get returns is the controller chain, and nothing else. */
module DiscoveryProofs {
  import opened Basics
  import opened Discovery

  /** Objects by key; a namespaced reference falls back to a cluster-scoped object of the same kind and name. */
  type Snapshot = map<ObjectKey, Object>

  predicate WellKeyed(objects: Snapshot) { forall k | k in objects :: ObjectKeyOf(objects[k]) == k && objects[k].uid != 0 }

  function FindIn(objects: Snapshot, key: ObjectKey): Option<Object> {
    if key in objects then Some(objects[key]) else Get(objects, key.(namespace := 0))
  }

  /** What a reader with every source healthy answers. */
  function ReadIn(objects: Snapshot, ref: ObjectRef): ReadResult {
    var o := FindIn(objects, KeyOf(ref));
    if o.None? || (ref.uid != 0 && o.value.uid != ref.uid) then Missing({NotFound})
    else if ref.version != 0 && o.value.version != ref.version then Missing({Stale})
    else Found(o.value)
  }

  function ReaderOf(objects: Snapshot): ObjectRef -> ReadResult { ref => ReadIn(objects, ref) }

  // ---------------------------------------------------------------- the chain

  predicate Present(objects: Snapshot, ref: ObjectRef) { KeyOf(ref) in objects && RefOf(objects[KeyOf(ref)]) == ref }

  /** The reference the controller of `child` is read at. */
  function OwnerRefOf(objects: Snapshot, child: ObjectRef): Option<ObjectRef>
    requires KeyOf(child) in objects
  {
    match ControllerOwner(objects[KeyOf(child)].owners)
    case Owner(owner) => Some(owner.(namespace := child.namespace))
    case _ => None
  }

  /** The controller of `child` is not ignored, and reading it finds `parent`. */
  predicate OwnedBy(objects: Snapshot, ignored: set<Gvk>, child: ObjectRef, parent: ObjectRef)
    requires KeyOf(child) in objects && KeyOf(parent) in objects
  {
    var owner := OwnerRefOf(objects, child);
    owner.Some? && owner.value.gvk !in ignored && ReadIn(objects, owner.value) == Found(objects[KeyOf(parent)])
  }

  predicate TopOf(objects: Snapshot, ignored: set<Gvk>, ref: ObjectRef, resolution: Resolution)
    requires KeyOf(ref) in objects
  {
    match ControllerOwner(objects[KeyOf(ref)].owners)
    case Malformed => false
    case NoOwner => resolution == Resolved
    case Owner(owner) => owner.gvk in ignored && resolution == IgnoredOwner
  }

  predicate DistinctUids(path: seq<ObjectRef>) { forall i, j :: 0 <= i < j < |path| ==> path[i].uid != path[j].uid }

  predicate AllPresent(objects: Snapshot, path: seq<ObjectRef>) { forall i :: 0 <= i < |path| ==> Present(objects, path[i]) }

  predicate ChainOf(objects: Snapshot, ignored: set<Gvk>, path: seq<ObjectRef>) {
    && path != [] && |path| <= MAX_PATH && DistinctUids(path) && AllPresent(objects, path)
    && (forall i :: 0 <= i < |path| - 1 ==> OwnedBy(objects, ignored, path[i], path[i + 1]))
  }

  /** The workload's path is the whole controller chain, from its first element to its root. */
  predicate IsWorkload(objects: Snapshot, ignored: set<Gvk>, workload: Workload) {
    && ChainOf(objects, ignored, workload.path)
    && workload.root == workload.path[|workload.path| - 1]
    && TopOf(objects, ignored, workload.root, workload.resolution)
  }

  /** A reference Get accepts as a start names a present object by its own namespace. */
  predicate Starts(objects: Snapshot, start: ObjectRef, first: ObjectRef) {
    && Present(objects, first)
    && ReadIn(objects, start) == Found(objects[KeyOf(first)])
    && start.gvk == first.gvk && start.namespace == first.namespace && start.name == first.name
  }

  // ---------------------------------------------------------------- one visit

  /** What a successful visit of the walk adds: the object it read, present under its own key. */
  lemma VisitSound(objects: Snapshot, ignored: set<Gvk>, path: seq<ObjectRef>, ref: ObjectRef)
    requires WellKeyed(objects) && ReadIn(objects, ref).Found?
    ensures var o := ReadIn(objects, ref).obj;
            var visit := VisitObject(ignored, path, ref, o);
            var here := RefOf(o);
            && Present(objects, here) && objects[KeyOf(here)] == o
            && (ref.uid != 0 ==> here.uid == ref.uid)
            && (visit.VisitRoot? ==> visit.workload.path == path + [here] && visit.workload.root == here
                                     && TopOf(objects, ignored, here, visit.workload.resolution))
            && (visit.VisitOwner? ==> visit.path == path + [here] && OwnerRefOf(objects, here) == Some(visit.ref)
                                      && visit.ref.gvk !in ignored && visit.ref.uid != 0)
            && (!visit.VisitFailed? ==> (path == [] ==> ref.namespace == here.namespace))
  {
    OwnersHaveUid(ReadIn(objects, ref).obj.owners);
    hide ControllerOwner;
  }

  lemma OwnersHaveUid(owners: seq<OwnerRef>)
    ensures ControllerOwner(owners).Owner? ==> ControllerOwner(owners).ref.uid != 0 && ControllerOwner(owners).ref.version == 0
  {
  }

  lemma ExtendDistinct(objects: Snapshot, path: seq<ObjectRef>, here: ObjectRef, ref: ObjectRef)
    requires DistinctUids(path) && AllPresent(objects, path) && Present(objects, here)
    requires MayVisit(path, ref) && (here.uid == ref.uid || path == [])
    ensures DistinctUids(path + [here]) && AllPresent(objects, path + [here]) && |path + [here]| <= MAX_PATH
  {
    hide Present;
  }

  // ---------------------------------------------------------------- soundness

  /** Continuing from a partial chain gives a whole one. */
  lemma {:induction false} WalkSound(objects: Snapshot, ignored: set<Gvk>, path: seq<ObjectRef>, ref: ObjectRef)
    requires WellKeyed(objects) && Walk(ReaderOf(objects), ignored, path, ref).Walked?
    requires path == [] || (ChainOf(objects, ignored, path) && ref.uid != 0 && OwnerRefOf(objects, path[|path| - 1]) == Some(ref) && ref.gvk !in ignored)
    ensures var workload := Walk(ReaderOf(objects), ignored, path, ref).workload;
            && IsWorkload(objects, ignored, workload) && path <= workload.path
            && (path == [] ==> Starts(objects, ref, workload.path[0]))
    decreases MAX_PATH - |path|
  {
    var read := ReadIn(objects, ref);
    VisitSound(objects, ignored, path, ref);
    var here := RefOf(read.obj);
    ExtendDistinct(objects, path, here, ref);
    var visit := VisitObject(ignored, path, ref, read.obj);
    var longer := path + [here];
    hide VisitObject, TopOf, DistinctUids, AllPresent, WellKeyed;
    assert ChainOf(objects, ignored, longer) by {
      forall i | 0 <= i < |longer| - 1 ensures OwnedBy(objects, ignored, longer[i], longer[i + 1]) {
        if i < |path| - 1 { assert OwnedBy(objects, ignored, path[i], path[i + 1]); }
      }
    }
    assert path == [] ==> longer[0] == here;
    assert path == [] ==> Starts(objects, ref, here) by { FoundByName(objects, ref); }
    hide OwnedBy, Present, ReadIn, Starts;
    if visit.VisitOwner? {
      WalkSound(objects, ignored, visit.path, visit.ref);
      assert path <= longer;
    }
  }

  lemma FoundByName(objects: Snapshot, ref: ObjectRef)
    requires WellKeyed(objects)
    ensures ReadIn(objects, ref).Found? ==> ReadIn(objects, ref).obj.gvk == ref.gvk && ReadIn(objects, ref).obj.name == ref.name
  {
  }

  // ---------------------------------------------------------------- completeness

  /** A whole chain is found from any of its elements on. */
  lemma {:induction false} WalkComplete(objects: Snapshot, ignored: set<Gvk>, workload: Workload, from: nat, i: nat, ref: ObjectRef)
    requires WellKeyed(objects) && IsWorkload(objects, ignored, workload) && from <= i < |workload.path|
    requires ref.uid == 0 || ref.uid == workload.path[i].uid
    requires if i == from then Starts(objects, ref, workload.path[i])
             else ref.uid != 0 && OwnerRefOf(objects, workload.path[i - 1]) == Some(ref)
    ensures Walk(ReaderOf(objects), ignored, workload.path[from..i], ref)
         == Walked(Workload(workload.root, workload.path[from..], workload.resolution))
    decreases |workload.path| - i
  {
    var path := workload.path;
    var o := objects[KeyOf(path[i])];
    assert Present(objects, path[i]);
    assert i > from ==> OwnedBy(objects, ignored, path[i - 1], path[i - 1 + 1]);
    assert ReadIn(objects, ref) == Found(o);
    FoundByName(objects, ref);
    StepVisits(objects, workload, from, i, ref);
    VisitComplete(objects, ignored, path[from..i], ref, o, path[i]);
    assert path[from..i] + [path[i]] == path[from..i + 1];
    var visit := VisitObject(ignored, path[from..i], ref, o);
    hide VisitObject, ReadIn, WellKeyed, DistinctUids, AllPresent, TopOf, Starts, MayVisit;
    if i == |path| - 1 {
      assert path[from..i + 1] == path[from..];
    } else {
      assert OwnedBy(objects, ignored, path[i], path[i + 1]);
      OwnersHaveUid(o.owners);
      var owner := OwnerRefOf(objects, path[i]).value;
      OwnerUid(objects, ignored, path[i], path[i + 1]);
      assert visit == VisitOwner(path[from..i + 1], owner);
      WalkComplete(objects, ignored, workload, from, i + 1, owner);
    }
  }

  lemma OwnerUid(objects: Snapshot, ignored: set<Gvk>, child: ObjectRef, parent: ObjectRef)
    requires Present(objects, child) && Present(objects, parent) && OwnedBy(objects, ignored, child, parent)
    ensures var owner := OwnerRefOf(objects, child).value; owner.uid == parent.uid && owner.uid != 0
  {
    OwnersHaveUid(objects[KeyOf(child)].owners);
    hide ControllerOwner;
  }

  /** No UID of the chain comes twice, and the chain is short enough. */
  lemma StepVisits(objects: Snapshot, workload: Workload, from: nat, i: nat, ref: ObjectRef)
    requires DistinctUids(workload.path) && AllPresent(objects, workload.path) && WellKeyed(objects)
    requires |workload.path| <= MAX_PATH && from <= i < |workload.path|
    requires ref.uid == workload.path[i].uid || i == from
    ensures MayVisit(workload.path[from..i], ref)
  {
  }

  lemma VisitComplete(objects: Snapshot, ignored: set<Gvk>, path: seq<ObjectRef>, ref: ObjectRef, o: Object, here: ObjectRef)
    requires WellKeyed(objects) && Present(objects, here) && o == objects[KeyOf(here)] && ReadIn(objects, ref) == Found(o)
    requires path == [] ==> ref.namespace == here.namespace
    ensures var visit := VisitObject(ignored, path, ref, o);
            match ControllerOwner(o.owners)
            case Malformed => visit.VisitFailed?
            case NoOwner => visit == VisitRoot(Workload(here, path + [here], Resolved))
            case Owner(owner) =>
              if owner.gvk in ignored then visit == VisitRoot(Workload(here, path + [here], IgnoredOwner))
              else visit == VisitOwner(path + [here], owner.(namespace := here.namespace))
  {
    FoundByName(objects, ref);
    hide ControllerOwner;
    assert o.namespace == ref.namespace || o.namespace == 0;
  }

  /** On a snapshot, Get returns a workload exactly when it is the controller chain of the referenced object: at most
      1024 distinct objects, each controlled by the next, up to one without a controller or with an ignored one. */
  lemma GetIsTheChain(objects: Snapshot, ignored: set<Gvk>, ref: ObjectRef, workload: Workload)
    requires WellKeyed(objects)
    ensures Walk(ReaderOf(objects), ignored, [], ref) == Walked(workload)
       <==> IsWorkload(objects, ignored, workload) && Starts(objects, ref, workload.path[0])
  {
    if Walk(ReaderOf(objects), ignored, [], ref) == Walked(workload) {
      WalkSound(objects, ignored, [], ref);
    }
    if IsWorkload(objects, ignored, workload) && Starts(objects, ref, workload.path[0]) {
      assert ref.uid == 0 || ref.uid == workload.path[0].uid;
      WalkComplete(objects, ignored, workload, 0, 0, ref);
      assert workload.path[0..0] == [] && workload.path[0..] == workload.path;
    }
  }

  /** Starting from any element of a path gives the rest of it, with the same root and resolution. */
  lemma GetFromWithin(objects: Snapshot, ignored: set<Gvk>, ref: ObjectRef, i: nat)
    requires WellKeyed(objects) && Walk(ReaderOf(objects), ignored, [], ref).Walked?
    requires i < |Walk(ReaderOf(objects), ignored, [], ref).workload.path|
    ensures var workload := Walk(ReaderOf(objects), ignored, [], ref).workload;
            Walk(ReaderOf(objects), ignored, [], workload.path[i]) == Walked(Workload(workload.root, workload.path[i..], workload.resolution))
  {
    var workload := Walk(ReaderOf(objects), ignored, [], ref).workload;
    WalkSound(objects, ignored, [], ref);
    var here := workload.path[i];
    assert Present(objects, here);
    assert Starts(objects, here, here);
    hide Walk, IsWorkload, Starts;
    WalkComplete(objects, ignored, workload, i, i, here);
    assert workload.path[i..i] == [];
  }

  /** The walk wraps what a read fails with, losing no cause and changing no published reason. */
  lemma WalkKeepsReason(err: Failure)
    requires err != {}
    ensures err <= ReadError(err) && FailureReason(ReadError(err)) == FailureReason(err)
    ensures NotFound in err && Pending !in err && Stale !in err && Denied !in err ==> Unresolved in ReadError(err)
  {
  }
}
