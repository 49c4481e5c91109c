/** What the workers carry between their lock sections is true of the cluster, whatever happens meanwhile. */
module JobProofs {
  import opened Basics
  import opened Discovery
  import opened ControllerModel
  import opened ControllerSystem
  import opened CacheProofs

  // ---------------------------------------------------------------- reading

  /** A successful lookup finds the referenced object, in full when that was asked for. */
  lemma LookupFacts(e: Env, c: Cache, ref: ObjectRef, full: bool, next: nat)
    requires CacheInv(e, c, next) && Lookup(c, ref, full).Found?
    ensures var o := Lookup(c, ref, full).obj;
            && Conforms(e, o)
            && o.gvk == ref.gvk && o.name == ref.name && (o.namespace == ref.namespace || o.namespace == 0)
            && (ref.uid != 0 ==> o.uid == ref.uid) && (ref.version != 0 ==> o.version == ref.version)
            && (full ==> IsFull(e, o))
            && ObjectKeyOf(o) in c.objects && c.objects[ObjectKeyOf(o)].obj == o
  {
    hide Conforms, IsFull, Covers;
  }

  /** Metadata is the same in a stripped object. */
  lemma ConformingContent(e: Env, o: Object)
    requires Conforms(e, o)
    ensures var ref := RefOf(o);
            KnownRef(e, ref) && Content(e, ref).owners == o.owners && Content(e, ref).labels == o.labels
            && (IsFull(e, o) ==> Content(e, ref) == o)
  {
  }

  // ---------------------------------------------------------------- the Pod program's facts

  /** The job key of a Pod is a function of its UID. */
  function PodKey(e: Env, uid: Uid): JobKey {
    JobKey(ObjectKey(POD_GVK, e.identity(uid).namespace, e.identity(uid).name), uid, false)
  }

  predicate PodKeyOk(e: Env, key: JobKey) {
    key == PodKey(e, key.uid) && key.uid != 0 && e.identity(key.uid).groupKind == POD_GVK.groupKind
  }

  predicate QueueKeyOk(e: Env, key: JobKey) {
    if key.rescan then key == Rescan(key.obj.namespace) else PodKeyOk(e, key)
  }

  predicate PodBody(e: Env, key: JobKey, pod: Object) {
    Conforms(e, pod) && IsFull(e, pod) && JobFor(RefOf(pod)) == key && e.podSelector(pod.labels)
  }

  /** `ref` is where the walk goes on after `path`. */
  predicate Climbs(e: Env, pod: Object, path: seq<ObjectRef>, ref: ObjectRef) {
    && ChainLinks(e, path)
    && (if path == [] then ref == RefOf(pod)
        else
          && path[0] == RefOf(pod)
          && var last := path[|path| - 1];
             var owner := ControllerOwner(Content(e, last).owners);
             owner.Owner? && owner.ref.gvk !in e.ignored && ref == owner.ref.(namespace := last.namespace))
  }

  predicate ClimbedFrom(e: Env, pod: Object, workload: Workload) {
    ChainEnds(e, workload) && workload.path[0] == RefOf(pod)
  }

  predicate RootBody(e: Env, workload: Workload, selection: Stamped, root: Object) {
    && Conforms(e, root) && IsFull(e, root)
    && root.uid == workload.root.uid && root.gvk == RootGvk(workload.root.gvk, selection.selection)
  }

  predicate PodFacts(e: Env, key: JobKey, pc: PodPc) {
    match pc
    case PodStart => QueueKeyOk(e, key)
    case PodLoad => PodKeyOk(e, key)
    case PodClimb(pod, path, ref) => PodKeyOk(e, key) && PodBody(e, key, pod) && Climbs(e, pod, path, ref)
    case PodEnsureOwner(pod, path, ref) => PodKeyOk(e, key) && PodBody(e, key, pod) && Climbs(e, pod, path, ref) && MayVisit(path, ref)
    case PodReadOwner(pod, path, ref) => PodKeyOk(e, key) && PodBody(e, key, pod) && Climbs(e, pod, path, ref) && MayVisit(path, ref)
    case PodDefine(pod, workload) => PodKeyOk(e, key) && PodBody(e, key, pod) && ClimbedFrom(e, pod, workload)
    case PodRegister(pod, workload, _, _) => PodKeyOk(e, key) && PodBody(e, key, pod) && ClimbedFrom(e, pod, workload)
    case PodReadRoot(pod, workload, _, _) => PodKeyOk(e, key) && PodBody(e, key, pod) && ClimbedFrom(e, pod, workload)
    case PodCheckWatch(pod, workload, selection, _, read) =>
      && PodKeyOk(e, key) && PodBody(e, key, pod) && ClimbedFrom(e, pod, workload)
      && (read.Found? ==> RootBody(e, workload, selection, read.obj))
    case PodEnsureRoot(pod, workload, _, _) => PodKeyOk(e, key) && PodBody(e, key, pod) && ClimbedFrom(e, pod, workload)
    case PodReadRootAgain(pod, workload, _, _) => PodKeyOk(e, key) && PodBody(e, key, pod) && ClimbedFrom(e, pod, workload)
    case PodPublish(pod, workload, root, selection, record, labelFailed) =>
      && PodKeyOk(e, key) && PodBody(e, key, pod) && ClimbedFrom(e, pod, workload) && RootBody(e, workload, selection, root)
      && e.objectSelector(root.labels) && e.resourceSelected(root.gvk)
      && EvaluatePod(e, selection.selection, pod, root, workload.resolution) == PodEvaluated(record, labelFailed)
    case PodReject(_, cause, _, _) => PodKeyOk(e, key) && cause != {}
    case PodFail(cause, _) => PodKeyOk(e, key) && cause != {}
    case PodDrop => PodKeyOk(e, key)
    case PodReturn(_) => QueueKeyOk(e, key)
  }

  /** One visit extends the chain, or ends it. */
  lemma VisitClimbs(e: Env, c: Cache, key: JobKey, pod: Object, path: seq<ObjectRef>, ref: ObjectRef, next: nat)
    requires CacheInv(e, c, next) && Lookup(c, ref, false).Found?
    requires PodKeyOk(e, key) && PodBody(e, key, pod) && Climbs(e, pod, path, ref) && MayVisit(path, ref)
    ensures PodFacts(e, key, AfterVisit(pod, VisitObject(e.ignored, path, ref, Lookup(c, ref, false).obj)))
  {
    hide CacheInv, Lookup, Conforms, IsFull, KnownRef, ControllerOwner, MayVisit;
    LookupFacts(e, c, ref, false, next);
    ClimbHasUid(e, pod, path, ref);
    var o := Lookup(c, ref, false).obj;
    ConformingContent(e, o);
    var visit := VisitObject(e.ignored, path, ref, o);
    if !visit.VisitFailed? {
      var here := RefOf(o);
      var longer := path + [here];
      LongerChain(e, path, ref, here);
      match visit
      case VisitRoot(workload) => assert workload.path == longer && workload.root == here;
      case VisitOwner(path', _) => assert path' == longer;
    }
  }

  lemma ClimbHasUid(e: Env, pod: Object, path: seq<ObjectRef>, ref: ObjectRef)
    requires Climbs(e, pod, path, ref) && Conforms(e, pod)
    ensures ref.uid != 0 && (path == [] ==> ref.version != 0)
  {
    hide ChainLinks, Content;
  }

  lemma LongerChain(e: Env, path: seq<ObjectRef>, ref: ObjectRef, here: ObjectRef)
    requires ChainLinks(e, path) && KnownRef(e, here) && MayVisit(path, ref) && here.uid == ref.uid
    requires path != [] ==> LinksTo(e, path[|path| - 1], here)
    ensures ChainLinks(e, path + [here])
  {
    hide KnownRef, LinksTo;
  }

  lemma JudgeFacts(e: Env, key: JobKey, pod: Object, workload: Workload, selection: Stamped, selectionErr: Failure, root: Object, scope: Failure)
    requires PodKeyOk(e, key) && PodBody(e, key, pod) && ClimbedFrom(e, pod, workload) && RootBody(e, workload, selection, root)
    ensures PodFacts(e, key, JudgePod(e, pod, workload, selection, selectionErr, root, scope))
  {
    hide PodKeyOk, PodBody, ClimbedFrom, RootBody, EvaluatePod;
  }

  lemma RootBodyFacts(e: Env, c: Cache, pod: Object, workload: Workload, selection: Stamped, next: nat)
    requires CacheInv(e, c, next) && ClimbedFrom(e, pod, workload)
    requires Lookup(c, RootBodyRef(workload.root, selection.selection), true).Found?
    ensures RootBody(e, workload, selection, Lookup(c, RootBodyRef(workload.root, selection.selection), true).obj)
  {
    var ref := RootBodyRef(workload.root, selection.selection);
    LookupFacts(e, c, ref, true, next);
    assert KnownRef(e, workload.root);
    hide CacheInv, Lookup;
  }

  lemma PodFactsStep(e: Env, s: State, key: JobKey, pc: PodPc, input: Input, id: nat)
    requires CacheInv(e, s.cache, id) && PodFacts(e, key, pc)
    ensures PodFacts(e, key, StepPodProgram(e, s, key, pc, input, id).1)
  {
    hide CacheInv, JudgePod, VisitObject, RegisterPodRoot, PublishPod, PublishPodFailure, FailPodEvaluation, UnregisterPod, RequeueScope, Ensure,
         ClimbedFrom, RootBody, EvaluatePod, PodBody, Climbs;
    match pc
    case PodStart =>
    case PodLoad =>
      if Lookup(s.cache, JobRef(key), true).Found? {
        LoadFacts(e, s.cache, key, id);
      } else {
        MissingHasCause(s.cache, JobRef(key), true);
      }
      hide Lookup;
    case PodClimb(pod, path, ref) =>
      if MayVisit(path, ref) && Lookup(s.cache, ref, false).Found? {
        VisitClimbs(e, s.cache, key, pod, path, ref, id);
      }
      hide Lookup;
    case PodReadOwner(pod, path, ref) =>
      if Lookup(s.cache, ref, false).Found? {
        VisitClimbs(e, s.cache, key, pod, path, ref, id);
      } else {
        MissingHasCause(s.cache, ref, false);
      }
      hide Lookup;
    case PodReadRoot(pod, workload, selection, _) =>
      if Lookup(s.cache, RootBodyRef(workload.root, selection.selection), true).Found? {
        RootBodyFacts(e, s.cache, pod, workload, selection, id);
      }
      hide Lookup;
    case PodCheckWatch(pod, workload, selection, selectionErr, read) =>
      if read.Found? {
        JudgeFacts(e, key, pod, workload, selection, selectionErr, read.obj, input.scope);
      }
      hide Lookup;
    case PodReadRootAgain(pod, workload, selection, selectionErr) =>
      var ref := RootBodyRef(workload.root, selection.selection);
      if Lookup(s.cache, ref, true).Found? {
        RootBodyFacts(e, s.cache, pod, workload, selection, id);
        JudgeFacts(e, key, pod, workload, selection, selectionErr, Lookup(s.cache, ref, true).obj, input.scope);
      } else {
        MissingHasCause(s.cache, ref, true);
      }
      hide Lookup;
    case _ => hide Lookup;
  }

  lemma MissingHasCause(c: Cache, ref: ObjectRef, full: bool)
    requires Lookup(c, ref, full).Missing?
    ensures Lookup(c, ref, full).err != {}
  {
  }

  lemma LoadFacts(e: Env, c: Cache, key: JobKey, next: nat)
    requires CacheInv(e, c, next) && PodKeyOk(e, key) && Lookup(c, JobRef(key), true).Found?
    ensures var pod := Lookup(c, JobRef(key), true).obj;
            e.podSelector(pod.labels) ==> PodBody(e, key, pod) && Climbs(e, pod, [], RefOf(pod))
  {
    LookupFacts(e, c, JobRef(key), true, next);
    hide CacheInv, Lookup;
  }

  // ---------------------------------------------------------------- the root program's facts

  predicate RootRefOk(e: Env, uid: Uid, ref: ObjectRef) {
    ref.uid == uid && uid != 0 && e.identity(uid) == Identity(ref.gvk.groupKind, ref.namespace, ref.name)
  }

  predicate RootObjectOk(e: Env, uid: Uid, root: Object) {
    Conforms(e, root) && IsFull(e, root) && root.uid == uid
  }

  /** The root body is read at the version the selected definition names. */
  predicate DefinedGvk(selection: Stamped, gvk: Gvk) {
    selection.selection.definition.Some? ==> gvk == selection.selection.gvk
  }

  predicate RootFacts(e: Env, uid: Uid, pc: RootPc) {
    match pc
    case RootDefine(ref) => RootRefOk(e, uid, ref)
    case RootEnsure(ref, selection, _) => ref.uid == uid && uid != 0 && DefinedGvk(selection, ref.gvk)
    case RootRead(ref, selection, _) => ref.uid == uid && uid != 0 && DefinedGvk(selection, ref.gvk)
    case RootCheck(root, selection, _) => RootObjectOk(e, uid, root) && DefinedGvk(selection, root.gvk)
    case RootPublish(root, selection, result) =>
      && RootObjectOk(e, uid, root) && DefinedGvk(selection, root.gvk)
      && result.hasValue && result.error == NoReason && result.record.uid == uid
      && (result.statusError == NoReason ==> result == EvaluateWorkload(e, selection.selection, {}, root))
    case RootFail(_, cause) => cause != {}
    case _ => true
  }

  lemma EvaluateWorkloadFacts(e: Env, selection: Selection, err: Failure, root: Object)
    ensures var result := EvaluateWorkload(e, selection, err, root);
            && result.hasValue && result.error == NoReason && result.record.uid == root.uid
            && (result.statusError == NoReason ==> err == {})
  {
    hide ControllerOwner;
  }

  lemma RootFactsStep(e: Env, s: State, uid: Uid, pc: RootPc, input: Input, id: nat)
    requires CacheInv(e, s.cache, id) && RootFacts(e, uid, pc)
    requires uid in s.members.roots ==> RootRefOk(e, uid, s.members.roots[uid].ref)
    ensures RootFacts(e, uid, StepRootProgram(e, s, uid, pc, input, id).1)
  {
    hide CacheInv, EvaluateWorkload, PublishWorkload, FailWorkload, RemoveRoot, Ensure, HasRootOwnership, ControllerOwner;
    match pc
    case RootRead(ref, selection, selectionErr) =>
      if Lookup(s.cache, ref, true).Found? {
        LookupFacts(e, s.cache, ref, true, id);
      } else {
        MissingHasCause(s.cache, ref, true);
      }
      hide Lookup;
    case RootCheck(root, selection, selectionErr) =>
      EvaluateWorkloadFacts(e, selection.selection, selectionErr, root);
      hide Lookup;
    case _ => hide Lookup;
  }
}
