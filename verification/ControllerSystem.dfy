/** The controller at work: watch streams, the sources worker and the two worker pools
    interleave their lock sections in any order. */
module ControllerSystem {
  import opened Basics
  import opened Discovery
  import opened ControllerModel

  // ---------------------------------------------------------------- evaluation

  datatype PodEvaluation = PodEvaluationFailed | PodEvaluated(record: PodRecord, labelFailed: bool)

  /** evaluatePodRecord, on the record reconcilePod prepared. */
  function EvaluatePod(e: Env, selection: Selection, pod: Object, root: Object, resolution: Resolution): PodEvaluation {
    var component := if selection.definition.None? then Some(UNKNOWN_COMPONENT) else e.component(selection.definition.value, pod, root);
    var labels := e.podLabels(pod, root);
    if component.None? || labels.None? then PodEvaluationFailed
    else
      var defined := selection.definition.Some?;
      PodEvaluated(PodRecord(pod.uid, pod.name, pod.namespace, RefOf(root), Some(resolution),
                             if defined then selection.origin.name else 0, defined && selection.origin.cluster,
                             component.value, labels.value.0),
                   labels.value.1)
  }

  /** The result reconcileWorkload builds for a root object. */
  function EvaluateWorkload(e: Env, selection: Selection, err: Failure, root: Object): WorkloadResult {
    var resolution := if ControllerOwner(root.owners).Owner? then IgnoredOwner else Resolved;
    var plain := WorkloadRecord(root.uid, RefOf(root), 0, false, Some(resolution), false, [], e.created(root), 0);
    if err != {} then WorkloadResult(plain, true, NoReason, FailureReason(err))
    else
      var mapped := if selection.definition.None? then (Some([]), {}) else e.status(selection.definition.value, root);
      var defined := selection.definition.Some?;
      var labels := e.statusLabels(root);
      var record := plain.(karta := if defined then selection.origin.name else 0, cluster := defined && selection.origin.cluster,
                           hasStatus := mapped.0.Some?, phases := if mapped.0.Some? then mapped.0.value else [],
                           statusLabels := if labels.Some? then labels.value else 0);
      var failed := (if mapped.1 == {} || BadDefinition in mapped.1 then mapped.1 else mapped.1 + {Evaluation})
                    + (if labels.None? then {Evaluation} else {});
      WorkloadResult(record, true, NoReason, FailureReason(failed))
  }

  // ---------------------------------------------------------------- the Pod program (leaf.go)

  datatype PodPc =
    | PodStart
    | PodLoad
    | PodClimb(pod: Object, path: seq<ObjectRef>, ref: ObjectRef)
    | PodEnsureOwner(pod: Object, path: seq<ObjectRef>, ref: ObjectRef)
    | PodReadOwner(pod: Object, path: seq<ObjectRef>, ref: ObjectRef)
    | PodDefine(pod: Object, workload: Workload)
    | PodRegister(pod: Object, workload: Workload, selection: Stamped, selectionErr: Failure)
    | PodReadRoot(pod: Object, workload: Workload, selection: Stamped, selectionErr: Failure)
    | PodCheckWatch(pod: Object, workload: Workload, selection: Stamped, selectionErr: Failure, read: ReadResult)
    | PodEnsureRoot(pod: Object, workload: Workload, selection: Stamped, selectionErr: Failure)
    | PodReadRootAgain(pod: Object, workload: Workload, selection: Stamped, selectionErr: Failure)
    | PodPublish(pod: Object, workload: Workload, root: Object, selection: Stamped, record: PodRecord, labelFailed: bool)
    | PodReject(path: seq<ObjectRef>, cause: Failure, rootRef: ObjectRef, selection: Stamped)
    | PodFail(cause: Failure, at: Option<ObjectRef>)
    | PodDrop
    | PodReturn(err: Failure)

  /** What the outside decides during one step: whether REST mapping and resource rules can be answered. */
  datatype Input = Input(mapping: Failure, scope: Failure)

  function RootGvk(gvk: Gvk, selection: Selection): Gvk {
    if selection.definition.Some? then selection.gvk else gvk
  }

  /** The reference reconcilePod reads the root body at. */
  function RootBodyRef(root: ObjectRef, selection: Selection): ObjectRef {
    root.(gvk := RootGvk(root.gvk, selection), version := NO_VERSION)
  }

  /** ensureWatch, whose REST mapping may fail. */
  function Ensure(e: Env, s: State, gvk: Gvk, namespace: Name, metadataOnly: bool, mapping: Failure, id: nat): (State, Failure) {
    if mapping != {} then
      (RecordWatchFailure(e, s, WatchKey(gvk, namespace), mapping),
       if e.scoped && namespace != 0 && namespace !in s.scopes then {Pending} else mapping)
    else EnsureWatch(e, s, gvk, namespace, metadataOnly, id)
  }

  function AfterVisit(pod: Object, visit: Visit): PodPc {
    match visit
    case VisitFailed(err) => PodFail(err, None)
    case VisitRoot(workload) => PodDefine(pod, workload)
    case VisitOwner(path, ref) => PodClimb(pod, path, ref)
  }

  /** What reconcilePod computes, unlocked, from the root body it read. */
  function JudgePod(e: Env, pod: Object, workload: Workload, selection: Stamped, selectionErr: Failure, root: Object, scope: Failure): PodPc {
    if !e.objectSelector(root.labels) then PodDrop
    else if scope != {} then PodFail(scope, Some(workload.root))
    else if !e.resourceSelected(root.gvk) then PodDrop
    else if selectionErr != {} then PodReject(workload.path, selectionErr, RefOf(root), selection)
    else
      match EvaluatePod(e, selection.selection, pod, root, workload.resolution)
      case PodEvaluationFailed => PodReject(workload.path, {Evaluation}, RefOf(root), selection)
      case PodEvaluated(record, labelFailed) => PodPublish(pod, workload, root, selection, record, labelFailed)
  }

  function StepPodProgram(e: Env, s: State, key: JobKey, pc: PodPc, input: Input, id: nat): (State, PodPc) {
    match pc
    case PodStart =>
      if key.rescan then (RequeueScope(e, s, key.obj.namespace), PodReturn({}))
      else (s, if IsNamespaceInScope(e, s.scopes, key.obj.namespace) then PodLoad else PodDrop)
    case PodLoad =>
      (s, match Lookup(s.cache, JobRef(key), true)
          case Missing(err) => if NotFound in err then PodDrop else PodFail(err, None)
          case Found(pod) => if e.podSelector(pod.labels) then PodClimb(pod, [], RefOf(pod)) else PodDrop)
    case PodClimb(pod, path, ref) =>
      (s, if !MayVisit(path, ref) then PodFail({Unresolved}, None)
          else match Lookup(s.cache, ref, false)
               case Missing(_) => PodEnsureOwner(pod, path, ref)
               case Found(o) => AfterVisit(pod, VisitObject(e.ignored, path, ref, o)))
    case PodEnsureOwner(pod, path, ref) =>
      var (s', err) := Ensure(e, s, ref.gvk, ref.namespace, true, input.mapping, id);
      (s', if err != {} then PodFail(ReadError(err), None) else PodReadOwner(pod, path, ref))
    case PodReadOwner(pod, path, ref) =>
      (s, match Lookup(s.cache, ref, false)
          case Missing(err) => PodFail(ReadError(err), None)
          case Found(o) => AfterVisit(pod, VisitObject(e.ignored, path, ref, o)))
    case PodDefine(pod, workload) =>
      var (selection, err) := LookupDefinition(s.defs, workload.root.gvk);
      var gvk := RootGvk(workload.root.gvk, selection.selection);
      (s, if input.scope != {} then PodFail(input.scope, Some(workload.root.(gvk := gvk)))
          else if !e.resourceSelected(gvk) then PodDrop
          else PodRegister(pod, workload, selection, err))
    case PodRegister(pod, workload, selection, selectionErr) =>
      var (s', err) := RegisterPodRoot(e, s, key, workload);
      (s', if err == {} then PodReadRoot(pod, workload, selection, selectionErr)
           else if Stale in err then PodReturn(err)
           else PodFail(err, Some(workload.root)))
    case PodReadRoot(pod, workload, selection, selectionErr) =>
      (s, PodCheckWatch(pod, workload, selection, selectionErr,
                        Lookup(s.cache, RootBodyRef(workload.root, selection.selection), true)))
    case PodCheckWatch(pod, workload, selection, selectionErr, read) =>
      var ref := RootBodyRef(workload.root, selection.selection);
      (s, if read.Missing? || WatchKey(ref.gvk, ref.namespace) in s.watchFailures
          then PodEnsureRoot(pod, workload, selection, selectionErr)
          else JudgePod(e, pod, workload, selection, selectionErr, read.obj, input.scope))
    case PodEnsureRoot(pod, workload, selection, selectionErr) =>
      var ref := RootBodyRef(workload.root, selection.selection);
      var (s', err) := Ensure(e, s, ref.gvk, ref.namespace, false, input.mapping, id);
      (s', if err != {} then PodFail(err, Some(workload.root)) else PodReadRootAgain(pod, workload, selection, selectionErr))
    case PodReadRootAgain(pod, workload, selection, selectionErr) =>
      (s, match Lookup(s.cache, RootBodyRef(workload.root, selection.selection), true)
          case Missing(err) => PodFail(err, Some(workload.root))
          case Found(root) => JudgePod(e, pod, workload, selection, selectionErr, root, input.scope))
    case PodPublish(pod, workload, root, selection, record, labelFailed) =>
      var (s', err) := PublishPod(e, s, workload.path, RefOf(root), selection, PodResult(record, RefOf(pod), true, NoReason), labelFailed);
      (s', PodReturn(err))
    case PodReject(path, cause, rootRef, selection) =>
      var (s', err) := FailPodEvaluation(e, s, key, path, cause, rootRef, selection);
      (s', PodReturn(err))
    case PodFail(cause, at) =>
      var (s', err) := PublishPodFailure(s, key, cause, at);
      (s', PodReturn(err))
    case PodDrop => (UnregisterPod(s, key), PodReturn({}))
    case PodReturn(_) => (s, pc)
  }

  // ---------------------------------------------------------------- the root program (root.go)

  datatype RootPc =
    | RootStart
    | RootDefine(ref: ObjectRef)
    | RootEnsure(ref: ObjectRef, selection: Stamped, selectionErr: Failure)
    | RootRead(ref: ObjectRef, selection: Stamped, selectionErr: Failure)
    | RootCheck(root: Object, selection: Stamped, selectionErr: Failure)
    | RootPublish(root: Object, selection: Stamped, result: WorkloadResult)
    | RootFail(ref: ObjectRef, cause: Failure)
    | RootWithdraw
    | RootHide
    | RootReturn(err: Failure)

  function StepRootProgram(e: Env, s: State, uid: Uid, pc: RootPc, input: Input, id: nat): (State, RootPc) {
    match pc
    case RootStart => (s, if uid in s.members.roots then RootDefine(s.members.roots[uid].ref) else RootReturn({}))
    case RootDefine(ref) =>
      var (selection, err) := LookupDefinition(s.defs, ref.gvk);
      (s, RootEnsure(RootBodyRef(ref, selection.selection), selection, err))
    case RootEnsure(ref, selection, selectionErr) =>
      var (s', err) := Ensure(e, s, ref.gvk, ref.namespace, false, input.mapping, id);
      (s', if err != {} then RootFail(ref, err) else RootRead(ref, selection, selectionErr))
    case RootRead(ref, selection, selectionErr) =>
      (s, match Lookup(s.cache, ref, true)
          case Missing(err) => if NotFound in err then RootWithdraw else RootFail(ref, err)
          case Found(root) =>
            match ControllerOwner(root.owners)
            case Malformed => RootFail(RefOf(root), {Unresolved})
            case NoOwner => RootCheck(root, selection, selectionErr)
            case Owner(owner) => if owner.gvk in e.ignored then RootCheck(root, selection, selectionErr) else RootWithdraw)
    case RootCheck(root, selection, selectionErr) =>
      (s, if !HasRootOwnership(e, s.cache, s.defs, RefOf(root)) then RootFail(RefOf(root), {Unresolved})
          else if !e.objectSelector(root.labels) then RootHide
          else if input.scope != {} then RootFail(RefOf(root), input.scope)
          else if !e.resourceSelected(root.gvk) then RootHide
          else RootPublish(root, selection, EvaluateWorkload(e, selection.selection, selectionErr, root)))
    case RootPublish(root, selection, result) =>
      var (s', err) := PublishWorkload(e, s, uid, RefOf(root), selection, result);
      (s', RootReturn(err))
    case RootFail(ref, cause) =>
      var (s', err) := FailWorkload(s, uid, ref, cause);
      (s', RootReturn(err))
    case RootWithdraw => (RemoveRoot(s, uid), RootReturn({}))
    case RootHide => (HideWorkload(s, uid), RootReturn({}))
    case RootReturn(_) => (s, pc)
  }

  // ---------------------------------------------------------------- selected-object jobs

  /** The lock sections of resolveSelectedObjectRoot, each of which may come at any time. */
  datatype SelectedOp =
    | Track(key: JobKey)
    | Retrack(key: JobKey, obj: Option<Object>, selection: Stamped)
    | Register(key: JobKey, workload: Workload, selection: Stamped, rootSelection: Stamped)
    | Exclude(key: JobKey, workload: Workload, selection: Stamped, rootSelection: Stamped)
    | Untrack(key: JobKey)
    | Fail(key: JobKey, err: Failure)

  function StepSelected(e: Env, s: State, op: SelectedOp): State {
    match op
    case Track(key) => TrackSelected(s, key)
    case Retrack(key, o, selection) => ReplaceSelectedTracking(s, key, o, selection).0
    case Register(key, workload, selection, rootSelection) => RegisterSelectedRoot(e, s, key, workload, selection, rootSelection).0
    case Exclude(key, workload, selection, rootSelection) => ExcludeSelected(s, key, workload, selection, rootSelection).0
    case Untrack(key) => RemoveSelectedMembership(s, key)
    case Fail(key, err) => RecordDiscoveryFailure(s, key, err)
  }

  // ---------------------------------------------------------------- the system

  /** `pods` and `roots` hold the jobs being processed, the delayed sets those waiting for a retry. */
  datatype System = System(s: State, pods: map<JobKey, PodPc>, roots: map<Uid, RootPc>,
                           podDelayed: set<JobKey>, rootDelayed: set<Uid>, nextWatch: nat)

  datatype Action =
    | WatchEvent(w: Handle, obj: Object, deleted: bool)
    | WatchSnapshot(w: Handle, objects: map<ObjectKey, Object>, drop: seq<ObjectKey>, put: seq<ObjectKey>)
    | WatchStatus(w: Handle, err: Failure)
    | SyncSources(offered: map<GroupKind, Selection>, err: Failure, order: SyncOrder)
    | StartWatch(gvk: Gvk, namespace: Name, metadataOnly: bool, mapping: Failure)
    | Selected(op: SelectedOp)
    | TakePod(key: JobKey)
    | StepPod(key: JobKey, input: Input)
    | FinishPod(key: JobKey)
    | RetryPod(key: JobKey)
    | TakeRoot(uid: Uid)
    | StepRoot(uid: Uid, input: Input)
    | FinishRoot(uid: Uid)
    | RetryRoot(uid: Uid)
    | TakeObject(key: JobKey)
    | RetryObject(key: JobKey)
    | TakeSync
    | RetrySync

  // What the API server is trusted for.

  predicate IsFull(e: Env, o: Object) { o == e.content(o.gvk, o.uid, o.version) }

  /** A kind, UID and resource version determine the content, and a UID the identity. */
  predicate Conforms(e: Env, o: Object) {
    && o.uid != 0 && o.name != 0 && o.version != 0
    && (o == e.content(o.gvk, o.uid, o.version) || o == Strip(e.content(o.gvk, o.uid, o.version)))
    && e.identity(o.uid) == Identity(o.gvk.groupKind, o.namespace, o.name)
    && (o.namespace == 0 <==> e.clusterScoped(o.gvk.groupKind))
  }

  /** An object watch `w` can deliver. */
  predicate Deliverable(e: Env, w: Handle, o: Object) {
    && Conforms(e, o)
    && o.gvk == w.key.gvk
    && (w.key.namespace == 0 || o.namespace == w.key.namespace)
    && (if w.full then IsFull(e, o) else o == Strip(e.content(o.gvk, o.uid, o.version)))
  }

  predicate Genuine(c: Cache, w: Handle) { IsTracked(c, w) ==> WatchOf(c, w).full == w.full }

  function Content(e: Env, ref: ObjectRef): Object { e.content(ref.gvk, ref.uid, ref.version) }

  /** A reference to a version of an object that exists. */
  predicate KnownRef(e: Env, ref: ObjectRef) {
    && Conforms(e, Content(e, ref))
    && RefOf(Content(e, ref)) == ref
  }

  /** Each reference's controller is the next one. */
  predicate ChainLinks(e: Env, path: seq<ObjectRef>) {
    && (forall i :: 0 <= i < |path| ==> KnownRef(e, path[i]))
    && (forall i :: 0 <= i < |path| - 1 ==> LinksTo(e, path[i], path[i + 1]))
    && (forall i, j :: 0 <= i < j < |path| ==> path[i].uid != path[j].uid)
    && |path| <= MAX_PATH
  }

  predicate LinksTo(e: Env, child: ObjectRef, parent: ObjectRef) {
    var owner := ControllerOwner(Content(e, child).owners);
    && owner.Owner?
    && owner.ref.gvk !in e.ignored
    && owner.ref.gvk == parent.gvk && owner.ref.name == parent.name && owner.ref.uid == parent.uid
    && (parent.namespace == child.namespace || parent.namespace == 0)
  }

  /** A finished walk: the last reference is the root. */
  predicate ChainEnds(e: Env, workload: Workload) {
    && workload.path != []
    && ChainLinks(e, workload.path)
    && workload.root == workload.path[|workload.path| - 1]
    && match ControllerOwner(Content(e, workload.root).owners)
       case Malformed => false
       case NoOwner => workload.resolution == Resolved
       case Owner(owner) => owner.gvk in e.ignored && workload.resolution == IgnoredOwner
  }

  predicate ValidOp(e: Env, op: SelectedOp) {
    match op
    case Retrack(_, o, _) => o.Some? ==> Conforms(e, o.value)
    case Register(_, workload, _, _) => ChainEnds(e, workload)
    case Exclude(_, workload, _, _) => ChainEnds(e, workload)
    case Track(_) => true
    case Untrack(_) => true
    case Fail(_, _) => true
  }

  predicate ValidOffer(offered: map<GroupKind, Selection>) {
    forall kind :: kind in offered ==> offered[kind].gvk.groupKind == kind
  }

  ghost predicate Enabled(e: Env, sys: System, a: Action) {
    match a
    case WatchEvent(w, o, _) => Genuine(sys.s.cache, w) && Deliverable(e, w, o)
    case WatchSnapshot(w, objects, drop, put) =>
      && Genuine(sys.s.cache, w)
      && (forall k :: k in objects ==> ObjectKeyOf(objects[k]) == k && Deliverable(e, w, objects[k]))
      && Ordering(put, objects.Keys)
      && (IsTracked(sys.s.cache, w) ==> Ordering(drop, Vanished(sys.s.cache, w, objects)))
    case WatchStatus(w, _) => Genuine(sys.s.cache, w)
    case SyncSources(offered, err, order) => ValidOffer(offered) && IsSyncOrder(e, sys.s, offered, err, order)
    case StartWatch(_, _, _, _) => true
    case Selected(op) => ValidOp(e, op)
    case TakePod(key) => key in sys.s.queues.pods && key !in sys.pods
    case StepPod(key, _) => key in sys.pods && !sys.pods[key].PodReturn?
    case FinishPod(key) => key in sys.pods && sys.pods[key].PodReturn?
    case RetryPod(key) => key in sys.podDelayed
    case TakeRoot(uid) => RootJob(uid) in sys.s.queues.work && uid !in sys.roots
    case StepRoot(uid, _) => uid in sys.roots && !sys.roots[uid].RootReturn?
    case FinishRoot(uid) => uid in sys.roots && sys.roots[uid].RootReturn?
    case RetryRoot(uid) => uid in sys.rootDelayed
    case TakeObject(key) => SelectedJob(key) in sys.s.queues.work
    case RetryObject(_) => true
    case TakeSync => sys.s.queues.sync
    case RetrySync => true
  }

  function TakeJobs(s: State, pods: set<JobKey>, work: set<WorkJob>): State {
    s.(queues := s.queues.(pods := s.queues.pods - pods, work := s.queues.work - work))
  }

  ghost function Next(e: Env, sys: System, a: Action): System
    requires Enabled(e, sys, a)
  {
    match a
    case WatchEvent(w, o, deleted) => sys.(s := ApplyWatchEvent(e, sys.s, w, o, deleted))
    case WatchSnapshot(w, objects, drop, put) => sys.(s := Replace(e, sys.s, w, objects, drop, put))
    case WatchStatus(w, err) => sys.(s := UpdateWatchHealth(e, sys.s, w, err))
    case SyncSources(offered, err, order) => sys.(s := PrepareWatchRequests(e, sys.s, offered, err, order))
    case StartWatch(gvk, namespace, metadataOnly, mapping) =>
      sys.(s := Ensure(e, sys.s, gvk, namespace, metadataOnly, mapping, sys.nextWatch).0, nextWatch := sys.nextWatch + 1)
    case Selected(op) => sys.(s := StepSelected(e, sys.s, op))
    case TakePod(key) => sys.(s := TakeJobs(sys.s, {key}, {}), pods := sys.pods[key := PodStart])
    case StepPod(key, input) =>
      var (s', pc) := StepPodProgram(e, sys.s, key, sys.pods[key], input, sys.nextWatch);
      sys.(s := s', pods := sys.pods[key := pc], nextWatch := sys.nextWatch + 1)
    case FinishPod(key) =>
      sys.(pods := sys.pods - {key}, podDelayed := if sys.pods[key].err != {} then sys.podDelayed + {key} else sys.podDelayed)
    case RetryPod(key) => sys.(s := AddPods(sys.s, {key}), podDelayed := sys.podDelayed - {key})
    case TakeRoot(uid) => sys.(s := TakeJobs(sys.s, {}, {RootJob(uid)}), roots := sys.roots[uid := RootStart])
    case StepRoot(uid, input) =>
      var (s', pc) := StepRootProgram(e, sys.s, uid, sys.roots[uid], input, sys.nextWatch);
      sys.(s := s', roots := sys.roots[uid := pc], nextWatch := sys.nextWatch + 1)
    case FinishRoot(uid) =>
      sys.(roots := sys.roots - {uid}, rootDelayed := if sys.roots[uid].err != {} then sys.rootDelayed + {uid} else sys.rootDelayed)
    case RetryRoot(uid) => sys.(s := AddWork(sys.s, {RootJob(uid)}), rootDelayed := sys.rootDelayed - {uid})
    case TakeObject(key) => sys.(s := TakeJobs(sys.s, {}, {SelectedJob(key)}))
    case RetryObject(key) => sys.(s := AddWork(sys.s, {SelectedJob(key)}))
    case TakeSync => sys.(s := sys.s.(queues := sys.s.queues.(sync := false)))
    case RetrySync => sys.(s := sys.s.(queues := sys.s.queues.(sync := true)))
  }

  function InitialState(e: Env): State {
    State(Cache(map[], map[], map[], map[]), Members(map[], map[], map[], {}),
          Definitions(map[], if e.clusterDefinitions then {Other} else {}, 0),
          Publications(map[], map[], map[], if e.clusterDefinitions then Some(Health(false, NoReason)) else None, map[], map[]),
          Queues({}, {}, true), if e.scoped then {} else {0}, map[])
  }

  function Initial(e: Env): System { System(InitialState(e), map[], map[], {}, {}, 0) }

  /** The system after a run; an action that is not possible when its turn comes does nothing. */
  ghost function Run(e: Env, actions: seq<Action>): System
    decreases |actions|
  {
    if actions == [] then Initial(e)
    else
      var sys := Run(e, actions[..|actions| - 1]);
      var a := actions[|actions| - 1];
      if Enabled(e, sys, a) then Next(e, sys, a) else sys
  }
}
