/** The whole controller: the watches and worker pools of ControllerSystem, with the jobs that discover the roots of
    watched objects and the passes of the sources worker as programs of their own. */
module ObjectSystem {
  import opened Basics
  import opened Discovery
  import opened ControllerModel
  import opened ControllerSystem
  import opened CacheProofs
  import opened SourceProofs
  import opened JobProofs
  import opened MemberProofs

  // ---------------------------------------------------------------- the job of a watched object (root.go)

  datatype ObjectPc =
    | ObjectStart
    | ObjectTrack
    | ObjectDefine
    | ObjectEnsure(selection: Stamped)
    | ObjectReadSelected(selection: Stamped)
    | ObjectReplace(replacement: Option<Object>, selection: Stamped)
    | ObjectRead(selection: Stamped, selectionErr: Failure)
    | ObjectClimb(obj: Object, path: seq<ObjectRef>, ref: ObjectRef, selection: Stamped, selectionErr: Failure)
    | ObjectEnsureOwner(obj: Object, path: seq<ObjectRef>, ref: ObjectRef, selection: Stamped, selectionErr: Failure)
    | ObjectReadOwner(obj: Object, path: seq<ObjectRef>, ref: ObjectRef, selection: Stamped, selectionErr: Failure)
    | ObjectDefineRoot(workload: Workload, selection: Stamped, selectionErr: Failure)
    | ObjectExclude(workload: Workload, selection: Stamped, rootSelection: Stamped)
    | ObjectRegister(workload: Workload, selection: Stamped, rootSelection: Stamped)
    | ObjectFail(err: Failure)
    | ObjectUntrack
    | ObjectReturn(err: Failure)

  /** The reference of the object at the version its definition selects. */
  function SelectedRef(key: JobKey, selection: Selection): ObjectRef { JobRef(key).(gvk := selection.gvk) }

  function AfterObjectVisit(o: Object, visit: Visit, selection: Stamped, selectionErr: Failure): ObjectPc {
    match visit
    case VisitFailed(err) => ObjectFail(err)
    case VisitRoot(workload) => ObjectDefineRoot(workload, selection, selectionErr)
    case VisitOwner(path, ref) => ObjectClimb(o, path, ref, selection, selectionErr)
  }

  function StepObjectProgram(e: Env, s: State, key: JobKey, pc: ObjectPc, input: Input, id: nat): (State, ObjectPc) {
    match pc
    case ObjectStart => (s, if IsNamespaceInScope(e, s.scopes, key.obj.namespace) then ObjectTrack else ObjectUntrack)
    case ObjectTrack => (TrackSelected(s, key), ObjectDefine)
    case ObjectDefine =>
      var (selection, err) := LookupDefinition(s.defs, key.obj.gvk);
      (s, if selection.selection.definition.None? && err != {} then ObjectFail(err)
          else if selection.selection.definition.Some? && selection.selection.gvk != key.obj.gvk then ObjectEnsure(selection)
          else ObjectRead(selection, err))
    case ObjectEnsure(selection) =>
      var (s', err) := Ensure(e, s, selection.selection.gvk, key.obj.namespace, false, input.mapping, id);
      (s', if err != {} then ObjectReturn(err) else ObjectReadSelected(selection))
    case ObjectReadSelected(selection) =>
      (s, match Lookup(s.cache, SelectedRef(key, selection.selection), true)
          case Missing(err) => if NotFound in err then ObjectReplace(None, selection) else ObjectReturn(err)
          case Found(o) => ObjectReplace(Some(o), selection))
    case ObjectReplace(replacement, selection) =>
      var (s', err) := ReplaceSelectedTracking(s, key, replacement, selection);
      (s', ObjectReturn(err))
    case ObjectRead(selection, selectionErr) =>
      (s, match Lookup(s.cache, JobRef(key), false)
          case Missing(err) => if NotFound in err then ObjectUntrack else ObjectFail(err)
          case Found(o) => ObjectClimb(o, [], RefOf(o), selection, selectionErr))
    case ObjectClimb(o, path, ref, selection, selectionErr) =>
      (s, if !MayVisit(path, ref) then ObjectFail({Unresolved})
          else match Lookup(s.cache, ref, false)
               case Missing(_) => ObjectEnsureOwner(o, path, ref, selection, selectionErr)
               case Found(owner) => AfterObjectVisit(o, VisitObject(e.ignored, path, ref, owner), selection, selectionErr))
    case ObjectEnsureOwner(o, path, ref, selection, selectionErr) =>
      var (s', err) := Ensure(e, s, ref.gvk, ref.namespace, true, input.mapping, id);
      (s', if err != {} then ObjectFail(ReadError(err)) else ObjectReadOwner(o, path, ref, selection, selectionErr))
    case ObjectReadOwner(o, path, ref, selection, selectionErr) =>
      (s, match Lookup(s.cache, ref, false)
          case Missing(err) => ObjectFail(ReadError(err))
          case Found(owner) => AfterObjectVisit(o, VisitObject(e.ignored, path, ref, owner), selection, selectionErr))
    case ObjectDefineRoot(workload, selection, selectionErr) =>
      var (rootSelection, rootErr) := LookupDefinition(s.defs, workload.root.gvk);
      (s, if input.scope != {} then ObjectFail(input.scope)
          else if e.resourceSelected(RootGvk(workload.root.gvk, rootSelection.selection)) then ObjectRegister(workload, selection, rootSelection)
          else if selectionErr + rootErr != {} then ObjectFail(selectionErr + rootErr)
          else ObjectExclude(workload, selection, rootSelection))
    case ObjectExclude(workload, selection, rootSelection) =>
      var (s', err) := ExcludeSelected(s, key, workload, selection, rootSelection);
      (s', ObjectReturn(err))
    case ObjectRegister(workload, selection, rootSelection) =>
      var (s', err) := RegisterSelectedRoot(e, s, key, workload, selection, rootSelection);
      (s', ObjectReturn(err))
    case ObjectFail(err) => (RecordDiscoveryFailure(s, key, err), ObjectReturn(err))
    case ObjectUntrack => (RemoveSelectedMembership(s, key), ObjectReturn({}))
    case ObjectReturn(_) => (s, pc)
  }

  /** What a step asks the cluster to watch. */
  function ObjectRequest(key: JobKey, pc: ObjectPc): Option<Request> {
    match pc
    case ObjectEnsure(selection) => Some(Request(selection.selection.gvk, key.obj.namespace, false))
    case ObjectEnsureOwner(_, _, ref, _, _) => Some(Request(ref.gvk, ref.namespace, true))
    case _ => None
  }

  /** The lock section a step runs. */
  function ObjectOp(key: JobKey, pc: ObjectPc): Option<SelectedOp> {
    match pc
    case ObjectTrack => Some(Track(key))
    case ObjectReplace(replacement, selection) => Some(Retrack(key, replacement, selection))
    case ObjectExclude(workload, selection, rootSelection) => Some(Exclude(key, workload, selection, rootSelection))
    case ObjectRegister(workload, selection, rootSelection) => Some(Register(key, workload, selection, rootSelection))
    case ObjectFail(err) => Some(Fail(key, err))
    case ObjectUntrack => Some(Untrack(key))
    case _ => None
  }

  lemma ObjectStepIs(e: Env, s: State, key: JobKey, pc: ObjectPc, input: Input, id: nat)
    ensures StepObjectProgram(e, s, key, pc, input, id).0
         == if ObjectRequest(key, pc).Some? then ServeRequest(e, s, ObjectRequest(key, pc), input.mapping, id)
            else if ObjectOp(key, pc).Some? then StepSelected(e, s, ObjectOp(key, pc).value)
            else s
  {
    hide Lookup, VisitObject, MayVisit, Ensure, ReplaceSelectedTracking, ExcludeSelected, RegisterSelectedRoot, RemoveSelectedMembership;
  }

  // ---------------------------------------------------------------- the sources worker (sources.go)

  datatype SyncPc =
    | SyncIdle
    | SyncStart
    | SyncPrepare
    | SyncAsk(requests: set<WatchKey>, err: Failure)
    | SyncReturn(err: Failure)

  // ---------------------------------------------------------------- the whole

  datatype Whole = Whole(sys: System, objects: map<JobKey, ObjectPc>, objectDelayed: set<JobKey>, sync: SyncPc, syncDelayed: bool)

  datatype WholeAction =
    | Other(a: Action)
    | BeginObject(key: JobKey)
    | StepObject(key: JobKey, input: Input)
    | EndObject(key: JobKey)
    | AgainObject(key: JobKey)
    | BeginSync
    | OpenNamespaces(mapping: Failure)
    | Prepare(offered: map<GroupKind, Selection>, err: Failure, order: SyncOrder)
    | Ask(request: WatchKey, mapping: Failure)
    | EndSync
    | AgainSync

  /** What the rest of the system does by itself. */
  predicate Elsewhere(a: Action) {
    !a.SyncSources? && !a.StartWatch? && !a.Selected? && !a.TakeObject? && !a.RetryObject?
    && !a.TakeSync? && !a.RetrySync?
  }

  ghost predicate WholeEnabled(e: Env, w: Whole, a: WholeAction) {
    match a
    case Other(b) => Elsewhere(b) && Enabled(e, w.sys, b)
    case BeginObject(key) => SelectedJob(key) in w.sys.s.queues.work && key !in w.objects
    case StepObject(key, _) => key in w.objects && !w.objects[key].ObjectReturn?
    case EndObject(key) => key in w.objects && w.objects[key].ObjectReturn?
    case AgainObject(key) => key in w.objectDelayed
    case BeginSync => w.sys.s.queues.sync && w.sync.SyncIdle?
    case OpenNamespaces(_) => w.sync.SyncStart?
    case Prepare(offered, err, order) => w.sync.SyncPrepare? && Enabled(e, w.sys, SyncSources(offered, err, order))
    case Ask(request, _) => w.sync.SyncAsk? && request in w.sync.requests
    case EndSync => w.sync.SyncReturn? || (w.sync.SyncAsk? && w.sync.requests == {})
    case AgainSync => w.syncDelayed
  }

  /** The action of ControllerSystem that a step of the whole is, if it touches the shared state. */
  ghost function Part(e: Env, w: Whole, a: WholeAction): Option<Action>
    requires WholeEnabled(e, w, a)
  {
    match a
    case Other(b) => Some(b)
    case BeginObject(key) => Some(TakeObject(key))
    case StepObject(key, input) =>
      var request, op := ObjectRequest(key, w.objects[key]), ObjectOp(key, w.objects[key]);
      if request.Some? then Some(StartWatch(request.value.gvk, request.value.namespace, request.value.metadataOnly, input.mapping))
      else if op.Some? then Some(Selected(op.value))
      else None
    case EndObject(_) => None
    case AgainObject(key) => Some(RetryObject(key))
    case BeginSync => Some(TakeSync)
    case OpenNamespaces(mapping) => if e.scoped then Some(StartWatch(NAMESPACE_GVK, 0, false, mapping)) else None
    case Prepare(offered, err, order) => Some(SyncSources(offered, err, order))
    case Ask(request, mapping) => Some(StartWatch(request.gvk, request.namespace, false, mapping))
    case EndSync => None
    case AgainSync => Some(RetrySync)
  }

  ghost function WholeNext(e: Env, w: Whole, a: WholeAction): Whole
    requires WholeEnabled(e, w, a)
  {
    var s := w.sys.s;
    match a
    case Other(b) => w.(sys := Next(e, w.sys, b))
    case BeginObject(key) => w.(sys := w.sys.(s := TakeJobs(s, {}, {SelectedJob(key)})), objects := w.objects[key := ObjectStart])
    case StepObject(key, input) =>
      var (s', pc) := StepObjectProgram(e, s, key, w.objects[key], input, w.sys.nextWatch);
      w.(sys := w.sys.(s := s', nextWatch := w.sys.nextWatch + if ObjectRequest(key, w.objects[key]).Some? then 1 else 0),
         objects := w.objects[key := pc])
    case EndObject(key) =>
      w.(objects := w.objects - {key}, objectDelayed := if w.objects[key].err != {} then w.objectDelayed + {key} else w.objectDelayed)
    case AgainObject(key) => w.(sys := w.sys.(s := AddWork(s, {SelectedJob(key)})), objectDelayed := w.objectDelayed - {key})
    case BeginSync => w.(sys := w.sys.(s := s.(queues := s.queues.(sync := false))), sync := SyncStart)
    case OpenNamespaces(mapping) =>
      if e.scoped then
        var (s', err) := Ensure(e, s, NAMESPACE_GVK, 0, false, mapping, w.sys.nextWatch);
        w.(sys := w.sys.(s := s', nextWatch := w.sys.nextWatch + 1), sync := if err != {} then SyncReturn(err) else SyncPrepare)
      else w.(sync := SyncPrepare)
    case Prepare(offered, err, order) =>
      var s' := PrepareWatchRequests(e, s, offered, err, order);
      w.(sys := w.sys.(s := s'),
         sync := if e.scoped && !NamespaceWatchReady(s.cache) then SyncReturn({Pending}) else SyncAsk(WatchRequests(e, s'), err))
    case Ask(request, mapping) =>
      var (s', err) := Ensure(e, s, request.gvk, request.namespace, false, mapping, w.sys.nextWatch);
      w.(sys := w.sys.(s := s', nextWatch := w.sys.nextWatch + 1), sync := SyncAsk(w.sync.requests - {request}, w.sync.err + err))
    case EndSync =>
      w.(sync := SyncIdle, syncDelayed := w.syncDelayed || w.sync.err != {})
    case AgainSync => w.(sys := w.sys.(s := s.(queues := s.queues.(sync := true))), syncDelayed := false)
  }

  function Beginning(e: Env): Whole { Whole(Initial(e), map[], {}, SyncIdle, false) }

  /** The whole after a run; an action that is not possible when its turn comes does nothing. */
  ghost function WholeRun(e: Env, actions: seq<WholeAction>): Whole
    decreases |actions|
  {
    if actions == [] then Beginning(e)
    else
      var w := WholeRun(e, actions[..|actions| - 1]);
      var a := actions[|actions| - 1];
      if WholeEnabled(e, w, a) then WholeNext(e, w, a) else w
  }

  // ---------------------------------------------------------------- the whole is a run of the rest

  predicate OfKey(key: JobKey, uid: Uid) { key.uid != 0 ==> uid == key.uid }

  /** What a job knows between its steps. */
  predicate ObjectFacts(e: Env, key: JobKey, pc: ObjectPc) {
    match pc
    case ObjectReplace(replacement, selection) => replacement.Some? ==> Conforms(e, replacement.value)
    case ObjectClimb(o, path, ref, _, _) => Conforms(e, o) && OfKey(key, o.uid) && Climbs(e, o, path, ref)
    case ObjectEnsureOwner(o, path, ref, _, _) => Conforms(e, o) && OfKey(key, o.uid) && Climbs(e, o, path, ref) && MayVisit(path, ref)
    case ObjectReadOwner(o, path, ref, _, _) => Conforms(e, o) && OfKey(key, o.uid) && Climbs(e, o, path, ref) && MayVisit(path, ref)
    case ObjectDefineRoot(workload, _, _) => ChainEnds(e, workload) && OfKey(key, workload.path[0].uid)
    case ObjectExclude(workload, _, rootSelection) =>
      ChainEnds(e, workload) && OfKey(key, workload.path[0].uid) && !e.resourceSelected(RootGvk(workload.root.gvk, rootSelection.selection))
    case ObjectRegister(workload, _, rootSelection) =>
      ChainEnds(e, workload) && OfKey(key, workload.path[0].uid) && e.resourceSelected(RootGvk(workload.root.gvk, rootSelection.selection))
    case ObjectFail(err) => err != {}
    case _ => true
  }

  lemma ObjectVisits(e: Env, c: Cache, key: JobKey, o: Object, path: seq<ObjectRef>, ref: ObjectRef, selection: Stamped, selectionErr: Failure, next: nat)
    requires CacheInv(e, c, next) && Lookup(c, ref, false).Found?
    requires Conforms(e, o) && OfKey(key, o.uid) && Climbs(e, o, path, ref) && MayVisit(path, ref)
    ensures ObjectFacts(e, key, AfterObjectVisit(o, VisitObject(e.ignored, path, ref, Lookup(c, ref, false).obj), selection, selectionErr))
  {
    hide CacheInv, Lookup, Conforms, IsFull, KnownRef, ControllerOwner, MayVisit;
    LookupFacts(e, c, ref, false, next);
    ClimbHasUid(e, o, path, ref);
    var owner := Lookup(c, ref, false).obj;
    ConformingContent(e, owner);
    var visit := VisitObject(e.ignored, path, ref, owner);
    if !visit.VisitFailed? {
      var here := RefOf(owner);
      var longer := path + [here];
      LongerChain(e, path, ref, here);
      match visit
      case VisitRoot(workload) => assert workload.path == longer && workload.root == here;
      case VisitOwner(path', _) => assert path' == longer;
    }
  }

  lemma ObjectFactsStep(e: Env, s: State, key: JobKey, pc: ObjectPc, input: Input, id: nat, next: nat)
    requires CacheInv(e, s.cache, next) && ObjectFacts(e, key, pc)
    ensures ObjectFacts(e, key, StepObjectProgram(e, s, key, pc, input, id).1)
  {
    hide CacheInv, Lookup, Conforms, VisitObject, MayVisit, Ensure, ReplaceSelectedTracking, ExcludeSelected, RegisterSelectedRoot,
         RemoveSelectedMembership, ChainEnds, ChainLinks, LookupDefinition;
    match pc
    case ObjectReadSelected(selection) =>
      if Lookup(s.cache, SelectedRef(key, selection.selection), true).Found? {
        LookupFacts(e, s.cache, SelectedRef(key, selection.selection), true, next);
      }
    case ObjectRead(_, _) =>
      if Lookup(s.cache, JobRef(key), false).Found? {
        LookupFacts(e, s.cache, JobRef(key), false, next);
        StartsClimb(e, Lookup(s.cache, JobRef(key), false).obj);
      } else {
        MissingHasCause(s.cache, JobRef(key), false);
      }
    case ObjectClimb(o, path, ref, selection, selectionErr) =>
      if MayVisit(path, ref) && Lookup(s.cache, ref, false).Found? {
        ObjectVisits(e, s.cache, key, o, path, ref, selection, selectionErr, next);
      }
    case ObjectReadOwner(o, path, ref, selection, selectionErr) =>
      if Lookup(s.cache, ref, false).Found? {
        ObjectVisits(e, s.cache, key, o, path, ref, selection, selectionErr, next);
      }
    case _ =>
  }

  lemma StartsClimb(e: Env, o: Object)
    ensures Climbs(e, o, [], RefOf(o))
  {
  }

  /** The actions of ControllerSystem a run of the whole performs. */
  ghost function Parts(e: Env, actions: seq<WholeAction>): seq<Action>
    decreases |actions|
  {
    if actions == [] then []
    else
      var past := actions[..|actions| - 1];
      var w, a := WholeRun(e, past), actions[|actions| - 1];
      if WholeEnabled(e, w, a) && Part(e, w, a).Some? then Parts(e, past) + [Part(e, w, a).value] else Parts(e, past)
  }

  ghost predicate ObjectsKnow(e: Env, w: Whole) {
    forall key :: key in w.objects ==> ObjectFacts(e, key, w.objects[key])
  }

  /** A step of the whole is the action it stands for. */
  lemma PartIs(e: Env, w: Whole, a: WholeAction)
    requires WholeEnabled(e, w, a) && ObjectsKnow(e, w)
    ensures var part := Part(e, w, a);
            if part.Some? then Enabled(e, w.sys, part.value) && WholeNext(e, w, a).sys == Next(e, w.sys, part.value)
            else WholeNext(e, w, a).sys == w.sys
  {
    hide StepObjectProgram, StepSelected, Ensure, PrepareWatchRequests, StepPodProgram, StepRootProgram, ApplyWatchEvent, Replace, UpdateWatchHealth;
    match a
    case StepObject(key, input) =>
      ObjectStepIs(e, w.sys.s, key, w.objects[key], input, w.sys.nextWatch);
      assert ObjectFacts(e, key, w.objects[key]);
      hide ChainEnds, Conforms, Climbs;
    case Other(b) =>
      hide Enabled, Next;
    case _ =>
  }

  lemma NextKnows(e: Env, w: Whole, a: WholeAction)
    requires WholeEnabled(e, w, a) && ObjectsKnow(e, w) && CacheInv(e, w.sys.s.cache, w.sys.nextWatch)
    ensures ObjectsKnow(e, WholeNext(e, w, a))
  {
    hide StepObjectProgram, Ensure, PrepareWatchRequests, ObjectFacts, CacheInv, Next, Enabled;
    match a
    case StepObject(key, input) => ObjectFactsStep(e, w.sys.s, key, w.objects[key], input, w.sys.nextWatch, w.sys.nextWatch);
    case BeginObject(key) => assert ObjectFacts(e, key, ObjectStart) by { StartKnows(e, key); }
    case _ =>
  }

  lemma StartKnows(e: Env, key: JobKey)
    ensures ObjectFacts(e, key, ObjectStart)
  {
  }

  /** So whatever holds of every run of ControllerSystem holds of the whole. */
  lemma {:induction false} WholeIsRun(e: Env, actions: seq<WholeAction>)
    ensures WholeRun(e, actions).sys == Run(e, Parts(e, actions)) && ObjectsKnow(e, WholeRun(e, actions))
    decreases |actions|
  {
    if actions != [] {
      var past := actions[..|actions| - 1];
      var w, a := WholeRun(e, past), actions[|actions| - 1];
      WholeIsRun(e, past);
      if WholeEnabled(e, w, a) {
        PartIs(e, w, a);
        RunKeepsCache(e, Parts(e, past));
        NextKnows(e, w, a);
        if Part(e, w, a).Some? {
          RunOneMore(e, Parts(e, past), Part(e, w, a).value);
        }
      }
      hide Run, Next, Enabled, WholeEnabled, WholeNext, Part, ObjectsKnow, CacheInv;
    }
  }
}
