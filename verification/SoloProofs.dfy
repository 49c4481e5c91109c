/** The Pod's job run alone is the atomic reconciliation: whatever ReconcileNow attributes, the job's own steps
    compute and publish when nothing comes between them. */
module SoloProofs {
  import opened Basics
  import opened Discovery
  import opened ControllerModel
  import opened ControllerSystem
  import opened CacheProofs
  import opened JobProofs
  import opened MemberProofs
  import opened StampProofs
  import opened WorkloadProofs
  import opened PodProofs
  import opened SourceProofs
  import opened AtomicProofs

  /** `steps` lock sections of the Pod's job, with nothing between them and no request failing. */
  function Solo(e: Env, s: State, key: JobKey, pc: PodPc, id: nat, steps: nat): (State, PodPc)
    decreases steps
  {
    if steps == 0 then (s, pc)
    else
      var (s', pc') := StepPodProgram(e, s, key, pc, Input({}, {}), id);
      Solo(e, s', key, pc', id + 1, steps - 1)
  }

  lemma SoloStep(e: Env, s: State, key: JobKey, pc: PodPc, id: nat, steps: nat, t: State, pc': PodPc)
    requires StepPodProgram(e, s, key, pc, Input({}, {}), id) == (t, pc')
    ensures Solo(e, s, key, pc, id, steps + 1) == Solo(e, t, key, pc', id + 1, steps)
  {
  }

  // ---------------------------------------------------------------- the walk

  /** What was read once is read again by its own reference. */
  lemma FoundAgain(e: Env, c: Cache, ref: ObjectRef, full: bool, next: nat)
    requires CacheInv(e, c, next) && Lookup(c, ref, full).Found?
    ensures var o := Lookup(c, ref, full).obj; Lookup(c, RefOf(o), full) == Found(o)
  {
    LookupFacts(e, c, ref, full, next);
    hide Conforms, IsFull, Covers;
  }

  lemma LessRead(c: Cache, ref: ObjectRef)
    requires Lookup(c, ref, true).Found?
    ensures Lookup(c, ref, false) == Lookup(c, ref, true)
  {
  }

  lemma VisitEnds(ignored: set<Gvk>, path: seq<ObjectRef>, ref: ObjectRef, o: Object)
    requires o.gvk == ref.gvk
    ensures var visit := VisitObject(ignored, path, ref, o);
            && (visit.VisitRoot? ==> visit.workload.path == path + [RefOf(o)] && visit.workload.root == RefOf(o))
            && (visit.VisitOwner? ==> visit.path == path + [RefOf(o)])
  {
    hide ControllerOwner;
  }

  lemma WalkUnfolds(c: Cache, ignored: set<Gvk>, path: seq<ObjectRef>, ref: ObjectRef)
    requires Walk(Reader(c), ignored, path, ref).Walked?
    ensures MayVisit(path, ref) && Lookup(c, ref, false).Found?
    ensures var visit := VisitObject(ignored, path, ref, Lookup(c, ref, false).obj);
            && !visit.VisitFailed? && (visit.VisitRoot? ==> Walk(Reader(c), ignored, path, ref) == Walked(visit.workload))
            && (visit.VisitOwner? ==> |visit.path| == |path| + 1 && Walk(Reader(c), ignored, visit.path, visit.ref) == Walk(Reader(c), ignored, path, ref))
  {
    hide VisitObject, Lookup;
    assert Reader(c)(ref) == Lookup(c, ref, false);
    assert VisitObject(ignored, path, ref, Lookup(c, ref, false).obj).VisitOwner? ==>
             |VisitObject(ignored, path, ref, Lookup(c, ref, false).obj).path| == |path| + 1 by { OneLonger(ignored, path, ref, Lookup(c, ref, false).obj); }
  }

  lemma OneLonger(ignored: set<Gvk>, path: seq<ObjectRef>, ref: ObjectRef, o: Object)
    ensures var visit := VisitObject(ignored, path, ref, o); visit.VisitOwner? ==> |visit.path| == |path| + 1
  {
  }

  lemma ExtendCurrent(c: Cache, path: seq<ObjectRef>, ref: ObjectRef)
    requires IsPathCurrent(c, path) && Lookup(c, ref, false).Found?
    ensures IsPathCurrent(c, path + [ref])
  {
    hide Lookup;
  }

  /** Every object a finished walk visited is still what was read. */
  lemma {:induction false} WalkIsCurrent(e: Env, c: Cache, path: seq<ObjectRef>, ref: ObjectRef, next: nat)
    requires CacheInv(e, c, next) && IsPathCurrent(c, path) && Walk(Reader(c), e.ignored, path, ref).Walked?
    ensures var w := Walk(Reader(c), e.ignored, path, ref).workload;
            |w.path| > |path| && IsPathCurrent(c, w.path) && exists o :: Conforms(e, o) && RefOf(o) == w.root
    decreases MAX_PATH - |path|
  {
    WalkUnfolds(c, e.ignored, path, ref);
    var o := Lookup(c, ref, false).obj;
    LookupFacts(e, c, ref, false, next);
    FoundAgain(e, c, ref, false, next);
    VisitEnds(e.ignored, path, ref, o);
    ExtendCurrent(c, path, RefOf(o));
    var visit := VisitObject(e.ignored, path, ref, o);
    hide VisitObject, CacheInv, Lookup, Conforms, Walk, Reader, IsPathCurrent, MayVisit;
    if visit.VisitOwner? {
      assert |visit.path| <= MAX_PATH by { ShortPath(path, ref); }
      WalkIsCurrent(e, c, visit.path, visit.ref, next);
    }
  }

  lemma ShortPath(path: seq<ObjectRef>, ref: ObjectRef)
    requires MayVisit(path, ref)
    ensures |path| < MAX_PATH
  {
  }

  /** The job climbs as the walk does. */
  lemma {:induction false} SoloClimbs(e: Env, s: State, key: JobKey, pod: Object, path: seq<ObjectRef>, ref: ObjectRef, id: nat, steps: nat)
    returns (n: nat)
    requires Walk(Reader(s.cache), e.ignored, path, ref).Walked?
    ensures Solo(e, s, key, PodClimb(pod, path, ref), id, n + steps)
         == Solo(e, s, key, PodDefine(pod, Walk(Reader(s.cache), e.ignored, path, ref).workload), id + n, steps)
    decreases MAX_PATH - |path|
  {
    WalkUnfolds(s.cache, e.ignored, path, ref);
    var visit := VisitObject(e.ignored, path, ref, Lookup(s.cache, ref, false).obj);
    assert StepPodProgram(e, s, key, PodClimb(pod, path, ref), Input({}, {}), id) == (s, AfterVisit(pod, visit));
    ShortPath(path, ref);
    hide VisitObject, StepPodProgram, Lookup, Solo, Walk, Reader, MayVisit;
    n := 0;
    if visit.VisitOwner? {
      n := SoloClimbs(e, s, key, pod, visit.path, visit.ref, id + 1, steps);
    }
    SoloStep(e, s, key, PodClimb(pod, path, ref), id, n + steps, s, AfterVisit(pod, visit));
    n := n + 1;
  }

  // ---------------------------------------------------------------- after the walk

  /** The object a root reference names has the reference's group, kind, namespace, name and UID. */
  lemma SameIdentity(e: Env, o: Object, root: Object)
    requires Conforms(e, o) && Conforms(e, root) && o.uid == root.uid
    ensures o.namespace == root.namespace && o.name == root.name && o.gvk.groupKind == root.gvk.groupKind
  {
  }

  lemma SameOwnership(e: Env, c: Cache, d: Definitions, ref: ObjectRef, other: ObjectRef)
    requires ref.gvk.groupKind == other.gvk.groupKind && ref.namespace == other.namespace && ref.name == other.name && ref.uid == other.uid
    ensures HasRootOwnership(e, c, d, ref) == HasRootOwnership(e, c, d, other)
  {
    hide IsTopOwner;
    assert forall key :: SourceView(c, key, ref) == SourceView(c, key, other);
  }

  lemma RegisterKeeps(e: Env, s: State, key: JobKey, workload: Workload)
    requires IsNamespaceInScope(e, s.scopes, key.obj.namespace) && IsNamespaceInScope(e, s.scopes, workload.root.namespace)
    requires IsPathCurrent(s.cache, workload.path) && HasRootOwnership(e, s.cache, s.defs, workload.root)
    ensures var (t, err) := RegisterPodRoot(e, s, key, workload);
            err == {} && t.cache == s.cache && t.defs == s.defs && t.watchFailures == s.watchFailures
  {
    EnsureRootTracks(s, workload);
    hide EnsureRoot, IsPathCurrent, HasRootOwnership, Lookup;
  }

  /** Everything the job needs to finish: the scope, the root's ownership, and the root read in full. */
  predicate Finishes(e: Env, s: State, key: JobKey, pod: Object, w: Workload, root: Object) {
    && IsNamespaceInScope(e, s.scopes, key.obj.namespace) && IsNamespaceInScope(e, s.scopes, w.root.namespace)
    && IsPathCurrent(s.cache, w.path)
    && HasRootOwnership(e, s.cache, s.defs, w.root) && HasRootOwnership(e, s.cache, s.defs, RefOf(root))
    && (var (selection, err) := LookupDefinition(s.defs, w.root.gvk);
        var ref := RootBodyRef(w.root, selection.selection);
        && err == {} && root.gvk == ref.gvk
        && Lookup(s.cache, ref, true) == Found(root) && Lookup(s.cache, RefOf(root), false) == Found(root)
        && WatchKey(ref.gvk, ref.namespace) !in s.watchFailures
        && IsDefinitionCurrent(s.defs, RefOf(root), selection))
    && Accepts(e, pod, root)
  }

  /** The last five steps: definition, registration, root, evaluation, publication. */
  lemma SoloFinishes(e: Env, s: State, key: JobKey, pod: Object, w: Workload, root: Object, record: PodRecord, id: nat)
    requires Finishes(e, s, key, pod, w, root)
    requires EvaluatePod(e, LookupDefinition(s.defs, w.root.gvk).0.selection, pod, root, w.resolution) == PodEvaluated(record, false)
    ensures var (t, pc) := Solo(e, s, key, PodDefine(pod, w), id, 5);
            && pc == PodReturn({})
            && record.uid in t.pubs.pods && t.pubs.pods[record.uid] == PodResult(record, RefOf(pod), true, NoReason)
  {
    var selection := LookupDefinition(s.defs, w.root.gvk).0;
    var input := Input({}, {});
    RegisterKeeps(e, s, key, w);
    var t := RegisterPodRoot(e, s, key, w).0;
    var ref := RootBodyRef(w.root, selection.selection);
    hide RegisterPodRoot, Lookup, HasRootOwnership, IsPathCurrent, EvaluatePod, Solo, IsNamespaceInScope, IsDefinitionCurrent, LookupDefinition;
    assert StepPodProgram(e, s, key, PodDefine(pod, w), input, id) == (s, PodRegister(pod, w, selection, {}));
    SoloStep(e, s, key, PodDefine(pod, w), id, 4, s, PodRegister(pod, w, selection, {}));
    assert StepPodProgram(e, s, key, PodRegister(pod, w, selection, {}), input, id + 1) == (t, PodReadRoot(pod, w, selection, {}));
    SoloStep(e, s, key, PodRegister(pod, w, selection, {}), id + 1, 3, t, PodReadRoot(pod, w, selection, {}));
    assert StepPodProgram(e, t, key, PodReadRoot(pod, w, selection, {}), input, id + 2) == (t, PodCheckWatch(pod, w, selection, {}, Found(root)));
    SoloStep(e, t, key, PodReadRoot(pod, w, selection, {}), id + 2, 2, t, PodCheckWatch(pod, w, selection, {}, Found(root)));
    SoloPublishes(e, t, key, pod, w, root, selection, record, id + 3);
  }

  lemma SoloPublishes(e: Env, s: State, key: JobKey, pod: Object, w: Workload, root: Object, selection: Stamped, record: PodRecord, id: nat)
    requires IsPathCurrent(s.cache, w.path) && HasRootOwnership(e, s.cache, s.defs, RefOf(root)) && IsDefinitionCurrent(s.defs, RefOf(root), selection)
    requires Lookup(s.cache, RefOf(root), false) == Found(root) && Accepts(e, pod, root)
    requires var ref := RootBodyRef(w.root, selection.selection); WatchKey(ref.gvk, ref.namespace) !in s.watchFailures
    requires EvaluatePod(e, selection.selection, pod, root, w.resolution) == PodEvaluated(record, false)
    ensures var (t, pc) := Solo(e, s, key, PodCheckWatch(pod, w, selection, {}, Found(root)), id, 2);
            && pc == PodReturn({})
            && record.uid in t.pubs.pods && t.pubs.pods[record.uid] == PodResult(record, RefOf(pod), true, NoReason)
  {
    hide Lookup, HasRootOwnership, IsPathCurrent, EvaluatePod, IsDefinitionCurrent, Solo;
    var input := Input({}, {});
    var publish := PodPublish(pod, w, root, selection, record, false);
    assert StepPodProgram(e, s, key, PodCheckWatch(pod, w, selection, {}, Found(root)), input, id) == (s, publish);
    SoloStep(e, s, key, PodCheckWatch(pod, w, selection, {}, Found(root)), id, 1, s, publish);
    var result := PodResult(record, RefOf(pod), true, NoReason);
    var (t, err) := PublishPod(e, s, w.path, RefOf(root), selection, result, false);
    assert err == {} && t.pubs.pods == s.pubs.pods[record.uid := result];
    hide PublishPod;
    SoloStep(e, s, key, publish, id + 1, 0, t, PodReturn({}));
    SoloStays(e, t, key, PodReturn({}), id + 2);
  }

  lemma SoloStays(e: Env, s: State, key: JobKey, pc: PodPc, id: nat)
    ensures Solo(e, s, key, pc, id, 0) == (s, pc)
  {
  }

  // ---------------------------------------------------------------- the whole job

  /** The Pod and its root are in scope and served by full sources, and the root's watch did not fail to start. */
  predicate Served(e: Env, s: State, key: JobKey, root: ObjectRef) {
    && IsNamespaceInScope(e, s.scopes, key.obj.namespace) && IsNamespaceInScope(e, s.scopes, root.namespace)
    && Lookup(s.cache, JobRef(key), true).Found? && Lookup(s.cache, root.(version := 0), true).Found?
    && WatchKey(root.gvk, root.namespace) !in s.watchFailures
  }

  lemma FullIsContent(e: Env, c: Cache, ref: ObjectRef, next: nat)
    requires CacheInv(e, c, next) && Lookup(c, ref, true).Found?
    ensures var o := Lookup(c, ref, true).obj;
            && Lookup(c, ref, false) == Found(o) && Lookup(c, RefOf(o), false) == Found(o)
            && Content(e, RefOf(o)) == o && Conforms(e, o) && o.gvk == ref.gvk && (ref.uid != 0 ==> o.uid == ref.uid)
  {
    LookupFacts(e, c, ref, true, next);
    LessRead(c, ref);
    FoundAgain(e, c, ref, false, next);
    ConformingContent(e, Lookup(c, ref, true).obj);
    hide Lookup, CacheInv, Conforms;
  }

  /** The job's root body is the one the verdict was made with. */
  lemma RootIsJudged(e: Env, s: State, pod: Object, w: Workload, o: Object, record: PodRecord, next: nat)
    requires CacheInv(e, s.cache, next) && DefinitionsOk(s.defs) && Conforms(e, o) && RefOf(o) == w.root && Content(e, RefOf(pod)) == pod
    requires JudgeNow(e, s, pod, w) == Attributed(record, false)
    requires Lookup(s.cache, record.workload.(version := 0), true).Found?
    ensures var root := Lookup(s.cache, record.workload.(version := 0), true).obj;
            var selection := LookupDefinition(s.defs, w.root.gvk).0;
            && RootBodyRef(w.root, selection.selection) == record.workload.(version := 0) && record.workload == RefOf(root)
            && root.namespace == w.root.namespace && root.name == w.root.name && root.uid == w.root.uid
            && root.gvk.groupKind == w.root.gvk.groupKind
            && LookupDefinition(s.defs, w.root.gvk).1 == {} && IsDefinitionCurrent(s.defs, RefOf(root), selection)
            && Accepts(e, pod, root) && EvaluatePod(e, selection.selection, pod, root, w.resolution) == PodEvaluated(record, false)
  {
    var (selection, err) := LookupDefinition(s.defs, w.root.gvk);
    var ref := RootBodyRef(w.root, selection.selection);
    var root := Lookup(s.cache, ref, false).obj;
    LookupFacts(e, s.cache, ref, false, next);
    assert ref.uid != 0 by { hide Lookup, EvaluatePod; }
    SameIdentity(e, o, root);
    ConformingContent(e, root);
    assert record.workload == RefOf(root) by { hide Lookup, Conforms, CacheInv; }
    assert ref == record.workload.(version := 0);
    FullIsContent(e, s.cache, ref, next);
    hide Lookup, Conforms, CacheInv, EvaluatePod, Accepts;
  }

  /** Whatever the atomic reconciliation attributes, the job alone computes and publishes. */
  lemma SoloAttributes(e: Env, s: State, key: JobKey, record: PodRecord, id: nat, next: nat) returns (n: nat)
    requires CacheInv(e, s.cache, next) && DefinitionsOk(s.defs) && PodKeyOk(e, key)
    requires ReconcileNow(e, s, key) == Attributed(record, false)
    requires Served(e, s, key, record.workload) && HasRootOwnership(e, s.cache, s.defs, record.workload)
    ensures var (t, pc) := Solo(e, s, key, PodStart, id, n);
            && pc == PodReturn({})
            && record.uid in t.pubs.pods && t.pubs.pods[record.uid].record == record && CleanPod(t.pubs.pods[record.uid])
  {
    hide Solo, Walk, HasRootOwnership, EvaluatePod, CacheInv, JudgeNow;
    var pod := Lookup(s.cache, JobRef(key), true).obj;
    FullIsContent(e, s.cache, JobRef(key), next);
    hide Lookup;
    var w := Walk(Reader(s.cache), e.ignored, [], RefOf(pod)).workload;
    WalkIsCurrent(e, s.cache, [], RefOf(pod), next);
    var o :| Conforms(e, o) && RefOf(o) == w.root;
    RootIsJudged(e, s, pod, w, o, record, next);
    var root := Lookup(s.cache, record.workload.(version := 0), true).obj;
    FullIsContent(e, s.cache, record.workload.(version := 0), next);
    SameOwnership(e, s.cache, s.defs, w.root, RefOf(root));
    hide Conforms, IsDefinitionCurrent, LookupDefinition, IsPathCurrent;
    assert Finishes(e, s, key, pod, w, root);
    n := SoloClimbs(e, s, key, pod, [], RefOf(pod), id + 2, 5);
    SoloFinishes(e, s, key, pod, w, root, record, id + 2 + n);
    SoloStarts(e, s, key, pod, id, n + 5);
    n := n + 7;
  }

  lemma SoloStarts(e: Env, s: State, key: JobKey, pod: Object, id: nat, steps: nat)
    requires !key.rescan && IsNamespaceInScope(e, s.scopes, key.obj.namespace) && Lookup(s.cache, JobRef(key), true) == Found(pod)
    requires e.podSelector(pod.labels)
    ensures Solo(e, s, key, PodStart, id, steps + 2) == Solo(e, s, key, PodClimb(pod, [], RefOf(pod)), id + 2, steps)
  {
    hide Lookup, Solo, IsNamespaceInScope;
    SoloStep(e, s, key, PodStart, id, steps + 1, s, PodLoad);
    SoloStep(e, s, key, PodLoad, id + 1, steps, s, PodClimb(pod, [], RefOf(pod)));
  }

  lemma PublishedOwns(e: Env, s: State, key: JobKey, pc: PodPc, input: Input, next: nat)
    requires pc.PodPublish? && PodFacts(e, key, pc) && PodsFiled(s)
    requires var (t, pc') := StepPodProgram(e, s, key, pc, input, next);
             pc' == PodReturn({}) && key.uid in t.pubs.pods && CleanPod(t.pubs.pods[key.uid])
    ensures PodKeyOk(e, key)
    ensures var record := StepPodProgram(e, s, key, pc, input, next).0.pubs.pods[key.uid].record;
            record.uid == key.uid && HasRootOwnership(e, s.cache, s.defs, record.workload)
  {
    PublishedBodies(e, key, pc);
    assert PodKeyOk(e, key) by { hide PodKeyOk, PodBody, ClimbedFrom, RootBody; }
    hide PodFacts;
    OwnStepResult(e, s, key, pc, input, next) by { hide StepPodProgram; assert PodFacts(e, key, pc); }
    hide StepPodProgram, HasRootOwnership, IsPathCurrent, IsDefinitionCurrent, Lookup;
  }

  /** A published record is what the job itself would compute, were it run at the moment of publication from its
      first step to its last without interruption. */
  lemma PublicationIsSolo(e: Env, actions: seq<Action>, key: JobKey, input: Input) returns (n: nat)
    requires var sys := Run(e, actions);
             && key in sys.pods && sys.pods[key].PodPublish?
             && var t := Next(e, sys, StepPod(key, input));
                t.pods[key] == PodReturn({}) && key.uid in t.s.pubs.pods && CleanPod(t.s.pubs.pods[key.uid])
                && Served(e, sys.s, key, t.s.pubs.pods[key.uid].record.workload)
    ensures var sys := Run(e, actions);
            var published := Next(e, sys, StepPod(key, input)).s.pubs.pods[key.uid];
            var (t, pc) := Solo(e, sys.s, key, PodStart, sys.nextWatch, n);
            && pc == PodReturn({})
            && key.uid in t.pubs.pods && t.pubs.pods[key.uid].record == published.record && CleanPod(t.pubs.pods[key.uid])
  {
    hide Run, PodFacts, StepPodProgram, ReconcileNow, Solo, Served, CacheInv, HasRootOwnership, PodsFiled, DefinitionsOk, CleanPod, PodKeyOk;
    PublicationIsAtomic(e, actions, key, input);
    RunFacts(e, actions, key);
    var sys := Run(e, actions);
    StepIs(e, sys, key, input);
    hide Next, Enabled;
    PublishedOwns(e, sys.s, key, sys.pods[key], input, sys.nextWatch);
    var record := StepPodProgram(e, sys.s, key, sys.pods[key], input, sys.nextWatch).0.pubs.pods[key.uid].record;
    n := SoloAttributes(e, sys.s, key, record, sys.nextWatch, sys.nextWatch);
  }

  lemma RunFacts(e: Env, actions: seq<Action>, key: JobKey)
    requires key in Run(e, actions).pods
    ensures var sys := Run(e, actions);
            PodFacts(e, key, sys.pods[key]) && PodsFiled(sys.s) && DefinitionsOk(sys.s.defs) && CacheInv(e, sys.s.cache, sys.nextWatch)
  {
    hide Run, PodFacts, RootFacts, CacheInv, PodsFiled, MembersInv, DefinitionsOk, JobKeysOk, PodSettled;
    RunKeepsJobs(e, actions);
    RunKeepsCache(e, actions);
    RunKeepsPods(e, actions);
  }

  lemma StepIs(e: Env, sys: System, key: JobKey, input: Input)
    requires key in sys.pods && !sys.pods[key].PodReturn?
    ensures var (t, pc) := StepPodProgram(e, sys.s, key, sys.pods[key], input, sys.nextWatch);
            Next(e, sys, StepPod(key, input)).s == t && Next(e, sys, StepPod(key, input)).pods == sys.pods[key := pc]
  {
    hide StepPodProgram;
  }
}
