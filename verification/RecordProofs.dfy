/** What is published, field by field: Pod records and workload results in terms of the evaluation the exporter delegates,
    the definitions and the objects. */
module RecordProofs {
  import opened Basics
  import opened Discovery
  import opened ControllerModel
  import opened ControllerSystem
  import opened CacheProofs
  import opened JobProofs
  import opened MemberProofs
  import opened StampProofs
  import opened WorkloadProofs
  import opened PodProofs
  import opened SourceProofs
  import opened AtomicProofs
  import opened SoloProofs
  import opened PodLawProofs

  // ---------------------------------------------------------------- Pod records

  /** The record of a Pod under a root: identity, owner, component and labels. */
  predicate RecordSays(e: Env, selection: Selection, pod: Object, root: Object, resolution: Resolution, record: PodRecord, labelFailed: bool) {
    && record.uid == pod.uid && record.name == pod.name && record.namespace == pod.namespace
    && record.workload == ObjectRef(root.gvk, root.namespace, root.name, root.uid, root.version)
    && record.resolution == Some(resolution)
    && (match selection.definition
        case Some(definition) =>
          && e.component(definition, pod, root) == Some(record.component)
          && record.karta == selection.origin.name && record.cluster == selection.origin.cluster
        case None => record.component == Component(0, 0, 0) && record.karta == 0 && !record.cluster)
    && e.podLabels(pod, root) == Some((record.labels, labelFailed))
  }

  /** Nothing to publish: the component or the labels cannot be evaluated. */
  predicate CannotEvaluate(e: Env, selection: Selection, pod: Object, root: Object) {
    || (selection.definition.Some? && e.component(selection.definition.value, pod, root).None?)
    || e.podLabels(pod, root).None?
  }

  lemma EvaluationSays(e: Env, selection: Selection, pod: Object, root: Object, resolution: Resolution, record: PodRecord, labelFailed: bool)
    ensures EvaluatePod(e, selection, pod, root, resolution) == PodEvaluated(record, labelFailed)
            <==> RecordSays(e, selection, pod, root, resolution, record, labelFailed)
    ensures EvaluatePod(e, selection, pod, root, resolution) == PodEvaluationFailed <==> CannotEvaluate(e, selection, pod, root)
  {
  }

  /** The objects a record rests on in a state: the Pod, the owner walk and the root body, all read now. */
  predicate RestsNow(e: Env, s: State, key: JobKey, pod: Object, workload: Workload, root: Object) {
    && Lookup(s.cache, JobRef(key), false) == Found(pod)
    && Walk(Reader(s.cache), e.ignored, [], RefOf(pod)) == Walked(workload)
    && (var selection := SelectionFor(s.defs, workload.root.gvk.groupKind);
        Lookup(s.cache, ObjectRef(if selection.definition.Some? then selection.gvk else workload.root.gvk,
                                  workload.root.namespace, workload.root.name, workload.root.uid, 0), false) == Found(root))
  }

  /** The atomic verdict attributes a record exactly when the objects can be read, nothing rejects them, the definition
      has no error, and the record says what the evaluation gives. */
  lemma VerdictSays(e: Env, s: State, key: JobKey, record: PodRecord)
    ensures ReconcileNow(e, s, key) == Attributed(record, false)
            <==> exists pod, workload, root ::
                   && RestsNow(e, s, key, pod, workload, root)
                   && (var selection := SelectionFor(s.defs, workload.root.gvk.groupKind);
                       var podBody, rootBody := Content(e, RefOf(pod)), Content(e, RefOf(root));
                       && s.defs.err == {} && selection.err == {}
                       && e.podSelector(podBody.labels) && e.objectSelector(rootBody.labels) && e.resourceSelected(rootBody.gvk)
                       && RecordSays(e, selection, podBody, rootBody, workload.resolution, record, false))
  {
    hide Lookup, Walk, RecordSays, EvaluatePod, Content;
    if ReconcileNow(e, s, key) == Attributed(record, false) {
      var pod := Lookup(s.cache, JobRef(key), false).obj;
      var workload := Walk(Reader(s.cache), e.ignored, [], RefOf(pod)).workload;
      var selection := SelectionFor(s.defs, workload.root.gvk.groupKind);
      var root := Lookup(s.cache, RootBodyRef(workload.root, selection), false).obj;
      assert RestsNow(e, s, key, pod, workload, root);
      EvaluationSays(e, selection, Content(e, RefOf(pod)), Content(e, RefOf(root)), workload.resolution, record, false);
    }
    forall pod, workload, root | RestsNow(e, s, key, pod, workload, root)
      ensures var selection := SelectionFor(s.defs, workload.root.gvk.groupKind);
              EvaluatePod(e, selection, Content(e, RefOf(pod)), Content(e, RefOf(root)), workload.resolution) == PodEvaluated(record, false)
              <==> RecordSays(e, selection, Content(e, RefOf(pod)), Content(e, RefOf(root)), workload.resolution, record, false)
    {
      EvaluationSays(e, SelectionFor(s.defs, workload.root.gvk.groupKind), Content(e, RefOf(pod)), Content(e, RefOf(root)), workload.resolution, record, false);
    }
  }

  /** An object that owns itself: no controller, or an ignored one. */
  predicate Top(e: Env, o: Object) {
    match ControllerOwner(o.owners)
    case Malformed => false
    case NoOwner => true
    case Owner(owner) => owner.gvk in e.ignored
  }

  lemma OwnershipMeansTop(e: Env, c: Cache, d: Definitions, ref: ObjectRef, next: nat)
    requires CacheInv(e, c, next) && HasRootOwnership(e, c, d, ref) && Readable(c, KeyOf(ref)) && c.objects[KeyOf(ref)].obj.uid == ref.uid
    requires var selection := SelectionFor(d, ref.gvk.groupKind); selection.definition.Some? ==> selection.gvk == ref.gvk
    ensures Top(e, c.objects[KeyOf(ref)].obj)
  {
    var source := c.objects[KeyOf(ref)].source;
    assert SourceView(c, source, ref) == Some(c.objects[KeyOf(ref)].obj);
    hide ControllerOwner, ReplacementsOk, WatchesOk, FullSources;
  }

  /** Every record committed without error, field by field, from the objects cached and the definition selected at the commit;
      and its root is nobody's. */
  lemma CommittedRecordSays(e: Env, actions: seq<Action>, key: JobKey, input: Input) returns (pod: Object, workload: Workload, root: Object)
    requires var sys := Run(e, actions);
             && key in sys.pods && sys.pods[key].PodPublish?
             && var t := Next(e, sys, StepPod(key, input));
                t.pods[key] == PodReturn({}) && key.uid in t.s.pubs.pods && CleanPod(t.s.pubs.pods[key.uid])
    ensures var sys := Run(e, actions);
            var record := Next(e, sys, StepPod(key, input)).s.pubs.pods[key.uid].record;
            var selection := SelectionFor(sys.s.defs, workload.root.gvk.groupKind);
            var podBody, rootBody := Content(e, RefOf(pod)), Content(e, RefOf(root));
            && RestsNow(e, sys.s, key, pod, workload, root)
            && sys.s.defs.err == {} && selection.err == {}
            && e.podSelector(podBody.labels) && e.objectSelector(rootBody.labels) && e.resourceSelected(rootBody.gvk)
            && RecordSays(e, selection, podBody, rootBody, workload.resolution, record, false)
  {
    hide Run, Next, ReconcileNow, RestsNow, RecordSays, Content, CleanPod;
    PublicationIsAtomic(e, actions, key, input);
    var sys := Run(e, actions);
    var record := Next(e, sys, StepPod(key, input)).s.pubs.pods[key.uid].record;
    VerdictSays(e, sys.s, key, record);
    pod, workload, root :|
      && RestsNow(e, sys.s, key, pod, workload, root)
      && (var selection := SelectionFor(sys.s.defs, workload.root.gvk.groupKind);
          var podBody, rootBody := Content(e, RefOf(pod)), Content(e, RefOf(root));
          && sys.s.defs.err == {} && selection.err == {}
          && e.podSelector(podBody.labels) && e.objectSelector(rootBody.labels) && e.resourceSelected(rootBody.gvk)
          && RecordSays(e, selection, podBody, rootBody, workload.resolution, record, false));
  }

  /** The root a committed record names is nobody's. */
  lemma CommittedRootIsTop(e: Env, actions: seq<Action>, key: JobKey, input: Input)
    requires var sys := Run(e, actions);
             && key in sys.pods && sys.pods[key].PodPublish?
             && var t := Next(e, sys, StepPod(key, input));
                t.pods[key] == PodReturn({}) && key.uid in t.s.pubs.pods && CleanPod(t.s.pubs.pods[key.uid])
    ensures var sys := Run(e, actions);
            var ref := Next(e, sys, StepPod(key, input)).s.pubs.pods[key.uid].record.workload;
            ExactlyCached(sys.s.cache.objects, ref) && Top(e, sys.s.cache.objects[KeyOf(ref)].obj)
  {
    hide Run, PodFacts, StepPodProgram, CacheInv, HasRootOwnership, PodsFiled, DefinitionsOk, CleanPod, PodKeyOk, Top, PodStamp;
    RunFacts(e, actions, key);
    StampFacts(e, actions, key);
    var sys := Run(e, actions);
    StepIs(e, sys, key, input);
    hide Next;
    PublishedOwns(e, sys.s, key, sys.pods[key], input, sys.nextWatch);
    StepRootIsTop(e, sys.s, key, sys.pods[key], input, sys.nextWatch);
  }

  lemma StampFacts(e: Env, actions: seq<Action>, key: JobKey)
    requires key in Run(e, actions).pods
    ensures PodStamp(Run(e, actions).s.defs, Run(e, actions).pods[key])
  {
    RunKeepsStamps(e, actions);
    hide Run, PodStamp, RootStamp;
  }

  lemma StepRootIsTop(e: Env, s: State, key: JobKey, pc: PodPc, input: Input, next: nat)
    requires pc.PodPublish? && PodFacts(e, key, pc) && PodStamp(s.defs, pc) && CacheInv(e, s.cache, next) && PodsFiled(s) && DefinitionsOk(s.defs)
    requires PodKeyOk(e, key)
    requires var (t, pc') := StepPodProgram(e, s, key, pc, input, next);
             pc' == PodReturn({}) && key.uid in t.pubs.pods && CleanPod(t.pubs.pods[key.uid])
    requires HasRootOwnership(e, s.cache, s.defs, StepPodProgram(e, s, key, pc, input, next).0.pubs.pods[key.uid].record.workload)
    ensures var ref := StepPodProgram(e, s, key, pc, input, next).0.pubs.pods[key.uid].record.workload;
            ExactlyCached(s.cache.objects, ref) && Top(e, s.cache.objects[KeyOf(ref)].obj)
  {
    hide HasRootOwnership, Top, CacheInv, PodFacts, StepPodProgram, PodsFiled, Lookup, DefinitionsOk;
    PublishedBodies(e, key, pc);
    assert !key.rescan;
    OwnStepResult(e, s, key, pc, input, next);
    PublishRests(e, s, key, pc, next);
    var ref := RefOf(pc.root);
    CurrentIsReadable(e, s.cache, [ref], 0, next);
    PathIsExact(e, s.cache, [ref], 0, next);
    RootVersion(e, s.defs, key, pc);
    OwnershipMeansTop(e, s.cache, s.defs, ref, next);
  }

  lemma RootVersion(e: Env, d: Definitions, key: JobKey, pc: PodPc)
    requires pc.PodPublish? && PodFacts(e, key, pc) && PodStamp(d, pc) && pc.selection.version == d.version && DefinitionsOk(d)
    ensures var selection := SelectionFor(d, pc.root.gvk.groupKind); selection.definition.Some? ==> selection.gvk == pc.root.gvk
  {
    PublishedBodies(e, key, pc);
    StampedNow(d, pc);
    hide PodFacts, PodStamp, EvaluatePod, Accepts, PathOk;
    assert KnownRef(e, pc.workload.root) by { hide LinksTo; assert KnownRef(e, pc.workload.path[|pc.workload.path| - 1]); }
    SameIdentity(e, Content(e, pc.workload.root), pc.root);
  }

  /** And every settled clean record says the same of the state now, where every source is healthy. */
  lemma SettledRecordSays(e: Env, actions: seq<Action>, p: Uid)
    requires var sys := Run(e, actions);
             var key := PodKey(e, p);
             && p in sys.s.pubs.pods && CleanPod(sys.s.pubs.pods[p])
             && key !in sys.s.queues.pods && key !in BusyPods(sys)
             && !RescanPending(sys.s.queues.pods, Started(sys.pods), key.obj.namespace)
             && forall k :: k in sys.s.cache.sources ==> sys.s.cache.sources[k].synced && sys.s.cache.sources[k].err == {}
    ensures var s := Run(e, actions).s;
            exists pod, workload, root ::
              && RestsNow(e, s, PodKey(e, p), pod, workload, root)
              && (var selection := SelectionFor(s.defs, workload.root.gvk.groupKind);
                  var podBody, rootBody := Content(e, RefOf(pod)), Content(e, RefOf(root));
                  && s.defs.err == {} && selection.err == {}
                  && e.podSelector(podBody.labels) && e.objectSelector(rootBody.labels) && e.resourceSelected(rootBody.gvk)
                  && RecordSays(e, selection, podBody, rootBody, workload.resolution, s.pubs.pods[p].record, false))
  {
    SettledPodsAreFresh(e, actions, p);
    hide Run, ReconcileNow, RestsNow, RecordSays;
    VerdictSays(e, Run(e, actions).s, PodKey(e, p), Run(e, actions).s.pubs.pods[p].record);
  }

  // ---------------------------------------------------------------- every outcome of the uninterrupted job

  /** The Pod is shown with a reason: its last value if it has one, otherwise the root alone. */
  predicate FailedWith(s: State, t: State, key: JobKey, root: Object, reason: Reason) {
    && key.uid in t.pubs.pods
    && var stored := t.pubs.pods[key.uid];
       && stored.error == reason
       && (if key.uid in s.pubs.pods && s.pubs.pods[key.uid].hasValue then stored == s.pubs.pods[key.uid].(error := reason)
           else !stored.hasValue && stored.record.uid == key.uid && stored.record.workload == RefOf(root)
                && stored.record.karta == 0 && stored.record.component == Component(0, 0, 0) && stored.record.labels == 0)
  }

  /** A record is published; when its labels failed a previous value stays instead, unless its definition is gone. */
  predicate PublishedWith(e: Env, s: State, t: State, key: JobKey, selection: Selection, pod: Object, root: Object, resolution: Resolution,
                          record: PodRecord, labelFailed: bool) {
    && RecordSays(e, selection, pod, root, resolution, record, labelFailed)
    && key.uid in t.pubs.pods
    && t.pubs.pods[key.uid].hasValue && t.pubs.pods[key.uid].input == RefOf(pod)
    && (if !labelFailed then t.pubs.pods[key.uid].record == record && t.pubs.pods[key.uid].error == NoReason
        else
          && t.pubs.pods[key.uid].error == EvaluationFailed
          && t.pubs.pods[key.uid].record
             == if key.uid in s.pubs.pods && s.pubs.pods[key.uid].hasValue && (selection.definition.Some? || s.pubs.pods[key.uid].record.karta == 0)
                then s.pubs.pods[key.uid].record else record)
  }

  /** What the job makes of a Pod, its owner walk and its root, all read in full. */
  ghost predicate PodOutcome(e: Env, s: State, t: State, key: JobKey, pod: Object, workload: Workload, root: Object, result: Failure) {
    var selection := SelectionFor(s.defs, workload.root.gvk.groupKind);
    var err := if s.defs.err != {} then s.defs.err else selection.err;
    if !e.resourceSelected(root.gvk) || !e.objectSelector(root.labels) then result == {} && key.uid !in t.pubs.pods
    else if err != {} then
      FailedWith(s, t, key, root, FailureReason(err)) && result == if Evaluation in err || BadDefinition in err then {} else err
    else if CannotEvaluate(e, selection, pod, root) then result == {} && FailedWith(s, t, key, root, EvaluationFailed)
    else
      result == {} && exists record, labelFailed :: PublishedWith(e, s, t, key, selection, pod, root, workload.resolution, record, labelFailed)
  }

  /** The scope, ownership and reads the job needs to get as far as its root. */
  predicate Reaches(e: Env, s: State, key: JobKey, pod: Object, w: Workload, root: Object) {
    && IsNamespaceInScope(e, s.scopes, key.obj.namespace) && IsNamespaceInScope(e, s.scopes, w.root.namespace)
    && IsPathCurrent(s.cache, w.path) && pod.uid == key.uid
    && HasRootOwnership(e, s.cache, s.defs, w.root) && HasRootOwnership(e, s.cache, s.defs, RefOf(root))
    && (var selection := LookupDefinition(s.defs, w.root.gvk).0;
        var ref := RootBodyRef(w.root, selection.selection);
        && root.gvk == ref.gvk
        && Lookup(s.cache, ref, true) == Found(root) && Lookup(s.cache, RefOf(root), false) == Found(root)
        && WatchKey(ref.gvk, ref.namespace) !in s.watchFailures
        && IsDefinitionCurrent(s.defs, RefOf(root), selection))
  }

  lemma SoloReturned(e: Env, s: State, key: JobKey, err: Failure, id: nat, steps: nat)
    ensures Solo(e, s, key, PodReturn(err), id, steps) == (s, PodReturn(err))
    decreases steps
  {
    if steps > 0 {
      SoloReturned(e, s, key, err, id + 1, steps - 1);
    }
  }

  lemma SoloDrops(e: Env, s: State, key: JobKey, id: nat, steps: nat)
    ensures Solo(e, s, key, PodDrop, id, steps + 1) == (UnregisterPod(s, key), PodReturn({}))
    ensures key.uid !in UnregisterPod(s, key).pubs.pods
  {
    SoloStep(e, s, key, PodDrop, id, steps, UnregisterPod(s, key), PodReturn({}));
    SoloReturned(e, UnregisterPod(s, key), key, {}, id + 1, steps);
  }

  /** The last two steps, from the root body on. */
  lemma SoloJudges(e: Env, s: State, key: JobKey, pod: Object, w: Workload, root: Object, id: nat)
    requires Reaches(e, s, key, pod, w, root) && PodsFiled(s) && e.resourceSelected(root.gvk)
    ensures var (selection, err) := LookupDefinition(s.defs, w.root.gvk);
            var (t, pc) := Solo(e, s, key, PodCheckWatch(pod, w, selection, err, Found(root)), id, 2);
            pc.PodReturn? && PodOutcome(e, s, t, key, pod, w, root, pc.err)
  {
    var (selection, err) := LookupDefinition(s.defs, w.root.gvk);
    var check := PodCheckWatch(pod, w, selection, err, Found(root));
    var judged := JudgePod(e, pod, w, selection, err, root, {});
    assert StepPodProgram(e, s, key, check, Input({}, {}), id) == (s, judged) by { hide Lookup, HasRootOwnership, IsPathCurrent, EvaluatePod, JudgePod; }
    SoloStep(e, s, key, check, id, 1, s, judged);
    hide Solo, Lookup, HasRootOwnership, IsPathCurrent, IsDefinitionCurrent, IsNamespaceInScope, Reaches, RecordSays, FailedWith, PublishedWith, EvaluatePod,
         PodsFiled, CannotEvaluate;
    if !e.objectSelector(root.labels) {
      SoloDrops(e, s, key, id + 1, 0);
    } else if err != {} {
      SoloRejects(e, s, key, pod, w, root, err, id + 1);
    } else {
      SoloEvaluates(e, s, key, pod, w, root, id + 1);
    }
  }

  /** The last step of a job that nothing rejects: the evaluation decides. */
  lemma SoloEvaluates(e: Env, s: State, key: JobKey, pod: Object, w: Workload, root: Object, id: nat)
    requires Reaches(e, s, key, pod, w, root) && PodsFiled(s) && e.resourceSelected(root.gvk) && e.objectSelector(root.labels)
    requires LookupDefinition(s.defs, w.root.gvk).1 == {}
    ensures var selection := LookupDefinition(s.defs, w.root.gvk).0;
            var (t, pc) := Solo(e, s, key, JudgePod(e, pod, w, selection, {}, root, {}), id, 1);
            pc.PodReturn? && PodOutcome(e, s, t, key, pod, w, root, pc.err)
  {
    hide Solo, Lookup, Reaches, RecordSays, FailedWith, PublishedWith, EvaluatePod, PodsFiled, CannotEvaluate;
    var selection := LookupDefinition(s.defs, w.root.gvk).0;
    match EvaluatePod(e, selection.selection, pod, root, w.resolution)
    case PodEvaluationFailed =>
      EvaluationSays(e, selection.selection, pod, root, w.resolution, NoRecord(0, NO_REF), false);
      SoloRejects(e, s, key, pod, w, root, {Evaluation}, id);
    case PodEvaluated(record, labelFailed) =>
      EvaluationSays(e, selection.selection, pod, root, w.resolution, record, labelFailed);
      SoloStores(e, s, key, pod, w, root, record, labelFailed, id);
      EvaluatedEither(e, selection.selection, pod, root, w.resolution);
  }

  lemma EvaluatedEither(e: Env, selection: Selection, pod: Object, root: Object, resolution: Resolution)
    ensures EvaluatePod(e, selection, pod, root, resolution).PodEvaluated? ==> !CannotEvaluate(e, selection, pod, root)
  {
  }

  lemma SoloRejects(e: Env, s: State, key: JobKey, pod: Object, w: Workload, root: Object, cause: Failure, id: nat)
    requires Reaches(e, s, key, pod, w, root) && PodsFiled(s)
    ensures var selection := LookupDefinition(s.defs, w.root.gvk).0;
            var (t, pc) := Solo(e, s, key, PodReject(w.path, cause, RefOf(root), selection), id, 1);
            && pc == PodReturn(if Evaluation in cause || BadDefinition in cause then {} else cause)
            && FailedWith(s, t, key, root, FailureReason(cause))
  {
    hide Lookup, HasRootOwnership, IsPathCurrent, IsDefinitionCurrent, IsNamespaceInScope, Solo, LookupDefinition, FailureReason, RootBodyRef;
    var selection := LookupDefinition(s.defs, w.root.gvk).0;
    var (t, err) := FailPodEvaluation(e, s, key, w.path, cause, RefOf(root), selection);
    SoloStep(e, s, key, PodReject(w.path, cause, RefOf(root), selection), id, 0, t, PodReturn(err));
    SoloReturned(e, t, key, err, id + 1, 0);
  }

  lemma SoloStores(e: Env, s: State, key: JobKey, pod: Object, w: Workload, root: Object, record: PodRecord, labelFailed: bool, id: nat)
    requires Reaches(e, s, key, pod, w, root) && PodsFiled(s)
    requires RecordSays(e, LookupDefinition(s.defs, w.root.gvk).0.selection, pod, root, w.resolution, record, labelFailed)
    ensures var selection := LookupDefinition(s.defs, w.root.gvk).0;
            var (t, pc) := Solo(e, s, key, PodPublish(pod, w, root, selection, record, labelFailed), id, 1);
            pc == PodReturn({}) && PublishedWith(e, s, t, key, selection.selection, pod, root, w.resolution, record, labelFailed)
  {
    hide Lookup, HasRootOwnership, IsPathCurrent, IsDefinitionCurrent, IsNamespaceInScope, Solo, LookupDefinition, RootBodyRef;
    var selection := LookupDefinition(s.defs, w.root.gvk).0;
    var (t, err) := PublishPod(e, s, w.path, RefOf(root), selection, PodResult(record, RefOf(pod), true, NoReason), labelFailed);
    SoloStep(e, s, key, PodPublish(pod, w, root, selection, record, labelFailed), id, 0, t, PodReturn(err));
    SoloReturned(e, t, key, err, id + 1, 0);
  }

  /** The last five steps, from the walk's result on. */
  lemma SoloDecides(e: Env, s: State, key: JobKey, pod: Object, w: Workload, root: Object, id: nat)
    requires Reaches(e, s, key, pod, w, root) && PodsFiled(s)
    ensures var (t, pc) := Solo(e, s, key, PodDefine(pod, w), id, 5);
            pc.PodReturn? && PodOutcome(e, s, t, key, pod, w, root, pc.err)
  {
    var (selection, err) := LookupDefinition(s.defs, w.root.gvk);
    var input := Input({}, {});
    SoloProofs.RegisterKeeps(e, s, key, w);
    RegisterPods(e, s, key, w);
    var t := RegisterPodRoot(e, s, key, w).0;
    var ref := RootBodyRef(w.root, selection.selection);
    hide RegisterPodRoot, Lookup, HasRootOwnership, IsPathCurrent, EvaluatePod, Solo, IsNamespaceInScope, IsDefinitionCurrent, LookupDefinition, JudgePod;
    if !e.resourceSelected(ref.gvk) {
      assert StepPodProgram(e, s, key, PodDefine(pod, w), input, id) == (s, PodDrop);
      SoloStep(e, s, key, PodDefine(pod, w), id, 4, s, PodDrop);
      SoloDrops(e, s, key, id + 1, 3);
    } else {
      assert StepPodProgram(e, s, key, PodDefine(pod, w), input, id) == (s, PodRegister(pod, w, selection, err));
      SoloStep(e, s, key, PodDefine(pod, w), id, 4, s, PodRegister(pod, w, selection, err));
      assert StepPodProgram(e, s, key, PodRegister(pod, w, selection, err), input, id + 1) == (t, PodReadRoot(pod, w, selection, err));
      SoloStep(e, s, key, PodRegister(pod, w, selection, err), id + 1, 3, t, PodReadRoot(pod, w, selection, err));
      assert StepPodProgram(e, t, key, PodReadRoot(pod, w, selection, err), input, id + 2) == (t, PodCheckWatch(pod, w, selection, err, Found(root)));
      SoloStep(e, t, key, PodReadRoot(pod, w, selection, err), id + 2, 2, t, PodCheckWatch(pod, w, selection, err, Found(root)));
      RegisteredReaches(e, s, t, key, pod, w, root);
      hide Reaches, PodOutcome, PodsFiled;
      SoloJudges(e, t, key, pod, w, root, id + 3);
      SameOutcome(e, s, t, Solo(e, t, key, PodCheckWatch(pod, w, selection, err, Found(root)), id + 3, 2).0, key, pod, w, root,
                  Solo(e, t, key, PodCheckWatch(pod, w, selection, err, Found(root)), id + 3, 2).1.err);
    }
  }

  lemma RegisteredReaches(e: Env, s: State, t: State, key: JobKey, pod: Object, w: Workload, root: Object)
    requires Reaches(e, s, key, pod, w, root) && t == RegisterPodRoot(e, s, key, w).0 && PodsFiled(s)
    requires t.cache == s.cache && t.defs == s.defs && t.watchFailures == s.watchFailures && t.pubs == s.pubs
    ensures Reaches(e, t, key, pod, w, root) && PodsFiled(t)
  {
    EnsureRootTracks(s, w);
    hide EnsureRoot, Lookup, HasRootOwnership, IsPathCurrent, IsDefinitionCurrent, LookupDefinition;
  }

  lemma SameOutcome(e: Env, s: State, s': State, t: State, key: JobKey, pod: Object, w: Workload, root: Object, result: Failure)
    requires PodOutcome(e, s', t, key, pod, w, root, result) && s'.defs == s.defs && s'.pubs == s.pubs
    ensures PodOutcome(e, s, t, key, pod, w, root, result)
  {
    hide RecordSays, CannotEvaluate, FailureReason;
    forall selection, record, labelFailed | PublishedWith(e, s', t, key, selection, pod, root, w.resolution, record, labelFailed)
      ensures PublishedWith(e, s, t, key, selection, pod, root, w.resolution, record, labelFailed) {
    }
  }

  /** Run from its first step to its last without interruption, where Pod and root are in scope, read in full and the root is
      nobody's, a Pod's job has exactly the outcome its inputs call for: dropped by a selector or rule, shown with the definition's
      or the evaluation's error, or published with the record the evaluation gives. */
  lemma SoloOutcome(e: Env, s: State, key: JobKey, id: nat, next: nat) returns (pod: Object, workload: Workload, root: Object, n: nat)
    requires CacheInv(e, s.cache, next) && DefinitionsOk(s.defs) && PodKeyOk(e, key) && PodsFiled(s)
    requires Lookup(s.cache, JobRef(key), true).Found?
    requires var o := Lookup(s.cache, JobRef(key), true).obj;
             && e.podSelector(o.labels) && Walk(Reader(s.cache), e.ignored, [], RefOf(o)).Walked?
             && (var w := Walk(Reader(s.cache), e.ignored, [], RefOf(o)).workload;
                 var ref := RootBodyRef(w.root, SelectionFor(s.defs, w.root.gvk.groupKind));
                 && IsNamespaceInScope(e, s.scopes, key.obj.namespace) && IsNamespaceInScope(e, s.scopes, w.root.namespace)
                 && HasRootOwnership(e, s.cache, s.defs, w.root)
                 && Lookup(s.cache, ref, true).Found? && WatchKey(ref.gvk, ref.namespace) !in s.watchFailures)
    ensures RestsNow(e, s, key, pod, workload, root)
    ensures var (t, pc) := Solo(e, s, key, PodStart, id, n);
            pc.PodReturn? && PodOutcome(e, s, t, key, pod, workload, root, pc.err)
  {
    hide Solo, Walk, HasRootOwnership, EvaluatePod, CacheInv, PodOutcome, PodsFiled;
    pod := Lookup(s.cache, JobRef(key), true).obj;
    FullIsContent(e, s.cache, JobRef(key), next);
    workload := Walk(Reader(s.cache), e.ignored, [], RefOf(pod)).workload;
    WalkIsCurrent(e, s.cache, [], RefOf(pod), next);
    var o :| Conforms(e, o) && RefOf(o) == workload.root;
    var ref := RootBodyRef(workload.root, SelectionFor(s.defs, workload.root.gvk.groupKind));
    root := Lookup(s.cache, ref, true).obj;
    RootIsOwn(e, s, o, workload, next);
    FullIsContent(e, s.cache, ref, next);
    SameOwnership(e, s.cache, s.defs, workload.root, RefOf(root));
    hide Lookup, Conforms, IsDefinitionCurrent, IsPathCurrent;
    assert Reaches(e, s, key, pod, workload, root);
    hide Reaches;
    n := SoloClimbs(e, s, key, pod, [], RefOf(pod), id + 2, 5);
    SoloDecides(e, s, key, pod, workload, root, id + 2 + n);
    SoloStarts(e, s, key, pod, id, n + 5);
    n := n + 7;
  }

  lemma RootIsOwn(e: Env, s: State, o: Object, w: Workload, next: nat)
    requires CacheInv(e, s.cache, next) && DefinitionsOk(s.defs) && Conforms(e, o) && RefOf(o) == w.root
    requires Lookup(s.cache, RootBodyRef(w.root, SelectionFor(s.defs, w.root.gvk.groupKind)), true).Found?
    ensures var root := Lookup(s.cache, RootBodyRef(w.root, SelectionFor(s.defs, w.root.gvk.groupKind)), true).obj;
            && root.namespace == w.root.namespace && root.name == w.root.name && root.uid == w.root.uid
            && root.gvk.groupKind == w.root.gvk.groupKind
            && IsDefinitionCurrent(s.defs, RefOf(root), LookupDefinition(s.defs, w.root.gvk).0)
  {
    var ref := RootBodyRef(w.root, SelectionFor(s.defs, w.root.gvk.groupKind));
    LookupFacts(e, s.cache, ref, true, next);
    var root := Lookup(s.cache, ref, true).obj;
    assert ref.uid != 0;
    SameIdentity(e, o, root);
    hide Lookup, Conforms, CacheInv;
  }

  // ---------------------------------------------------------------- workload results

  /** The reason an evaluation of status and status labels leaves, if any. */
  function StatusReason(failure: Failure, labelled: bool): Reason {
    if failure == {} && labelled then NoReason
    else if Denied in failure then PermissionDenied
    else if Unresolved in failure || NotFound in failure then UnresolvedOwner
    else if BadDefinition in failure then InvalidDefinition
    else EvaluationFailed
  }

  /** The result of a root: identity, owner, creation, definition, phases and status labels, and what went wrong. */
  predicate WorkloadSays(e: Env, selection: Selection, err: Failure, root: Object, result: WorkloadResult) {
    var record := result.record;
    && result.hasValue && result.error == NoReason
    && record.uid == root.uid && record.ref == ObjectRef(root.gvk, root.namespace, root.name, root.uid, root.version)
    && record.created == e.created(root)
    && record.resolution == Some(if ControllerOwner(root.owners).Owner? then IgnoredOwner else Resolved)
    && (if err != {} then
          && result.statusError == FailureReason(err)
          && record.karta == 0 && !record.cluster && !record.hasStatus && record.phases == [] && record.statusLabels == 0
        else
          && record.statusLabels == (match e.statusLabels(root) case Some(labels) => labels case None => 0)
          && match selection.definition
             case None =>
               && record.karta == 0 && !record.cluster && record.hasStatus && record.phases == []
               && result.statusError == StatusReason({}, e.statusLabels(root).Some?)
             case Some(definition) =>
               && record.karta == selection.origin.name && record.cluster == selection.origin.cluster
               && (match e.status(definition, root).0
                   case Some(phases) => record.hasStatus && record.phases == phases
                   case None => !record.hasStatus && record.phases == [])
               && result.statusError == StatusReason(e.status(definition, root).1, e.statusLabels(root).Some?))
  }

  lemma WorkloadEvaluationSays(e: Env, selection: Selection, err: Failure, root: Object, result: WorkloadResult)
    ensures result == EvaluateWorkload(e, selection, err, root) <==> WorkloadSays(e, selection, err, root, result)
  {
    hide ControllerOwner;
  }

  /** In every reachable state, a clean published workload whose job has nothing to do says what the definition selected now and the
      exact cached version of its root say: phases, labels, owner and definition. */
  lemma CleanWorkloadSays(e: Env, actions: seq<Action>, uid: Uid)
    requires var sys := Run(e, actions);
             && uid in sys.s.members.roots && uid in sys.s.pubs.workloads && CleanResult(sys.s.pubs.workloads[uid])
             && RootJob(uid) !in sys.s.queues.work && uid !in sys.rootDelayed
             && (uid in sys.roots ==> sys.roots[uid] == RootReturn({}))
    ensures var s := Run(e, actions).s;
            var ref := s.members.roots[uid].ref;
            var selection := SelectionFor(s.defs, ref.gvk.groupKind);
            var root, result := Content(e, ref), s.pubs.workloads[uid];
            && ref.uid == uid && ExactlyCached(s.cache.objects, ref) && s.defs.err == {} && selection.err == {}
            && WorkloadSays(e, selection, {}, root, result)
            && e.statusLabels(root).Some? && (selection.definition.Some? ==> e.status(selection.definition.value, root).1 == {})
  {
    RunKeepsWorkloads(e, actions);
    NoLostWorkloadUpdates(e, actions, uid);
    hide Run;
    var sys := Run(e, actions);
    assert WorkloadSettled(e, sys.s, BusyRoots(sys), uid);
    var ref := sys.s.members.roots[uid].ref;
    WorkloadEvaluationSays(e, SelectionFor(sys.s.defs, ref.gvk.groupKind), {}, Content(e, ref), sys.s.pubs.workloads[uid]);
    hide EvaluateWorkload, ControllerOwner, Content;
  }

  /** Every result a root's job commits, field by field, from the definition selected and the object version cached at the commit; when
      its status failed a previous value stays instead, unless its definition is gone. */
  lemma CommittedWorkloadSays(e: Env, actions: seq<Action>, uid: Uid, input: Input)
    requires var sys := Run(e, actions);
             uid in sys.roots && sys.roots[uid].RootPublish? && Next(e, sys, StepRoot(uid, input)).roots[uid] == RootReturn({})
    ensures var sys := Run(e, actions);
            var root, result := sys.roots[uid].root, sys.roots[uid].result;
            var selection := SelectionFor(sys.s.defs, root.gvk.groupKind);
            var err := if sys.s.defs.err != {} then sys.s.defs.err else selection.err;
            var was := Get(sys.s.pubs.workloads, uid);
            && root.uid == uid && Content(e, RefOf(root)) == root && ExactlyCached(sys.s.cache.objects, RefOf(root))
            && WorkloadSays(e, selection, err, root, result)
            && Get(Next(e, sys, StepRoot(uid, input)).s.pubs.workloads, uid)
               == Some(result.(record := if result.statusError != NoReason && was.Some? && was.value.hasValue
                                            && (selection.definition.Some? || !result.record.hasStatus || was.value.record.karta == 0)
                                         then was.value.record else result.record))
  {
    RunKeepsJobs(e, actions);
    RunKeepsCache(e, actions);
    RunKeepsStamps(e, actions);
    RunKeepsWorkloads(e, actions);
    var sys := Run(e, actions);
    hide Run, PodFacts, PodStamp, Registered, Settled;
    assert RootFacts(e, uid, sys.roots[uid]) && RootStamp(e, sys.s.defs, uid, sys.roots[uid]);
    RootCommitSays(e, sys.s, uid, sys.roots[uid], input, sys.nextWatch);
    hide CacheInv, RootFacts, RootStamp, StepRootProgram, WorkloadSays, ResultsFiled;
  }

  lemma RootCommitSays(e: Env, s: State, uid: Uid, pc: RootPc, input: Input, next: nat)
    requires pc.RootPublish? && RootFacts(e, uid, pc) && RootStamp(e, s.defs, uid, pc) && CacheInv(e, s.cache, next) && ResultsFiled(s)
    requires StepRootProgram(e, s, uid, pc, input, next).1 == RootReturn({})
    ensures var selection := SelectionFor(s.defs, pc.root.gvk.groupKind);
            var err := if s.defs.err != {} then s.defs.err else selection.err;
            var was := Get(s.pubs.workloads, uid);
            && pc.root.uid == uid && Content(e, RefOf(pc.root)) == pc.root && ExactlyCached(s.cache.objects, RefOf(pc.root))
            && WorkloadSays(e, selection, err, pc.root, pc.result)
            && Get(StepRootProgram(e, s, uid, pc, input, next).0.pubs.workloads, uid)
               == Some(pc.result.(record := if pc.result.statusError != NoReason && was.Some? && was.value.hasValue
                                               && (selection.definition.Some? || !pc.result.record.hasStatus || was.value.record.karta == 0)
                                            then was.value.record else pc.result.record))
  {
    var selection := SelectionFor(s.defs, pc.root.gvk.groupKind);
    var err := if s.defs.err != {} then s.defs.err else selection.err;
    ConformingContent(e, pc.root);
    CurrentIsExact(e, s.cache, pc.root, next);
    assert e.identity(uid).groupKind == pc.root.gvk.groupKind;
    assert pc.result == EvaluateWorkload(e, selection, err, pc.root) by { hide EvaluateWorkload, HasRootOwnership, IsPathCurrent, CacheInv, Conforms; }
    WorkloadEvaluationSays(e, selection, err, pc.root, pc.result);
    hide EvaluateWorkload, HasRootOwnership, IsPathCurrent, CacheInv, Conforms, WorkloadSays, DefinedGvk;
  }

  // ---------------------------------------------------------------- failures are shown

  /** A root's job that fails shows the reason on the root, over its last value if it has one, and is retried. */
  lemma FailedRootIsShown(e: Env, actions: seq<Action>, uid: Uid, input: Input)
    requires var sys := Run(e, actions); uid in sys.roots && sys.roots[uid].RootFail? && uid in sys.s.members.roots
    ensures var sys := Run(e, actions);
            var next := Next(e, sys, StepRoot(uid, input));
            var was, cause := Get(sys.s.pubs.workloads, uid), sys.roots[uid].cause;
            && next.roots[uid] == RootReturn(cause) && cause != {}
            && uid in next.s.pubs.workloads
            && next.s.pubs.workloads[uid].error == FailureReason(cause) != NoReason
            && (if was.Some? then next.s.pubs.workloads[uid] == was.value.(error := FailureReason(cause))
                else !next.s.pubs.workloads[uid].hasValue && next.s.pubs.workloads[uid].record.ref == sys.roots[uid].ref)
  {
    RunKeepsWorkloads(e, actions);
    RunKeepsJobs(e, actions);
    hide Run, Settled, PodFacts, Registered;
    assert RootFacts(e, uid, Run(e, actions).roots[uid]);
    hide FailureReason;
  }

  /** A Pod's job that fails shows the reason on the Pod, over its last value if it has one, and is retried unless only an evaluation failed. */
  lemma FailedPodIsShown(e: Env, actions: seq<Action>, key: JobKey, input: Input)
    requires var sys := Run(e, actions); key in sys.pods && sys.pods[key].PodFail?
    ensures var sys := Run(e, actions);
            var next := Next(e, sys, StepPod(key, input));
            var was, cause := Get(sys.s.pubs.pods, key.uid), sys.pods[key].cause;
            && next.pods[key] == PodReturn(if Evaluation in cause || BadDefinition in cause then {} else cause) && cause != {}
            && key.uid in next.s.pubs.pods
            && next.s.pubs.pods[key.uid].error == FailureReason(cause) != NoReason
            && (was.Some? && was.value.hasValue ==> next.s.pubs.pods[key.uid] == was.value.(error := FailureReason(cause)))
            && (was.None? ==> !next.s.pubs.pods[key.uid].hasValue)
            && (was.None? ==> next.s.pubs.pods[key.uid].record.workload == if sys.pods[key].at.Some? then sys.pods[key].at.value else NO_REF)
  {
    RunFacts(e, actions, key);
    hide Run, CacheInv, DefinitionsOk;
    assert PodFacts(e, key, Run(e, actions).pods[key]);
    hide FailureReason;
  }

  /** A registered root's reference is at the selected version, or at one that can be read. */
  lemma RegisteredRootIsReadable(e: Env, s: State, key: JobKey, workload: Workload)
    requires RegisterPodRoot(e, s, key, workload).1 == {}
    ensures var t := RegisterPodRoot(e, s, key, workload).0;
            && workload.root.uid in t.members.roots
            && var ref := t.members.roots[workload.root.uid].ref;
               var selection := SelectionFor(s.defs, workload.root.gvk.groupKind);
               if selection.definition.Some? then ref.gvk == selection.gvk
               else ref.gvk == workload.root.gvk || Lookup(t.cache, ref.(version := 0), false).Found?
  {
    EnsureRootTracks(s, workload);
    EnsuredRef(s, workload);
    AttachKeepsRefs(EnsureRoot(s, workload), key, workload.root.uid);
    hide EnsureRoot, AttachPod, Lookup, HasRootOwnership, IsPathCurrent;
  }

  lemma EnsuredRef(s: State, workload: Workload)
    ensures var t := EnsureRoot(s, workload);
            && workload.root.uid in t.members.roots && t.cache == s.cache
            && var ref := t.members.roots[workload.root.uid].ref;
               var selection := SelectionFor(s.defs, workload.root.gvk.groupKind);
               if selection.definition.Some? then ref.gvk == selection.gvk
               else ref.gvk == workload.root.gvk || Lookup(t.cache, ref.(version := 0), false).Found?
  {
    hide Lookup, AncestorPods;
  }

  lemma AttachKeepsRefs(s: State, key: JobKey, root: Uid)
    requires root in s.members.roots
    ensures var t := AttachPod(s, key, root);
            t.cache == s.cache && root in t.members.roots && t.members.roots[root].ref == s.members.roots[root].ref
  {
  }
}
