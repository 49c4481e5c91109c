/** No lost workload updates: a clean published workload is exactly the evaluation of what is cached now,
    or its root's job is still on the way. */
module WorkloadProofs {
  import opened Basics
  import opened Discovery
  import opened ControllerModel
  import opened ControllerSystem
  import opened CacheProofs
  import opened JobProofs
  import opened MemberProofs
  import opened StampProofs
  import opened VersionProofs

  // ---------------------------------------------------------------- the invariant

  predicate CleanResult(result: WorkloadResult) {
    result.hasValue && result.error == NoReason && result.statusError == NoReason
  }

  /** The cache holds the referenced version of the object. */
  predicate ExactlyCached(objects: map<ObjectKey, CachedObject>, ref: ObjectRef) {
    KeyOf(ref) in objects && RefOf(objects[KeyOf(ref)].obj) == ref
  }

  /** `result` is what evaluating the cached version of `ref` with the selected definition gives. */
  predicate EvaluatedNow(e: Env, objects: map<ObjectKey, CachedObject>, d: Definitions, ref: ObjectRef, result: WorkloadResult) {
    var selection := SelectionFor(d, ref.gvk.groupKind);
    && ExactlyCached(objects, ref)
    && LookupDefinition(d, ref.gvk).1 == {}
    && DefinedGvk(Stamped(selection, d.version), ref.gvk)
    && result == EvaluateWorkload(e, selection, {}, Content(e, ref))
  }

  ghost predicate WorkloadSettled(e: Env, s: State, busy: set<Uid>, uid: Uid) {
    uid in s.members.roots && uid in s.pubs.workloads && CleanResult(s.pubs.workloads[uid])
    && RootJob(uid) !in s.queues.work && uid !in busy
    ==> EvaluatedNow(e, s.cache.objects, s.defs, s.members.roots[uid].ref, s.pubs.workloads[uid])
  }

  ghost predicate Settled(e: Env, s: State, busy: set<Uid>) {
    forall uid :: WorkloadSettled(e, s, busy, uid)
  }

  /** Workload results belong to registered roots and are filed under their UID. */
  ghost predicate ResultsFiled(s: State) {
    forall uid :: uid in s.pubs.workloads ==> uid in s.members.roots && s.pubs.workloads[uid].record.uid == uid
  }

  // ---------------------------------------------------------------- sections that leave evaluations alone

  /** Nothing that a settled workload depends on differs. */
  ghost predicate CalmWork(s: State, t: State) {
    && t.cache.objects == s.cache.objects && t.defs == s.defs
    && s.queues.work <= t.queues.work
    && (forall uid :: uid in t.members.roots && uid in t.pubs.workloads ==>
          uid in s.members.roots && uid in s.pubs.workloads
          && t.members.roots[uid].ref == s.members.roots[uid].ref && t.pubs.workloads[uid] == s.pubs.workloads[uid])
  }

  lemma CalmKeepsSettled(e: Env, s: State, t: State, busy: set<Uid>)
    requires Settled(e, s, busy) && CalmWork(s, t)
    ensures Settled(e, t, busy)
  {
    hide EvaluatedNow, CleanResult;
    forall uid ensures WorkloadSettled(e, t, busy, uid) {
      assert WorkloadSettled(e, s, busy, uid);
    }
  }

  // ---------------------------------------------------------------- objects

  lemma PutSettles(e: Env, s: State, key: ObjectKey, o: CachedObject, busy: set<Uid>)
    requires Settled(e, s, busy) && RefsOk(e, s.members)
    ensures Settled(e, PutObject(e, s, key, o), busy)
  {
    var t := PutObject(e, s, key, o);
    forall uid ensures WorkloadSettled(e, t, busy, uid) {
      assert WorkloadSettled(e, s, busy, uid);
      hide EvaluateWorkload, ChangedPods, OwnershipChanged, IsAncestor, LookupDefinition, DefinedGvk;
      if uid in s.members.roots && key == KeyOf(s.members.roots[uid].ref) && ExactlyCached(s.cache.objects, s.members.roots[uid].ref) {
        assert RootRefOk(e, uid, s.members.roots[uid].ref);
        assert RootJob(uid) in t.queues.work;
      }
    }
  }

  lemma DropSettles(e: Env, s: State, key: ObjectKey, busy: set<Uid>)
    requires Settled(e, s, busy) && RefsOk(e, s.members)
    ensures Settled(e, DropObject(e, s, key), busy)
  {
    var t := DropObject(e, s, key);
    forall uid ensures WorkloadSettled(e, t, busy, uid) {
      assert WorkloadSettled(e, s, busy, uid);
      hide EvaluateWorkload, ChangedPods, OwnershipChanged, IsAncestor, LookupDefinition, DefinedGvk;
      if uid in s.members.roots && key == KeyOf(s.members.roots[uid].ref) && ExactlyCached(s.cache.objects, s.members.roots[uid].ref) {
        assert RootRefOk(e, uid, s.members.roots[uid].ref);
        assert RootJob(uid) in t.queues.work;
      }
    }
  }

  lemma {:induction false} DropObjectsSettle(e: Env, s: State, keys: seq<ObjectKey>, busy: set<Uid>)
    requires Settled(e, s, busy) && RefsOk(e, s.members)
    ensures Settled(e, DropObjects(e, s, keys), busy)
    decreases |keys|
  {
    hide Settled, QueueObjectChange, RootRefOk;
    if keys != [] {
      DropSettles(e, s, keys[0], busy);
      DropObjectsEffect(e, s, [keys[0]]);
      assert DropObjects(e, s, [keys[0]]) == DropObject(e, s, keys[0]);
      DropObjectsSettle(e, DropObject(e, s, keys[0]), keys[1..], busy);
    }
  }

  lemma {:induction false} PutObjectsSettle(e: Env, s: State, source: WatchKey, objects: map<ObjectKey, Object>, keys: seq<ObjectKey>, busy: set<Uid>)
    requires Settled(e, s, busy) && RefsOk(e, s.members)
    requires forall k :: k in keys ==> k in objects
    ensures Settled(e, PutObjects(e, s, source, objects, keys), busy)
    decreases |keys|
  {
    hide Settled, PutObject, RootRefOk;
    if keys != [] {
      var o := CachedObject(objects[keys[0]], source);
      PutSettles(e, s, keys[0], o, busy);
      PutObjectEffect(e, s, keys[0], o);
      PutObjectsSettle(e, PutObject(e, s, keys[0], o), source, objects, keys[1..], busy);
    }
  }

  lemma {:induction false} DropSourcedSettles(e: Env, s: State, source: WatchKey, keys: seq<ObjectKey>, busy: set<Uid>)
    requires Settled(e, s, busy) && RefsOk(e, s.members)
    ensures Settled(e, DropSourced(e, s, source, keys), busy)
    decreases |keys|
  {
    hide Settled, QueueObjectChange, RootRefOk;
    if keys != [] {
      DropSettles(e, s, keys[0], busy);
      DropObjectsEffect(e, s, [keys[0]]);
      assert DropObjects(e, s, [keys[0]]) == DropObject(e, s, keys[0]);
      DropSourcedSettles(e, if keys[0] in s.cache.objects && s.cache.objects[keys[0]].source == source then DropObject(e, s, keys[0]) else s,
                         source, keys[1..], busy);
    }
  }

  // ---------------------------------------------------------------- watches and definitions

  lemma EventSettles(e: Env, s: State, w: Handle, o: Object, deleted: bool, busy: set<Uid>)
    requires Settled(e, s, busy) && RefsOk(e, s.members)
    ensures Settled(e, ApplyWatchEvent(e, s, w, o, deleted), busy)
  {
    var key := ObjectKeyOf(o);
    PutSettles(e, s, key, CachedObject(o, w.key), busy);
    DropSettles(e, s, key, busy);
    var s1 := if deleted then DropObject(e, s, key) else PutObject(e, s, key, CachedObject(o, w.key));
    hide PutObject, DropObject, Settled, RefsOk;
    var t := ApplyWatchEvent(e, s, w, o, deleted);
    if t != s {
      CalmKeepsSettled(e, s1, t, busy);
    }
  }

  lemma SnapshotSettles(e: Env, s: State, w: Handle, objects: map<ObjectKey, Object>, drop: seq<ObjectKey>, put: seq<ObjectKey>, busy: set<Uid>)
    requires Settled(e, s, busy) && RefsOk(e, s.members)
    requires forall k :: k in put ==> k in objects
    ensures Settled(e, Replace(e, s, w, objects, drop, put), busy)
  {
    hide DropObjects, PutObjects, Promote, MarkReady, UpdateWatchHealth, RootRefOk, Settled;
    if IsTracked(s.cache, w) {
      var s1 := s.(cache := Promote(s.cache, w));
      assert s1.cache.objects == s.cache.objects by { PromoteObjects(s.cache, w, objects.Keys); }
      CalmKeepsSettled(e, s, s1, busy);
      DropObjectsSettle(e, s1, drop, busy);
      DropObjectsEffect(e, s1, drop);
      var s2 := DropObjects(e, s1, drop);
      PutObjectsSettle(e, s2, w.key, objects, put, busy);
      var s3 := PutObjects(e, s2, w.key, objects, put);
      var s4 := s3.(cache := MarkReady(s3.cache, w.key, objects.Keys));
      PromoteObjects(s3.cache, w, objects.Keys);
      HealthRest(e, s4, w, {});
      HealthObjects(e, s4, w, {});
      CalmKeepsSettled(e, s3, Replace(e, s, w, objects, drop, put), busy);
    }
  }

  lemma PromoteObjects(c: Cache, w: Handle, keys: set<ObjectKey>)
    ensures IsTracked(c, w) ==> Promote(c, w).objects == c.objects
    ensures MarkReady(c, w.key, keys).objects == c.objects
  {
  }

  lemma HealthObjects(e: Env, s: State, w: Handle, err: Failure)
    ensures UpdateWatchHealth(e, s, w, err).cache.objects == s.cache.objects
  {
  }

  lemma {:induction false} RetireWatchesSettle(e: Env, s: State, keys: seq<WatchKey>, order: map<WatchKey, seq<ObjectKey>>, busy: set<Uid>)
    requires Settled(e, s, busy) && RefsOk(e, s.members)
    ensures Settled(e, RetireWatches(e, s, keys, order), busy)
    decreases |keys|
  {
    hide Settled, RootRefOk, DropSourced, RefsOk;
    if keys != [] {
      var objects := if keys[0] in order then order[keys[0]] else [];
      var s1 := s.(cache := s.cache.(watches := s.cache.watches - {keys[0]}));
      CalmKeepsSettled(e, s, s1, busy);
      DropSourcedSettles(e, s1, keys[0], objects, busy);
      DropSourcedEffect(e, s1, keys[0], objects);
      var s2 := RetireWatch(e, s, keys[0], objects);
      CalmKeepsSettled(e, DropSourced(e, s1, keys[0], objects), s2, busy);
      SameRefs(e, s.members, s2.members);
      RetireWatchesSettle(e, s2, keys[1..], order, busy);
    }
  }

  lemma SameRefs(e: Env, m: Members, m': Members)
    requires RefsOk(e, m) && m'.roots == m.roots
    ensures RefsOk(e, m')
  {
  }

  lemma ReasonTells(err: Failure, err': Failure)
    requires FailureReason(err) == FailureReason(err')
    ensures err == {} <==> err' == {}
  {
  }

  lemma RefreshedKind(e: Env, s: State, offered: map<GroupKind, Selection>, err: Failure, uid: Uid)
    requires uid in s.members.roots
    ensures var t := RefreshDefinitions(e, s, offered, err);
            var kind := s.members.roots[uid].ref.gvk.groupKind;
            || RootJob(uid) in t.queues.work
            || (SelectionFor(t.defs, kind) == SelectionFor(s.defs, kind) && (t.defs.err == {} <==> s.defs.err == {}))
  {
    var next := if err != {} then s.defs.selected else offered;
    var kind := s.members.roots[uid].ref.gvk.groupKind;
    var kinds := ChangedKinds(s.defs, next);
    hide IsSameDefinition, KindPods, KindObjects, AffectedPods, FailureReason;
    if FailureReason(s.defs.err) == FailureReason(err) { ReasonTells(s.defs.err, err); }
    if kind !in kinds && FailureReason(s.defs.err) == FailureReason(err) {
    } else {
      var healthChanged := FailureReason(s.defs.err) != FailureReason(err);
      assert Affected(s.members.roots[uid], healthChanged, kinds);
    }
  }

  lemma RefreshSettles(e: Env, s: State, offered: map<GroupKind, Selection>, err: Failure, busy: set<Uid>)
    requires Settled(e, s, busy)
    ensures Settled(e, RefreshDefinitions(e, s, offered, err), busy)
  {
    RefreshEffect(e, s, offered, err);
    var t := RefreshDefinitions(e, s, offered, err);
    hide RefreshDefinitions, EvaluateWorkload;
    forall uid ensures WorkloadSettled(e, t, busy, uid) {
      assert WorkloadSettled(e, s, busy, uid);
      if uid in s.members.roots {
        RefreshedKind(e, s, offered, err, uid);
      }
    }
  }

  lemma {:induction false} RemoveRootsCalm(s: State, uids: seq<Uid>)
    ensures CalmWork(s, RemoveRoots(s, uids))
    decreases |uids|
  {
    if uids != [] {
      RemoveRootsCalm(RemoveRoot(s, uids[0]), uids[1..]);
    }
  }

  lemma SyncSettles(e: Env, s: State, offered: map<GroupKind, Selection>, err: Failure, order: SyncOrder, busy: set<Uid>)
    requires Settled(e, s, busy) && MembersInv(e, s.members)
    ensures Settled(e, PrepareWatchRequests(e, s, offered, err, order), busy)
  {
    RefreshSettles(e, s, offered, err, busy);
    RefreshEffect(e, s, offered, err);
    var s1 := RefreshDefinitions(e, s, offered, err);
    hide RefreshDefinitions, RetireWatches, RemoveRoots, Settled, PodsInverse, SelectedInverse, RefsOk, MemberKeysOk;
    if !e.scoped || NamespaceWatchReady(s1.cache) {
      var s2 := ShrinkScope(e, s1, order.roots);
      if e.scoped {
        var s1' := s1.(scopes := AdmittedNamespaces(e, s1.cache));
        RemoveRootsCalm(s1', order.roots);
        RemoveRootsMembers(e, s1', order.roots);
        CalmKeepsSettled(e, s1, s1', busy);
        CalmKeepsSettled(e, s1', s2, busy);
      }
      RetireWatchesSettle(e, s2, order.watches, order.objects, busy);
      var s3 := RetireWatches(e, s2, order.watches, order.objects);
      CalmKeepsSettled(e, s3, ForgetFailures(s3, OutOfScopeFailures(s3)), busy);
    }
  }

  // ---------------------------------------------------------------- the workers' sections

  lemma EnsureRootSettles(e: Env, s: State, workload: Workload, busy: set<Uid>)
    requires Settled(e, s, busy) && ResultsFiled(s) && RefsOk(e, s.members) && KnownRef(e, workload.root)
    ensures Settled(e, EnsureRoot(s, workload), busy) && ResultsFiled(EnsureRoot(s, workload))
  {
    var t := EnsureRoot(s, workload);
    var uid := workload.root.uid;
    hide Lookup, EvaluateWorkload, AncestorPods, ExactlyCached;
    forall u ensures WorkloadSettled(e, t, busy, u) {
      assert WorkloadSettled(e, s, busy, u);
      if u == uid && u in s.members.roots {
        assert RootRefOk(e, u, s.members.roots[u].ref);
      }
    }
  }

  /** What a Pod job or a selected object's job does to workloads: at most one root is ensured. */
  lemma AttachPodCalm(s: State, key: JobKey, root: Uid)
    requires root in s.members.roots
    ensures CalmWork(s, AttachPod(s, key, root)) && AttachPod(s, key, root).members.roots.Keys == s.members.roots.Keys
    ensures AttachPod(s, key, root).pubs == s.pubs
  {
  }

  lemma AttachSelectedCalm(s: State, key: JobKey, root: Uid)
    requires root in s.members.roots
    ensures CalmWork(s, AttachSelected(s, key, root)) && AttachSelected(s, key, root).members.roots.Keys == s.members.roots.Keys
    ensures AttachSelected(s, key, root).pubs.workloads == s.pubs.workloads
  {
  }

  lemma RegisterSettles(e: Env, s: State, key: JobKey, workload: Workload, busy: set<Uid>)
    requires Settled(e, s, busy) && ResultsFiled(s) && RefsOk(e, s.members) && KnownRef(e, workload.root)
    ensures var t := RegisterPodRoot(e, s, key, workload).0; Settled(e, t, busy) && ResultsFiled(t)
  {
    EnsureRootSettles(e, s, workload, busy);
    var s1 := EnsureRoot(s, workload);
    hide EnsureRoot, Settled, IsPathCurrent, HasRootOwnership, KnownRef, RefsOk;
    EnsureRootTracks(s, workload);
    AttachPodCalm(s1, key, workload.root.uid);
    CalmKeepsSettled(e, s1, AttachPod(s1, key, workload.root.uid), busy);
    hide AttachPod, CalmWork;
  }

  lemma PodRequestSettles(e: Env, s: State, key: JobKey, pc: PodPc, input: Input, id: nat, busy: set<Uid>)
    requires Settled(e, s, busy) && ResultsFiled(s) && PodRequest(pc).Some?
    ensures var t := StepPodProgram(e, s, key, pc, input, id).0; Settled(e, t, busy) && ResultsFiled(t)
  {
    hide StepPodProgram, Settled;
    PodStepCache(e, s, key, pc, input, id);
    RequestRest(e, s, PodRequest(pc), input.mapping, id);
    RequestObjects(e, s, PodRequest(pc), input.mapping, id);
    CalmKeepsSettled(e, s, StepPodProgram(e, s, key, pc, input, id).0, busy);
  }

  lemma PodStepCalm(e: Env, s: State, key: JobKey, pc: PodPc, input: Input, id: nat)
    requires ResultsFiled(s) && PodRequest(pc).None? && !pc.PodRegister?
    ensures var t := StepPodProgram(e, s, key, pc, input, id).0; CalmWork(s, t) && ResultsFiled(t)
  {
    hide Lookup, IsPathCurrent, HasRootOwnership, IsDefinitionCurrent, VisitObject, MayVisit, JudgePod, RescannedPods, RescannedWork, RegisterPodRoot,
         Ensure;
  }

  lemma PodStepSettles(e: Env, s: State, key: JobKey, pc: PodPc, input: Input, id: nat, busy: set<Uid>)
    requires Settled(e, s, busy) && ResultsFiled(s) && RefsOk(e, s.members) && PodFacts(e, key, pc)
    ensures var t := StepPodProgram(e, s, key, pc, input, id).0; Settled(e, t, busy) && ResultsFiled(t)
  {
    hide Settled, RefsOk, ResultsFiled, RegisterPodRoot;
    if PodRequest(pc).Some? {
      PodRequestSettles(e, s, key, pc, input, id, busy);
    } else if pc.PodRegister? {
      assert KnownRef(e, pc.workload.root);
      RegisterSettles(e, s, key, pc.workload, busy);
    } else {
      PodStepCalm(e, s, key, pc, input, id);
      hide StepPodProgram, CalmWork;
      CalmKeepsSettled(e, s, StepPodProgram(e, s, key, pc, input, id).0, busy);
    }
  }

  lemma RequestObjects(e: Env, s: State, request: Option<Request>, mapping: Failure, id: nat)
    ensures ServeRequest(e, s, request, mapping, id).cache.objects == s.cache.objects
  {
  }

  lemma RegisterSelectedSettles(e: Env, s: State, key: JobKey, workload: Workload, busy: set<Uid>)
    requires Settled(e, s, busy) && ResultsFiled(s) && RefsOk(e, s.members) && KnownRef(e, workload.root)
    ensures var s1 := EnsureRoot(s, workload);
            workload.root.uid in s1.members.roots
            && var t := AttachSelected(s1, key, workload.root.uid); Settled(e, t, busy) && ResultsFiled(t)
  {
    EnsureRootSettles(e, s, workload, busy);
    EnsureRootTracks(s, workload);
    hide EnsureRoot, Settled, RefsOk, KnownRef;
    var s1 := EnsureRoot(s, workload);
    AttachSelectedCalm(s1, key, workload.root.uid);
    CalmKeepsSettled(e, s1, AttachSelected(s1, key, workload.root.uid), busy);
    hide AttachSelected, CalmWork;
  }

  lemma SelectedStepCalm(e: Env, s: State, op: SelectedOp)
    requires !op.Register? && ResultsFiled(s)
    ensures CalmWork(s, StepSelected(e, s, op)) && ResultsFiled(StepSelected(e, s, op))
  {
    hide IsPathCurrent, IsDefinitionCurrent, RemoveSelectedMembership;
    match op
    case Retrack(key, o, _) =>
      RemoveSelectedCalm(s, key);
      if o.Some? {
        RemoveSelectedCalm(AddWork(s, {SelectedJob(JobFor(RefOf(o.value)))}), key);
      }
    case _ => RemoveSelectedCalm(s, op.key);
  }

  lemma RemoveSelectedCalm(s: State, key: JobKey)
    requires ResultsFiled(s)
    ensures CalmWork(s, RemoveSelectedMembership(s, key)) && ResultsFiled(RemoveSelectedMembership(s, key))
  {
  }

  lemma SelectedStepSettles(e: Env, s: State, op: SelectedOp, busy: set<Uid>)
    requires Settled(e, s, busy) && ResultsFiled(s) && RefsOk(e, s.members) && ValidOp(e, op)
    ensures var t := StepSelected(e, s, op); Settled(e, t, busy) && ResultsFiled(t)
  {
    hide Settled, RefsOk, IsPathCurrent, IsDefinitionCurrent, KnownRef, ResultsFiled, EnsureRoot, AttachSelected;
    if op.Register? {
      assert KnownRef(e, op.workload.root);
      RegisterSelectedSettles(e, s, op.key, op.workload, busy);
    } else {
      SelectedStepCalm(e, s, op);
      hide StepSelected;
      CalmKeepsSettled(e, s, StepSelected(e, s, op), busy);
    }
  }

  // ---------------------------------------------------------------- publication

  /** A cached reference with a known identity is cached under its own key. */
  lemma CurrentIsExact(e: Env, c: Cache, root: Object, next: nat)
    requires CacheInv(e, c, next) && Conforms(e, root) && IsPathCurrent(c, [RefOf(root)])
    ensures ExactlyCached(c.objects, RefOf(root))
  {
    var ref := RefOf(root);
    assert Lookup(c, [ref][0], false).Found?;
    LookupFacts(e, c, ref, false, next);
    hide Lookup, IsFull;
  }

  lemma PublishSettles(e: Env, s: State, uid: Uid, root: Object, selection: Stamped, result: WorkloadResult, busy: set<Uid>, next: nat)
    requires Settled(e, s, busy) && ResultsFiled(s) && CacheInv(e, s.cache, next)
    requires RootFacts(e, uid, RootPublish(root, selection, result)) && RootStamp(e, s.defs, uid, RootPublish(root, selection, result))
    ensures var (t, err) := PublishWorkload(e, s, uid, RefOf(root), selection, result);
            ResultsFiled(t) && Settled(e, t, if err == {} then busy - {uid} else busy)
  {
    var (t, err) := PublishWorkload(e, s, uid, RefOf(root), selection, result);
    if err == {} {
      CurrentIsExact(e, s.cache, root, next);
      ConformingContent(e, root);
      hide HasRootOwnership, IsPathCurrent, EvaluateWorkload, CacheInv, Conforms, ExactlyCached, KnownRef;
      forall u ensures WorkloadSettled(e, t, busy - {uid}, u) {
        assert WorkloadSettled(e, s, busy, u);
      }
    }
  }

  lemma RootRequestSettles(e: Env, s: State, uid: Uid, pc: RootPc, input: Input, id: nat, busy: set<Uid>)
    requires Settled(e, s, busy) && ResultsFiled(s) && RootRequest(pc).Some?
    ensures var (t, pc') := StepRootProgram(e, s, uid, pc, input, id);
            ResultsFiled(t) && Settled(e, t, busy) && !pc'.RootReturn?
  {
    RootStepCache(e, s, uid, pc, input, id);
    RequestRest(e, s, RootRequest(pc), input.mapping, id);
    RequestObjects(e, s, RootRequest(pc), input.mapping, id);
    hide Settled, Ensure;
    CalmKeepsSettled(e, s, StepRootProgram(e, s, uid, pc, input, id).0, busy);
  }

  lemma RootQuietSettles(e: Env, s: State, uid: Uid, pc: RootPc, input: Input, id: nat, busy: set<Uid>)
    requires Settled(e, s, busy) && ResultsFiled(s) && RootFacts(e, uid, pc)
    requires RootRequest(pc).None? && !pc.RootPublish? && !pc.RootReturn?
    ensures var (t, pc') := StepRootProgram(e, s, uid, pc, input, id);
            ResultsFiled(t) && Settled(e, t, if pc' == RootReturn({}) then busy - {uid} else busy)
  {
    hide Lookup, HasRootOwnership, EvaluateWorkload, EvaluatedNow, ControllerOwner, Ensure, PublishWorkload, RootObjectOk, RootRefOk, DefinedGvk;
    var (t, pc') := StepRootProgram(e, s, uid, pc, input, id);
    var left := if pc' == RootReturn({}) then busy - {uid} else busy;
    forall u ensures WorkloadSettled(e, t, left, u) {
      assert WorkloadSettled(e, s, busy, u);
    }
  }

  lemma RootStepSettles(e: Env, s: State, uid: Uid, pc: RootPc, input: Input, id: nat, busy: set<Uid>)
    requires Settled(e, s, busy) && ResultsFiled(s) && CacheInv(e, s.cache, id)
    requires RootFacts(e, uid, pc) && RootStamp(e, s.defs, uid, pc) && !pc.RootReturn?
    ensures var (t, pc') := StepRootProgram(e, s, uid, pc, input, id);
            ResultsFiled(t) && Settled(e, t, if pc' == RootReturn({}) then busy - {uid} else busy)
  {
    hide Settled, ResultsFiled, CacheInv, RootFacts, PublishWorkload, RootStamp;
    if RootRequest(pc).Some? {
      RootRequestSettles(e, s, uid, pc, input, id, busy);
      hide StepRootProgram;
    } else if pc.RootPublish? {
      PublishSettles(e, s, uid, pc.root, pc.selection, pc.result, busy, id);
    } else {
      RootQuietSettles(e, s, uid, pc, input, id, busy);
      hide StepRootProgram;
    }
  }

  // ---------------------------------------------------------------- every run

  /** Roots whose job waits for a retry, or runs and has not yet returned successfully. */
  function BusyRoots(sys: System): set<Uid> {
    sys.rootDelayed + set uid | uid in sys.roots && sys.roots[uid] != RootReturn({})
  }

  lemma BusyKeepsSettled(e: Env, s: State, busy: set<Uid>, t: State, busy': set<Uid>)
    requires Settled(e, s, busy)
    requires t.cache == s.cache && t.members == s.members && t.pubs == s.pubs && t.defs == s.defs
    requires forall uid :: uid in busy || RootJob(uid) in s.queues.work ==> uid in busy' || RootJob(uid) in t.queues.work
    ensures Settled(e, t, busy')
  {
    hide EvaluatedNow, CleanResult;
    forall uid ensures WorkloadSettled(e, t, busy', uid) {
      assert WorkloadSettled(e, s, busy, uid);
    }
  }

  ghost predicate WorkloadsInv(e: Env, sys: System) {
    Settled(e, sys.s, BusyRoots(sys)) && ResultsFiled(sys.s)
  }

  lemma JobActionSettles(e: Env, sys: System, a: Action)
    requires WorkloadsInv(e, sys) && Enabled(e, sys, a)
    requires a.TakePod? || a.FinishPod? || a.RetryPod? || a.TakeRoot? || a.FinishRoot? || a.RetryRoot?
             || a.TakeObject? || a.RetryObject? || a.TakeSync? || a.RetrySync?
    ensures WorkloadsInv(e, Next(e, sys, a))
  {
    BusyKeepsSettled(e, sys.s, BusyRoots(sys), Next(e, sys, a).s, BusyRoots(Next(e, sys, a)));
    hide Settled;
  }

  lemma WatchActionSettles(e: Env, sys: System, a: Action)
    requires WorkloadsInv(e, sys) && JobsInv(e, sys) && Enabled(e, sys, a)
    requires a.WatchEvent? || a.WatchSnapshot? || a.WatchStatus? || a.SyncSources? || a.StartWatch?
    ensures WorkloadsInv(e, Next(e, sys, a))
  {
    hide ApplyWatchEvent, Replace, UpdateWatchHealth, PrepareWatchRequests, Ensure, Settled, RefsOk, BusyRoots, MembersInv, JobsInv;
    var s, busy := sys.s, BusyRoots(sys);
    JobsHaveMembers(e, sys);
    SameBusy(sys, Next(e, sys, a));
    match a
    case WatchEvent(w, o, deleted) =>
      EventSettles(e, s, w, o, deleted, busy);
      EventEffect(e, s, w, o, deleted);
    case WatchSnapshot(w, objects, drop, put) =>
      SnapshotSettles(e, s, w, objects, drop, put, busy);
      SnapshotRest(e, s, w, objects, drop, put);
    case WatchStatus(w, err) =>
      HealthRest(e, s, w, err);
      HealthObjects(e, s, w, err);
      CalmKeepsSettled(e, s, UpdateWatchHealth(e, s, w, err), busy);
    case SyncSources(offered, err, order) =>
      SyncSettles(e, s, offered, err, order, busy);
      SyncFiles(e, s, offered, err, order);
    case StartWatch(gvk, namespace, metadataOnly, mapping) =>
      EnsureRest(e, s, gvk, namespace, metadataOnly, mapping, sys.nextWatch);
      RequestObjects(e, s, Some(Request(gvk, namespace, metadataOnly)), mapping, sys.nextWatch);
      CalmKeepsSettled(e, s, Next(e, sys, a).s, busy);
  }

  lemma JobsHaveMembers(e: Env, sys: System)
    requires JobsInv(e, sys)
    ensures MembersInv(e, sys.s.members) && RefsOk(e, sys.s.members)
  {
  }

  lemma SameBusy(sys: System, t: System)
    requires t.roots == sys.roots && t.rootDelayed == sys.rootDelayed
    ensures BusyRoots(t) == BusyRoots(sys)
  {
  }

  lemma {:induction false} RemoveRootsFile(s: State, uids: seq<Uid>)
    requires ResultsFiled(s)
    ensures ResultsFiled(RemoveRoots(s, uids))
    decreases |uids|
  {
    if uids != [] {
      RemoveRootsFile(RemoveRoot(s, uids[0]), uids[1..]);
    }
  }

  lemma SyncFiles(e: Env, s: State, offered: map<GroupKind, Selection>, err: Failure, order: SyncOrder)
    requires ResultsFiled(s)
    ensures ResultsFiled(PrepareWatchRequests(e, s, offered, err, order))
  {
    RefreshEffect(e, s, offered, err);
    var s1 := RefreshDefinitions(e, s, offered, err);
    hide RefreshDefinitions, RetireWatches, RemoveRoots;
    if !e.scoped || NamespaceWatchReady(s1.cache) {
      if e.scoped {
        RemoveRootsFile(s1.(scopes := AdmittedNamespaces(e, s1.cache)), order.roots);
      }
      RetireWatchesRest(e, ShrinkScope(e, s1, order.roots), order.watches, order.objects);
    }
  }

  lemma NextSettles(e: Env, sys: System, a: Action)
    requires CacheInv(e, sys.s.cache, sys.nextWatch) && JobsInv(e, sys) && StampsInv(e, sys) && Enabled(e, sys, a) && WorkloadsInv(e, sys)
    ensures WorkloadsInv(e, Next(e, sys, a))
  {
    var s, busy := sys.s, BusyRoots(sys);
    if a.StepPod? || a.StepRoot? || a.Selected? {
      assert RefsOk(e, s.members);
      var t := Next(e, sys, a);
      hide StepPodProgram, StepRootProgram, StepSelected, Settled, Registered, CacheInv, PodFacts, RootFacts, RefsOk, RootStamp, PodStamp, ResultsFiled;
      match a
      case StepPod(key, input) =>
        PodStepSettles(e, s, key, sys.pods[key], input, sys.nextWatch, busy);
        assert BusyRoots(t) == busy;
      case StepRoot(uid, input) =>
        var pc' := StepRootProgram(e, s, uid, sys.roots[uid], input, sys.nextWatch).1;
        RootStepSettles(e, s, uid, sys.roots[uid], input, sys.nextWatch, busy);
        BusyKeepsSettled(e, t.s, if pc' == RootReturn({}) then busy - {uid} else busy, t.s, BusyRoots(t));
      case Selected(op) =>
        SelectedStepSettles(e, s, op, busy);
        assert BusyRoots(t) == busy;
    } else if a.TakePod? || a.FinishPod? || a.RetryPod? || a.TakeRoot? || a.FinishRoot? || a.RetryRoot?
              || a.TakeObject? || a.RetryObject? || a.TakeSync? || a.RetrySync? {
      JobActionSettles(e, sys, a);
    } else {
      WatchActionSettles(e, sys, a);
    }
  }

  lemma {:induction false} RunKeepsWorkloads(e: Env, actions: seq<Action>)
    ensures WorkloadsInv(e, Run(e, actions))
    decreases |actions|
  {
    if actions != [] {
      RunKeepsWorkloads(e, actions[..|actions| - 1]);
      RunKeepsJobs(e, actions[..|actions| - 1]);
      RunKeepsCache(e, actions[..|actions| - 1]);
      RunKeepsStamps(e, actions[..|actions| - 1]);
      var sys := Run(e, actions[..|actions| - 1]);
      var a := actions[|actions| - 1];
      if Enabled(e, sys, a) {
        NextSettles(e, sys, a);
      }
      hide Next, JobsInv, StampsInv, CacheInv, Enabled, WorkloadsInv;
    }
  }

  /** In every reachable state, a root whose published workload is clean was evaluated from exactly the object
      version cached at its recorded reference and the definition selected now, or its job is queued, waiting for
      a retry, or running and not yet done. */
  lemma NoLostWorkloadUpdates(e: Env, actions: seq<Action>, uid: Uid)
    requires var s := Run(e, actions).s;
             uid in s.members.roots && uid in s.pubs.workloads && CleanResult(s.pubs.workloads[uid])
    ensures var sys := Run(e, actions);
            var ref := sys.s.members.roots[uid].ref;
            || RootJob(uid) in sys.s.queues.work || uid in sys.rootDelayed
            || (uid in sys.roots && sys.roots[uid] != RootReturn({}))
            || (&& ref.uid == uid
                && ExactlyCached(sys.s.cache.objects, ref)
                && sys.s.defs.err == {}
                && sys.s.pubs.workloads[uid] == EvaluateWorkload(e, SelectionFor(sys.s.defs, ref.gvk.groupKind), {}, Content(e, ref)))
  {
    RunKeepsWorkloads(e, actions);
    RunKeepsJobs(e, actions);
    var sys := Run(e, actions);
    hide Run;
    assert WorkloadSettled(e, sys.s, BusyRoots(sys), uid);
    RootOfMembers(e, sys.s.members, uid);
    hide JobsInv, EvaluateWorkload;
  }
}
