/** Every Pod the exporter should attribute is published, or its job is on the way. */
module PodLawProofs {
  import opened Basics
  import opened Discovery
  import opened ControllerModel
  import opened ControllerSystem
  import opened CacheProofs
  import opened SourceProofs
  import opened JobProofs
  import opened MemberProofs
  import opened PodProofs
  import opened TrackingProofs
  import opened LawProofs

  // ---------------------------------------------------------------- the law

  /** A cached Pod the selector takes, from a source without error. */
  predicate Wanted(e: Env, s: State, k: ObjectKey) {
    && k in s.cache.objects && s.cache.objects[k].obj.gvk == POD_GVK && e.podSelector(s.cache.objects[k].obj.labels) && NotWide(e, s.cache, k)
    && s.cache.objects[k].source in s.cache.sources && s.cache.sources[s.cache.objects[k].source].err == {}
  }

  /** Rescans just started; keys whose job waits for a retry or runs; and those whose job has decided to drop the Pod. */
  datatype PodJobs = PodJobs(started: set<JobKey>, busy: set<JobKey>, doomed: set<JobKey>)

  predicate PodAwaited(s: State, jobs: PodJobs, key: JobKey) {
    key in s.queues.pods || RescanPending(s.queues.pods, jobs.started, key.obj.namespace) || key in jobs.busy
  }

  ghost predicate ShownAt(e: Env, s: State, jobs: PodJobs, k: ObjectKey) {
    Wanted(e, s, k) ==>
      var key := JobFor(RefOf(s.cache.objects[k].obj));
      PodAwaited(s, jobs, key) || (key.uid in s.pubs.pods && key !in jobs.doomed)
  }

  ghost predicate AllShown(e: Env, s: State, jobs: PodJobs) { forall k :: ShownAt(e, s, jobs, k) }

  // ---------------------------------------------------------------- sections that leave Pods alone

  ghost predicate CalmShown(e: Env, s: State, t: State) {
    && s.queues.pods <= t.queues.pods && t.pubs.pods == s.pubs.pods
    && (forall k :: Wanted(e, t, k) ==> Wanted(e, s, k) && JobFor(RefOf(t.cache.objects[k].obj)) == JobFor(RefOf(s.cache.objects[k].obj)))
  }

  lemma CalmKeepsPodsShown(e: Env, s: State, t: State, jobs: PodJobs)
    requires AllShown(e, s, jobs) && CalmShown(e, s, t)
    ensures AllShown(e, t, jobs)
  {
    hide Wanted;
    forall k ensures ShownAt(e, t, jobs, k) { assert ShownAt(e, s, jobs, k); }
  }

  // ---------------------------------------------------------------- objects

  lemma DropsPod(e: Env, s: State, key: ObjectKey)
    requires Served(e, s.cache)
    ensures CalmShown(e, s, DropObject(e, s, key))
  {
    hide ChangedWork, OwnershipChanged, IsAncestor, SelectorChanged, RootPods, Serves;
  }

  lemma PutShows(e: Env, s: State, key: ObjectKey, o: CachedObject, jobs: PodJobs)
    requires AllShown(e, s, jobs) && Served(e, s.cache) && ObjectKeyOf(o.obj) == key
    ensures AllShown(e, PutObject(e, s, key, o), jobs)
  {
    var t := PutObject(e, s, key, o);
    PutAlerts(e, s, key, o);
    hide QueueObjectChange, Serves;
    forall k ensures ShownAt(e, t, jobs, k) { assert ShownAt(e, s, jobs, k); }
  }

  lemma PutAlerts(e: Env, s: State, key: ObjectKey, o: CachedObject)
    requires Served(e, s.cache) && ObjectKeyOf(o.obj) == key
    ensures var t := PutObject(e, s, key, o);
            && s.queues.pods <= t.queues.pods && t.pubs == s.pubs && t.cache == s.cache.(objects := s.cache.objects[key := o])
            && (o.obj.gvk == POD_GVK && e.podSelector(o.obj.labels) ==> JobFor(RefOf(o.obj)) in t.queues.pods)
  {
    hide ChangedWork, OwnershipChanged, IsAncestor, SelectorChanged, RootPods, Serves;
  }

  lemma {:induction false} DropsPods(e: Env, s: State, keys: seq<ObjectKey>, jobs: PodJobs)
    requires AllShown(e, s, jobs) && Served(e, s.cache)
    ensures AllShown(e, DropObjects(e, s, keys), jobs)
    decreases |keys|
  {
    hide AllShown, DropObject, CalmShown, Serves;
    if keys != [] {
      DropsPod(e, s, keys[0]);
      CalmKeepsPodsShown(e, s, DropObject(e, s, keys[0]), jobs);
      DroppedServed(e, s, keys[0]);
      DropsPods(e, DropObject(e, s, keys[0]), keys[1..], jobs);
    }
  }

  lemma DroppedServed(e: Env, s: State, key: ObjectKey)
    requires Served(e, s.cache)
    ensures Served(e, DropObject(e, s, key).cache)
  {
    DropObjectsEffect(e, s, [key]);
    assert DropObjects(e, s, [key]) == DropObject(e, s, key) by { assert [key][1..] == []; }
    hide DropObject, Serves;
  }

  lemma {:induction false} PutsPods(e: Env, s: State, source: WatchKey, objects: map<ObjectKey, Object>, keys: seq<ObjectKey>, jobs: PodJobs)
    requires AllShown(e, s, jobs) && Served(e, s.cache) && source in s.cache.watches
    requires forall k :: k in keys ==> k in objects && ObjectKeyOf(objects[k]) == k && Serves(e, source, k)
    ensures AllShown(e, PutObjects(e, s, source, objects, keys), jobs)
    decreases |keys|
  {
    hide AllShown, PutObject, Serves;
    if keys != [] {
      var o := CachedObject(objects[keys[0]], source);
      assert keys[0] in keys;
      PutShows(e, s, keys[0], o, jobs);
      PutObjectEffect(e, s, keys[0], o);
      PutsPods(e, PutObject(e, s, keys[0], o), source, objects, keys[1..], jobs);
    }
  }

  lemma {:induction false} DropsSourced(e: Env, s: State, source: WatchKey, keys: seq<ObjectKey>, jobs: PodJobs)
    requires AllShown(e, s, jobs) && KeyedObjects(s.cache)
    ensures AllShown(e, DropSourced(e, s, source, keys), jobs) && KeyedObjects(DropSourced(e, s, source, keys).cache)
    decreases |keys|
  {
    hide AllShown, DropObject, CalmShown;
    if keys != [] {
      var t := if keys[0] in s.cache.objects && s.cache.objects[keys[0]].source == source then DropObject(e, s, keys[0]) else s;
      DropsKeyed(e, s, keys[0]);
      if t != s {
        CalmKeepsPodsShown(e, s, t, jobs);
      }
      DropsSourced(e, t, source, keys[1..], jobs);
    }
  }

  predicate KeyedObjects(c: Cache) { forall k :: k in c.objects ==> ObjectKeyOf(c.objects[k].obj) == k }

  lemma DropsKeyed(e: Env, s: State, key: ObjectKey)
    requires KeyedObjects(s.cache)
    ensures CalmShown(e, s, DropObject(e, s, key)) && KeyedObjects(DropObject(e, s, key).cache)
  {
    hide ChangedWork, OwnershipChanged, IsAncestor, SelectorChanged, RootPods;
  }

  // ---------------------------------------------------------------- watches

  lemma EventShows(e: Env, s: State, w: Handle, o: Object, deleted: bool, jobs: PodJobs)
    requires AllShown(e, s, jobs) && Served(e, s.cache)
    ensures AllShown(e, ApplyWatchEvent(e, s, w, o, deleted), jobs)
  {
    hide PutObject, DropObject, AllShown, Served, CalmShown;
    var key := ObjectKeyOf(o);
    var put := CachedObject(o, w.key);
    DropsPod(e, s, key);
    CalmKeepsPodsShown(e, s, DropObject(e, s, key), jobs);
    PutShows(e, s, key, put, jobs);
    var s1 := if deleted then DropObject(e, s, key) else PutObject(e, s, key, put);
    var t := ApplyWatchEvent(e, s, w, o, deleted);
    if t != s {
      SameObjectsShow(e, s1, t);
      CalmKeepsPodsShown(e, s1, t, jobs);
    }
  }

  lemma HealthShows(e: Env, s: State, w: Handle, err: Failure, jobs: PodJobs)
    requires AllShown(e, s, jobs) && Served(e, s.cache) && SourcesMirror(s.cache)
    ensures AllShown(e, UpdateWatchHealth(e, s, w, err), jobs)
  {
    var t := UpdateWatchHealth(e, s, w, err);
    HealthEffect(e, s, w, err);
    HealthRest(e, s, w, err);
    HealthRescans(e, s, w, err);
    hide UpdateWatchHealth;
    forall k ensures ShownAt(e, t, jobs, k) {
      assert ShownAt(e, s, jobs, k);
      if Wanted(e, t, k) && !Wanted(e, s, k) {
        assert s.cache.objects[k].source == w.key;
        assert Rescan(w.key.namespace) in t.queues.pods;
      }
    }
  }

  lemma SnapshotShows(e: Env, s: State, w: Handle, objects: map<ObjectKey, Object>, drop: seq<ObjectKey>, put: seq<ObjectKey>,
                      jobs: PodJobs, next: nat)
    requires AllShown(e, s, jobs) && CacheInv(e, s.cache, next)
    requires forall k :: k in objects ==> ObjectKeyOf(objects[k]) == k && Deliverable(e, w, objects[k])
    requires forall k :: k in put ==> k in objects
    ensures AllShown(e, Replace(e, s, w, objects, drop, put), jobs)
  {
    hide DropObjects, PutObjects, Promote, MarkReady, UpdateWatchHealth, AllShown, Deliverable, CacheInv, Serves, CalmTracking;
    if IsTracked(s.cache, w) {
      CacheIsServed(e, s.cache, next);
      var s1 := s.(cache := Promote(s.cache, w));
      Promotes(e, s, w, next);
      SameObjectsShow(e, s, s1);
      CalmKeepsPodsShown(e, s, s1, jobs);
      DropsPods(e, s1, drop, jobs);
      DropObjectsEffect(e, s1, drop);
      var s2 := DropObjects(e, s1, drop);
      forall k | k in put ensures Serves(e, w.key, k) { ListedIsServed(e, s.cache, w, objects, k, next); }
      PutsPods(e, s2, w.key, objects, put, jobs);
      PutObjectsEffect(e, s2, w.key, objects, put);
      var s3 := PutObjects(e, s2, w.key, objects, put);
      var s4 := s3.(cache := MarkReady(s3.cache, w.key, objects.Keys));
      AcceptShows(e, s3, w, objects.Keys, jobs);
    }
  }

  lemma SameObjectsShow(e: Env, s: State, t: State)
    requires t.cache.objects == s.cache.objects && t.cache.sources == s.cache.sources && s.cache.watches.Keys <= t.cache.watches.Keys
    requires t.pubs.pods == s.pubs.pods && s.queues.pods <= t.queues.pods
    ensures CalmShown(e, s, t)
  {
  }

  lemma AcceptShows(e: Env, s: State, w: Handle, keys: set<ObjectKey>, jobs: PodJobs)
    requires AllShown(e, s, jobs) && Served(e, s.cache)
    ensures var s1 := s.(cache := MarkReady(s.cache, w.key, keys));
            AllShown(e, AddPods(UpdateWatchHealth(e, s1, w, {}), {Rescan(w.key.namespace)}), jobs)
  {
    hide UpdateWatchHealth, AllShown, Served;
    var s1 := s.(cache := MarkReady(s.cache, w.key, keys));
    assert s1.cache.objects == s.cache.objects && s1.cache.sources == s.cache.sources && s1.cache.watches.Keys == s.cache.watches.Keys;
    HealthEffect(e, s1, w, {});
    HealthRest(e, s1, w, {});
    RecoveryShows(e, s, AddPods(UpdateWatchHealth(e, s1, w, {}), {Rescan(w.key.namespace)}), w.key, jobs);
  }

  /** A source may recover where a rescan covers it. */
  lemma RecoveryShows(e: Env, s: State, t: State, source: WatchKey, jobs: PodJobs)
    requires AllShown(e, s, jobs) && Served(e, s.cache)
    requires t.cache.objects == s.cache.objects && t.cache.watches.Keys == s.cache.watches.Keys && t.pubs.pods == s.pubs.pods
    requires s.queues.pods <= t.queues.pods && Rescan(source.namespace) in t.queues.pods
    requires forall k :: k != source && k in t.cache.sources ==> k in s.cache.sources && t.cache.sources[k] == s.cache.sources[k]
    ensures AllShown(e, t, jobs)
  {
    hide ServingKey;
    forall k ensures ShownAt(e, t, jobs, k) {
      assert ShownAt(e, s, jobs, k);
      if Wanted(e, t, k) && !Wanted(e, s, k) {
        assert s.cache.objects[k].source == source;
      }
    }
  }

  lemma {:induction false} RetireShows(e: Env, s: State, keys: seq<WatchKey>, order: map<WatchKey, seq<ObjectKey>>, jobs: PodJobs)
    requires AllShown(e, s, jobs) && KeyedObjects(s.cache) && forall k :: k in keys ==> k.namespace != 0
    ensures AllShown(e, RetireWatches(e, s, keys, order), jobs)
    decreases |keys|
  {
    hide AllShown, DropSourced;
    if keys != [] {
      var objects := if keys[0] in order then order[keys[0]] else [];
      var s1 := s.(cache := s.cache.(watches := s.cache.watches - {keys[0]}));
      var t := RetireWatch(e, s, keys[0], objects);
      RetireShowsCalm(e, s, keys[0], objects);
      CalmKeepsPodsShown(e, s, s1, jobs);
      DropsSourced(e, s1, keys[0], objects, jobs);
      CalmKeepsPodsShown(e, DropSourced(e, s1, keys[0], objects), t, jobs);
      hide RetireWatch;
      RetireShows(e, t, keys[1..], order, jobs);
    }
  }

  lemma RetireShowsCalm(e: Env, s: State, key: WatchKey, objects: seq<ObjectKey>)
    requires key.namespace != 0
    ensures var s1 := s.(cache := s.cache.(watches := s.cache.watches - {key}));
            && CalmShown(e, s, s1) && CalmShown(e, DropSourced(e, s1, key, objects), RetireWatch(e, s, key, objects))
            && RetireWatch(e, s, key, objects).cache.objects == DropSourced(e, s1, key, objects).cache.objects
  {
    hide DropSourced;
  }

  lemma {:induction false} RemoveRootsShowPods(e: Env, s: State, uids: seq<Uid>)
    ensures RemoveRoots(s, uids).cache == s.cache && RemoveRoots(s, uids).pubs.pods == s.pubs.pods && s.queues.pods <= RemoveRoots(s, uids).queues.pods
    decreases |uids|
  {
    if uids != [] {
      RemoveRootsShowPods(e, RemoveRoot(s, uids[0]), uids[1..]);
    }
  }

  lemma SyncShowsPods(e: Env, s: State, offered: map<GroupKind, Selection>, err: Failure, order: SyncOrder, jobs: PodJobs)
    requires AllShown(e, s, jobs) && KeyedObjects(s.cache) && IsSyncOrder(e, s, offered, err, order)
    ensures AllShown(e, PrepareWatchRequests(e, s, offered, err, order), jobs)
  {
    RefreshEffect(e, s, offered, err);
    var s1 := RefreshDefinitions(e, s, offered, err);
    hide RefreshDefinitions, RetireWatches, RemoveRoots, AllShown, CalmShown;
    SameObjectsShow(e, s, s1);
    CalmKeepsPodsShown(e, s, s1, jobs);
    if !e.scoped || NamespaceWatchReady(s1.cache) {
      var s2 := ShrinkScope(e, s1, order.roots);
      if e.scoped {
        RemoveRootsShowPods(e, s1.(scopes := AdmittedNamespaces(e, s1.cache)), order.roots);
      }
      SameObjectsShow(e, s1, s2);
      CalmKeepsPodsShown(e, s1, s2, jobs);
      assert forall k :: k in order.watches ==> k.namespace != 0;
      RetireShows(e, s2, order.watches, order.objects, jobs);
      var s3 := RetireWatches(e, s2, order.watches, order.objects);
      var t := ForgetFailures(s3, OutOfScopeFailures(s3));
      SameObjectsShow(e, s3, t);
      CalmKeepsPodsShown(e, s3, t, jobs);
    }
  }

  lemma RequestShows(e: Env, s: State, r: Request, mapping: Failure, id: nat, jobs: PodJobs)
    requires AllShown(e, s, jobs) && Served(e, s.cache)
    ensures AllShown(e, ServeRequest(e, s, Some(r), mapping, id), jobs)
  {
    var t := ServeRequest(e, s, Some(r), mapping, id);
    EnsureEffect(e, s, r.gvk, r.namespace, r.metadataOnly, mapping, id);
    RequestRest(e, s, Some(r), mapping, id);
    hide Ensure, Serves, AllShown, ServingKey;
    assert CalmShown(e, s, t) by {
      assert t.cache.objects == s.cache.objects && s.cache.watches.Keys <= t.cache.watches.Keys;
      assert forall k :: k in s.cache.objects && s.cache.objects[k].source in s.cache.sources ==>
        s.cache.objects[k].source in t.cache.sources && t.cache.sources[s.cache.objects[k].source] == s.cache.sources[s.cache.objects[k].source];
    }
    CalmKeepsPodsShown(e, s, t, jobs);
  }

  // ---------------------------------------------------------------- the Pod's job

  /** A job that ends has published its Pod, and one that decides to drop it has none to publish. */
  lemma PodStepSettles(e: Env, s: State, key: JobKey, pc: PodPc, input: Input, id: nat)
    requires AcceptsAll(e) && Served(e, s.cache) && NamespacedIn(e, s) && PodFacts(e, key, pc) && PodsFiled(s)
    requires !pc.PodReturn? && !pc.PodDrop? && !key.rescan
    ensures var (t, pc') := StepPodProgram(e, s, key, pc, input, id);
            && (pc' == PodReturn({}) ==> key.uid in t.pubs.pods)
            && (pc' == PodDrop ==> forall k :: k in s.cache.objects && Wanted(e, s, k) ==> JobFor(RefOf(s.cache.objects[k].obj)) != key)
  {
    hide Lookup, IsPathCurrent, Served, NamespacedIn, IsNamespaceInScope, Wanted, PodFacts, PodsFiled, AcceptsAll, StepPodProgram;
    if pc.PodStart? || pc.PodLoad? {
      StartDrops(e, s, key, pc, input, id);
      forall k | k in s.cache.objects && Wanted(e, s, k) && JobFor(RefOf(s.cache.objects[k].obj)) == key
        ensures IsNamespaceInScope(e, s.scopes, key.obj.namespace)
        ensures Lookup(s.cache, JobRef(key), true).Missing? ==> NotFound !in Lookup(s.cache, JobRef(key), true).err
        ensures Lookup(s.cache, JobRef(key), true).Found? ==> e.podSelector(Lookup(s.cache, JobRef(key), true).obj.labels)
      {
        WantedIsInScope(e, s, key, k);
        WantedIsRead(e, s, key, k);
      }
    } else if pc.PodPublish? {
      PublishStores(e, s, key, pc, input, id);
      PublishEnds(e, s, key, pc, input, id);
    } else if pc.PodReject? || pc.PodFail? {
      FailStores(e, s, key, pc, input, id);
    } else {
      NeverDrops(e, s, key, pc, input, id);
    }
  }

  /** When the first two steps drop a Pod. */
  lemma StartDrops(e: Env, s: State, key: JobKey, pc: PodPc, input: Input, id: nat)
    requires (pc.PodStart? || pc.PodLoad?) && !key.rescan
    ensures var pc' := StepPodProgram(e, s, key, pc, input, id).1;
            && pc' != PodReturn({})
            && (pc' == PodDrop ==> if pc.PodStart? then !IsNamespaceInScope(e, s.scopes, key.obj.namespace)
                                   else var read := Lookup(s.cache, JobRef(key), true);
                                        (read.Missing? && NotFound in read.err) || (read.Found? && !e.podSelector(read.obj.labels)))
  {
    hide Lookup;
  }

  lemma PublishEnds(e: Env, s: State, key: JobKey, pc: PodPc, input: Input, id: nat)
    requires pc.PodPublish?
    ensures StepPodProgram(e, s, key, pc, input, id).1.PodReturn?
  {
    hide Lookup, IsPathCurrent, HasRootOwnership, IsDefinitionCurrent;
  }

  lemma FailStores(e: Env, s: State, key: JobKey, pc: PodPc, input: Input, id: nat)
    requires (pc.PodReject? || pc.PodFail?) && PodsFiled(s)
    ensures var (t, pc') := StepPodProgram(e, s, key, pc, input, id);
            pc'.PodReturn? && (pc' == PodReturn({}) ==> key.uid in t.pubs.pods)
  {
    hide Lookup, IsPathCurrent, HasRootOwnership, IsDefinitionCurrent, FailureReason;
  }

  /** In between, a job that nothing rejects goes on. */
  lemma NeverDrops(e: Env, s: State, key: JobKey, pc: PodPc, input: Input, id: nat)
    requires AcceptsAll(e) && !pc.PodStart? && !pc.PodLoad? && !pc.PodPublish? && !pc.PodReject? && !pc.PodFail? && !pc.PodDrop? && !pc.PodReturn?
    ensures var pc' := StepPodProgram(e, s, key, pc, input, id).1; pc' != PodDrop && pc' != PodReturn({})
  {
    hide Lookup, VisitObject, MayVisit, RegisterPodRoot, Ensure, LookupDefinition, EvaluatePod, RootGvk;
    match pc
    case PodRegister(_, workload, _, _) => hide JudgePod;
    case _ =>
  }

  lemma PublishStores(e: Env, s: State, key: JobKey, pc: PodPc, input: Input, id: nat)
    requires pc.PodPublish? && PodFacts(e, key, pc) && PodsFiled(s)
    ensures var (t, pc') := StepPodProgram(e, s, key, pc, input, id); pc' == PodReturn({}) ==> key.uid in t.pubs.pods
  {
    PublishedBodies(e, key, pc);
    hide Lookup, HasRootOwnership, IsPathCurrent, IsDefinitionCurrent, EvaluatePod, PodFacts, ChainEnds, PathOk, KnownRef, Accepts;
  }

  lemma WantedIsInScope(e: Env, s: State, key: JobKey, k: ObjectKey)
    requires Served(e, s.cache) && NamespacedIn(e, s) && Wanted(e, s, k) && JobFor(RefOf(s.cache.objects[k].obj)) == key
    ensures IsNamespaceInScope(e, s.scopes, key.obj.namespace)
  {
    hide ServingKey;
  }

  lemma WantedIsRead(e: Env, s: State, key: JobKey, k: ObjectKey)
    requires Served(e, s.cache) && Wanted(e, s, k) && JobFor(RefOf(s.cache.objects[k].obj)) == key
    ensures var read := Lookup(s.cache, JobRef(key), true);
            (read.Missing? ==> NotFound !in read.err) && (read.Found? ==> e.podSelector(read.obj.labels))
  {
    hide ServingKey;
  }

  /** A step of a job publishes or withdraws its own Pod only. */
  lemma PodStepOthers(e: Env, s: State, key: JobKey, pc: PodPc, input: Input, id: nat)
    requires PodFacts(e, key, pc) && PodsFiled(s) && PodRequest(pc).None? && !pc.PodReturn?
    ensures var t := StepPodProgram(e, s, key, pc, input, id).0;
            && t.cache == s.cache && s.queues.pods <= t.queues.pods
            && (forall p :: p in s.pubs.pods && p != key.uid ==> p in t.pubs.pods)
            && (key.uid in s.pubs.pods && !pc.PodDrop? ==> key.uid in t.pubs.pods)
  {
    PodStepCache(e, s, key, pc, input, id);
    hide Lookup, HasRootOwnership, IsPathCurrent, IsDefinitionCurrent, VisitObject, MayVisit, JudgePod, RescannedPods, RescannedWork, RegisterPodRoot,
         FailureReason, LookupDefinition, EvaluatePod, PodFacts;
    if pc.PodRegister? {
      EnsureRootShows(s, pc.workload);
      AttachPodShows(EnsureRoot(s, pc.workload), key, pc.workload.root.uid);
      RegisterPods(e, s, key, pc.workload);
    }
  }

  lemma RegisterPods(e: Env, s: State, key: JobKey, workload: Workload)
    ensures var t := RegisterPodRoot(e, s, key, workload).0; t.pubs == s.pubs && s.queues.pods <= t.queues.pods
  {
    EnsureRootTracks(s, workload);
    EnsureRootShows(s, workload);
    hide EnsureRoot, IsPathCurrent, HasRootOwnership;
  }

  // ---------------------------------------------------------------- every run

  function PodJobsOf(sys: System): PodJobs {
    PodJobs(Started(sys.pods), sys.podDelayed + (set k | k in sys.pods && sys.pods[k] != PodReturn({}) && sys.pods[k] != PodDrop),
            set k | k in sys.pods && sys.pods[k] == PodDrop)
  }

  /** What a step of one job does to the jobs' standing. */
  lemma PodJobMoves(sys: System, key: JobKey, pc: PodPc)
    requires key in sys.pods && !sys.pods[key].PodReturn?
    ensures var jobs, jobs' := PodJobsOf(sys), PodJobsOf(sys.(pods := sys.pods[key := pc]));
            && (forall other :: other != key ==> (other in jobs.started <==> other in jobs'.started)
                                                 && (other in jobs.busy <==> other in jobs'.busy) && (other in jobs.doomed <==> other in jobs'.doomed))
            && (key in jobs'.doomed <==> pc == PodDrop) && (key in jobs.doomed <==> sys.pods[key] == PodDrop)
            && (key in jobs.started <==> sys.pods[key] == PodStart)
            && (pc != PodDrop && pc != PodReturn({}) ==> key in jobs'.busy)
            && (key in sys.podDelayed ==> key in jobs'.busy)
            && (sys.pods[key] == PodDrop && key in jobs.busy ==> key in sys.podDelayed)
  {
  }

  lemma RescanShows(e: Env, s: State, namespace: Name, k: ObjectKey)
    requires Wanted(e, s, k) && (namespace == 0 || namespace == s.cache.objects[k].obj.namespace)
    ensures JobFor(RefOf(s.cache.objects[k].obj)) in RequeueScope(e, s, namespace).queues.pods
  {
    hide RescannedWork;
    assert JobFor(RefOf(s.cache.objects[k].obj)) in RescannedPods(e, s, namespace) by {
      assert JobFor(RefOf(s.cache.objects[k].obj)) in PodAlert(e, s, Some(s.cache.objects[k].obj));
    }
  }

  /** What the law says of one Pod after a step of some Pod's job. */
  lemma PodStepShowsAt(e: Env, sys: System, key: JobKey, input: Input, k: ObjectKey)
    requires var s := sys.s;
             && AcceptsAll(e) && AllShown(e, s, PodJobsOf(sys)) && Served(e, s.cache) && NamespacedIn(e, s) && PodsFiled(s)
             && key in sys.pods && !sys.pods[key].PodReturn? && PodFacts(e, key, sys.pods[key]) && PodRequest(sys.pods[key]).None?
             && k in s.cache.objects && PodKeyOk(e, JobFor(RefOf(s.cache.objects[k].obj)))
    ensures var (t, pc') := StepPodProgram(e, sys.s, key, sys.pods[key], input, sys.nextWatch);
            ShownAt(e, t, PodJobsOf(sys.(pods := sys.pods[key := pc'])), k)
  {
    var s, pc, id := sys.s, sys.pods[key], sys.nextWatch;
    var (t, pc') := StepPodProgram(e, s, key, pc, input, id);
    var mine := JobFor(RefOf(s.cache.objects[k].obj));
    assert ShownAt(e, s, PodJobsOf(sys), k);
    PodJobMoves(sys, key, pc');
    PodStepOthers(e, s, key, pc, input, id);
    StartedEnds(e, s, key, pc, input, id);
    StartedMoves(e, s, key, pc, input, id);
    SameUidSameKey(e, key, pc, mine);
    hide AllShown, Served, NamespacedIn, PodFacts, PodsFiled, AcceptsAll, PodJobsOf, PodKeyOk, StepPodProgram;
    if Wanted(e, t, k) {
      assert Wanted(e, s, k);
      if key.rescan && pc == PodStart && (key.obj.namespace == 0 || key.obj.namespace == s.cache.objects[k].obj.namespace) {
        RescanShows(e, s, key.obj.namespace, k);
      }
      if mine == key && !pc.PodDrop? {
        PodStepSettles(e, s, key, pc, input, id);
      }
      hide Wanted;
    }
  }

  lemma StartedMoves(e: Env, s: State, key: JobKey, pc: PodPc, input: Input, id: nat)
    ensures pc.PodDrop? ==> StepPodProgram(e, s, key, pc, input, id).1 == PodReturn({})
    ensures StepPodProgram(e, s, key, pc, input, id).1 != PodStart || pc == PodStart
    ensures pc == PodStart ==> StepPodProgram(e, s, key, pc, input, id).1 != PodStart
  {
    hide Lookup, VisitObject, MayVisit, EvaluatePod, RegisterPodRoot, PublishPod, FailPodEvaluation, PublishPodFailure, RequeueScope, Ensure, LookupDefinition;
  }

  lemma SameUidSameKey(e: Env, key: JobKey, pc: PodPc, other: JobKey)
    requires PodFacts(e, key, pc) && PodKeyOk(e, other)
    ensures other.uid == key.uid && !key.rescan ==> other == key
    ensures !other.rescan && (key.rescan ==> key.uid != other.uid && (pc == PodStart || pc.PodReturn?))
  {
    PodFactsKey(e, key, pc);
    hide PodBody, Climbs, ClimbedFrom, RootBody, EvaluatePod;
  }

  ghost predicate PodsShown(e: Env, sys: System) { AllShown(e, sys.s, PodJobsOf(sys)) }

  lemma AwaitedShows(e: Env, s: State, jobs: PodJobs, t: State, jobs': PodJobs)
    requires AllShown(e, s, jobs) && t.cache == s.cache && t.pubs.pods == s.pubs.pods && jobs'.doomed <= jobs.doomed
    requires forall key :: PodAwaited(s, jobs, key) ==> PodAwaited(t, jobs', key)
    ensures AllShown(e, t, jobs')
  {
    hide PodAwaited;
    forall k ensures ShownAt(e, t, jobs', k) { assert ShownAt(e, s, jobs, k); }
  }

  /** Pods publications and queues as before, and no object different. */
  lemma SameShows(e: Env, s: State, t: State, jobs: PodJobs)
    requires AllShown(e, s, jobs) && t.cache == s.cache && t.pubs.pods == s.pubs.pods && s.queues.pods <= t.queues.pods
    ensures AllShown(e, t, jobs)
  {
    hide AllShown, CalmShown;
    SameObjectsShow(e, s, t);
    CalmKeepsPodsShown(e, s, t, jobs);
  }

  lemma PodStepShowsAll(e: Env, sys: System, key: JobKey, input: Input)
    requires AcceptsAll(e) && PodsShown(e, sys) && Enabled(e, sys, StepPod(key, input)) && PodsFiled(sys.s) && PodFacts(e, key, sys.pods[key])
    requires CacheInv(e, sys.s.cache, sys.nextWatch) && NamespacedIn(e, sys.s)
    ensures PodsShown(e, Next(e, sys, StepPod(key, input)))
  {
    var s, pc, id := sys.s, sys.pods[key], sys.nextWatch;
    var (t, pc') := StepPodProgram(e, s, key, pc, input, id);
    var jobs, jobs' := PodJobsOf(sys), PodJobsOf(sys.(pods := sys.pods[key := pc']));
    CacheIsServed(e, s.cache, sys.nextWatch);
    PodJobMoves(sys, key, pc');
    PodStepCache(e, s, key, pc, input, id);
    RequestKeeps(e, s, key, pc, input, id);
    assert PodJobsOf(Next(e, sys, StepPod(key, input))) == jobs';
    hide StepPodProgram, AllShown, PodJobsOf, AcceptsAll, PodFacts, PodsFiled, CacheInv, NamespacedIn, Served;
    if PodRequest(pc).Some? {
      RequestShows(e, s, PodRequest(pc).value, input.mapping, id, jobs);
      AskingShows(e, t, jobs, jobs', key);
    } else {
      forall k ensures ShownAt(e, t, jobs', k) {
        if k in s.cache.objects && s.cache.objects[k].obj.gvk == POD_GVK {
          CachedKeyOk(e, s.cache, k, sys.nextWatch);
          PodStepShowsAt(e, sys, key, input, k);
        }
      }
      AllShownAt(e, t, jobs');
    }
  }

  lemma AllShownAt(e: Env, s: State, jobs: PodJobs)
    requires forall k :: ShownAt(e, s, jobs, k)
    ensures AllShown(e, s, jobs)
  {
  }

  lemma CachedKeyOk(e: Env, c: Cache, k: ObjectKey, next: nat)
    requires CacheInv(e, c, next) && k in c.objects && c.objects[k].obj.gvk == POD_GVK
    ensures PodKeyOk(e, JobFor(RefOf(c.objects[k].obj)))
  {
    assert Conforms(e, c.objects[k].obj);
    PodJobOk(e, c.objects[k].obj);
    hide Conforms, CacheInv;
  }

  /** A step that asks for a watch goes on. */
  lemma RequestKeeps(e: Env, s: State, key: JobKey, pc: PodPc, input: Input, id: nat)
    ensures PodRequest(pc).Some? ==>
              var pc' := StepPodProgram(e, s, key, pc, input, id).1;
              pc' != PodDrop && !pc'.PodReturn? && pc != PodStart && pc != PodDrop
  {
    hide Ensure, Lookup, VisitObject, MayVisit, JudgePod, RegisterPodRoot, PublishPod, FailPodEvaluation, PublishPodFailure, RequeueScope, LookupDefinition;
  }

  lemma AskingShows(e: Env, s: State, jobs: PodJobs, jobs': PodJobs, key: JobKey)
    requires AllShown(e, s, jobs) && key in jobs'.busy && key !in jobs'.doomed && key !in jobs.started
    requires forall other :: other != key ==> (other in jobs.started <==> other in jobs'.started)
                                              && (other in jobs.busy <==> other in jobs'.busy) && (other in jobs.doomed <==> other in jobs'.doomed)
    ensures AllShown(e, s, jobs')
  {
    hide Wanted;
    forall k ensures ShownAt(e, s, jobs', k) { assert ShownAt(e, s, jobs, k); }
  }

  /** The actions that are not the Pods' own jobs, nor moves of the queues. */
  lemma SectionShowsPods(e: Env, sys: System, a: Action, jobs: PodJobs)
    requires AllShown(e, sys.s, jobs) && Enabled(e, sys, a)
    requires CacheInv(e, sys.s.cache, sys.nextWatch)
    requires a.WatchEvent? || a.WatchSnapshot? || a.WatchStatus? || a.SyncSources? || a.StartWatch? || a.Selected? || a.StepRoot?
    ensures AllShown(e, Next(e, sys, a).s, jobs)
  {
    var s, t := sys.s, Next(e, sys, a).s;
    CacheIsServed(e, s.cache, sys.nextWatch);
    ServedIsKeyed(e, s.cache);
    CacheMirrors(e, s.cache, sys.nextWatch);
    hide ApplyWatchEvent, Replace, UpdateWatchHealth, PrepareWatchRequests, Ensure, StepPodProgram, StepRootProgram, StepSelected, AllShown,
         Served, CacheInv, KeyedObjects, SourcesMirror, Deliverable, IsSyncOrder, Genuine;
    match a
    case WatchEvent(w, o, deleted) => EventShows(e, s, w, o, deleted, jobs);
    case WatchSnapshot(w, objects, drop, put) => SnapshotShows(e, s, w, objects, drop, put, jobs, sys.nextWatch);
    case WatchStatus(w, err) => HealthShows(e, s, w, err, jobs);
    case SyncSources(offered, err, order) => SyncShowsPods(e, s, offered, err, order, jobs);
    case StartWatch(gvk, namespace, metadataOnly, mapping) =>
      RequestShows(e, s, Request(gvk, namespace, metadataOnly), mapping, sys.nextWatch, jobs);
    case Selected(op) =>
      SelectedStepTracks(e, s, op);
      SameShows(e, s, t, jobs);
    case StepRoot(uid, input) =>
      RootStepCache(e, s, uid, sys.roots[uid], input, sys.nextWatch);
      if RootRequest(sys.roots[uid]).Some? {
        RequestShows(e, s, RootRequest(sys.roots[uid]).value, input.mapping, sys.nextWatch, jobs);
      } else {
        RootStepPods(e, s, uid, sys.roots[uid], input, sys.nextWatch);
        SameShows(e, s, t, jobs);
      }
  }

  lemma NextShowsPods(e: Env, sys: System, a: Action)
    requires AcceptsAll(e) && PodsShown(e, sys) && JobsInv(e, sys) && PodsFiled(sys.s) && Enabled(e, sys, a)
    requires CacheInv(e, sys.s.cache, sys.nextWatch) && NamespacedIn(e, sys.s)
    ensures PodsShown(e, Next(e, sys, a))
  {
    hide AllShown, AcceptsAll, Registered, RootFacts, PodFacts, PodsFiled, NamespacedIn, PodJobsOf, CacheInv;
    if a.StepPod? {
      PodStepShowsAll(e, sys, a.key, a.input);
    } else if a.TakePod? || a.FinishPod? || a.RetryPod? || a.TakeRoot? || a.FinishRoot? || a.RetryRoot?
              || a.TakeObject? || a.RetryObject? || a.TakeSync? || a.RetrySync? {
      PodQueueMoves(e, sys, a);
      hide Next, Enabled;
      AwaitedShows(e, sys.s, PodJobsOf(sys), Next(e, sys, a).s, PodJobsOf(Next(e, sys, a)));
    } else {
      SectionShowsPods(e, sys, a, PodJobsOf(sys));
      SameJobs(e, sys, a);
      hide Next, Enabled;
    }
  }

  lemma CacheMirrors(e: Env, c: Cache, next: nat)
    requires CacheInv(e, c, next)
    ensures SourcesMirror(c)
  {
  }

  lemma ServedIsKeyed(e: Env, c: Cache)
    requires Served(e, c)
    ensures KeyedObjects(c)
  {
    hide Serves;
  }

  lemma SameJobs(e: Env, sys: System, a: Action)
    requires Enabled(e, sys, a)
    ensures a.WatchEvent? || a.WatchSnapshot? || a.WatchStatus? || a.SyncSources? || a.StartWatch? || a.Selected? || a.StepRoot? ==>
              PodJobsOf(Next(e, sys, a)) == PodJobsOf(sys)
  {
  }

  lemma RootStepPods(e: Env, s: State, uid: Uid, pc: RootPc, input: Input, id: nat)
    ensures RootRequest(pc).None? ==>
              var t := StepRootProgram(e, s, uid, pc, input, id).0; t.pubs.pods == s.pubs.pods && s.queues.pods <= t.queues.pods
  {
    hide Lookup, HasRootOwnership, IsPathCurrent, IsDefinitionCurrent, EvaluateWorkload, FailureReason, LookupDefinition, ControllerOwner, Ensure;
  }

  lemma PodQueueMoves(e: Env, sys: System, a: Action)
    requires Enabled(e, sys, a)
    requires a.TakePod? || a.FinishPod? || a.RetryPod? || a.TakeRoot? || a.FinishRoot? || a.RetryRoot?
             || a.TakeObject? || a.RetryObject? || a.TakeSync? || a.RetrySync?
    ensures var sys' := Next(e, sys, a);
            && sys'.s.cache == sys.s.cache && sys'.s.pubs == sys.s.pubs && PodJobsOf(sys').doomed <= PodJobsOf(sys).doomed
            && forall key :: PodAwaited(sys.s, PodJobsOf(sys), key) ==> PodAwaited(sys'.s, PodJobsOf(sys'), key)
  {
    var sys' := Next(e, sys, a);
    QueueStands(e, sys, a);
    hide Next, Enabled, PodJobsOf;
    forall key | PodAwaited(sys.s, PodJobsOf(sys), key) ensures PodAwaited(sys'.s, PodJobsOf(sys'), key) {
    }
  }

  /** A key taken from the queue is started, and a key put back or delayed is not lost. */
  lemma QueueStands(e: Env, sys: System, a: Action)
    requires Enabled(e, sys, a)
    requires a.TakePod? || a.FinishPod? || a.RetryPod? || a.TakeRoot? || a.FinishRoot? || a.RetryRoot?
             || a.TakeObject? || a.RetryObject? || a.TakeSync? || a.RetrySync?
    ensures var sys' := Next(e, sys, a);
            var jobs, jobs' := PodJobsOf(sys), PodJobsOf(sys');
            && sys'.s.cache == sys.s.cache && sys'.s.pubs == sys.s.pubs && jobs'.doomed <= jobs.doomed
            && (forall key :: key in sys.s.queues.pods || key in jobs.started ==> key in sys'.s.queues.pods || key in jobs'.started)
            && (forall key :: key in sys.s.queues.pods || key in jobs.busy ==> key in sys'.s.queues.pods || key in jobs'.busy)
  {
    hide ApplyWatchEvent, Replace, UpdateWatchHealth, PrepareWatchRequests, Ensure, StepPodProgram, StepRootProgram, StepSelected, IsSyncOrder, Genuine,
         Deliverable, ValidOp, ValidOffer, IsTracked;
  }

  lemma {:induction false} RunShowsPods(e: Env, actions: seq<Action>)
    requires AcceptsAll(e)
    ensures PodsShown(e, Run(e, actions))
    decreases |actions|
  {
    hide AcceptsAll;
    if actions != [] {
      var past := actions[..|actions| - 1];
      RunShowsPods(e, past);
      RunKeepsJobs(e, past);
      RunKeepsCache(e, past);
      RunKeepsPods(e, past);
      OpenWatchesWereRequested(e, past);
      if Enabled(e, Run(e, past), actions[|actions| - 1]) {
        NextShowsPods(e, Run(e, past), actions[|actions| - 1]);
      }
      hide Next, Enabled, PodsShown, JobsInv, CacheInv, NamespacedIn, OpenWatches, PodSettled;
    }
  }

  /** In every reachable state, where no selector and no resource rule rejects roots, every cached Pod the Pod selector takes, from a
      source without error and in the scope of what is watched, is published, with a value or an error, or its job is queued,
      waiting for a retry, or running and not yet done, or a rescan that covers it is queued or just started. */
  lemma NoLostPods(e: Env, actions: seq<Action>, k: ObjectKey)
    requires AcceptsAll(e)
    requires var s := Run(e, actions).s;
             && k in s.cache.objects && k.gvk == POD_GVK && e.podSelector(s.cache.objects[k].obj.labels)
             && SourceOf(s.cache, s.cache.objects[k].source).err == {}
             && (e.scoped && k.namespace != 0 ==> WatchKey(k.gvk, 0) !in s.cache.watches)
    ensures var sys := Run(e, actions);
            var uid := sys.s.cache.objects[k].obj.uid;
            var key := JobKey(k, uid, false);
            || uid in sys.s.pubs.pods
            || key in sys.s.queues.pods || key in sys.podDelayed
            || (key in sys.pods && sys.pods[key] != PodReturn({}))
            || Rescan(k.namespace) in sys.s.queues.pods || Rescan(0) in sys.s.queues.pods
            || (exists rescan :: (rescan == Rescan(k.namespace) || rescan == Rescan(0)) && rescan in sys.pods && sys.pods[rescan] == PodStart)
  {
    RunShowsPods(e, actions);
    RunKeepsCache(e, actions);
    var sys := Run(e, actions);
    CacheIsServed(e, sys.s.cache, sys.nextWatch);
    hide Run, AcceptsAll;
    assert ShownAt(e, sys.s, PodJobsOf(sys), k);
    assert Wanted(e, sys.s, k);
    hide ContentInv, ReplacementsOk, WatchesOk, AllShown;
  }
}
