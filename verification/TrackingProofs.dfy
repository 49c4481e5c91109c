/** No lost discovery: every watched object the exporter should attribute to a root is attributed or excluded, or its
    job is on the way. */
module TrackingProofs {
  import opened Basics
  import opened Discovery
  import opened ControllerModel
  import opened ControllerSystem
  import opened CacheProofs
  import opened SourceProofs
  import opened JobProofs
  import opened MemberProofs
  import opened StampProofs
  import opened VersionProofs
  import opened PodProofs
  import opened ObjectSystem

  // ---------------------------------------------------------------- what must be discovered

  /** Neither a namespace nor a definition, not at a version another one was selected over, and a Pod only where
      its own version is selected. */
  predicate Discoverable(d: Definitions, gvk: Gvk) {
    && gvk != NAMESPACE_GVK && gvk != KARTA_GVK
    && (if gvk.groupKind in d.selected && d.selected[gvk.groupKind].definition.Some? then d.selected[gvk.groupKind].gvk == gvk
        else gvk != POD_GVK)
  }

  /** No watch over all namespaces serves a kind that should be watched in each. */
  predicate NotWide(e: Env, c: Cache, k: ObjectKey) {
    e.scoped && k.namespace != 0 ==> WatchKey(k.gvk, 0) !in c.watches
  }

  /** The object at `k` is cached from a source without error, and must be discovered. */
  predicate Subject(e: Env, s: State, k: ObjectKey) {
    && k in s.cache.objects && Discoverable(s.defs, s.cache.objects[k].obj.gvk) && NotWide(e, s.cache, k)
    && s.cache.objects[k].source in s.cache.sources && s.cache.sources[s.cache.objects[k].source].err == {}
  }

  predicate Resolved(m: Members, key: JobKey) {
    key in m.selected && (m.selected[key].root != NO_UID || m.selected[key].exclusion.Some?)
  }

  /** The jobs at work: rescans just started, objects whose job waits for a retry or runs, and those whose job has decided
      to stop tracking them. */
  datatype Jobs = Jobs(started: set<JobKey>, busy: set<JobKey>, doomed: set<JobKey>)

  predicate Awaited(s: State, jobs: Jobs, key: JobKey) {
    SelectedJob(key) in s.queues.work || RescanPending(s.queues.pods, jobs.started, key.obj.namespace) || key in jobs.busy
  }

  ghost predicate TrackedAt(e: Env, s: State, jobs: Jobs, k: ObjectKey) {
    Subject(e, s, k) ==>
      var key := JobFor(RefOf(s.cache.objects[k].obj));
      Awaited(s, jobs, key) || (Resolved(s.members, key) && key !in jobs.doomed)
  }

  ghost predicate AllTracked(e: Env, s: State, jobs: Jobs) {
    forall k :: TrackedAt(e, s, jobs, k)
  }

  /** Cached objects are filed under their keys and come from watches that serve them. */
  ghost predicate Served(e: Env, c: Cache) {
    forall k :: k in c.objects ==>
      var source := c.objects[k].source;
      ObjectKeyOf(c.objects[k].obj) == k && source in c.watches && Serves(e, source, k)
  }

  predicate Serves(e: Env, source: WatchKey, k: ObjectKey) {
    Covers(source, k) && source == ServingKey(e, source.gvk, source.namespace)
  }

  lemma CacheIsServed(e: Env, c: Cache, next: nat)
    requires CacheInv(e, c, next)
    ensures Served(e, c)
  {
    hide Conforms, IsFull, ServingKey;
  }

  /** Where nothing is watched too widely, a kind has one source in a namespace. */
  lemma OneSource(e: Env, c: Cache, k: ObjectKey, a: WatchKey, b: WatchKey)
    requires NotWide(e, c, k) && a in c.watches && b in c.watches && Serves(e, a, k) && Serves(e, b, k)
    ensures a == b
  {
  }

  // ---------------------------------------------------------------- sections that leave discovery alone

  ghost predicate CalmTracking(e: Env, s: State, t: State, jobs: Jobs) {
    && s.queues.work <= t.queues.work && s.queues.pods <= t.queues.pods
    && (forall k :: Subject(e, t, k) ==> Subject(e, s, k) && JobFor(RefOf(t.cache.objects[k].obj)) == JobFor(RefOf(s.cache.objects[k].obj)))
    && (forall key :: Resolved(s.members, key) ==> Resolved(t.members, key) || SelectedJob(key) in t.queues.work || key in jobs.busy || key in jobs.doomed)
  }

  lemma CalmKeepsTracked(e: Env, s: State, t: State, jobs: Jobs)
    requires AllTracked(e, s, jobs) && CalmTracking(e, s, t, jobs)
    ensures AllTracked(e, t, jobs)
  {
    hide Resolved, Subject;
    forall k ensures TrackedAt(e, t, jobs, k) {
      assert TrackedAt(e, s, jobs, k);
    }
  }

  lemma SameObjectsCalm(e: Env, s: State, t: State, jobs: Jobs)
    requires t.cache.objects == s.cache.objects && t.cache.sources == s.cache.sources && s.cache.watches.Keys <= t.cache.watches.Keys
    requires t.defs == s.defs && t.members.selected == s.members.selected
    requires s.queues.work <= t.queues.work && s.queues.pods <= t.queues.pods
    ensures CalmTracking(e, s, t, jobs)
  {
    hide Discoverable;
  }

  // ---------------------------------------------------------------- objects

  lemma PutTracks(e: Env, s: State, key: ObjectKey, o: CachedObject, jobs: Jobs)
    requires AllTracked(e, s, jobs) && Served(e, s.cache)
    requires ObjectKeyOf(o.obj) == key && o.source in s.cache.watches && Serves(e, o.source, key)
    ensures AllTracked(e, PutObject(e, s, key, o), jobs)
  {
    var t := PutObject(e, s, key, o);
    forall k ensures TrackedAt(e, t, jobs, k) {
      assert TrackedAt(e, s, jobs, k);
      if Subject(e, t, k) && k == key && key in s.cache.objects && s.cache.objects[key].obj.uid == o.obj.uid {
        OneSource(e, s.cache, key, o.source, s.cache.objects[key].source);
      }
      hide IsAncestor, ChangedPods, ControllerOwner, Serves, ServingKey, RescanPending;
    }
  }

  lemma DropTracks(e: Env, s: State, key: ObjectKey, jobs: Jobs)
    requires AllTracked(e, s, jobs)
    ensures AllTracked(e, DropObject(e, s, key), jobs)
  {
    var t := DropObject(e, s, key);
    hide ChangedPods, ChangedWork, Discoverable;
    CalmKeepsTracked(e, s, t, jobs);
  }

  lemma {:induction false} DropObjectsTrack(e: Env, s: State, keys: seq<ObjectKey>, jobs: Jobs)
    requires AllTracked(e, s, jobs)
    ensures AllTracked(e, DropObjects(e, s, keys), jobs)
    decreases |keys|
  {
    hide AllTracked, DropObject;
    if keys != [] {
      DropTracks(e, s, keys[0], jobs);
      DropObjectsTrack(e, DropObject(e, s, keys[0]), keys[1..], jobs);
    }
  }

  lemma {:induction false} PutObjectsTrack(e: Env, s: State, source: WatchKey, objects: map<ObjectKey, Object>, keys: seq<ObjectKey>,
                                           jobs: Jobs)
    requires AllTracked(e, s, jobs) && Served(e, s.cache) && source in s.cache.watches
    requires forall k :: k in keys ==> k in objects && ObjectKeyOf(objects[k]) == k && Serves(e, source, k)
    ensures AllTracked(e, PutObjects(e, s, source, objects, keys), jobs)
    decreases |keys|
  {
    hide AllTracked, PutObject, Serves;
    if keys != [] {
      var o := CachedObject(objects[keys[0]], source);
      assert keys[0] in keys;
      PutTracks(e, s, keys[0], o, jobs);
      PutObjectEffect(e, s, keys[0], o);
      PutObjectsTrack(e, PutObject(e, s, keys[0], o), source, objects, keys[1..], jobs);
    }
  }

  lemma {:induction false} DropSourcedTracks(e: Env, s: State, source: WatchKey, keys: seq<ObjectKey>, jobs: Jobs)
    requires AllTracked(e, s, jobs)
    ensures AllTracked(e, DropSourced(e, s, source, keys), jobs)
    decreases |keys|
  {
    hide AllTracked, DropObject;
    if keys != [] {
      DropTracks(e, s, keys[0], jobs);
      DropSourcedTracks(e, if keys[0] in s.cache.objects && s.cache.objects[keys[0]].source == source then DropObject(e, s, keys[0]) else s,
                        source, keys[1..], jobs);
    }
  }

  // ---------------------------------------------------------------- watches

  lemma EventTracks(e: Env, s: State, w: Handle, o: Object, deleted: bool, jobs: Jobs)
    requires AllTracked(e, s, jobs) && Served(e, s.cache) && Deliverable(e, w, o)
    requires forall k :: k in s.cache.watches ==> k == ServingKey(e, k.gvk, k.namespace)
    ensures AllTracked(e, ApplyWatchEvent(e, s, w, o, deleted), jobs)
  {
    hide PutObject, DropObject, AllTracked, Conforms, IsFull, Discoverable, CalmTracking, ServingKey, Served;
    var key := ObjectKeyOf(o);
    var put := CachedObject(o, w.key);
    DropTracks(e, s, key, jobs);
    if IsActive(s.cache, w) && !deleted {
      assert Serves(e, w.key, key);
      PutTracks(e, s, key, put, jobs);
    }
    var s1 := if deleted then DropObject(e, s, key) else PutObject(e, s, key, put);
    var t := ApplyWatchEvent(e, s, w, o, deleted);
    if t != s {
      SameObjectsCalm(e, s1, t, jobs);
      CalmKeepsTracked(e, s1, t, jobs);
    }
  }

  /** Publishing health without a recovery lets nothing in. */
  lemma HealthTracks(e: Env, s: State, w: Handle, err: Failure, jobs: Jobs)
    requires AllTracked(e, s, jobs) && Served(e, s.cache) && SourcesMirror(s.cache)
    ensures AllTracked(e, UpdateWatchHealth(e, s, w, err), jobs)
  {
    var t := UpdateWatchHealth(e, s, w, err);
    HealthEffect(e, s, w, err);
    HealthRest(e, s, w, err);
    HealthRescans(e, s, w, err);
    hide UpdateWatchHealth;
    forall k ensures TrackedAt(e, t, jobs, k) {
      assert TrackedAt(e, s, jobs, k);
      if Subject(e, t, k) && !Subject(e, s, k) {
        assert s.cache.objects[k].source == w.key;
        assert Rescan(w.key.namespace) in t.queues.pods;
      }
      hide Discoverable, Resolved;
    }
  }

  lemma HealthRescans(e: Env, s: State, w: Handle, err: Failure)
    ensures IsTracked(s.cache, w) && WatchOf(s.cache, w).err != {} && err == {} ==>
              Rescan(w.key.namespace) in UpdateWatchHealth(e, s, w, err).queues.pods
  {
    hide FailureReason;
  }

  lemma SnapshotTracks(e: Env, s: State, w: Handle, objects: map<ObjectKey, Object>, drop: seq<ObjectKey>, put: seq<ObjectKey>,
                       jobs: Jobs, next: nat)
    requires AllTracked(e, s, jobs) && CacheInv(e, s.cache, next)
    requires forall k :: k in objects ==> ObjectKeyOf(objects[k]) == k && Deliverable(e, w, objects[k])
    requires forall k :: k in put ==> k in objects
    ensures AllTracked(e, Replace(e, s, w, objects, drop, put), jobs)
  {
    hide DropObjects, PutObjects, Promote, MarkReady, UpdateWatchHealth, AllTracked, Deliverable, CacheInv;
    if IsTracked(s.cache, w) {
      CacheIsServed(e, s.cache, next);
      var s1 := s.(cache := Promote(s.cache, w));
      Promotes(e, s, w, next);
      CalmKeepsTracked(e, s, s1, jobs);
      DropObjectsTrack(e, s1, drop, jobs);
      DropObjectsEffect(e, s1, drop);
      var s2 := DropObjects(e, s1, drop);
      forall k | k in put ensures Serves(e, w.key, k) { ListedIsServed(e, s.cache, w, objects, k, next); }
      PutObjectsTrack(e, s2, w.key, objects, put, jobs);
      PutObjectsEffect(e, s2, w.key, objects, put);
      var s3 := PutObjects(e, s2, w.key, objects, put);
      var s4 := s3.(cache := MarkReady(s3.cache, w.key, objects.Keys));
      AcceptTracks(e, s3, w, objects.Keys, jobs);
    }
  }

  lemma Promotes(e: Env, s: State, w: Handle, next: nat)
    requires CacheInv(e, s.cache, next) && Served(e, s.cache) && IsTracked(s.cache, w)
    ensures var c := Promote(s.cache, w);
            && c.objects == s.cache.objects && c.sources == s.cache.sources && c.watches.Keys == s.cache.watches.Keys
            && w.key in c.watches && Served(e, c)
    ensures forall jobs :: CalmTracking(e, s, s.(cache := Promote(s.cache, w)), jobs)
  {
    hide Conforms, IsFull, ServingKey, Discoverable;
  }

  lemma ListedIsServed(e: Env, c: Cache, w: Handle, objects: map<ObjectKey, Object>, k: ObjectKey, next: nat)
    requires CacheInv(e, c, next) && IsTracked(c, w) && k in objects && ObjectKeyOf(objects[k]) == k && Deliverable(e, w, objects[k])
    ensures Serves(e, w.key, k)
  {
    hide Conforms, IsFull, ServingKey;
  }

  /** The end of a list: the source has no error, and a rescan covers what it let in. */
  lemma AcceptTracks(e: Env, s: State, w: Handle, keys: set<ObjectKey>, jobs: Jobs)
    requires AllTracked(e, s, jobs) && Served(e, s.cache)
    ensures var s1 := s.(cache := MarkReady(s.cache, w.key, keys));
            AllTracked(e, AddPods(UpdateWatchHealth(e, s1, w, {}), {Rescan(w.key.namespace)}), jobs)
  {
    var s1 := s.(cache := MarkReady(s.cache, w.key, keys));
    assert s1.cache.objects == s.cache.objects && s1.cache.sources == s.cache.sources && s1.cache.watches.Keys == s.cache.watches.Keys;
    HealthEffect(e, s1, w, {});
    HealthRest(e, s1, w, {});
    var t := AddPods(UpdateWatchHealth(e, s1, w, {}), {Rescan(w.key.namespace)});
    hide UpdateWatchHealth, MarkReady;
    forall k ensures TrackedAt(e, t, jobs, k) {
      assert TrackedAt(e, s, jobs, k);
      if Subject(e, t, k) && !Subject(e, s, k) {
        assert s.cache.objects[k].source == w.key;
        assert Rescan(w.key.namespace) in t.queues.pods;
      }
      hide Discoverable, Resolved, ServingKey;
    }
  }

  lemma {:induction false} RetireWatchesTrack(e: Env, s: State, keys: seq<WatchKey>, order: map<WatchKey, seq<ObjectKey>>,
                                              jobs: Jobs)
    requires AllTracked(e, s, jobs) && forall k :: k in keys ==> k.namespace != 0
    ensures AllTracked(e, RetireWatches(e, s, keys, order), jobs)
    decreases |keys|
  {
    hide AllTracked, DropSourced;
    if keys != [] {
      var objects := if keys[0] in order then order[keys[0]] else [];
      var s1 := s.(cache := s.cache.(watches := s.cache.watches - {keys[0]}));
      var s2 := DropSourced(e, s1, keys[0], objects);
      var t := RetireWatch(e, s, keys[0], objects);
      RetireCalm(e, s, keys[0], objects, jobs);
      CalmKeepsTracked(e, s, s1, jobs);
      DropSourcedTracks(e, s1, keys[0], objects, jobs);
      CalmKeepsTracked(e, s2, t, jobs);
      hide RetireWatch;
      RetireWatchesTrack(e, t, keys[1..], order, jobs);
    }
  }

  lemma RetireCalm(e: Env, s: State, key: WatchKey, objects: seq<ObjectKey>, jobs: Jobs)
    requires key.namespace != 0
    ensures var s1 := s.(cache := s.cache.(watches := s.cache.watches - {key}));
            CalmTracking(e, s, s1, jobs) && CalmTracking(e, DropSourced(e, s1, key, objects), RetireWatch(e, s, key, objects), jobs)
  {
    hide DropSourced, Discoverable, Resolved;
  }

  // ---------------------------------------------------------------- definitions and the scope

  /** A kind whose selection changes is discovered anew. */
  lemma RefreshQueues(e: Env, s: State, offered: map<GroupKind, Selection>, err: Failure, k: ObjectKey)
    requires k in s.cache.objects && ObjectKeyOf(s.cache.objects[k].obj) == k
    ensures var t := RefreshDefinitions(e, s, offered, err);
            var o := s.cache.objects[k].obj;
            || Rescan(0) in t.queues.pods || SelectionFor(t.defs, o.gvk.groupKind) == SelectionFor(s.defs, o.gvk.groupKind)
            || (Discoverable(t.defs, o.gvk) ==> SelectedJob(JobFor(RefOf(o))) in t.queues.work)
  {
    hide IsSameDefinition, KindPods, AffectedPods, AffectedWork, FailureReason;
    var next := if err != {} then s.defs.selected else offered;
    var kinds := ChangedKinds(s.defs, next);
    var o := s.cache.objects[k].obj;
    if o.gvk.groupKind in kinds && FailureReason(s.defs.err) == FailureReason(err) {
      var t := RefreshDefinitions(e, s, offered, err);
      if Discoverable(t.defs, o.gvk) {
        DiscoverableIs(t.defs, o.gvk);
        var s1 := s.(defs := t.defs);
        assert ShouldDiscover(s1.defs, s.cache.objects[k].obj.gvk);
        hide ShouldDiscover;
        assert SelectedJob(JobFor(RefOf(s.cache.objects[k].obj))) in KindObjects(s1, kinds);
      }
    }
  }

  lemma DiscoverableIs(d: Definitions, gvk: Gvk)
    requires Discoverable(d, gvk)
    ensures ShouldDiscover(d, gvk)
  {
  }

  lemma RefreshTracks(e: Env, s: State, offered: map<GroupKind, Selection>, err: Failure, jobs: Jobs)
    requires AllTracked(e, s, jobs) && Served(e, s.cache)
    ensures AllTracked(e, RefreshDefinitions(e, s, offered, err), jobs)
  {
    RefreshEffect(e, s, offered, err);
    var t := RefreshDefinitions(e, s, offered, err);
    hide RefreshDefinitions, Serves;
    forall k ensures TrackedAt(e, t, jobs, k) {
      assert TrackedAt(e, s, jobs, k);
      if k in s.cache.objects {
        RefreshQueues(e, s, offered, err, k);
      }
      hide Resolved;
    }
  }

  lemma RemoveRootCalm(e: Env, s: State, uid: Uid, jobs: Jobs)
    requires SelectedInverse(s.members)
    ensures CalmTracking(e, s, RemoveRoot(s, uid), jobs)
  {
    hide Discoverable;
  }

  lemma {:induction false} RemoveRootsTrack(e: Env, s: State, uids: seq<Uid>, jobs: Jobs)
    requires AllTracked(e, s, jobs) && MembersInv(e, s.members)
    ensures AllTracked(e, RemoveRoots(s, uids), jobs)
    decreases |uids|
  {
    hide AllTracked, RemoveRoot, SelectedInverse, PodsInverse, RefsOk, MemberKeysOk;
    if uids != [] {
      RemoveRootCalm(e, s, uids[0], jobs);
      CalmKeepsTracked(e, s, RemoveRoot(s, uids[0]), jobs);
      RemoveRootMembers(e, s, uids[0]);
      RemoveRootsTrack(e, RemoveRoot(s, uids[0]), uids[1..], jobs);
    }
  }

  lemma SyncTracks(e: Env, s: State, offered: map<GroupKind, Selection>, err: Failure, order: SyncOrder, jobs: Jobs)
    requires AllTracked(e, s, jobs) && Served(e, s.cache) && MembersInv(e, s.members) && IsSyncOrder(e, s, offered, err, order)
    ensures AllTracked(e, PrepareWatchRequests(e, s, offered, err, order), jobs)
  {
    RefreshTracks(e, s, offered, err, jobs);
    RefreshEffect(e, s, offered, err);
    var s1 := RefreshDefinitions(e, s, offered, err);
    hide RefreshDefinitions, RetireWatches, RemoveRoots, AllTracked, MembersInv, CalmTracking, Served;
    if !e.scoped || NamespaceWatchReady(s1.cache) {
      var s2 := ShrinkScope(e, s1, order.roots);
      if e.scoped {
        var s1' := s1.(scopes := AdmittedNamespaces(e, s1.cache));
        SamePlaceCalm(e, s1, s1', jobs);
        CalmKeepsTracked(e, s1, s1', jobs);
        RemoveRootsTrack(e, s1', order.roots, jobs);
      }
      assert forall k :: k in order.watches ==> k.namespace != 0;
      RetireWatchesTrack(e, s2, order.watches, order.objects, jobs);
      var s3 := RetireWatches(e, s2, order.watches, order.objects);
      var t := ForgetFailures(s3, OutOfScopeFailures(s3));
      SamePlaceCalm(e, s3, t, jobs);
      CalmKeepsTracked(e, s3, t, jobs);
    }
  }

  lemma SamePlaceCalm(e: Env, s: State, t: State, jobs: Jobs)
    requires t.cache == s.cache && t.defs == s.defs && t.members == s.members
    requires s.queues.work <= t.queues.work && s.queues.pods <= t.queues.pods
    ensures CalmTracking(e, s, t, jobs)
  {
    hide Discoverable, Resolved;
  }

  lemma RequestTracks(e: Env, s: State, r: Request, mapping: Failure, id: nat, jobs: Jobs)
    requires AllTracked(e, s, jobs) && Served(e, s.cache)
    ensures AllTracked(e, ServeRequest(e, s, Some(r), mapping, id), jobs)
  {
    var t := ServeRequest(e, s, Some(r), mapping, id);
    EnsureEffect(e, s, r.gvk, r.namespace, r.metadataOnly, mapping, id);
    RequestRest(e, s, Some(r), mapping, id);
    hide Ensure, Discoverable, Resolved, Serves, AllTracked, ServingKey;
    CalmKeepsTracked(e, s, t, jobs);
  }

  // ---------------------------------------------------------------- the workers' sections

  /** Only the outcomes of `changed` keys differ. */
  ghost predicate SelectedApart(s: State, t: State, changed: set<JobKey>) {
    && t.cache == s.cache && t.defs == s.defs
    && s.queues.work <= t.queues.work && s.queues.pods <= t.queues.pods
    && forall key :: key !in changed ==> Get(t.members.selected, key) == Get(s.members.selected, key)
  }

  lemma ApartTracks(e: Env, s: State, t: State, changed: set<JobKey>, jobs: Jobs)
    requires AllTracked(e, s, jobs) && SelectedApart(s, t, changed) && changed <= jobs.busy + jobs.doomed
    ensures AllTracked(e, t, jobs)
  {
    assert CalmTracking(e, s, t, jobs) by {
      hide Discoverable;
      forall key | Resolved(s.members, key) ensures Resolved(t.members, key) || key in changed {
        assert key !in changed ==> Get(t.members.selected, key) == Get(s.members.selected, key);
      }
    }
    hide AllTracked, CalmTracking;
    CalmKeepsTracked(e, s, t, jobs);
  }

  lemma EnsureRootApart(s: State, workload: Workload)
    ensures SelectedApart(s, EnsureRoot(s, workload), {})
  {
    hide SettleRootRef, AncestorPods;
  }

  lemma AttachPodApart(s: State, key: JobKey, root: Uid)
    requires root in s.members.roots
    ensures SelectedApart(s, AttachPod(s, key, root), {})
  {
  }

  lemma AttachSelectedApart(s: State, key: JobKey, root: Uid)
    requires root in s.members.roots
    ensures SelectedApart(s, AttachSelected(s, key, root), {key})
    ensures key in AttachSelected(s, key, root).members.selected && AttachSelected(s, key, root).members.selected[key].root == root
  {
    hide WithoutSelected;
  }

  lemma RemoveSelectedApart(s: State, key: JobKey)
    ensures SelectedApart(s, RemoveSelectedMembership(s, key), {key})
  {
    hide WithoutSelected;
  }

  lemma PodStepApart(e: Env, s: State, key: JobKey, pc: PodPc, input: Input, id: nat)
    requires PodRequest(pc).None?
    ensures SelectedApart(s, StepPodProgram(e, s, key, pc, input, id).0, {})
  {
    hide Lookup, HasRootOwnership, IsPathCurrent, IsDefinitionCurrent, VisitObject, MayVisit, JudgePod, RescannedPods, RescannedWork, EnsureRoot, AttachPod,
         FailureReason, LookupDefinition;
    if pc.PodRegister? {
      EnsureRootTracks(s, pc.workload);
      EnsureRootApart(s, pc.workload);
      AttachPodApart(EnsureRoot(s, pc.workload), key, pc.workload.root.uid);
    }
  }

  /** A rescan queues every object of its namespace that must be discovered. */
  lemma RescanTracks(e: Env, s: State, namespace: Name, k: ObjectKey)
    requires k in s.cache.objects && Discoverable(s.defs, s.cache.objects[k].obj.gvk)
    requires namespace == 0 || namespace == s.cache.objects[k].obj.namespace
    ensures SelectedJob(JobFor(RefOf(s.cache.objects[k].obj))) in RequeueScope(e, s, namespace).queues.work
  {
    DiscoverableIs(s.defs, s.cache.objects[k].obj.gvk);
    hide ShouldDiscover, RescannedPods;
    assert SelectedJob(JobFor(RefOf(s.cache.objects[k].obj))) in RescannedWork(s, namespace);
  }

  lemma RootStepTracks(e: Env, s: State, uid: Uid, pc: RootPc, input: Input, id: nat, jobs: Jobs)
    requires AllTracked(e, s, jobs) && SelectedInverse(s.members) && RootRequest(pc).None?
    ensures AllTracked(e, StepRootProgram(e, s, uid, pc, input, id).0, jobs)
  {
    if pc.RootWithdraw? {
      hide AllTracked, SelectedInverse, CalmTracking;
      RemoveRootCalm(e, s, uid, jobs);
      CalmKeepsTracked(e, s, RemoveRoot(s, uid), jobs);
    } else {
      RootStepApart(e, s, uid, pc, input, id);
      hide StepRootProgram, AllTracked;
      ApartTracks(e, s, StepRootProgram(e, s, uid, pc, input, id).0, {}, jobs);
    }
  }

  lemma RootStepApart(e: Env, s: State, uid: Uid, pc: RootPc, input: Input, id: nat)
    requires RootRequest(pc).None? && !pc.RootWithdraw?
    ensures SelectedApart(s, StepRootProgram(e, s, uid, pc, input, id).0, {})
  {
    hide Lookup, HasRootOwnership, IsPathCurrent, IsDefinitionCurrent, EvaluateWorkload, FailureReason, LookupDefinition, ControllerOwner;
  }

  /** An operation on a key leaves every other key's outcome alone. */
  lemma OpApart(e: Env, s: State, op: SelectedOp)
    ensures SelectedApart(s, StepSelected(e, s, op), {op.key})
  {
    hide Lookup, IsPathCurrent, IsDefinitionCurrent, EnsureRoot, AttachSelected, RemoveSelectedMembership, FailureReason;
    RemoveSelectedApart(s, op.key);
    match op
    case Register(key, workload, _, _) =>
      EnsureRootTracks(s, workload);
      EnsureRootApart(s, workload);
      AttachSelectedApart(EnsureRoot(s, workload), key, workload.root.uid);
    case Retrack(key, o, _) =>
      if o.Some? {
        RemoveSelectedApart(AddWork(s, {SelectedJob(JobFor(RefOf(o.value)))}), key);
      }
    case _ =>
  }

  // ---------------------------------------------------------------- what a job holds of the definitions

  predicate OtherVersion(d: Definitions, key: JobKey, selection: Stamped) {
    StampOk(d, selection, key.obj.gvk.groupKind) && selection.selection.definition.Some? && selection.selection.gvk != key.obj.gvk
  }

  predicate ObjectStamp(d: Definitions, key: JobKey, pc: ObjectPc) {
    match pc
    case ObjectEnsure(selection) => OtherVersion(d, key, selection)
    case ObjectReadSelected(selection) => OtherVersion(d, key, selection)
    case ObjectReplace(_, selection) => OtherVersion(d, key, selection)
    case ObjectRead(selection, _) => StampOk(d, selection, key.obj.gvk.groupKind)
    case ObjectClimb(_, _, _, selection, _) => StampOk(d, selection, key.obj.gvk.groupKind)
    case ObjectEnsureOwner(_, _, _, selection, _) => StampOk(d, selection, key.obj.gvk.groupKind)
    case ObjectReadOwner(_, _, _, selection, _) => StampOk(d, selection, key.obj.gvk.groupKind)
    case ObjectDefineRoot(_, selection, _) => StampOk(d, selection, key.obj.gvk.groupKind)
    case ObjectExclude(workload, selection, rootSelection) =>
      StampOk(d, selection, key.obj.gvk.groupKind) && StampOk(d, rootSelection, workload.root.gvk.groupKind)
    case ObjectRegister(workload, selection, rootSelection) =>
      StampOk(d, selection, key.obj.gvk.groupKind) && StampOk(d, rootSelection, workload.root.gvk.groupKind)
    case _ => true
  }

  ghost predicate ObjectStamps(w: Whole) {
    forall key :: key in w.objects ==> ObjectStamp(w.sys.s.defs, key, w.objects[key])
  }

  lemma StampCarries(d: Definitions, later: Definitions, stamped: Stamped, kind: GroupKind)
    requires Stamps(d, later) && StampOk(d, stamped, kind)
    ensures StampOk(later, stamped, kind)
  {
    StampsCarry(d, later, stamped, kind, {});
  }

  lemma ObjectStampCarries(d: Definitions, later: Definitions, key: JobKey, pc: ObjectPc)
    requires Stamps(d, later) && ObjectStamp(d, key, pc)
    ensures ObjectStamp(later, key, pc)
  {
    forall stamped, kind | StampOk(d, stamped, kind) ensures StampOk(later, stamped, kind) { StampCarries(d, later, stamped, kind); }
    hide StampOk, Stamps;
  }

  lemma ObjectStampStep(e: Env, s: State, key: JobKey, pc: ObjectPc, input: Input, id: nat)
    requires ObjectStamp(s.defs, key, pc)
    ensures ObjectStamp(s.defs, key, StepObjectProgram(e, s, key, pc, input, id).1)
  {
    LookupStamps(s.defs, key.obj.gvk);
    if pc.ObjectDefineRoot? {
      LookupStamps(s.defs, pc.workload.root.gvk);
    }
    hide Lookup, VisitObject, MayVisit, Ensure, ReplaceSelectedTracking, ExcludeSelected, RegisterSelectedRoot, RemoveSelectedMembership,
         StampOk, CleanStamp, LookupDefinition;
  }

  lemma NextStampsObjects(e: Env, w: Whole, a: WholeAction)
    requires WholeEnabled(e, w, a) && ObjectStamps(w) && ObjectsKnow(e, w)
    ensures ObjectStamps(WholeNext(e, w, a))
  {
    PartIs(e, w, a);
    var part := Part(e, w, a);
    var d, later := w.sys.s.defs, WholeNext(e, w, a).sys.s.defs;
    if part.Some? {
      NextStamps(e, w.sys, part.value);
    } else {
      StampsSelf(d);
    }
    if a.StepObject? {
      ObjectStampStep(e, w.sys.s, a.key, w.objects[a.key], a.input, w.sys.nextWatch);
    }
    hide ObjectStamp, Stamps, StepObjectProgram, Part, Next, Enabled, PrepareWatchRequests, Ensure;
    forall key | key in WholeNext(e, w, a).objects ensures ObjectStamp(later, key, WholeNext(e, w, a).objects[key]) {
      if key in w.objects {
        ObjectStampCarries(d, later, key, w.objects[key]);
      }
      if a.StepObject? && key == a.key {
        ObjectStampCarries(d, later, key, StepObjectProgram(e, w.sys.s, key, w.objects[key], a.input, w.sys.nextWatch).1);
      } else if a.BeginObject? && key == a.key {
        NoStampYet(later, key);
      }
    }
  }

  lemma NoStampYet(d: Definitions, key: JobKey)
    ensures ObjectStamp(d, key, ObjectStart)
  {
  }

  // ---------------------------------------------------------------- one step of an object's job

  predicate OnTheWay(pc: ObjectPc) { !pc.ObjectUntrack? && pc != ObjectReturn({}) }

  /** A job ends, or decides to stop tracking, only when its object is settled or nothing to discover. */
  lemma ObjectStepSettles(e: Env, s: State, key: JobKey, pc: ObjectPc, input: Input, id: nat, k: ObjectKey)
    requires Served(e, s.cache) && NamespacedIn(e, s) && ObjectFacts(e, key, pc) && ObjectStamp(s.defs, key, pc)
    requires !pc.ObjectReturn? && !pc.ObjectUntrack?
    requires var t := StepObjectProgram(e, s, key, pc, input, id).0;
             Subject(e, t, k) && JobFor(RefOf(t.cache.objects[k].obj)) == key
    ensures var (t, pc') := StepObjectProgram(e, s, key, pc, input, id);
            OnTheWay(pc') || (Resolved(t.members, key) && pc' == ObjectReturn({}))
  {
    hide Lookup, VisitObject, MayVisit, Ensure, RecordDiscoveryFailure, TrackSelected, LookupDefinition, Subject, ReplaceSelectedTracking,
         RegisterSelectedRoot, ExcludeSelected, RemoveSelectedMembership, Served, NamespacedIn, ObjectFacts, ObjectStamp, IsNamespaceInScope;
    match pc
    case ObjectStart => StartSettles(e, s, key, k);
    case ObjectRead(_, _) => ReadSettles(e, s, key, k);
    case ObjectReplace(replacement, selection) => ReplaceSettles(e, s, key, replacement, selection, k);
    case ObjectRegister(workload, selection, rootSelection) => RegisterResolves(e, s, key, workload, selection, rootSelection);
    case ObjectExclude(workload, selection, rootSelection) => ExcludeResolves(e, s, key, workload, selection, rootSelection);
    case ObjectReadSelected(selection) =>
      if Lookup(s.cache, SelectedRef(key, selection.selection), true).Missing? {
        MissingHasCause(s.cache, SelectedRef(key, selection.selection), true);
      }
    case ObjectFail(err) => assert err != {} by { FailureHasCause(e, key, err); }
    case _ =>
  }

  lemma FailureHasCause(e: Env, key: JobKey, err: Failure)
    requires ObjectFacts(e, key, ObjectFail(err))
    ensures err != {}
  {
  }

  lemma ReplaceSettles(e: Env, s: State, key: JobKey, replacement: Option<Object>, selection: Stamped, k: ObjectKey)
    requires ObjectStamp(s.defs, key, ObjectReplace(replacement, selection))
    requires var t := ReplaceSelectedTracking(s, key, replacement, selection).0;
             Subject(e, t, k) && JobFor(RefOf(t.cache.objects[k].obj)) == key
    ensures ReplaceSelectedTracking(s, key, replacement, selection).1 != {}
  {
    hide IsPathCurrent;
  }

  lemma RegisterResolves(e: Env, s: State, key: JobKey, workload: Workload, selection: Stamped, rootSelection: Stamped)
    requires ObjectFacts(e, key, ObjectRegister(workload, selection, rootSelection))
    ensures var (t, err) := RegisterSelectedRoot(e, s, key, workload, selection, rootSelection); err == {} ==> Resolved(t.members, key)
  {
    assert workload.root.uid != 0 by {
      hide LinksTo;
      assert KnownRef(e, workload.path[|workload.path| - 1]);
    }
    EnsureRootTracks(s, workload);
    AttachSelectedApart(EnsureRoot(s, workload), key, workload.root.uid);
    hide EnsureRoot, AttachSelected, IsPathCurrent, IsDefinitionCurrent, ObjectFacts;
  }

  lemma ExcludeResolves(e: Env, s: State, key: JobKey, workload: Workload, selection: Stamped, rootSelection: Stamped)
    ensures var (t, err) := ExcludeSelected(s, key, workload, selection, rootSelection); err == {} ==> Resolved(t.members, key)
  {
    hide RemoveSelectedMembership, IsPathCurrent, IsDefinitionCurrent;
  }

  lemma StartSettles(e: Env, s: State, key: JobKey, k: ObjectKey)
    requires Served(e, s.cache) && NamespacedIn(e, s) && Subject(e, s, k) && JobFor(RefOf(s.cache.objects[k].obj)) == key
    ensures IsNamespaceInScope(e, s.scopes, key.obj.namespace)
  {
    hide Discoverable, ServingKey;
  }

  lemma ReadSettles(e: Env, s: State, key: JobKey, k: ObjectKey)
    requires Served(e, s.cache) && Subject(e, s, k) && JobFor(RefOf(s.cache.objects[k].obj)) == key
    ensures Lookup(s.cache, JobRef(key), false).Missing? ==> NotFound !in Lookup(s.cache, JobRef(key), false).err
  {
    hide Discoverable, ServingKey;
  }

  // ---------------------------------------------------------------- the whole

  function JobsOf(w: Whole): Jobs {
    Jobs(Started(w.sys.pods), w.objectDelayed + (set key | key in w.objects && OnTheWay(w.objects[key])),
         set key | key in w.objects && w.objects[key] == ObjectUntrack)
  }

  ghost predicate Tracking(e: Env, w: Whole) { AllTracked(e, w.sys.s, JobsOf(w)) }

  /** The same objects and outcomes, and whatever was awaited still is. */
  ghost predicate SameAwaited(e: Env, s: State, jobs: Jobs, t: State, jobs': Jobs) {
    && t.cache == s.cache && t.defs == s.defs && t.members == s.members
    && jobs'.doomed <= jobs.doomed
    && forall key :: Awaited(s, jobs, key) ==> Awaited(t, jobs', key)
  }

  lemma AwaitedTracks(e: Env, s: State, jobs: Jobs, t: State, jobs': Jobs)
    requires AllTracked(e, s, jobs) && SameAwaited(e, s, jobs, t, jobs')
    ensures AllTracked(e, t, jobs')
  {
    hide Awaited, Resolved, Discoverable;
    forall k ensures TrackedAt(e, t, jobs', k) {
      assert TrackedAt(e, s, jobs, k);
    }
  }

  lemma ObjectSectionTracks(e: Env, w: Whole, key: JobKey, input: Input)
    requires Tracking(e, w) && WholeEnabled(e, w, StepObject(key, input)) && Served(e, w.sys.s.cache)
    ensures AllTracked(e, StepObjectProgram(e, w.sys.s, key, w.objects[key], input, w.sys.nextWatch).0, JobsOf(w))
  {
    var s, pc, id := w.sys.s, w.objects[key], w.sys.nextWatch;
    ObjectStepIs(e, s, key, pc, input, id);
    JobMoves(e, w, key, pc);
    hide AllTracked, Served, StepSelected, StepObjectProgram, ServeRequest, JobsOf;
    if ObjectRequest(key, pc).Some? {
      RequestTracks(e, s, ObjectRequest(key, pc).value, input.mapping, id, JobsOf(w));
    } else if ObjectOp(key, pc).Some? {
      OpApart(e, s, ObjectOp(key, pc).value);
      ApartTracks(e, s, StepSelected(e, s, ObjectOp(key, pc).value), {key}, JobsOf(w));
    }
  }

  /** Only one job's standing moves, and its object is awaited or resolved still. */
  lemma MoveTracks(e: Env, s: State, jobs: Jobs, jobs': Jobs, key: JobKey)
    requires AllTracked(e, s, jobs) && jobs'.started == jobs.started
    requires forall other :: other != key ==> (other in jobs.busy ==> other in jobs'.busy) && (other in jobs'.doomed ==> other in jobs.doomed)
    requires forall k :: Subject(e, s, k) && JobFor(RefOf(s.cache.objects[k].obj)) == key ==>
               Awaited(s, jobs', key) || (Resolved(s.members, key) && key !in jobs'.doomed)
    ensures AllTracked(e, s, jobs')
  {
    hide Subject, Resolved, RescanPending;
    forall k ensures TrackedAt(e, s, jobs', k) {
      assert TrackedAt(e, s, jobs, k);
    }
  }

  lemma StepObjectTracks(e: Env, w: Whole, key: JobKey, input: Input)
    requires Tracking(e, w) && WholeEnabled(e, w, StepObject(key, input)) && Served(e, w.sys.s.cache) && NamespacedIn(e, w.sys.s)
    requires ObjectFacts(e, key, w.objects[key]) && ObjectStamp(w.sys.s.defs, key, w.objects[key])
    ensures Tracking(e, WholeNext(e, w, StepObject(key, input)))
  {
    var s, pc, id := w.sys.s, w.objects[key], w.sys.nextWatch;
    var (t, pc') := StepObjectProgram(e, s, key, pc, input, id);
    var jobs, jobs' := JobsOf(w), JobsOf(w.(objects := w.objects[key := pc']));
    ObjectSectionTracks(e, w, key, input);
    JobMoves(e, w, key, pc');
    UntrackEnds(e, s, key, pc, input, id);
    hide AllTracked, Served, NamespacedIn, ObjectFacts, ObjectStamp, StepObjectProgram, Subject, Resolved, JobsOf;
    forall k | Subject(e, t, k) && JobFor(RefOf(t.cache.objects[k].obj)) == key
      ensures Awaited(t, jobs', key) || (Resolved(t.members, key) && key !in jobs'.doomed)
    {
      if pc.ObjectUntrack? {
        AtOne(e, t, jobs, k);
      } else {
        ObjectStepSettles(e, s, key, pc, input, id, k);
      }
    }
    MoveTracks(e, t, jobs, jobs', key);
  }

  lemma UntrackEnds(e: Env, s: State, key: JobKey, pc: ObjectPc, input: Input, id: nat)
    ensures pc.ObjectUntrack? ==> StepObjectProgram(e, s, key, pc, input, id).1 == ObjectReturn({})
    ensures StepObjectProgram(e, s, key, pc, input, id).1.ObjectUntrack? ==> pc.ObjectStart? || pc.ObjectRead? || pc.ObjectUntrack?
  {
    hide Lookup, VisitObject, MayVisit, Ensure, LookupDefinition;
  }

  lemma AtOne(e: Env, s: State, jobs: Jobs, k: ObjectKey)
    requires AllTracked(e, s, jobs)
    ensures TrackedAt(e, s, jobs, k)
  {
  }

  lemma AtAll(e: Env, s: State, jobs: Jobs)
    requires forall k :: TrackedAt(e, s, jobs, k)
    ensures AllTracked(e, s, jobs)
  {
  }

  /** A step of one object's job changes that job's standing only. */
  lemma JobMoves(e: Env, w: Whole, key: JobKey, pc: ObjectPc)
    requires key in w.objects
    ensures var jobs, jobs' := JobsOf(w), JobsOf(w.(objects := w.objects[key := pc]));
            && jobs'.started == jobs.started
            && (forall other :: other != key ==> (other in jobs.busy <==> other in jobs'.busy) && (other in jobs.doomed <==> other in jobs'.doomed))
            && (key in jobs'.doomed <==> pc == ObjectUntrack)
            && (OnTheWay(pc) ==> key in jobs'.busy)
            && (key in w.objectDelayed ==> key in jobs'.busy)
            && (w.objects[key].ObjectUntrack? ==> key in jobs.doomed && (key in jobs.busy ==> key in w.objectDelayed))
            && (!w.objects[key].ObjectUntrack? && !w.objects[key].ObjectReturn? ==> key in jobs.busy)
  {
  }

  lemma OtherTracks(e: Env, w: Whole, a: Action, next: nat)
    requires Tracking(e, w) && Elsewhere(a) && Enabled(e, w.sys, a)
    requires CacheInv(e, w.sys.s.cache, next) && MembersInv(e, w.sys.s.members)
    ensures Tracking(e, w.(sys := Next(e, w.sys, a)))
  {
    var s, jobs := w.sys.s, JobsOf(w);
    var t, jobs' := Next(e, w.sys, a).s, JobsOf(w.(sys := Next(e, w.sys, a)));
    CacheIsServed(e, s.cache, next);
    hide ApplyWatchEvent, Replace, UpdateWatchHealth, PrepareWatchRequests, Ensure, StepPodProgram, StepRootProgram, StepSelected, AllTracked,
         SelectedInverse, PodsInverse, RefsOk, MemberKeysOk, ContentInv, ReplacementsOk, Served, RescanPending;
    match a
    case WatchEvent(v, o, deleted) => EventTracks(e, s, v, o, deleted, jobs);
    case WatchSnapshot(v, objects, drop, put) => SnapshotTracks(e, s, v, objects, drop, put, jobs, next);
    case WatchStatus(v, err) => HealthTracks(e, s, v, err, jobs);
    case StepPod(key, input) => PodStepTracks(e, w, key, input);
    case StepRoot(uid, input) =>
      var pc := w.sys.roots[uid];
      if RootRequest(pc).Some? {
        RootStepCache(e, s, uid, pc, input, w.sys.nextWatch);
        RequestTracks(e, s, RootRequest(pc).value, input.mapping, w.sys.nextWatch, jobs);
      } else {
        RootStepTracks(e, s, uid, pc, input, w.sys.nextWatch, jobs);
      }
    case _ =>
      QueueMoves(e, w, a);
      AwaitedTracks(e, s, jobs, t, jobs');
  }

  lemma QueueMoves(e: Env, w: Whole, a: Action)
    requires Enabled(e, w.sys, a)
    requires a.TakePod? || a.FinishPod? || a.RetryPod? || a.TakeRoot? || a.FinishRoot? || a.RetryRoot?
    ensures var w' := w.(sys := Next(e, w.sys, a)); SameAwaited(e, w.sys.s, JobsOf(w), w'.sys.s, JobsOf(w'))
  {
    hide ApplyWatchEvent, Replace, UpdateWatchHealth, PrepareWatchRequests, Ensure, StepPodProgram, StepRootProgram, StepSelected, IsSyncOrder, Genuine,
         Deliverable, ValidOp, ValidOffer, IsTracked;
  }

  lemma PodStepTracks(e: Env, w: Whole, key: JobKey, input: Input)
    requires Tracking(e, w) && Enabled(e, w.sys, StepPod(key, input)) && Served(e, w.sys.s.cache)
    ensures Tracking(e, w.(sys := Next(e, w.sys, StepPod(key, input))))
  {
    var s, pc, id := w.sys.s, w.sys.pods[key], w.sys.nextWatch;
    var (t, pc') := StepPodProgram(e, s, key, pc, input, id);
    var jobs := JobsOf(w);
    var jobs' := jobs.(started := Started(w.sys.pods[key := pc']));
    assert JobsOf(w.(sys := Next(e, w.sys, StepPod(key, input)))) == jobs';
    assert forall other :: other != key ==> (other in jobs.started <==> other in jobs'.started);
    hide Served, AllTracked;
    if PodRequest(pc).Some? {
      PodStepCache(e, s, key, pc, input, id);
      RequestTracks(e, s, PodRequest(pc).value, input.mapping, id, jobs);
      assert key !in jobs.started;
    } else {
      PodStepApart(e, s, key, pc, input, id);
      ApartTracks(e, s, t, {}, jobs);
    }
    StartedEnds(e, s, key, pc, input, id);
    hide StepPodProgram, PodRequest, JobsOf, Subject, Resolved;
    forall k ensures TrackedAt(e, t, jobs', k) {
      AtOne(e, t, jobs, k);
      if k in t.cache.objects && Subject(e, t, k) && key in jobs.started && key.rescan
         && (key.obj.namespace == 0 || key.obj.namespace == t.cache.objects[k].obj.namespace) {
        StartedRescans(e, s, key, t, k);
      }
    }
    AtAll(e, t, jobs');
  }

  lemma StartedEnds(e: Env, s: State, key: JobKey, pc: PodPc, input: Input, id: nat)
    ensures pc == PodStart && key.rescan ==> StepPodProgram(e, s, key, pc, input, id).0 == RequeueScope(e, s, key.obj.namespace)
  {
  }

  lemma StartedRescans(e: Env, s: State, key: JobKey, t: State, k: ObjectKey)
    requires t == RequeueScope(e, s, key.obj.namespace) && Subject(e, t, k)
    requires key.obj.namespace == 0 || key.obj.namespace == t.cache.objects[k].obj.namespace
    ensures SelectedJob(JobFor(RefOf(t.cache.objects[k].obj))) in t.queues.work
  {
    hide RescannedPods, RescannedWork, Discoverable;
    RescanTracks(e, s, key.obj.namespace, k);
  }

  lemma WholeTracks(e: Env, w: Whole, a: WholeAction)
    requires WholeEnabled(e, w, a) && Tracking(e, w) && ObjectsKnow(e, w) && ObjectStamps(w)
    requires CacheInv(e, w.sys.s.cache, w.sys.nextWatch) && MembersInv(e, w.sys.s.members) && NamespacedIn(e, w.sys.s)
    ensures Tracking(e, WholeNext(e, w, a))
  {
    var s, jobs := w.sys.s, JobsOf(w);
    CacheIsServed(e, s.cache, w.sys.nextWatch);
    hide Ensure, PrepareWatchRequests, StepObjectProgram, Next, AllTracked, Served, NamespacedIn, CacheInv, MembersInv, RescanPending, IsSyncOrder;
    match a
    case Other(b) => OtherTracks(e, w, b, w.sys.nextWatch);
    case StepObject(key, input) =>
      assert ObjectFacts(e, key, w.objects[key]) && ObjectStamp(s.defs, key, w.objects[key]);
      hide ObjectFacts, ObjectStamp;
      StepObjectTracks(e, w, key, input);
    case OpenNamespaces(mapping) => RequestTracks(e, s, Request(NAMESPACE_GVK, 0, false), mapping, w.sys.nextWatch, jobs);
    case Ask(request, mapping) => RequestTracks(e, s, Request(request.gvk, request.namespace, false), mapping, w.sys.nextWatch, jobs);
    case Prepare(offered, err, order) => SyncTracks(e, s, offered, err, order, jobs);
    case _ =>
      ObjectQueueMoves(e, w, a);
      AwaitedTracks(e, s, jobs, WholeNext(e, w, a).sys.s, JobsOf(WholeNext(e, w, a)));
  }

  lemma ObjectQueueMoves(e: Env, w: Whole, a: WholeAction)
    requires WholeEnabled(e, w, a)
    requires a.BeginObject? || a.EndObject? || a.AgainObject? || a.BeginSync? || a.EndSync? || a.AgainSync?
    ensures SameAwaited(e, w.sys.s, JobsOf(w), WholeNext(e, w, a).sys.s, JobsOf(WholeNext(e, w, a)))
  {
    hide Ensure, PrepareWatchRequests, StepObjectProgram, Next, Enabled, IsSyncOrder;
  }

  lemma {:induction false} WholeRunTracks(e: Env, actions: seq<WholeAction>)
    ensures Tracking(e, WholeRun(e, actions)) && ObjectStamps(WholeRun(e, actions))
    decreases |actions|
  {
    if actions != [] {
      var past := actions[..|actions| - 1];
      var w, a := WholeRun(e, past), actions[|actions| - 1];
      WholeRunTracks(e, past);
      if WholeEnabled(e, w, a) {
        WholeInvariants(e, past);
        WholeTracks(e, w, a);
        NextStampsObjects(e, w, a);
      }
      hide WholeNext, WholeEnabled, Tracking, ObjectStamps, ObjectsKnow, CacheInv, MembersInv, NamespacedIn;
    }
  }

  lemma WholeInvariants(e: Env, actions: seq<WholeAction>)
    ensures var w := WholeRun(e, actions);
            && ObjectsKnow(e, w) && CacheInv(e, w.sys.s.cache, w.sys.nextWatch) && MembersInv(e, w.sys.s.members) && NamespacedIn(e, w.sys.s)
  {
    hide WholeRun, Run, ObjectsKnow, CacheInv, MembersInv, NamespacedIn, OpenWatches, DefinitionsOk, JobKeysOk, PodFacts, RootFacts;
    WholeIsRun(e, actions);
    RunKeepsCache(e, Parts(e, actions));
    RunKeepsJobs(e, Parts(e, actions));
    OpenWatchesWereRequested(e, Parts(e, actions));
  }

  /** In every reachable state, every cached object that must be discovered, from a source without error and in the scope of
      what is watched, is attributed to a root or excluded from all, or its job is queued, waiting for a retry, or running and not
      yet done, or a rescan that covers it is queued or just started. */
  lemma NoLostDiscovery(e: Env, actions: seq<WholeAction>, k: ObjectKey)
    requires var s := WholeRun(e, actions).sys.s;
             && k in s.cache.objects
             && SourceOf(s.cache, s.cache.objects[k].source).err == {}
             && (e.scoped && k.namespace != 0 ==> WatchKey(k.gvk, 0) !in s.cache.watches)
             && k.gvk != NAMESPACE_GVK && k.gvk != KARTA_GVK
             && (var selection := LookupDefinition(s.defs, k.gvk).0.selection;
                 if selection.definition.Some? then selection.gvk == k.gvk else k.gvk != POD_GVK)
    ensures var w := WholeRun(e, actions);
            var s := w.sys.s;
            var key := JobKey(k, s.cache.objects[k].obj.uid, false);
            || SelectedJob(key) in s.queues.work || key in w.objectDelayed
            || (key in w.objects && w.objects[key] != ObjectReturn({}))
            || Rescan(k.namespace) in s.queues.pods || Rescan(0) in s.queues.pods
            || (exists rescan :: (rescan == Rescan(k.namespace) || rescan == Rescan(0)) && rescan in w.sys.pods && w.sys.pods[rescan] == PodStart)
            || (key in s.members.selected && s.members.selected[key].root in s.members.roots
                && key in s.members.roots[s.members.selected[key].root].selected)
            || (key in s.members.selected && s.members.selected[key].exclusion.Some?)
  {
    hide WholeRun, RefsOk, MemberKeysOk, PodsInverse, ObjectsKnow, NamespacedIn, AllTracked, ObjectStamps;
    WholeRunTracks(e, actions);
    WholeInvariants(e, actions);
    var w := WholeRun(e, actions);
    CacheIsServed(e, w.sys.s.cache, w.sys.nextWatch);
    AtOne(e, w.sys.s, JobsOf(w), k);
    assert Subject(e, w.sys.s, k);
    hide ObjectsKnow, ContentInv, ReplacementsOk, WatchesOk, PodsInverse, RefsOk, MemberKeysOk, NamespacedIn, AllTracked;
  }
}
