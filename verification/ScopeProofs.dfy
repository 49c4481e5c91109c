/** The scope follows the namespaces: it is what the selector admits now, or a pass of the sources worker is on the way. */
module ScopeProofs {
  import opened Basics
  import opened Discovery
  import opened ControllerModel
  import opened ControllerSystem
  import opened CacheProofs
  import opened SourceProofs
  import opened ObjectSystem
  import opened TrackingProofs

  /** A watch's keys are of its kind. */
  ghost predicate KindsOk(c: Cache) { forall v, k :: v in c.watches && k in c.watches[v].objects ==> k.gvk == v.gvk }

  /** Wherever the namespace watch is ready, the scope is what it admits, or a pass is due. */
  ghost predicate ScopeOk(e: Env, s: State, due: bool) {
    e.scoped && NamespaceWatchReady(s.cache) ==> due || s.queues.sync || s.scopes == AdmittedNamespaces(e, s.cache)
  }

  /** Nothing the scope depends on differs, or a pass was queued. */
  ghost predicate CalmScope(s: State, t: State) {
    && (s.queues.sync ==> t.queues.sync)
    && (t.queues.sync || (t.scopes == s.scopes && SameNamespaces(s.cache, t.cache)))
  }

  ghost predicate SameNamespaces(c: Cache, c': Cache) {
    && (NAMESPACE_WATCH in c'.watches && c'.watches[NAMESPACE_WATCH].ready ==>
          NAMESPACE_WATCH in c.watches && c'.watches[NAMESPACE_WATCH] == c.watches[NAMESPACE_WATCH])
    && (forall k: ObjectKey :: k.gvk == NAMESPACE_GVK ==> Get(c'.objects, k) == Get(c.objects, k))
  }

  lemma CalmKeepsScope(e: Env, s: State, t: State, due: bool)
    requires ScopeOk(e, s, due) && CalmScope(s, t) && KindsOk(s.cache)
    ensures ScopeOk(e, t, due)
  {
    if e.scoped && NamespaceWatchReady(t.cache) && !t.queues.sync {
      forall k | k in s.cache.watches[NAMESPACE_WATCH].objects ensures Get(t.cache.objects, k) == Get(s.cache.objects, k) {
        assert k.gvk == NAMESPACE_GVK;
      }
      assert forall k :: k in s.cache.objects <==> Get(s.cache.objects, k).Some?;
      assert forall k :: k in t.cache.objects <==> Get(t.cache.objects, k).Some?;
      assert AdmittedNamespaces(e, t.cache) == AdmittedNamespaces(e, s.cache);
    }
  }

  // ---------------------------------------------------------------- objects and watches

  lemma PutScope(e: Env, s: State, key: ObjectKey, o: CachedObject)
    requires e.scoped && ObjectKeyOf(o.obj) == key
    ensures CalmScope(s, PutObject(e, s, key, o))
  {
    hide ChangedPods, ChangedWork;
  }

  lemma DropScope(e: Env, s: State, key: ObjectKey)
    requires e.scoped && (key in s.cache.objects ==> ObjectKeyOf(s.cache.objects[key].obj) == key)
    ensures CalmScope(s, DropObject(e, s, key))
  {
    hide ChangedPods, ChangedWork;
  }

  predicate Keyed(c: Cache) { forall k :: k in c.objects ==> ObjectKeyOf(c.objects[k].obj) == k }

  lemma CalmScopes(s: State, t: State, u: State)
    requires CalmScope(s, t) && CalmScope(t, u)
    ensures CalmScope(s, u)
  {
  }

  lemma {:induction false} DropsScope(e: Env, s: State, keys: seq<ObjectKey>)
    requires e.scoped && Keyed(s.cache)
    ensures CalmScope(s, DropObjects(e, s, keys))
    decreases |keys|
  {
    hide CalmScope, DropObject;
    if keys == [] {
      CalmSelf(s);
    } else {
      var t := DropObject(e, s, keys[0]);
      DropScope(e, s, keys[0]);
      DropKeeps(e, s, keys[0]);
      DropsScope(e, t, keys[1..]);
      CalmScopes(s, t, DropObjects(e, t, keys[1..]));
    }
  }

  lemma DropKeeps(e: Env, s: State, key: ObjectKey)
    requires Keyed(s.cache)
    ensures Keyed(DropObject(e, s, key).cache)
  {
    hide ChangedPods, ChangedWork;
  }

  lemma CalmSelf(s: State)
    ensures CalmScope(s, s)
  {
  }

  lemma {:induction false} PutsScope(e: Env, s: State, source: WatchKey, objects: map<ObjectKey, Object>, keys: seq<ObjectKey>)
    requires e.scoped && forall k :: k in keys ==> k in objects && ObjectKeyOf(objects[k]) == k
    ensures CalmScope(s, PutObjects(e, s, source, objects, keys))
    decreases |keys|
  {
    hide CalmScope, PutObject;
    if keys == [] {
      CalmSelf(s);
    } else {
      assert keys[0] in keys;
      var t := PutObject(e, s, keys[0], CachedObject(objects[keys[0]], source));
      PutScope(e, s, keys[0], CachedObject(objects[keys[0]], source));
      PutsScope(e, t, source, objects, keys[1..]);
      CalmScopes(s, t, PutObjects(e, t, source, objects, keys[1..]));
    }
  }

  lemma {:induction false} DropsSourcedScope(e: Env, s: State, source: WatchKey, keys: seq<ObjectKey>)
    requires e.scoped && Keyed(s.cache)
    ensures CalmScope(s, DropSourced(e, s, source, keys)) && Keyed(DropSourced(e, s, source, keys).cache)
    decreases |keys|
  {
    hide CalmScope, DropObject;
    CalmSelf(s);
    if keys != [] {
      var t := if keys[0] in s.cache.objects && s.cache.objects[keys[0]].source == source then DropObject(e, s, keys[0]) else s;
      DropScope(e, s, keys[0]);
      DropKeeps(e, s, keys[0]);
      DropsSourcedScope(e, t, source, keys[1..]);
      CalmScopes(s, t, DropSourced(e, t, source, keys[1..]));
    }
  }

  /** What a watch of another kind does, or a pass is queued. */
  lemma EventScope(e: Env, s: State, w: Handle, o: Object, deleted: bool)
    requires e.scoped && Keyed(s.cache) && o.gvk == w.key.gvk
    ensures CalmScope(s, ApplyWatchEvent(e, s, w, o, deleted))
  {
    var key := ObjectKeyOf(o);
    DropScope(e, s, key);
    PutScope(e, s, key, CachedObject(o, w.key));
    EventFlags(e, s, w, o, deleted);
    EventEffect(e, s, w, o, deleted);
    hide ApplyWatchEvent, PutObject, DropObject;
  }

  lemma EventFlags(e: Env, s: State, w: Handle, o: Object, deleted: bool)
    requires e.scoped && Keyed(s.cache) && o.gvk == w.key.gvk
    ensures var t := ApplyWatchEvent(e, s, w, o, deleted);
            && (s.queues.sync ==> t.queues.sync)
            && (w.key.gvk == NAMESPACE_GVK && t != s ==> t.queues.sync)
  {
    hide ChangedPods, ChangedWork;
  }

  lemma HealthScope(e: Env, s: State, w: Handle, err: Failure)
    ensures CalmScope(s, UpdateWatchHealth(e, s, w, err))
    ensures w.key.gvk == NAMESPACE_GVK && IsTracked(s.cache, w) ==> UpdateWatchHealth(e, s, w, err).queues.sync
  {
    hide FailureReason, RootJobs;
  }

  lemma SnapshotScope(e: Env, s: State, w: Handle, objects: map<ObjectKey, Object>, drop: seq<ObjectKey>, put: seq<ObjectKey>)
    requires e.scoped && Keyed(s.cache) && forall k :: k in put ==> k in objects && ObjectKeyOf(objects[k]) == k
    ensures CalmScope(s, Replace(e, s, w, objects, drop, put))
  {
    hide DropObjects, PutObjects, UpdateWatchHealth, CalmScope;
    CalmSelf(s);
    if IsTracked(s.cache, w) {
      var s1 := s.(cache := Promote(s.cache, w));
      var s2 := DropObjects(e, s1, drop);
      var s3 := PutObjects(e, s2, w.key, objects, put);
      var s4 := s3.(cache := MarkReady(s3.cache, w.key, objects.Keys));
      var t := UpdateWatchHealth(e, s4, w, {});
      DropsScope(e, s1, drop);
      DropObjectsEffect(e, s1, drop);
      PutsScope(e, s2, w.key, objects, put);
      PutObjectsEffect(e, s2, w.key, objects, put);
      HealthScope(e, s4, w, {});
      StillTracked(s, s1, s2, s3, w, objects.Keys);
      AddsPods(t, {Rescan(w.key.namespace)});
      if w.key.gvk == NAMESPACE_GVK {
        Flagged(s, AddPods(t, {Rescan(w.key.namespace)}));
      } else {
        PromoteScope(s, w);
        MarkScope(s3, w, objects.Keys);
        CalmScopes(s, s1, s2);
        CalmScopes(s, s2, s3);
        CalmScopes(s, s3, s4);
        CalmScopes(s, s4, t);
        CalmScopes(s, t, AddPods(t, {Rescan(w.key.namespace)}));
      }
    }
  }

  lemma Flagged(s: State, t: State)
    requires t.queues.sync
    ensures CalmScope(s, t)
  {
  }

  lemma AddsPods(s: State, keys: set<JobKey>)
    ensures CalmScope(s, AddPods(s, keys)) && AddPods(s, keys).queues.sync == s.queues.sync
  {
  }

  lemma StillTracked(s: State, s1: State, s2: State, s3: State, w: Handle, keys: set<ObjectKey>)
    requires IsTracked(s.cache, w) && s1 == s.(cache := Promote(s.cache, w))
    requires s2.cache.watches == s1.cache.watches && s2.cache.replacements == s1.cache.replacements
    requires s3.cache.watches == s2.cache.watches && s3.cache.replacements == s2.cache.replacements
    ensures IsTracked(s3.(cache := MarkReady(s3.cache, w.key, keys)).cache, w)
  {
  }

  lemma PromoteScope(s: State, w: Handle)
    requires IsTracked(s.cache, w) && w.key.gvk != NAMESPACE_GVK
    ensures CalmScope(s, s.(cache := Promote(s.cache, w)))
  {
  }

  lemma MarkScope(s: State, w: Handle, keys: set<ObjectKey>)
    requires w.key.gvk != NAMESPACE_GVK
    ensures CalmScope(s, s.(cache := MarkReady(s.cache, w.key, keys)))
  {
  }

  lemma {:induction false} RetiresScope(e: Env, s: State, keys: seq<WatchKey>, order: map<WatchKey, seq<ObjectKey>>)
    requires e.scoped && Keyed(s.cache) && forall k :: k in keys ==> k.namespace != 0
    ensures CalmScope(s, RetireWatches(e, s, keys, order))
    decreases |keys|
  {
    hide CalmScope, DropSourced;
    CalmSelf(s);
    if keys != [] {
      var objects := if keys[0] in order then order[keys[0]] else [];
      var s1 := s.(cache := s.cache.(watches := s.cache.watches - {keys[0]}));
      var s2 := DropSourced(e, s1, keys[0], objects);
      var t := RetireWatch(e, s, keys[0], objects);
      RetireScope(e, s, keys[0], objects);
      DropsSourcedScope(e, s1, keys[0], objects);
      CalmScopes(s, s1, s2);
      CalmScopes(s, s2, t);
      hide RetireWatch;
      RetiresScope(e, t, keys[1..], order);
      CalmScopes(s, t, RetireWatches(e, t, keys[1..], order));
    }
  }

  lemma RetireScope(e: Env, s: State, key: WatchKey, objects: seq<ObjectKey>)
    requires key.namespace != 0
    ensures var s1 := s.(cache := s.cache.(watches := s.cache.watches - {key}));
            && CalmScope(s, s1) && CalmScope(DropSourced(e, s1, key, objects), RetireWatch(e, s, key, objects))
            && RetireWatch(e, s, key, objects).cache.objects == DropSourced(e, s1, key, objects).cache.objects
  {
    hide DropSourced;
  }

  /** After a pass that found the namespaces ready the scope is what they admit, or the next pass is queued. */
  lemma PassScope(e: Env, s: State, offered: map<GroupKind, Selection>, err: Failure, order: SyncOrder)
    requires e.scoped && Keyed(s.cache) && KindsOk(s.cache) && IsSyncOrder(e, s, offered, err, order) && NamespaceWatchReady(s.cache)
    ensures ScopeOk(e, PrepareWatchRequests(e, s, offered, err, order), false)
  {
    RefreshEffect(e, s, offered, err);
    var s1 := RefreshDefinitions(e, s, offered, err);
    hide RefreshDefinitions, RetireWatches, RemoveRoots, CalmScope;
    var s1' := s1.(scopes := AdmittedNamespaces(e, s1.cache));
    RemoveRootsEffect(s1', order.roots);
    var s2 := ShrinkScope(e, s1, order.roots);
    assert ScopeOk(e, s2, false);
    assert forall k :: k in order.watches ==> k.namespace != 0;
    RetiresScope(e, s2, order.watches, order.objects);
    var s3 := RetireWatches(e, s2, order.watches, order.objects);
    CalmKeepsScope(e, s2, s3, false);
  }

  lemma RequestScope(e: Env, s: State, r: Request, mapping: Failure, id: nat)
    ensures CalmScope(s, ServeRequest(e, s, Some(r), mapping, id))
  {
    EnsureEffect(e, s, r.gvk, r.namespace, r.metadataOnly, mapping, id);
    RequestRest(e, s, Some(r), mapping, id);
    hide Ensure, ServingKey;
  }

  // ---------------------------------------------------------------- every run

  lemma EventKinds(c: Cache, w: Handle, o: Object, deleted: bool)
    requires KindsOk(c) && o.gvk == w.key.gvk
    ensures KindsOk(EventCache(c, w, o, deleted))
  {
  }

  lemma ListKinds(c: Cache, w: Handle, objects: map<ObjectKey, Object>)
    requires KindsOk(c) && ReplacementsOk(c) && Genuine(c, w) && IsTracked(c, w)
    requires forall k :: k in objects ==> k.gvk == w.key.gvk
    ensures KindsOk(AcceptedCache(c, w, objects))
  {
    AcceptedShape(c, w, objects);
    hide AcceptedCache, ReplacementsOk;
  }

  lemma HealthKinds(c: Cache, w: Handle, err: Failure)
    requires KindsOk(c)
    ensures KindsOk(HealthCache(c, w, err))
  {
  }

  lemma EnsureKinds(e: Env, c: Cache, scopes: set<Name>, gvk: Gvk, namespace: Name, metadataOnly: bool, id: nat)
    requires KindsOk(c)
    ensures KindsOk(EnsuredCache(e, c, scopes, gvk, namespace, metadataOnly, id))
  {
    hide ServingKey;
  }

  lemma FewerKinds(c: Cache, c': Cache, gone: set<WatchKey>)
    requires KindsOk(c) && c'.watches == c.watches - gone
    ensures KindsOk(c')
  {
  }

  lemma NextKinds(e: Env, sys: System, a: Action)
    requires Enabled(e, sys, a) && KindsOk(sys.s.cache) && ReplacementsOk(sys.s.cache)
    ensures KindsOk(Next(e, sys, a).s.cache)
  {
    hide ApplyWatchEvent, Replace, UpdateWatchHealth, PrepareWatchRequests, Ensure, StepPodProgram, StepRootProgram, StepSelected, Conforms, IsFull,
         ReplacementsOk, IsSyncOrder, SnapshotCache, KindsOk, EventCache, HealthCache, EnsuredCache, AcceptedCache;
    var s, c := sys.s, sys.s.cache;
    if ActionRequest(sys, a).Some? {
      var r := ActionRequest(sys, a).value;
      RequestNext(e, sys, a);
      EnsureEffect(e, s, r.gvk, r.namespace, r.metadataOnly, ActionMapping(a), sys.nextWatch);
      EnsureKinds(e, c, s.scopes, r.gvk, r.namespace, r.metadataOnly, sys.nextWatch);
    } else {
      match a
      case WatchEvent(v, o, deleted) =>
        EventEffect(e, s, v, o, deleted);
        EventKinds(c, v, o, deleted);
      case WatchSnapshot(v, objects, drop, put) =>
        if IsTracked(c, v) {
          SnapshotEffect(e, s, v, objects, drop, put);
          assert forall k :: k in objects ==> ObjectKeyOf(objects[k]).gvk == v.key.gvk;
          ListKinds(c, v, objects);
        } else {
          UntrackedSnapshot(e, s, v, objects, drop, put);
        }
      case WatchStatus(v, err) =>
        HealthEffect(e, s, v, err);
        HealthKinds(c, v, err);
      case SyncSources(offered, err, order) =>
        var gone, lost := SyncShape(e, s, offered, err, order);
        FewerKinds(c, PrepareWatchRequests(e, s, offered, err, order).cache, gone);
      case StartWatch(gvk, namespace, metadataOnly, mapping) => assert false;
      case Selected(op) => SelectedStepTracks(e, s, op);
      case StepPod(k, input) => PodStepCache(e, s, k, sys.pods[k], input, sys.nextWatch);
      case StepRoot(uid, input) => RootStepCache(e, s, uid, sys.roots[uid], input, sys.nextWatch);
      case _ =>
    }
  }

  lemma {:induction false} RunKinds(e: Env, actions: seq<Action>)
    ensures KindsOk(Run(e, actions).s.cache)
    decreases |actions|
  {
    if actions != [] {
      var past := actions[..|actions| - 1];
      RunKinds(e, past);
      RunKeepsCache(e, past);
      if Enabled(e, Run(e, past), actions[|actions| - 1]) {
        NextKinds(e, Run(e, past), actions[|actions| - 1]);
      }
      hide Next, Enabled, KindsOk, ContentInv;
    }
  }

  lemma SameCacheScope(s: State, t: State)
    requires t.cache == s.cache && t.scopes == s.scopes && (s.queues.sync ==> t.queues.sync)
    ensures CalmScope(s, t)
  {
  }

  /** A step of the workers leaves the flag of the sources worker alone, or sets it. */
  lemma PodStepScope(e: Env, s: State, key: JobKey, pc: PodPc, input: Input, id: nat)
    ensures CalmScope(s, StepPodProgram(e, s, key, pc, input, id).0)
  {
    PodStepCache(e, s, key, pc, input, id);
    if PodRequest(pc).Some? {
      RequestScope(e, s, PodRequest(pc).value, input.mapping, id);
      hide StepPodProgram;
    } else {
      hide Lookup, HasRootOwnership, IsPathCurrent, IsDefinitionCurrent, VisitObject, MayVisit, JudgePod, RescannedPods, RescannedWork, FailureReason,
           LookupDefinition, SettleRootRef, AncestorPods, WithoutPod;
      SameCacheScope(s, StepPodProgram(e, s, key, pc, input, id).0);
    }
  }

  lemma RootStepScope(e: Env, s: State, uid: Uid, pc: RootPc, input: Input, id: nat)
    ensures CalmScope(s, StepRootProgram(e, s, uid, pc, input, id).0)
  {
    RootStepCache(e, s, uid, pc, input, id);
    if RootRequest(pc).Some? {
      RequestScope(e, s, RootRequest(pc).value, input.mapping, id);
      hide StepRootProgram;
    } else {
      hide Lookup, HasRootOwnership, IsPathCurrent, IsDefinitionCurrent, EvaluateWorkload, FailureReason, LookupDefinition, ControllerOwner, Ensure;
      SameCacheScope(s, StepRootProgram(e, s, uid, pc, input, id).0);
    }
  }

  lemma SelectedScope(e: Env, s: State, op: SelectedOp)
    ensures CalmScope(s, StepSelected(e, s, op))
  {
    SelectedStepTracks(e, s, op);
    hide Lookup, IsPathCurrent, IsDefinitionCurrent, SettleRootRef, AncestorPods, WithoutSelected, FailureReason;
    SameCacheScope(s, StepSelected(e, s, op));
  }

  lemma OtherScope(e: Env, sys: System, a: Action)
    requires e.scoped && Enabled(e, sys, a) && !a.SyncSources? && !a.TakeSync? && Keyed(sys.s.cache)
    ensures CalmScope(sys.s, Next(e, sys, a).s)
  {
    var s, t := sys.s, Next(e, sys, a).s;
    hide ApplyWatchEvent, Replace, UpdateWatchHealth, Ensure, StepPodProgram, StepRootProgram, StepSelected, CalmScope, Conforms, IsFull, Keyed;
    match a
    case WatchEvent(w, o, deleted) => EventScope(e, s, w, o, deleted);
    case WatchSnapshot(w, objects, drop, put) => SnapshotScope(e, s, w, objects, drop, put);
    case WatchStatus(w, err) => HealthScope(e, s, w, err);
    case StartWatch(gvk, namespace, metadataOnly, mapping) => RequestScope(e, s, Request(gvk, namespace, metadataOnly), mapping, sys.nextWatch);
    case Selected(op) => SelectedScope(e, s, op);
    case StepPod(key, input) => PodStepScope(e, s, key, sys.pods[key], input, sys.nextWatch);
    case StepRoot(uid, input) => RootStepScope(e, s, uid, sys.roots[uid], input, sys.nextWatch);
    case SyncSources(_, _, _) => assert false;
    case TakeSync => assert false;
    case _ => SameCacheScope(s, t);
  }

  /** A pass that has not looked at the namespaces yet, or failed to, or waits for a retry. */
  predicate PassDue(w: Whole) { w.sync.SyncStart? || w.sync.SyncPrepare? || w.sync.SyncReturn? || w.syncDelayed }

  ghost predicate ScopeInv(e: Env, w: Whole) {
    ScopeOk(e, w.sys.s, PassDue(w)) && (w.sync.SyncReturn? ==> w.sync.err != {})
  }

  lemma WholeScope(e: Env, w: Whole, a: WholeAction)
    requires e.scoped && WholeEnabled(e, w, a) && ScopeInv(e, w) && ObjectsKnow(e, w)
    requires KindsOk(w.sys.s.cache) && CacheInv(e, w.sys.s.cache, w.sys.nextWatch)
    ensures ScopeInv(e, WholeNext(e, w, a))
  {
    var s, t := w.sys.s, WholeNext(e, w, a).sys.s;
    assert Keyed(s.cache);
    if a.Prepare? {
      hide ObjectsKnow, CacheInv, KindsOk, Keyed;
      PrepareScope(e, w, a);
    } else if a.BeginSync? {
      hide ObjectsKnow, CacheInv, KindsOk, Keyed, ScopeOk;
      DueOk(e, t, true);
    } else {
      PartScope(e, w, a);
      hide ObjectsKnow, CacheInv, Keyed, StepObjectProgram, ScopeOk, CalmScope, Ensure, Next, Enabled;
      CalmKeepsScope(e, s, t, PassDue(w));
      DueOk(e, t, PassDue(WholeNext(e, w, a)));
    }
  }

  lemma PrepareScope(e: Env, w: Whole, a: WholeAction)
    requires e.scoped && a.Prepare? && WholeEnabled(e, w, a) && ScopeInv(e, w) && KindsOk(w.sys.s.cache) && Keyed(w.sys.s.cache)
    ensures ScopeInv(e, WholeNext(e, w, a))
  {
    var s, t := w.sys.s, WholeNext(e, w, a).sys.s;
    hide ScopeOk, KindsOk, Keyed;
    if NamespaceWatchReady(s.cache) {
      PassScope(e, s, a.offered, a.err, a.order);
    }
    hide PrepareWatchRequests, IsSyncOrder;
    DueOk(e, t, PassDue(WholeNext(e, w, a)));
  }

  /** Every step but a pass and the start of one leaves the scope alone, or queues a pass. */
  lemma PartScope(e: Env, w: Whole, a: WholeAction)
    requires e.scoped && !a.Prepare? && !a.BeginSync? && WholeEnabled(e, w, a) && ObjectsKnow(e, w) && Keyed(w.sys.s.cache)
    ensures CalmScope(w.sys.s, WholeNext(e, w, a).sys.s)
  {
    PartIs(e, w, a);
    hide ObjectsKnow, Keyed, StepObjectProgram, CalmScope, Ensure, WholeNext, Next, Enabled;
    var part := Part(e, w, a);
    if part.Some? {
      assert !part.value.SyncSources? && !part.value.TakeSync?;
      OtherScope(e, w.sys, part.value);
    } else {
      SameCacheScope(w.sys.s, WholeNext(e, w, a).sys.s);
    }
  }

  lemma DueOk(e: Env, s: State, due: bool)
    ensures due ==> ScopeOk(e, s, due)
    ensures ScopeOk(e, s, false) ==> ScopeOk(e, s, due)
  {
  }

  lemma {:induction false} WholeRunScope(e: Env, actions: seq<WholeAction>)
    requires e.scoped
    ensures ScopeInv(e, WholeRun(e, actions))
    decreases |actions|
  {
    if actions != [] {
      var past := actions[..|actions| - 1];
      var w, a := WholeRun(e, past), actions[|actions| - 1];
      WholeRunScope(e, past);
      if WholeEnabled(e, w, a) {
        WholeIsRun(e, past);
        RunKinds(e, Parts(e, past));
        RunKeepsCache(e, Parts(e, past));
        WholeScope(e, w, a);
      }
      hide WholeNext, WholeEnabled, ScopeInv, ObjectsKnow, CacheInv, KindsOk;
    }
  }

  /** In every reachable state, wherever the namespace watch is ready, the scope is exactly the namespaces the selector admits now,
      or a pass of the sources worker is queued, about to look at them, failed or waiting for a retry. */
  lemma ScopeIsFresh(e: Env, actions: seq<WholeAction>)
    requires e.scoped && NamespaceWatchReady(WholeRun(e, actions).sys.s.cache)
    ensures var w := WholeRun(e, actions);
            var c := w.sys.s.cache;
            || w.sys.s.scopes == (set k | k in c.watches[NAMESPACE_WATCH].objects && k in c.objects && e.admits(c.objects[k].obj.labels)
                                    :: c.objects[k].obj.name)
            || w.sys.s.queues.sync || w.syncDelayed || w.sync.SyncStart? || w.sync.SyncPrepare? || (w.sync.SyncReturn? && w.sync.err != {})
  {
    WholeRunScope(e, actions);
    hide WholeRun;
  }
}
