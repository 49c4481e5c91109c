/** Every source the exporter should watch is watched in full, or about to be, or a pass of the sources worker is on the way. */
module SourceLawProofs {
  import opened Basics
  import opened Discovery
  import opened ControllerModel
  import opened ControllerSystem
  import opened CacheProofs
  import opened SourceProofs
  import opened VersionProofs
  import opened ObjectSystem
  import opened ScopeProofs

  /** A kind to watch everywhere: Pods, required ones, and what a selected definition applies to. */
  predicate Wanted(e: Env, d: Definitions, gvk: Gvk) {
    || gvk == POD_GVK || gvk in e.requiredKinds
    || (gvk.version != 0 && gvk.groupKind.kind != 0 && exists kind :: kind in d.selected && d.selected[kind].gvk == gvk)
  }

  /** The collection that serves a kind in a namespace is watched in full, or a full watch is about to take over. */
  predicate Watched(e: Env, c: Cache, r: WatchKey) {
    var key := WatchKey(r.gvk, if e.clusterScoped(r.gvk.groupKind) || !e.scoped then 0 else r.namespace);
    key in c.watches && (c.watches[key].full || key in c.replacements)
  }

  /** All requests of the last pass but `left` are watched, or the pass failed. */
  ghost predicate AllWatched(e: Env, s: State, left: set<WatchKey>, failed: bool) {
    failed || forall r :: r in WatchRequests(e, s) && r !in left ==> Watched(e, s.cache, r)
  }

  /** No watch goes, and full ones stay full. */
  ghost predicate KeepsWatches(c: Cache, c': Cache) {
    forall k :: k in c.watches && (c.watches[k].full || k in c.replacements) ==> k in c'.watches && (c'.watches[k].full || k in c'.replacements)
  }

  lemma KeepsAllWatched(e: Env, s: State, t: State, left: set<WatchKey>, failed: bool)
    requires AllWatched(e, s, left, failed) && KeepsWatches(s.cache, t.cache) && t.defs == s.defs && t.scopes == s.scopes
    ensures AllWatched(e, t, left, failed)
  {
    assert WatchRequests(e, t) == WatchRequests(e, s);
    hide WatchRequests;
  }

  lemma RequestKeepsWatches(e: Env, s: State, r: Request, mapping: Failure, id: nat)
    ensures var t := ServeRequest(e, s, Some(r), mapping, id); KeepsWatches(s.cache, t.cache) && t.defs == s.defs && t.scopes == s.scopes
  {
    EnsureEffect(e, s, r.gvk, r.namespace, r.metadataOnly, mapping, id);
    RequestRest(e, s, Some(r), mapping, id);
    hide Ensure, ServingKey;
  }

  /** A full request that maps in scope is watched. */
  lemma AskedIsWatched(e: Env, s: State, r: WatchKey, mapping: Failure, id: nat)
    requires r.namespace in s.scopes
    ensures var (t, err) := Ensure(e, s, r.gvk, r.namespace, false, mapping, id); err == {} ==> Watched(e, t.cache, r)
  {
    EnsureEffect(e, s, r.gvk, r.namespace, false, mapping, id);
  }

  /** What the rest of the system does takes no watch away. */
  lemma OtherKeepsWatches(e: Env, sys: System, a: Action)
    requires Enabled(e, sys, a) && !a.SyncSources? && ReplacementsOk(sys.s.cache)
    ensures KeepsWatches(sys.s.cache, Next(e, sys, a).s.cache) && Next(e, sys, a).s.scopes == sys.s.scopes && Next(e, sys, a).s.defs == sys.s.defs
  {
    NextDefinitions(e, sys, a);
    hide ApplyWatchEvent, Replace, UpdateWatchHealth, PrepareWatchRequests, Ensure, StepPodProgram, StepRootProgram, StepSelected, ReplacementsOk,
         AcceptedCache, Deliverable, SnapshotCache, KeepsWatches;
    var s, c := sys.s, sys.s.cache;
    if ActionRequest(sys, a).Some? {
      RequestNext(e, sys, a);
      RequestKeepsWatches(e, s, ActionRequest(sys, a).value, ActionMapping(a), sys.nextWatch);
    } else {
      KeepsSelf(c);
      match a
      case WatchEvent(v, o, deleted) =>
        EventEffect(e, s, v, o, deleted);
        EventKeepsWatched(c, v, o, deleted);
      case WatchSnapshot(v, objects, drop, put) =>
        SnapshotRest(e, s, v, objects, drop, put);
        if IsTracked(c, v) {
          SnapshotEffect(e, s, v, objects, drop, put);
          ListKeepsWatched(c, v, objects);
        } else {
          UntrackedSnapshot(e, s, v, objects, drop, put);
        }
      case WatchStatus(v, err) =>
        HealthEffect(e, s, v, err);
        HealthRest(e, s, v, err);
        HealthKeepsWatched(c, v, err);
      case StartWatch(gvk, namespace, metadataOnly, mapping) => assert false;
      case Selected(op) => SelectedStepTracks(e, s, op);
      case StepPod(k, input) => PodStepCache(e, s, k, sys.pods[k], input, sys.nextWatch);
      case StepRoot(uid, input) => RootStepCache(e, s, uid, sys.roots[uid], input, sys.nextWatch);
      case _ =>
    }
  }

  lemma KeepsSelf(c: Cache)
    ensures KeepsWatches(c, c)
  {
  }

  lemma EventKeepsWatched(c: Cache, w: Handle, o: Object, deleted: bool)
    ensures KeepsWatches(c, EventCache(c, w, o, deleted))
  {
  }

  lemma HealthKeepsWatched(c: Cache, w: Handle, err: Failure)
    ensures KeepsWatches(c, HealthCache(c, w, err))
  {
  }

  /** A replacement that takes over is full. */
  lemma ListKeepsWatched(c: Cache, w: Handle, objects: map<ObjectKey, Object>)
    requires ReplacementsOk(c) && Genuine(c, w) && IsTracked(c, w)
    ensures KeepsWatches(c, AcceptedCache(c, w, objects))
  {
    AcceptedShape(c, w, objects);
    hide AcceptedCache;
  }

  // ---------------------------------------------------------------- every run

  ghost predicate SourcesInv(e: Env, w: Whole) {
    match w.sync
    case SyncIdle => AllWatched(e, w.sys.s, {}, w.sys.s.queues.sync || w.syncDelayed)
    case SyncAsk(requests, err) => AllWatched(e, w.sys.s, requests, err != {}) && forall r :: r in requests ==> r.namespace in w.sys.s.scopes
    case SyncReturn(err) => err != {}
    case _ => true
  }

  lemma WholeWatches(e: Env, w: Whole, a: WholeAction)
    requires WholeEnabled(e, w, a) && SourcesInv(e, w) && ObjectsKnow(e, w) && ReplacementsOk(w.sys.s.cache)
    ensures SourcesInv(e, WholeNext(e, w, a))
  {
    var s, w' := w.sys.s, WholeNext(e, w, a);
    var t := w'.sys.s;
    if a.Prepare? {
      hide PrepareWatchRequests, IsSyncOrder, Watched;
    } else if a.Ask? {
      var request := Request(a.request.gvk, a.request.namespace, false);
      RequestKeepsWatches(e, s, request, a.mapping, w.sys.nextWatch);
      AskedIsWatched(e, s, a.request, a.mapping, w.sys.nextWatch);
      KeepsAllWatched(e, s, t, w.sync.requests, w.sync.err != {});
      hide Ensure, Watched, KeepsWatches, WatchRequests;
    } else {
      PartWatches(e, w, a);
      hide KeepsWatches, ObjectsKnow, ReplacementsOk, StepObjectProgram, Ensure, Next, Enabled, WatchRequests, Watched;
      if w.sync.SyncIdle? {
        KeepsAllWatched(e, s, t, {}, s.queues.sync || w.syncDelayed);
      } else if w.sync.SyncAsk? {
        KeepsAllWatched(e, s, t, w.sync.requests, w.sync.err != {});
      }
    }
  }

  lemma PartWatches(e: Env, w: Whole, a: WholeAction)
    requires WholeEnabled(e, w, a) && !a.Prepare? && ObjectsKnow(e, w) && ReplacementsOk(w.sys.s.cache)
    ensures var s, t := w.sys.s, WholeNext(e, w, a).sys.s;
            && KeepsWatches(s.cache, t.cache) && t.scopes == s.scopes && t.defs == s.defs
            && (w.sync.SyncIdle? && !a.BeginSync? ==>
                  WholeNext(e, w, a).sync.SyncIdle?
                  && (s.queues.sync || w.syncDelayed ==> t.queues.sync || WholeNext(e, w, a).syncDelayed))
            && (w.sync.SyncAsk? && !a.Ask? && !a.EndSync? ==> WholeNext(e, w, a).sync == w.sync)
  {
    PartIs(e, w, a);
    var part := Part(e, w, a);
    if part.Some? {
      OtherKeepsWatches(e, w.sys, part.value);
    } else {
      KeepsSelf(w.sys.s.cache);
    }
    if !a.BeginSync? {
      FlagStays(e, w, a);
    }
    hide ObjectsKnow, ReplacementsOk, StepObjectProgram, Ensure, Next, Enabled, KeepsWatches, PrepareWatchRequests;
  }

  /** Only the start of a pass takes the flag down. */
  lemma FlagStays(e: Env, w: Whole, a: WholeAction)
    requires WholeEnabled(e, w, a) && !a.Prepare? && !a.BeginSync? && ObjectsKnow(e, w)
    ensures w.sys.s.queues.sync ==> WholeNext(e, w, a).sys.s.queues.sync
  {
    PartIs(e, w, a);
    var part := Part(e, w, a);
    if part.Some? {
      ActionFlag(e, w.sys, part.value);
    }
    hide ObjectsKnow, StepObjectProgram, Ensure, Next, Enabled;
  }

  lemma ActionFlag(e: Env, sys: System, a: Action)
    requires Enabled(e, sys, a) && !a.SyncSources? && !a.TakeSync?
    ensures sys.s.queues.sync ==> Next(e, sys, a).s.queues.sync
  {
    var s := sys.s;
    hide ApplyWatchEvent, Replace, UpdateWatchHealth, Ensure, StepPodProgram, StepRootProgram, StepSelected, Deliverable, SameNamespaces;
    match a
    case WatchEvent(w, o, deleted) => EventEffect(e, s, w, o, deleted);
    case WatchSnapshot(w, objects, drop, put) => SnapshotRest(e, s, w, objects, drop, put);
    case WatchStatus(w, err) => HealthRest(e, s, w, err);
    case StartWatch(gvk, namespace, metadataOnly, mapping) => EnsureRest(e, s, gvk, namespace, metadataOnly, mapping, sys.nextWatch);
    case Selected(op) => SelectedScope(e, s, op);
    case StepPod(key, input) => PodStepScope(e, s, key, sys.pods[key], input, sys.nextWatch);
    case StepRoot(uid, input) => RootStepScope(e, s, uid, sys.roots[uid], input, sys.nextWatch);
    case _ =>
  }

  lemma {:induction false} WholeRunWatches(e: Env, actions: seq<WholeAction>)
    ensures SourcesInv(e, WholeRun(e, actions))
    decreases |actions|
  {
    if actions != [] {
      var past := actions[..|actions| - 1];
      var w, a := WholeRun(e, past), actions[|actions| - 1];
      WholeRunWatches(e, past);
      if WholeEnabled(e, w, a) {
        WholeIsRun(e, past);
        RunKeepsCache(e, Parts(e, past));
        WholeWatches(e, w, a);
      }
      hide WholeNext, WholeEnabled, SourcesInv, ObjectsKnow, ContentInv;
    }
  }

  /** In every reachable state in which the sources worker has nothing to do, every kind to watch is watched in full, or about to be,
      in every namespace of the scope: Pods, required kinds, and the kinds selected definitions apply to. */
  lemma NoLostSources(e: Env, actions: seq<WholeAction>, gvk: Gvk, namespace: Name)
    requires var w := WholeRun(e, actions);
             && w.sync.SyncIdle? && !w.sys.s.queues.sync && !w.syncDelayed
             && Wanted(e, w.sys.s.defs, gvk) && namespace in w.sys.s.scopes
    ensures Watched(e, WholeRun(e, actions).sys.s.cache, WatchKey(gvk, namespace))
  {
    WholeRunWatches(e, actions);
    hide WholeRun, Watched;
    var s := WholeRun(e, actions).sys.s;
    assert gvk in WatchKinds(e, s.defs);
    assert WatchKey(gvk, namespace) in WatchRequests(e, s);
  }
}
