/** A source's cached objects are one logical collection, whatever watch currently feeds it. */
module FeedProofs {
  import opened Basics
  import opened ControllerModel
  import opened ControllerSystem
  import opened CacheProofs
  import opened SourceProofs

  // ---------------------------------------------------------------- disjoint sources

  /** No two live watches cover the same object. */
  ghost predicate Disjoint(c: Cache) {
    forall v, w, at :: v in c.watches && w in c.watches && Covers(v, at) && Covers(w, at) ==> v == w
  }

  /** A watch's keys are exactly the cached objects that came from it. */
  ghost predicate Exact(c: Cache) {
    forall w, k :: w in c.watches && k in c.watches[w].objects ==> k in c.objects && c.objects[k].source == w
  }

  /** With a namespaced collection per namespace, containment makes the sources disjoint. */
  lemma ContainedIsDisjoint(e: Env, s: State, next: nat)
    requires WatchesOk(e, s.cache, next) && SourcesContained(e, s)
    ensures Disjoint(s.cache)
  {
    var c := s.cache;
    forall v, w, at | v in c.watches && w in c.watches && Covers(v, at) && Covers(w, at) ensures v == w {
      assert v == ServingKey(e, v.gvk, v.namespace) && w == ServingKey(e, w.gvk, w.namespace);
      assert Admitted(e, s.scopes, v.gvk, v.namespace) && Admitted(e, s.scopes, w.gvk, w.namespace);
    }
  }

  /** Without overlapping watches at most one source serves a kind in a namespace, so which one a lookup of a
      missing object finds first makes no difference. */
  lemma OneSourceServes(e: Env, c: Cache, gvk: Gvk, namespace: Name, next: nat)
    requires WatchInv(e, c, next) && Disjoint(c)
    ensures WatchKey(gvk, 0) in c.sources && WatchKey(gvk, namespace) in c.sources ==> namespace == 0
    ensures SourceFor(c, gvk, namespace)
         == if WatchKey(gvk, namespace) in c.sources then Some(WatchKey(gvk, namespace))
            else if WatchKey(gvk, 0) in c.sources then Some(WatchKey(gvk, 0)) else None
  {
    var at := ObjectKey(gvk, namespace, 0);
    assert Covers(WatchKey(gvk, 0), at) && Covers(WatchKey(gvk, namespace), at);
    hide ServingKey, ReplacementsOk;
  }

  // ---------------------------------------------------------------- the logical collection

  /** One logical collection: the watch that feeds it, the one waiting to, and its objects. */
  datatype Feed = Feed(active: Option<nat>, full: bool, pending: Option<nat>, objects: map<ObjectKey, Object>)

  const NO_FEED := Feed(None, false, None, map[])

  function Collection(c: Cache, key: WatchKey): map<ObjectKey, Object> {
    map k | k in c.objects && c.objects[k].source == key :: c.objects[k].obj
  }

  function FeedOf(c: Cache, key: WatchKey): Feed {
    Feed(if key in c.watches then Some(c.watches[key].id) else None, key in c.watches && c.watches[key].full,
         if key in c.replacements then Some(c.replacements[key].id) else None, Collection(c, key))
  }

  /** An event counts only when the active watch sends it. */
  function FeedEvent(f: Feed, id: nat, o: Object, deleted: bool): Feed {
    var key := ObjectKeyOf(o);
    if f.active != Some(id) then f
    else if !deleted then f.(objects := f.objects[key := o])
    else if key in f.objects && f.objects[key].uid == o.uid then f.(objects := f.objects - {key})
    else f
  }

  /** A snapshot counts when the active watch sends it, or the pending one, which takes over. */
  function FeedSnapshot(f: Feed, id: nat, objects: map<ObjectKey, Object>): Feed {
    if f.active == Some(id) then f.(objects := objects)
    else if f.pending == Some(id) then Feed(Some(id), true, None, objects)
    else f
  }

  function FeedStart(f: Feed, id: nat, metadataOnly: bool): Feed {
    if f.active.None? then Feed(Some(id), !metadataOnly, None, map[])
    else if metadataOnly || f.full || f.pending.Some? then f
    else f.(pending := Some(id))
  }

  // ---------------------------------------------------------------- one section at a time

  lemma SourceAt(e: Env, c: Cache, w: Handle, at: ObjectKey)
    requires ContentInv(e, c) && Disjoint(c) && w.key in c.watches && Covers(w.key, at) && at in c.objects
    ensures c.objects[at].source == w.key
  {
    assert Covers(c.objects[at].source, at);
  }

  lemma PutCollection(objects: map<ObjectKey, CachedObject>, c: Cache, at: ObjectKey, o: Object, source: WatchKey, key: WatchKey)
    requires at in c.objects ==> c.objects[at].source == source
    requires objects == c.objects[at := CachedObject(o, source)]
    ensures Collection(c.(objects := objects), key) == if key == source then Collection(c, key)[at := o] else Collection(c, key)
  {
  }

  lemma DropCollection(objects: map<ObjectKey, CachedObject>, c: Cache, at: ObjectKey, key: WatchKey)
    requires at in c.objects && objects == c.objects - {at}
    ensures Collection(c.(objects := objects), key)
         == if key == c.objects[at].source then Collection(c, key) - {at} else Collection(c, key)
  {
  }

  lemma SameCollection(c: Cache, c': Cache, key: WatchKey)
    requires c.objects == c'.objects
    ensures Collection(c, key) == Collection(c', key)
  {
  }

  lemma CollectionAt(c: Cache, at: ObjectKey, key: WatchKey)
    ensures at in Collection(c, key) <==> at in c.objects && c.objects[at].source == key
    ensures at in Collection(c, key) ==> Collection(c, key)[at] == c.objects[at].obj
  {
  }

  lemma EventFeeds(e: Env, c: Cache, w: Handle, o: Object, deleted: bool, key: WatchKey)
    requires ContentInv(e, c) && Disjoint(c) && Deliverable(e, w, o)
    ensures FeedOf(EventCache(c, w, o, deleted), key)
         == if key == w.key then FeedEvent(FeedOf(c, key), w.id, o, deleted) else FeedOf(c, key)
  {
    hide ContentInv, Disjoint, Deliverable, Covers, Conforms, IsFull, Collection;
    var at := ObjectKeyOf(o);
    DeliverableFacts(e, w, o);
    if IsActive(c, w) {
      if at in c.objects {
        SourceAt(e, c, w, at);
      }
      CollectionAt(c, at, w.key);
      var c' := EventCache(c, w, o, deleted);
      SameCollection(c', c.(objects := c'.objects), key);
      if !deleted {
        PutCollection(c'.objects, c, at, o, w.key, key);
      } else if at in c.objects && c.objects[at].obj.uid == o.uid {
        DropCollection(c'.objects, c, at, key);
      }
    }
  }

  lemma SnapshotFeeds(e: Env, c: Cache, w: Handle, objects: map<ObjectKey, Object>, key: WatchKey)
    requires ContentInv(e, c) && ReplacementsOk(c) && Disjoint(c) && Exact(c) && Genuine(c, w) && IsTracked(c, w)
    requires forall k :: k in objects ==> ObjectKeyOf(objects[k]) == k && Deliverable(e, w, objects[k])
    ensures FeedOf(AcceptedCache(c, w, objects), key)
         == if key == w.key then FeedSnapshot(FeedOf(c, key), w.id, objects) else FeedOf(c, key)
  {
    AcceptedShape(c, w, objects);
    SnapshotCollection(e, c, w, objects, key);
    hide ContentInv, AcceptedCache, Disjoint, Exact, Deliverable;
  }

  lemma SnapshotCollection(e: Env, c: Cache, w: Handle, objects: map<ObjectKey, Object>, key: WatchKey)
    requires ContentInv(e, c) && ReplacementsOk(c) && Disjoint(c) && Exact(c) && Genuine(c, w) && IsTracked(c, w)
    requires forall k :: k in objects ==> ObjectKeyOf(objects[k]) == k && Deliverable(e, w, objects[k])
    ensures Collection(AcceptedCache(c, w, objects), key) == if key == w.key then objects else Collection(c, key)
  {
    AcceptedShape(c, w, objects);
    forall k | k in c.objects && k in objects ensures c.objects[k].source == w.key {
      DeliverableFacts(e, w, objects[k]);
      SourceAt(e, c, w, k);
    }
    var c' := AcceptedCache(c, w, objects);
    TakeoverCollection(c.objects, c'.objects, c.watches[w.key].objects, w.key, objects, key) by {
      hide Conforms, IsFull, Deliverable, FullSources, AcceptedCache, Covers, Disjoint, Genuine, IsTracked, ReplacementsOk, ObjectsOk;
    }
    hide ContentInv, AcceptedCache, Disjoint, Exact, Deliverable;
  }

  lemma TakeoverCollection(was: map<ObjectKey, CachedObject>, now: map<ObjectKey, CachedObject>, tracked: set<ObjectKey>,
                           source: WatchKey, objects: map<ObjectKey, Object>, key: WatchKey)
    requires forall k :: k in was ==> (was[k].source == source <==> k in tracked)
    requires forall k :: k in was && k in objects ==> was[k].source == source
    requires now.Keys == (was.Keys - tracked) + objects.Keys
    requires forall k :: k in now ==> now[k] == if k in objects then CachedObject(objects[k], source) else was[k]
    ensures (map k | k in now && now[k].source == key :: now[k].obj)
         == if key == source then objects else map k | k in was && was[k].source == key :: was[k].obj
  {
  }

  lemma HealthFeeds(c: Cache, w: Handle, err: Failure, key: WatchKey)
    ensures FeedOf(HealthCache(c, w, err), key) == FeedOf(c, key)
  {
  }

  lemma RetireFeeds(c: Cache, gone: WatchKey, key: WatchKey)
    ensures FeedOf(RetiredCache(c, gone), key) == if key == gone then NO_FEED else FeedOf(c, key)
  {
    var c' := RetiredCache(c, gone);
    assert Collection(c', key) == if key == gone then map[] else Collection(c, key);
  }

  lemma EnsureFeeds(e: Env, c: Cache, scopes: set<Name>, gvk: Gvk, namespace: Name, metadataOnly: bool, id: nat, key: WatchKey)
    requires ObjectsTracked(c) && ReplacementsOk(c)
    ensures FeedOf(EnsuredCache(e, c, scopes, gvk, namespace, metadataOnly, id), key)
         == if key == ServingKey(e, gvk, namespace) && (key.namespace == 0 || key.namespace in scopes)
            then FeedStart(FeedOf(c, key), id, metadataOnly) else FeedOf(c, key)
  {
    hide ServingKey, Collection, ObjectsTracked, ReplacementsOk;
    var c' := EnsuredCache(e, c, scopes, gvk, namespace, metadataOnly, id);
    UnwatchedIsEmpty(c, key);
    SameCollection(c', c, key);
  }

  lemma UnwatchedIsEmpty(c: Cache, key: WatchKey)
    requires ObjectsTracked(c) && ReplacementsOk(c)
    ensures key !in c.watches ==> Collection(c, key) == map[] && key !in c.replacements
    ensures key in c.replacements ==> !c.watches[key].full
  {
  }

  // ---------------------------------------------------------------- exactness

  lemma EventKeepsExact(e: Env, c: Cache, w: Handle, o: Object, deleted: bool)
    requires ContentInv(e, c) && Disjoint(c) && Exact(c) && Deliverable(e, w, o)
    ensures Exact(EventCache(c, w, o, deleted))
  {
    var at := ObjectKeyOf(o);
    DeliverableFacts(e, w, o);
    hide Conforms, IsFull, Deliverable, FullSources, Covers;
    if IsActive(c, w) && at in c.objects {
      assert c.objects[at].source == w.key;
    }
  }

  lemma SnapshotKeepsExact(e: Env, c: Cache, w: Handle, objects: map<ObjectKey, Object>)
    requires ContentInv(e, c) && ReplacementsOk(c) && Disjoint(c) && Exact(c) && Genuine(c, w) && IsTracked(c, w)
    requires forall k :: k in objects ==> ObjectKeyOf(objects[k]) == k && Deliverable(e, w, objects[k])
    ensures Exact(AcceptedCache(c, w, objects))
  {
    hide Conforms, IsFull, Deliverable, FullSources, AcceptedCache, Covers, ReplacementsOk;
    forall k | k in objects ensures Covers(w.key, k) { DeliverableFacts(e, w, objects[k]); }
    AcceptedShape(c, w, objects);
    var c' := AcceptedCache(c, w, objects);
    forall v, k | v in c'.watches && k in c'.watches[v].objects ensures k in c'.objects && c'.objects[k].source == v {
      if v != w.key {
        assert c.objects[k].source == v && Covers(v, k);
      }
    }
  }

  lemma HealthKeepsExact(c: Cache, w: Handle, err: Failure)
    requires Exact(c)
    ensures Exact(HealthCache(c, w, err))
  {
  }

  lemma RetireKeepsExact(c: Cache, gone: WatchKey)
    requires Exact(c)
    ensures Exact(RetiredCache(c, gone))
  {
  }

  lemma EnsureKeepsExact(e: Env, c: Cache, scopes: set<Name>, gvk: Gvk, namespace: Name, metadataOnly: bool, id: nat)
    requires Exact(c)
    ensures Exact(EnsuredCache(e, c, scopes, gvk, namespace, metadataOnly, id))
  {
    hide ServingKey;
  }

  // ---------------------------------------------------------------- every run

  /** What one action does to a logical collection. */
  ghost function NextFeed(e: Env, sys: System, a: Action, f: Feed, key: WatchKey): Feed
    requires Enabled(e, sys, a)
  {
    var r := ActionRequest(sys, a);
    if r.Some? then
      if ActionMapping(a) == {} && key == ServingKey(e, r.value.gvk, r.value.namespace) && (key.namespace == 0 || key.namespace in sys.s.scopes)
      then FeedStart(f, sys.nextWatch, r.value.metadataOnly) else f
    else match a
    case WatchEvent(w, o, deleted) => if key == w.key then FeedEvent(f, w.id, o, deleted) else f
    case WatchSnapshot(w, objects, _, _) => if key == w.key then FeedSnapshot(f, w.id, objects) else f
    case SyncSources(_, _, _) => if key.namespace != 0 && key.namespace !in Next(e, sys, a).s.scopes then NO_FEED else f
    case _ => f
  }

  /** The collection of a source, fed by the whole run. */
  ghost function LogicalFeed(e: Env, actions: seq<Action>, key: WatchKey): Feed
    decreases |actions|
  {
    if actions == [] then NO_FEED
    else
      var past := actions[..|actions| - 1];
      var a := actions[|actions| - 1];
      if Enabled(e, Run(e, past), a) then NextFeed(e, Run(e, past), a, LogicalFeed(e, past, key), key) else LogicalFeed(e, past, key)
  }

  lemma {:induction false} RetireWatchesFeed(e: Env, s: State, keys: seq<WatchKey>, order: map<WatchKey, seq<ObjectKey>>, key: WatchKey, next: nat)
    requires CacheInv(e, s.cache, next) && Exact(s.cache)
    requires forall i, j :: 0 <= i < j < |keys| ==> keys[i] != keys[j]
    requires forall k :: k in keys ==> (k in order && k in s.cache.watches && Ordering(order[k], s.cache.watches[k].objects))
    ensures var c := RetireWatches(e, s, keys, order).cache;
            FeedOf(c, key) == (if key in keys then NO_FEED else FeedOf(s.cache, key)) && Exact(c)
    decreases |keys|
  {
    if keys != [] {
      RetireEffect(e, s, keys[0], order[keys[0]]);
      RetireFeeds(s.cache, keys[0], key);
      RetireKeepsExact(s.cache, keys[0]);
      RetireKeepsCache(e, s.cache, keys[0], next);
      hide RetireWatch, CacheInv, Exact, FeedOf;
      RetireWatchesFeed(e, RetireWatch(e, s, keys[0], order[keys[0]]), keys[1..], order, key, next);
    }
  }

  lemma SyncFeeds(e: Env, s: State, offered: map<GroupKind, Selection>, err: Failure, order: SyncOrder, key: WatchKey, next: nat)
    requires CacheInv(e, s.cache, next) && Exact(s.cache) && IsSyncOrder(e, s, offered, err, order) && NamespacedIn(e, s)
    ensures var t := PrepareWatchRequests(e, s, offered, err, order);
            FeedOf(t.cache, key) == (if key.namespace != 0 && key.namespace !in t.scopes then NO_FEED else FeedOf(s.cache, key))
            && Exact(t.cache)
  {
    RefreshEffect(e, s, offered, err);
    var s1 := RefreshDefinitions(e, s, offered, err);
    hide RefreshDefinitions, RemoveRoots, RetireWatches, Exact;
    if key.namespace != 0 && key.namespace !in s.scopes {
      AbsentFeed(e, s, key, next);
    }
    if !e.scoped || NamespaceWatchReady(s1.cache) {
      var s2 := ShrinkScope(e, s1, order.roots);
      if e.scoped {
        RemoveRootsEffect(s1.(scopes := AdmittedNamespaces(e, s1.cache)), order.roots);
      }
      RetireWatchesFeed(e, s2, order.watches, order.objects, key, next);
      RetireWatchesRest(e, s2, order.watches, order.objects);
      if key !in s2.cache.watches {
        AbsentWatch(e, s2.cache, key, next);
      }
      hide CacheInv, FeedOf;
    }
  }

  lemma AbsentWatch(e: Env, c: Cache, key: WatchKey, next: nat)
    requires CacheInv(e, c, next) && key !in c.watches
    ensures FeedOf(c, key) == NO_FEED
  {
    assert Collection(c, key) == map[];
  }

  lemma AbsentFeed(e: Env, s: State, key: WatchKey, next: nat)
    requires CacheInv(e, s.cache, next) && NamespacedIn(e, s) && key.namespace != 0 && key.namespace !in s.scopes
    ensures FeedOf(s.cache, key) == NO_FEED
  {
    if key !in s.cache.watches {
      AbsentWatch(e, s.cache, key, next);
    }
  }

  lemma NextFeeds(e: Env, sys: System, a: Action, key: WatchKey)
    requires Enabled(e, sys, a) && CacheInv(e, sys.s.cache, sys.nextWatch) && NamespacedIn(e, sys.s)
    requires Disjoint(sys.s.cache) && Exact(sys.s.cache)
    ensures FeedOf(Next(e, sys, a).s.cache, key) == NextFeed(e, sys, a, FeedOf(sys.s.cache, key), key)
    ensures Exact(Next(e, sys, a).s.cache)
  {
    hide ApplyWatchEvent, Replace, UpdateWatchHealth, PrepareWatchRequests, Ensure, StepPodProgram, StepRootProgram, StepSelected, FeedOf, Exact, Disjoint;
    var s, c := sys.s, sys.s.cache;
    if ActionRequest(sys, a).Some? {
      var r := ActionRequest(sys, a).value;
      RequestNext(e, sys, a);
      EnsureEffect(e, s, r.gvk, r.namespace, r.metadataOnly, ActionMapping(a), sys.nextWatch);
      EnsureFeeds(e, c, s.scopes, r.gvk, r.namespace, r.metadataOnly, sys.nextWatch, key);
      EnsureKeepsExact(e, c, s.scopes, r.gvk, r.namespace, r.metadataOnly, sys.nextWatch);
      hide Next, Enabled;
    } else {
      match a
      case WatchEvent(w, o, deleted) =>
        EventEffect(e, s, w, o, deleted);
        EventFeeds(e, c, w, o, deleted, key);
        EventKeepsExact(e, c, w, o, deleted);
      case WatchSnapshot(w, objects, drop, put) =>
        if IsTracked(c, w) {
          SnapshotEffect(e, s, w, objects, drop, put);
          SnapshotFeeds(e, c, w, objects, key);
          SnapshotKeepsExact(e, c, w, objects);
        } else {
          UntrackedSnapshot(e, s, w, objects, drop, put);
          UntrackedFeed(c, w, objects);
        }
      case WatchStatus(w, err) =>
        HealthEffect(e, s, w, err);
        HealthFeeds(c, w, err, key);
        HealthKeepsExact(c, w, err);
      case SyncSources(offered, err, order) => SyncFeeds(e, s, offered, err, order, key, sys.nextWatch);
      case StartWatch(gvk, namespace, metadataOnly, mapping) => assert false;
      case Selected(op) => SelectedStepTracks(e, s, op);
      case StepPod(k, input) => PodStepCache(e, s, k, sys.pods[k], input, sys.nextWatch);
      case StepRoot(uid, input) => RootStepCache(e, s, uid, sys.roots[uid], input, sys.nextWatch);
      case _ =>
    }
  }

  lemma UntrackedFeed(c: Cache, w: Handle, objects: map<ObjectKey, Object>)
    requires !IsTracked(c, w)
    ensures FeedSnapshot(FeedOf(c, w.key), w.id, objects) == FeedOf(c, w.key)
  {
  }

  /** Before every action of the run no two live watches covered the same object. */
  ghost predicate DisjointRun(e: Env, actions: seq<Action>) {
    forall i :: 0 <= i < |actions| ==> Disjoint(Run(e, actions[..i]).s.cache)
  }

  lemma DisjointBefore(e: Env, actions: seq<Action>)
    requires DisjointRun(e, actions) && actions != []
    ensures DisjointRun(e, actions[..|actions| - 1]) && Disjoint(Run(e, actions[..|actions| - 1]).s.cache)
  {
    hide Disjoint, Run;
    var past := actions[..|actions| - 1];
    forall i | 0 <= i < |past| ensures Disjoint(Run(e, past[..i]).s.cache) {
      assert past[..i] == actions[..i];
    }
  }

  /** Across any run in which no two live watches cover the same object, live replacements included, a source's
      cached objects are its watch's keys and the one logical collection the run fed. */
  lemma {:induction false} CacheIsLogicalFeed(e: Env, actions: seq<Action>, key: WatchKey)
    requires DisjointRun(e, actions)
    ensures FeedOf(Run(e, actions).s.cache, key) == LogicalFeed(e, actions, key)
    ensures Exact(Run(e, actions).s.cache)
    decreases |actions|
  {
    if actions != [] {
      var past := actions[..|actions| - 1];
      DisjointBefore(e, actions);
      CacheIsLogicalFeed(e, past, key);
      OpenWatchesWereRequested(e, past);
      RunKeepsCache(e, past);
      if Enabled(e, Run(e, past), actions[|actions| - 1]) {
        NextFeeds(e, Run(e, past), actions[|actions| - 1], key);
      }
      hide DisjointRun, Disjoint, NextFeed, FeedOf, Exact, NamespacedIn, CacheInv, Enabled, Next;
    }
  }

  /** Every run whose served requests are scoped is such a run. */
  lemma ScopedRunIsDisjoint(e: Env, actions: seq<Action>)
    requires ScopedRun(e, actions)
    ensures DisjointRun(e, actions) && Disjoint(Run(e, actions).s.cache)
  {
    hide Run, Opened, Disjoint, SourcesContained;
    forall i | 0 <= i <= |actions| ensures Disjoint(Run(e, actions[..i]).s.cache) {
      var past := actions[..i];
      forall j | 0 <= j < |past| ensures Opened(e, Run(e, past[..j]), past[j]) == {} {
        assert past[..j] == actions[..j] && past[j] == actions[j];
      }
      ContainmentIsExact(e, past);
      RunKeepsCache(e, past);
      ContainedIsDisjoint(e, Run(e, past).s, Run(e, past).nextWatch);
    }
    assert actions[..|actions|] == actions;
  }

  // ---------------------------------------------------------------- silent watches

  /** Only the active watch's events count, and only a tracked watch's lists and status. */
  lemma UntrackedIsSilent(e: Env, s: State, w: Handle, o: Object, deleted: bool, objects: map<ObjectKey, Object>,
                          drop: seq<ObjectKey>, put: seq<ObjectKey>, err: Failure)
    requires forall k :: k in put ==> k in objects
    ensures !IsActive(s.cache, w) ==> ApplyWatchEvent(e, s, w, o, deleted) == s
    ensures !IsTracked(s.cache, w) ==> Replace(e, s, w, objects, drop, put) == s && UpdateWatchHealth(e, s, w, err) == s
  {
    hide PutObject, DropObject, PutObjects, DropObjects;
  }

  /** No action brings a watch back. */
  lemma NextTracks(e: Env, sys: System, a: Action, w: Handle)
    requires Enabled(e, sys, a) && ReplacementsOk(sys.s.cache)
    ensures IsTracked(Next(e, sys, a).s.cache, w) ==> IsTracked(sys.s.cache, w) || w.id >= sys.nextWatch
    ensures sys.nextWatch <= Next(e, sys, a).nextWatch
  {
    hide ApplyWatchEvent, Replace, UpdateWatchHealth, PrepareWatchRequests, Ensure, StepPodProgram, StepRootProgram, StepSelected, Deliverable,
         IsSyncOrder, ServingKey, ReplacementsOk, SnapshotCache;
    var s, c := sys.s, sys.s.cache;
    if ActionRequest(sys, a).Some? {
      var r := ActionRequest(sys, a).value;
      RequestNext(e, sys, a);
      EnsureEffect(e, s, r.gvk, r.namespace, r.metadataOnly, ActionMapping(a), sys.nextWatch);
    } else {
      match a
      case WatchEvent(v, o, deleted) => EventEffect(e, s, v, o, deleted);
      case WatchSnapshot(v, objects, drop, put) =>
        if IsTracked(c, v) {
          SnapshotEffect(e, s, v, objects, drop, put);
          AcceptedShape(c, v, objects);
          hide AcceptedCache;
        } else {
          UntrackedSnapshot(e, s, v, objects, drop, put);
        }
      case WatchStatus(v, err) => HealthEffect(e, s, v, err);
      case SyncSources(offered, err, order) => var gone, lost := SyncShape(e, s, offered, err, order);
      case StartWatch(gvk, namespace, metadataOnly, mapping) => assert false;
      case Selected(op) => SelectedStepTracks(e, s, op);
      case StepPod(k, input) => PodStepCache(e, s, k, sys.pods[k], input, sys.nextWatch);
      case StepRoot(uid, input) => RootStepCache(e, s, uid, sys.roots[uid], input, sys.nextWatch);
      case _ =>
    }
  }

  lemma {:induction false} RetiredStaysRetired(e: Env, actions: seq<Action>, more: seq<Action>, w: Handle)
    requires !IsTracked(Run(e, actions).s.cache, w) && w.id < Run(e, actions).nextWatch
    ensures !IsTracked(Run(e, actions + more).s.cache, w) && w.id < Run(e, actions + more).nextWatch
    decreases |more|
  {
    if more == [] {
      assert actions + more == actions;
    } else {
      var most := more[..|more| - 1];
      var all := actions + more;
      RetiredStaysRetired(e, actions, most, w);
      assert all[..|all| - 1] == actions + most;
      RunKeepsCache(e, actions + most);
      var sys := Run(e, actions + most);
      if Enabled(e, sys, all[|all| - 1]) {
        NextTracks(e, sys, all[|all| - 1], w);
      }
      hide Next, Enabled, CacheInv;
    }
  }

  /** A watch that was retired or superseded is silent for good: whatever it still sends, at any later point of the
      run, changes nothing. */
  lemma RetiredStaysSilent(e: Env, actions: seq<Action>, more: seq<Action>, w: Handle, o: Object, deleted: bool,
                           objects: map<ObjectKey, Object>, drop: seq<ObjectKey>, put: seq<ObjectKey>, err: Failure)
    requires !IsTracked(Run(e, actions).s.cache, w) && w.id < Run(e, actions).nextWatch
    requires forall k :: k in put ==> k in objects
    ensures var s := Run(e, actions + more).s;
            && ApplyWatchEvent(e, s, w, o, deleted) == s
            && Replace(e, s, w, objects, drop, put) == s
            && UpdateWatchHealth(e, s, w, err) == s
  {
    hide Run, ApplyWatchEvent, Replace, UpdateWatchHealth;
    RetiredStaysRetired(e, actions, more, w);
    UntrackedIsSilent(e, Run(e, actions + more).s, w, o, deleted, objects, drop, put, err);
  }
}
