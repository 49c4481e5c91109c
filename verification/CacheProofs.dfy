/** The shared cache: what every lock section keeps, and that a collection survives the
    live replacement of its watch. */
module CacheProofs {
  import opened Basics
  import opened Discovery
  import opened ControllerModel
  import opened ControllerSystem

  // ---------------------------------------------------------------- effects of the loops

  /** Nothing but the cache's objects, the ancestor marks and the queues differs, and the queues only grew. */
  ghost predicate OnlyQueued(s: State, t: State) {
    && t.defs == s.defs && t.pubs == s.pubs && t.scopes == s.scopes && t.watchFailures == s.watchFailures
    && t.members == s.members.(ancestors := t.members.ancestors)
    && t.cache == s.cache.(objects := t.cache.objects)
    && s.queues.pods <= t.queues.pods && s.queues.work <= t.queues.work && (s.queues.sync ==> t.queues.sync)
  }

  lemma {:induction false} DropObjectsEffect(e: Env, s: State, keys: seq<ObjectKey>)
    ensures var t := DropObjects(e, s, keys);
            OnlyQueued(s, t) && t.cache.objects == s.cache.objects - (set k | k in keys)
    decreases |keys|
  {
    if keys != [] {
      var s1 := DropObject(e, s, keys[0]);
      assert s1.cache.objects == s.cache.objects - {keys[0]};
      DropObjectsEffect(e, s1, keys[1..]);
      assert (set k | k in keys) == {keys[0]} + (set k | k in keys[1..]);
    }
  }

  /** The cache after storing `keys` of a snapshot. */
  function Stored(was: map<ObjectKey, CachedObject>, source: WatchKey, objects: map<ObjectKey, Object>, keys: seq<ObjectKey>): map<ObjectKey, CachedObject> {
    map k | k in was.Keys + (set x | x in keys && x in objects) ::
      if k in keys && k in objects then CachedObject(objects[k], source) else was[k]
  }

  lemma {:induction false} PutObjectsEffect(e: Env, s: State, source: WatchKey, objects: map<ObjectKey, Object>, keys: seq<ObjectKey>)
    requires forall k :: k in keys ==> k in objects
    ensures OnlyQueued(s, PutObjects(e, s, source, objects, keys))
    ensures PutObjects(e, s, source, objects, keys).cache.objects == Stored(s.cache.objects, source, objects, keys)
    decreases |keys|
  {
    hide PutObject;
    if keys != [] {
      var o := CachedObject(objects[keys[0]], source);
      PutObjectEffect(e, s, keys[0], o);
      var s1 := PutObject(e, s, keys[0], o);
      PutObjectsEffect(e, s1, source, objects, keys[1..]);
      assert Stored(s1.cache.objects, source, objects, keys[1..]) == Stored(s.cache.objects, source, objects, keys) by {
        assert forall k :: k in keys <==> k == keys[0] || k in keys[1..];
      }
    }
  }

  lemma PutObjectEffect(e: Env, s: State, key: ObjectKey, o: CachedObject)
    ensures OnlyQueued(s, PutObject(e, s, key, o))
    ensures PutObject(e, s, key, o).cache.objects == s.cache.objects[key := o]
  {
  }

  lemma {:induction false} DropSourcedEffect(e: Env, s: State, source: WatchKey, keys: seq<ObjectKey>)
    ensures var t := DropSourced(e, s, source, keys);
            OnlyQueued(s, t)
            && t.cache.objects == map k | k in s.cache.objects && !(k in keys && s.cache.objects[k].source == source) :: s.cache.objects[k]
    decreases |keys|
  {
    if keys != [] {
      var key := keys[0];
      var s1 := if key in s.cache.objects && s.cache.objects[key].source == source then DropObject(e, s, key) else s;
      DropSourcedEffect(e, s1, source, keys[1..]);
    }
  }

  /** Everything but membership, workload results and the queues is as before. */
  ghost predicate OnlyMembers(s: State, t: State) {
    && t.cache == s.cache && t.defs == s.defs && t.scopes == s.scopes && t.watchFailures == s.watchFailures
    && t.pubs == s.pubs.(workloads := t.pubs.workloads)
    && s.queues.pods <= t.queues.pods && s.queues.work <= t.queues.work
  }

  lemma {:induction false} RemoveRootsEffect(s: State, uids: seq<Uid>)
    ensures OnlyMembers(s, RemoveRoots(s, uids))
    decreases |uids|
  {
    if uids != [] {
      RemoveRootsEffect(RemoveRoot(s, uids[0]), uids[1..]);
    }
  }

  // ---------------------------------------------------------------- what a lock section does to the cache

  function HealthCache(c: Cache, w: Handle, err: Failure): Cache {
    if !IsTracked(c, w) then c
    else
      var next := WatchOf(c, w).(err := err);
      if IsActive(c, w) then c.(watches := c.watches[w.key := next], sources := c.sources[w.key := SourceMirror(next)])
      else c.(replacements := c.replacements[w.key := next])
  }

  function EventCache(c: Cache, w: Handle, o: Object, deleted: bool): Cache {
    var key := ObjectKeyOf(o);
    if !IsActive(c, w) then c
    else
      var was := c.watches[w.key];
      if deleted then
        if key in c.objects && c.objects[key].obj.uid == o.uid
        then c.(objects := c.objects - {key}, watches := c.watches[w.key := was.(objects := was.objects - {key})])
        else c
      else c.(objects := c.objects[key := CachedObject(o, w.key)], watches := c.watches[w.key := was.(objects := was.objects + {key})])
  }

  function SnapshotCache(c: Cache, w: Handle, objects: map<ObjectKey, Object>): Cache
    requires IsTracked(c, w)
  {
    var c1 := Promote(c, w);
    var kept := map k | k in c1.objects && k !in Vanished(c, w, objects) :: c1.objects[k];
    MarkReady(c1.(objects := kept + map k | k in objects :: CachedObject(objects[k], w.key)), w.key, objects.Keys)
  }

  /** The whole snapshot section, health update included. */
  function AcceptedCache(c: Cache, w: Handle, objects: map<ObjectKey, Object>): Cache
    requires IsTracked(c, w)
  {
    HealthCache(SnapshotCache(c, w, objects), w, {})
  }

  function RetiredCache(c: Cache, key: WatchKey): Cache {
    c.(objects := map k | k in c.objects && c.objects[k].source != key :: c.objects[k],
       watches := c.watches - {key}, sources := c.sources - {key}, replacements := c.replacements - {key})
  }

  function EnsuredCache(e: Env, c: Cache, scopes: set<Name>, gvk: Gvk, namespace: Name, metadataOnly: bool, id: nat): Cache {
    var key := ServingKey(e, gvk, namespace);
    var w := Watch(id, !metadataOnly, false, {}, {});
    if key.namespace != 0 && key.namespace !in scopes then c
    else if key !in c.watches then c.(watches := c.watches[key := w], sources := c.sources[key := SourceMirror(w)])
    else if metadataOnly || c.watches[key].full || key in c.replacements then c
    else c.(replacements := c.replacements[key := w])
  }

  lemma EventEffect(e: Env, s: State, w: Handle, o: Object, deleted: bool)
    ensures var t := ApplyWatchEvent(e, s, w, o, deleted);
            t.cache == EventCache(s.cache, w, o, deleted) && OnlyQueued(s, t.(cache := s.cache.(objects := t.cache.objects)))
  {
  }

  lemma HealthEffect(e: Env, s: State, w: Handle, err: Failure)
    ensures UpdateWatchHealth(e, s, w, err).cache == HealthCache(s.cache, w, err)
  {
  }

  lemma SnapshotObjects(was: map<ObjectKey, CachedObject>, key: WatchKey, objects: map<ObjectKey, Object>,
                        gone: set<ObjectKey>, drop: seq<ObjectKey>, put: seq<ObjectKey>)
    requires Ordering(put, objects.Keys) && Ordering(drop, gone)
    ensures Stored(was - (set k | k in drop), key, objects, put)
         == (map k | k in was && k !in gone :: was[k]) + map k | k in objects :: CachedObject(objects[k], key)
  {
  }

  lemma SnapshotEffect(e: Env, s: State, w: Handle, objects: map<ObjectKey, Object>, drop: seq<ObjectKey>, put: seq<ObjectKey>)
    requires IsTracked(s.cache, w)
    requires Ordering(put, objects.Keys) && Ordering(drop, Vanished(s.cache, w, objects))
    ensures Replace(e, s, w, objects, drop, put).cache == AcceptedCache(s.cache, w, objects)
  {
    hide PutObject, DropObject, UpdateWatchHealth, PutObjects, DropObjects, Stored;
    var s1 := s.(cache := Promote(s.cache, w));
    var s2 := DropObjects(e, s1, drop);
    DropObjectsEffect(e, s1, drop);
    var s3 := PutObjects(e, s2, w.key, objects, put);
    PutObjectsEffect(e, s2, w.key, objects, put);
    HealthEffect(e, s3.(cache := MarkReady(s3.cache, w.key, objects.Keys)), w, {});
    SnapshotObjects(s1.cache.objects, w.key, objects, Vanished(s.cache, w, objects), drop, put);
  }

  lemma RetireEffect(e: Env, s: State, key: WatchKey, order: seq<ObjectKey>)
    requires forall k :: k in s.cache.objects && s.cache.objects[k].source == key ==> k in order
    ensures RetireWatch(e, s, key, order).cache == RetiredCache(s.cache, key)
  {
    hide DropSourced;
    DropSourcedEffect(e, s.(cache := s.cache.(watches := s.cache.watches - {key})), key, order);
  }

  lemma EnsureEffect(e: Env, s: State, gvk: Gvk, namespace: Name, metadataOnly: bool, mapping: Failure, id: nat)
    ensures Ensure(e, s, gvk, namespace, metadataOnly, mapping, id).0.cache
         == if mapping != {} then s.cache else EnsuredCache(e, s.cache, s.scopes, gvk, namespace, metadataOnly, id)
  {
  }

  // ---------------------------------------------------------------- the invariant

  /** The objects a source's list covers. */
  predicate Covers(key: WatchKey, at: ObjectKey) {
    key.gvk == at.gvk && (key.namespace == 0 || key.namespace == at.namespace)
  }

  ghost predicate ObjectsOk(e: Env, c: Cache) {
    forall k :: k in c.objects ==>
      && ObjectKeyOf(c.objects[k].obj) == k
      && Conforms(e, c.objects[k].obj)
      && Covers(c.objects[k].source, k)
  }

  /** Every cached object is tracked by the live watch it came from. */
  ghost predicate ObjectsTracked(c: Cache) {
    forall k :: k in c.objects ==> c.objects[k].source in c.watches && k in c.watches[c.objects[k].source].objects
  }

  /** A full watch's objects carry their bodies. */
  ghost predicate FullSources(e: Env, c: Cache) {
    forall k :: k in c.objects && c.objects[k].source in c.watches && c.watches[c.objects[k].source].full ==> IsFull(e, c.objects[k].obj)
  }

  /** `sources` mirrors the active watches. */
  ghost predicate SourcesMirror(c: Cache) {
    && c.sources.Keys == c.watches.Keys
    && (forall k :: k in c.watches ==> c.sources[k] == SourceMirror(c.watches[k]))
  }

  /** A replacement is full, unready, and has a live metadata-only predecessor. */
  ghost predicate ReplacementsOk(c: Cache) {
    forall k :: k in c.replacements ==>
      && k in c.watches && !c.watches[k].full
      && c.replacements[k].full && !c.replacements[k].ready && c.replacements[k].objects == {}
      && c.replacements[k].id != c.watches[k].id
  }

  ghost predicate WatchesOk(e: Env, c: Cache, next: nat) {
    && (forall k :: k in c.watches ==> k == ServingKey(e, k.gvk, k.namespace) && c.watches[k].id < next)
    && (forall k :: k in c.replacements ==> c.replacements[k].id < next)
  }

  ghost predicate ContentInv(e: Env, c: Cache) {
    ObjectsOk(e, c) && ObjectsTracked(c) && FullSources(e, c)
  }

  ghost predicate WatchInv(e: Env, c: Cache, next: nat) {
    SourcesMirror(c) && ReplacementsOk(c) && WatchesOk(e, c, next)
  }

  ghost predicate CacheInv(e: Env, c: Cache, next: nat) {
    ContentInv(e, c) && WatchInv(e, c, next)
  }

  lemma DeliverableFacts(e: Env, w: Handle, o: Object)
    requires Deliverable(e, w, o)
    ensures Conforms(e, o) && Covers(w.key, ObjectKeyOf(o)) && (w.full ==> IsFull(e, o))
  {
  }

  lemma EventKeepsContent(e: Env, c: Cache, w: Handle, o: Object, deleted: bool)
    requires ContentInv(e, c) && Genuine(c, w) && Deliverable(e, w, o)
    ensures ContentInv(e, EventCache(c, w, o, deleted))
  {
    hide Conforms, IsFull, Deliverable;
    DeliverableFacts(e, w, o);
  }

  lemma EventKeepsWatches(e: Env, c: Cache, w: Handle, o: Object, deleted: bool, next: nat)
    requires WatchInv(e, c, next)
    ensures WatchInv(e, EventCache(c, w, o, deleted), next)
  {
  }

  lemma HealthKeepsContent(e: Env, c: Cache, w: Handle, err: Failure)
    requires ContentInv(e, c)
    ensures ContentInv(e, HealthCache(c, w, err))
  {
    hide Conforms, IsFull;
  }

  lemma HealthKeepsWatches(e: Env, c: Cache, w: Handle, err: Failure, next: nat)
    requires WatchInv(e, c, next)
    ensures WatchInv(e, HealthCache(c, w, err), next)
  {
    hide Conforms, IsFull, FailureReason;
  }

  lemma SnapshotShape(c: Cache, w: Handle, objects: map<ObjectKey, Object>)
    requires ReplacementsOk(c) && Genuine(c, w) && IsTracked(c, w)
    ensures var c' := SnapshotCache(c, w, objects);
            && w.key in c.watches && c'.sources == c.sources
            && c'.watches.Keys == c.watches.Keys
            && (forall k :: k in c.watches && k != w.key ==> c'.watches[k] == c.watches[k])
            && c'.watches[w.key] == Watch(w.id, w.full, true, WatchOf(c, w).err, objects.Keys)
            && c'.replacements == (if IsActive(c, w) then c.replacements else c.replacements - {w.key})
            && (IsActive(c, w) ==> w.full == c.watches[w.key].full)
            && c'.objects.Keys == (c.objects.Keys - c.watches[w.key].objects) + objects.Keys
            && (forall k :: k in c'.objects ==>
                  c'.objects[k] == if k in objects then CachedObject(objects[k], w.key) else c.objects[k])
  {
  }

  lemma AcceptedShape(c: Cache, w: Handle, objects: map<ObjectKey, Object>)
    requires ReplacementsOk(c) && Genuine(c, w) && IsTracked(c, w)
    ensures var c' := AcceptedCache(c, w, objects);
            var next := Watch(w.id, w.full, true, {}, objects.Keys);
            && w.key in c.watches
            && c'.objects == SnapshotCache(c, w, objects).objects
            && c'.watches == c.watches[w.key := next]
            && c'.sources == c.sources[w.key := SourceMirror(next)]
            && c'.replacements == (if IsActive(c, w) then c.replacements else c.replacements - {w.key})
            && c'.objects.Keys == (c.objects.Keys - c.watches[w.key].objects) + objects.Keys
            && (forall k :: k in c'.objects ==>
                  c'.objects[k] == if k in objects then CachedObject(objects[k], w.key) else c.objects[k])
  {
    SnapshotShape(c, w, objects);
    hide SnapshotCache;
  }

  lemma SnapshotKeepsContent(e: Env, c: Cache, w: Handle, objects: map<ObjectKey, Object>)
    requires ContentInv(e, c) && ReplacementsOk(c) && Genuine(c, w) && IsTracked(c, w)
    requires forall k :: k in objects ==> ObjectKeyOf(objects[k]) == k && Deliverable(e, w, objects[k])
    ensures ContentInv(e, AcceptedCache(c, w, objects))
  {
    forall k | k in objects
      ensures Conforms(e, objects[k]) && Covers(w.key, k) && (w.full ==> IsFull(e, objects[k]))
    {
      DeliverableFacts(e, w, objects[k]);
    }
    AcceptedShape(c, w, objects);
    hide Conforms, IsFull, Deliverable, AcceptedCache, ReplacementsOk, Genuine, IsTracked;
    var c' := AcceptedCache(c, w, objects);
    forall k | k in c'.objects
      ensures ObjectKeyOf(c'.objects[k].obj) == k && Conforms(e, c'.objects[k].obj) && Covers(c'.objects[k].source, k)
      ensures c'.objects[k].source in c'.watches && k in c'.watches[c'.objects[k].source].objects
      ensures c'.watches[c'.objects[k].source].full ==> IsFull(e, c'.objects[k].obj)
    {
      if k !in objects {
        assert c'.objects[k] == c.objects[k] && c.objects[k].source != w.key;
      }
    }
  }

  lemma SnapshotKeepsWatches(e: Env, c: Cache, w: Handle, objects: map<ObjectKey, Object>, next: nat)
    requires WatchInv(e, c, next) && Genuine(c, w) && IsTracked(c, w)
    ensures WatchInv(e, AcceptedCache(c, w, objects), next)
  {
    AcceptedShape(c, w, objects);
    assert w.id < next;
    WatchSetKeeps(e, c, AcceptedCache(c, w, objects), w.key, Watch(w.id, w.full, true, {}, objects.Keys), next);
  }

  /** Storing one active watch, its mirror, and possibly clearing its replacement. */
  lemma WatchSetKeeps(e: Env, c: Cache, c': Cache, key: WatchKey, w: Watch, next: nat)
    requires WatchInv(e, c, next) && key in c.watches && w.id < next
    requires c'.watches == c.watches[key := w] && c'.sources == c.sources[key := SourceMirror(w)]
    requires c'.replacements == c.replacements - {key}
             || (c'.replacements == c.replacements && w.full == c.watches[key].full && w.id == c.watches[key].id)
    ensures WatchInv(e, c', next)
  {
  }

  lemma RetireKeepsCache(e: Env, c: Cache, key: WatchKey, next: nat)
    requires CacheInv(e, c, next)
    ensures CacheInv(e, RetiredCache(c, key), next)
  {
    hide Conforms, IsFull;
  }

  lemma EnsureKeepsContent(e: Env, c: Cache, scopes: set<Name>, gvk: Gvk, namespace: Name, metadataOnly: bool, next: nat)
    requires ContentInv(e, c)
    ensures ContentInv(e, EnsuredCache(e, c, scopes, gvk, namespace, metadataOnly, next))
  {
    hide Conforms, IsFull;
  }

  lemma NewWatchKeeps(e: Env, c: Cache, key: WatchKey, w: Watch, next: nat)
    requires WatchInv(e, c, next) && key !in c.watches && key == ServingKey(e, key.gvk, key.namespace) && w.id == next
    ensures WatchInv(e, c.(watches := c.watches[key := w], sources := c.sources[key := SourceMirror(w)]), next + 1)
  {
    hide ServingKey;
  }

  lemma NewReplacementKeeps(e: Env, c: Cache, key: WatchKey, w: Watch, next: nat)
    requires WatchInv(e, c, next) && key in c.watches && !c.watches[key].full
    requires w.full && !w.ready && w.objects == {} && w.id == next
    ensures WatchInv(e, c.(replacements := c.replacements[key := w]), next + 1)
  {
    hide ServingKey;
  }

  lemma EnsureKeepsWatches(e: Env, c: Cache, scopes: set<Name>, gvk: Gvk, namespace: Name, metadataOnly: bool, next: nat)
    requires WatchInv(e, c, next)
    ensures WatchInv(e, EnsuredCache(e, c, scopes, gvk, namespace, metadataOnly, next), next + 1)
  {
    var key := ServingKey(e, gvk, namespace);
    var w := Watch(next, !metadataOnly, false, {}, {});
    if EnsuredCache(e, c, scopes, gvk, namespace, metadataOnly, next) == c {
    } else if key !in c.watches {
      NewWatchKeeps(e, c, key, w, next);
    } else {
      NewReplacementKeeps(e, c, key, w, next);
    }
  }

  // ---------------------------------------------------------------- every action

  datatype Request = Request(gvk: Gvk, namespace: Name, metadataOnly: bool)

  /** The watch a worker asks for in its next step, if it asks for one. */
  function PodRequest(pc: PodPc): Option<Request> {
    match pc
    case PodEnsureOwner(_, _, ref) => Some(Request(ref.gvk, ref.namespace, true))
    case PodEnsureRoot(_, workload, selection, _) =>
      var ref := RootBodyRef(workload.root, selection.selection);
      Some(Request(ref.gvk, ref.namespace, false))
    case _ => None
  }

  function RootRequest(pc: RootPc): Option<Request> {
    match pc
    case RootEnsure(ref, _, _) => Some(Request(ref.gvk, ref.namespace, false))
    case _ => None
  }

  function ServeRequest(e: Env, s: State, request: Option<Request>, mapping: Failure, id: nat): State {
    if request.None? then s
    else Ensure(e, s, request.value.gvk, request.value.namespace, request.value.metadataOnly, mapping, id).0
  }

  lemma PodStepCache(e: Env, s: State, key: JobKey, pc: PodPc, input: Input, id: nat)
    ensures var t := StepPodProgram(e, s, key, pc, input, id).0;
            && (PodRequest(pc).Some? ==> t == ServeRequest(e, s, PodRequest(pc), input.mapping, id))
            && (PodRequest(pc).None? ==> t.cache == s.cache && t.scopes == s.scopes && t.watchFailures == s.watchFailures)
            && (PodRequest(pc).None? ==> t.defs == s.defs && t.pubs.health == s.pubs.health && t.pubs.sourceFailures == s.pubs.sourceFailures)
            && (PodRequest(pc).None? ==> t.pubs.definitionHealth == s.pubs.definitionHealth)
  {
    hide Lookup, HasRootOwnership, IsPathCurrent, IsDefinitionCurrent, VisitObject, MayVisit, JudgePod, Ensure, RescannedPods, RescannedWork;
    if pc.PodRegister? {
      EnsureRootTracks(s, pc.workload);
      hide EnsureRoot;
    } else {
      hide RegisterPodRoot;
    }
  }

  lemma RootStepCache(e: Env, s: State, uid: Uid, pc: RootPc, input: Input, id: nat)
    ensures var t := StepRootProgram(e, s, uid, pc, input, id).0;
            && (RootRequest(pc).Some? ==> t == ServeRequest(e, s, RootRequest(pc), input.mapping, id))
            && (RootRequest(pc).None? ==> t.cache == s.cache && t.scopes == s.scopes && t.watchFailures == s.watchFailures)
            && (RootRequest(pc).None? ==> t.defs == s.defs && t.pubs.health == s.pubs.health && t.pubs.sourceFailures == s.pubs.sourceFailures)
            && (RootRequest(pc).None? ==> t.pubs.definitionHealth == s.pubs.definitionHealth)
  {
    hide Lookup, HasRootOwnership, IsPathCurrent, EvaluateWorkload, Ensure;
  }

  /** Only membership, discovery failures, workload results and the queues differ, and the queues only grew. */
  ghost predicate OnlyTracking(s: State, t: State) {
    && t.cache == s.cache && t.scopes == s.scopes && t.watchFailures == s.watchFailures && t.defs == s.defs
    && t.pubs == s.pubs.(failures := t.pubs.failures)
    && s.queues.pods <= t.queues.pods && s.queues.work <= t.queues.work
  }

  lemma EnsureRootTracks(s: State, workload: Workload)
    ensures OnlyTracking(s, EnsureRoot(s, workload)) && workload.root.uid in EnsureRoot(s, workload).members.roots
  {
    hide SettleRootRef, AncestorPods;
  }

  lemma AttachSelectedTracks(s: State, key: JobKey, root: Uid)
    requires root in s.members.roots
    ensures OnlyTracking(s, AttachSelected(s, key, root))
  {
  }

  lemma SelectedStepTracks(e: Env, s: State, op: SelectedOp)
    ensures OnlyTracking(s, StepSelected(e, s, op))
  {
    hide Lookup, HasRootOwnership, IsPathCurrent, IsDefinitionCurrent, EnsureRoot, AttachSelected, RemoveSelectedMembership;
    match op
    case Register(key, workload, _, _) =>
      EnsureRootTracks(s, workload);
      AttachSelectedTracks(EnsureRoot(s, workload), key, workload.root.uid);
    case Retrack(key, o, _) =>
      RemoveSelectedTracks(s, key);
      if o.Some? {
        RemoveSelectedTracks(AddWork(s, {SelectedJob(JobFor(RefOf(o.value)))}), key);
      }
    case _ => RemoveSelectedTracks(s, op.key);
  }

  lemma RemoveSelectedTracks(s: State, key: JobKey)
    ensures OnlyTracking(s, RemoveSelectedMembership(s, key))
  {
  }

  lemma RefreshEffect(e: Env, s: State, offered: map<GroupKind, Selection>, err: Failure)
    ensures var t := RefreshDefinitions(e, s, offered, err);
            && t.cache == s.cache && t.scopes == s.scopes && t.watchFailures == s.watchFailures && t.members == s.members
            && t.pubs == s.pubs.(definitionHealth := t.pubs.definitionHealth)
            && s.queues.pods <= t.queues.pods && s.queues.work <= t.queues.work
  {
    hide KindPods, KindObjects, AffectedPods, AffectedWork, ChangedKinds, MergedDefinitions;
  }

  lemma {:induction false} RetireWatchesKeepCache(e: Env, s: State, keys: seq<WatchKey>, order: map<WatchKey, seq<ObjectKey>>, next: nat)
    requires CacheInv(e, s.cache, next)
    requires forall i, j :: 0 <= i < j < |keys| ==> keys[i] != keys[j]
    requires forall k :: k in keys ==> (k in order && k in s.cache.watches && Ordering(order[k], s.cache.watches[k].objects))
    ensures CacheInv(e, RetireWatches(e, s, keys, order).cache, next)
    decreases |keys|
  {
    if keys != [] {
      var key := keys[0];
      RetireEffect(e, s, key, order[key]);
      RetireKeepsCache(e, s.cache, key, next);
      hide RetireWatch, CacheInv;
      RetireWatchesKeepCache(e, RetireWatch(e, s, key, order[key]), keys[1..], order, next);
    }
  }

  /** What one pass of the sources worker leaves: refreshed definitions, without the retired watches
      and the forgotten failures. */
  lemma SyncShape(e: Env, s: State, offered: map<GroupKind, Selection>, err: Failure, order: SyncOrder)
    returns (gone: set<WatchKey>, lost: set<WatchKey>)
    ensures var t := PrepareWatchRequests(e, s, offered, err, order);
            var s1 := RefreshDefinitions(e, s, offered, err);
            && t.defs == s1.defs && t.pubs.definitionHealth == s1.pubs.definitionHealth
            && t.cache.watches == s.cache.watches - gone && t.cache.replacements == s.cache.replacements - gone
            && t.pubs.health == s.pubs.health - gone
            && t.watchFailures == s.watchFailures - lost && t.pubs.sourceFailures == s.pubs.sourceFailures - lost
  {
    RefreshEffect(e, s, offered, err);
    var s1 := RefreshDefinitions(e, s, offered, err);
    hide RefreshDefinitions, RemoveRoots, RetireWatches;
    gone, lost := {}, {};
    if !e.scoped || NamespaceWatchReady(s1.cache) {
      if e.scoped {
        RemoveRootsEffect(s1.(scopes := AdmittedNamespaces(e, s1.cache)), order.roots);
      }
      var s2 := ShrinkScope(e, s1, order.roots);
      RetireWatchesRest(e, s2, order.watches, order.objects);
      gone := set k | k in order.watches;
      lost := OutOfScopeFailures(RetireWatches(e, s2, order.watches, order.objects));
    }
  }

  lemma SyncKeepsCache(e: Env, s: State, offered: map<GroupKind, Selection>, err: Failure, order: SyncOrder, next: nat)
    requires CacheInv(e, s.cache, next) && IsSyncOrder(e, s, offered, err, order)
    ensures CacheInv(e, PrepareWatchRequests(e, s, offered, err, order).cache, next)
  {
    RefreshEffect(e, s, offered, err);
    var s1 := RefreshDefinitions(e, s, offered, err);
    if !e.scoped || NamespaceWatchReady(s1.cache) {
      var s2 := ShrinkScope(e, s1, order.roots);
      if e.scoped {
        RemoveRootsEffect(s1.(scopes := AdmittedNamespaces(e, s1.cache)), order.roots);
      }
      hide RefreshDefinitions, RemoveRoots, CacheInv, NamespaceWatchReady, RetireWatches;
      RetireWatchesKeepCache(e, s2, order.watches, order.objects, next);
    }
  }

  lemma EnsureKeepsCache(e: Env, s: State, request: Option<Request>, mapping: Failure, next: nat)
    requires CacheInv(e, s.cache, next)
    ensures CacheInv(e, ServeRequest(e, s, request, mapping, next).cache, next + 1)
  {
    if request.Some? {
      var r := request.value;
      EnsureEffect(e, s, r.gvk, r.namespace, r.metadataOnly, mapping, next);
      EnsureKeepsContent(e, s.cache, s.scopes, r.gvk, r.namespace, r.metadataOnly, next);
      EnsureKeepsWatches(e, s.cache, s.scopes, r.gvk, r.namespace, r.metadataOnly, next);
    }
  }

  lemma NextKeepsCache(e: Env, sys: System, a: Action)
    requires CacheInv(e, sys.s.cache, sys.nextWatch) && Enabled(e, sys, a)
    ensures CacheInv(e, Next(e, sys, a).s.cache, Next(e, sys, a).nextWatch)
  {
    hide ApplyWatchEvent, Replace, UpdateWatchHealth, PrepareWatchRequests, Ensure, StepPodProgram, StepRootProgram, StepSelected, IsSyncOrder,
         Deliverable, ContentInv, ValidOp, SourcesMirror;
    var s, c, next := sys.s, sys.s.cache, sys.nextWatch;
    match a
    case WatchEvent(w, o, deleted) =>
      EventEffect(e, s, w, o, deleted);
      EventKeepsContent(e, c, w, o, deleted);
      EventKeepsWatches(e, c, w, o, deleted, next);
    case WatchSnapshot(w, objects, drop, put) =>
      if IsTracked(c, w) {
        SnapshotEffect(e, s, w, objects, drop, put);
        SnapshotKeepsContent(e, c, w, objects);
        SnapshotKeepsWatches(e, c, w, objects, next);
      } else {
        assert Replace(e, s, w, objects, drop, put) == s by { UntrackedSnapshot(e, s, w, objects, drop, put); }
      }
    case WatchStatus(w, err) =>
      HealthEffect(e, s, w, err);
      HealthKeepsContent(e, c, w, err);
      HealthKeepsWatches(e, c, w, err, next);
    case SyncSources(offered, err, order) => SyncKeepsCache(e, s, offered, err, order, next);
    case StartWatch(gvk, namespace, metadataOnly, mapping) =>
      EnsureKeepsCache(e, s, Some(Request(gvk, namespace, metadataOnly)), mapping, next);
    case Selected(op) => SelectedStepTracks(e, s, op);
    case StepPod(key, input) =>
      PodStepCache(e, s, key, sys.pods[key], input, next);
      EnsureKeepsCache(e, s, PodRequest(sys.pods[key]), input.mapping, next);
    case StepRoot(uid, input) =>
      RootStepCache(e, s, uid, sys.roots[uid], input, next);
      EnsureKeepsCache(e, s, RootRequest(sys.roots[uid]), input.mapping, next);
    case _ =>
  }

  /** What the watch sections leave alone outside the cache and the queues. */
  ghost predicate OnlyWatching(s: State, t: State) {
    && t.defs == s.defs && t.scopes == s.scopes
    && t.members == s.members.(ancestors := t.members.ancestors)
    && t.pubs == s.pubs.(health := t.pubs.health, sourceFailures := t.pubs.sourceFailures)
    && s.queues.pods <= t.queues.pods && s.queues.work <= t.queues.work && (s.queues.sync ==> t.queues.sync)
  }

  lemma SnapshotRest(e: Env, s: State, w: Handle, objects: map<ObjectKey, Object>, drop: seq<ObjectKey>, put: seq<ObjectKey>)
    requires forall k :: k in put ==> k in objects
    ensures OnlyWatching(s, Replace(e, s, w, objects, drop, put))
    ensures Replace(e, s, w, objects, drop, put).watchFailures == s.watchFailures
    ensures Replace(e, s, w, objects, drop, put).pubs.sourceFailures == s.pubs.sourceFailures
  {
    hide PutObject, DropObject, PutObjects, DropObjects, UpdateWatchHealth, Promote, MarkReady;
    if IsTracked(s.cache, w) {
      var s1 := s.(cache := Promote(s.cache, w));
      DropObjectsEffect(e, s1, drop);
      var s2 := DropObjects(e, s1, drop);
      PutObjectsEffect(e, s2, w.key, objects, put);
      var s3 := PutObjects(e, s2, w.key, objects, put);
      HealthRest(e, s3.(cache := MarkReady(s3.cache, w.key, objects.Keys)), w, {});
    }
  }

  lemma HealthRest(e: Env, s: State, w: Handle, err: Failure)
    ensures OnlyWatching(s, UpdateWatchHealth(e, s, w, err))
    ensures UpdateWatchHealth(e, s, w, err).pubs.sourceFailures == s.pubs.sourceFailures
    ensures UpdateWatchHealth(e, s, w, err).watchFailures == s.watchFailures
    ensures UpdateWatchHealth(e, s, w, err).members == s.members
  {
    hide FailureReason, RootJobs, SourceMirror, HealthMirror;
  }

  lemma EnsureRest(e: Env, s: State, gvk: Gvk, namespace: Name, metadataOnly: bool, mapping: Failure, id: nat)
    ensures var t := Ensure(e, s, gvk, namespace, metadataOnly, mapping, id).0;
            OnlyWatching(s, t) && t.queues == s.queues && t.members == s.members
  {
  }

  lemma RequestRest(e: Env, s: State, request: Option<Request>, mapping: Failure, id: nat)
    ensures var t := ServeRequest(e, s, request, mapping, id);
            OnlyWatching(s, t) && t.queues == s.queues && t.members == s.members
  {
    if request.Some? {
      EnsureRest(e, s, request.value.gvk, request.value.namespace, request.value.metadataOnly, mapping, id);
    }
    hide Ensure;
  }

  lemma RetireRest(e: Env, s: State, key: WatchKey, order: seq<ObjectKey>)
    ensures var t := RetireWatch(e, s, key, order);
            OnlyWatching(s, t) && t.watchFailures == s.watchFailures && t.pubs.sourceFailures == s.pubs.sourceFailures
            && t.cache.watches == s.cache.watches - {key} && t.cache.replacements == s.cache.replacements - {key}
            && t.pubs.health == s.pubs.health - {key}
  {
    hide DropSourced;
    DropSourcedEffect(e, s.(cache := s.cache.(watches := s.cache.watches - {key})), key, order);
  }

  lemma {:induction false} RetireWatchesRest(e: Env, s: State, keys: seq<WatchKey>, order: map<WatchKey, seq<ObjectKey>>)
    ensures var t := RetireWatches(e, s, keys, order);
            var gone := set k | k in keys;
            OnlyWatching(s, t) && t.watchFailures == s.watchFailures && t.pubs.sourceFailures == s.pubs.sourceFailures
            && t.cache.watches == s.cache.watches - gone && t.cache.replacements == s.cache.replacements - gone
            && t.pubs.health == s.pubs.health - gone
    decreases |keys|
  {
    hide RetireWatch;
    if keys != [] {
      var objects := if keys[0] in order then order[keys[0]] else [];
      RetireRest(e, s, keys[0], objects);
      RetireWatchesRest(e, RetireWatch(e, s, keys[0], objects), keys[1..], order);
      assert (set k | k in keys) == {keys[0]} + (set k | k in keys[1..]);
    }
  }

  lemma UntrackedSnapshot(e: Env, s: State, w: Handle, objects: map<ObjectKey, Object>, drop: seq<ObjectKey>, put: seq<ObjectKey>)
    requires !IsTracked(s.cache, w) && forall k :: k in put ==> k in objects
    ensures Replace(e, s, w, objects, drop, put) == s
  {
  }

  lemma {:induction false} RunKeepsCache(e: Env, actions: seq<Action>)
    ensures var sys := Run(e, actions); CacheInv(e, sys.s.cache, sys.nextWatch)
    decreases |actions|
  {
    if actions != [] {
      RunKeepsCache(e, actions[..|actions| - 1]);
      var sys := Run(e, actions[..|actions| - 1]);
      var a := actions[|actions| - 1];
      if Enabled(e, sys, a) {
        NextKeepsCache(e, sys, a);
      }
    }
  }
}
