/** Pod results: never orphaned, equal to one atomic evaluation when they are published, and never silently stale. */
module PodProofs {
  import opened Basics
  import opened Discovery
  import opened ControllerModel
  import opened ControllerSystem
  import opened CacheProofs
  import opened JobProofs
  import opened MemberProofs
  import opened StampProofs
  import opened VersionProofs
  import opened WorkloadProofs

  // ---------------------------------------------------------------- what keeps a Pod's attribution alive

  /** The path starts at the Pod of `key` and is a chain of controllers. */
  predicate PathOk(e: Env, key: JobKey, path: seq<ObjectRef>) {
    && PodKeyOk(e, key) && path != [] && ChainLinks(e, path) && JobFor(path[0]) == key
  }

  /** The cached object is the referenced one, still with the same controller. */
  predicate LinkHolds(e: Env, objects: map<ObjectKey, CachedObject>, ref: ObjectRef) {
    && KeyOf(ref) in objects
    && objects[KeyOf(ref)].obj.uid == ref.uid
    && ControllerOwner(objects[KeyOf(ref)].obj.owners) == ControllerOwner(Content(e, ref).owners)
  }

  /** Every owner on the path still links on, and the Pods among them are marked as ancestors. */
  predicate Linked(e: Env, objects: map<ObjectKey, CachedObject>, ancestors: set<Uid>, path: seq<ObjectRef>) {
    forall i :: 1 <= i < |path| ==> LinkHolds(e, objects, path[i]) && (path[i].gvk == POD_GVK ==> path[i].uid in ancestors)
  }

  predicate RescanPending(pods: set<JobKey>, started: set<JobKey>, namespace: Name) {
    Rescan(namespace) in pods + started || Rescan(0) in pods + started
  }

  /** The Pod is a member of the path's root, and its own object is the cached one. */
  predicate Held(s: State, key: JobKey, path: seq<ObjectRef>)
    requires path != []
  {
    Get(s.members.podRoots, key.uid) == Some(path[|path| - 1].uid) && ExactlyCached(s.cache.objects, path[0])
  }

  /** The Pod's job is queued, or the attribution along `path` stands unless a rescan is pending. */
  predicate Tied(e: Env, s: State, started: set<JobKey>, key: JobKey, path: seq<ObjectRef>)
    requires path != []
  {
    || key in s.queues.pods
    || (Held(s, key, path)
        && (RescanPending(s.queues.pods, started, key.obj.namespace) || Linked(e, s.cache.objects, s.members.ancestors, path)))
  }

  // ---------------------------------------------------------------- namespaces along a path

  lemma {:induction false} ChainNamespaces(e: Env, path: seq<ObjectRef>, i: nat)
    requires ChainLinks(e, path) && i < |path|
    ensures path[i].namespace == path[0].namespace || path[i].namespace == 0
  {
    if i > 0 {
      ChainNamespaces(e, path, i - 1);
      assert LinksTo(e, path[i - 1], path[i - 1 + 1]);
    }
  }

  // ---------------------------------------------------------------- one object changes

  /** The objects with `current` in place of whatever was at `at`. */
  function Changed(objects: map<ObjectKey, CachedObject>, at: ObjectKey, current: Option<CachedObject>): map<ObjectKey, CachedObject> {
    if current.Some? then objects[at := current.value] else objects - {at}
  }

  function ObjectOf(c: Option<CachedObject>): Option<Object> { if c.Some? then Some(c.value.obj) else None }

  /** PutObject and DropObject in one. */
  function ChangeObject(e: Env, s: State, at: ObjectKey, current: Option<CachedObject>): State
    requires current.Some? || at in s.cache.objects
  {
    QueueObjectChange(e, s.(cache := s.cache.(objects := Changed(s.cache.objects, at, current))), CachedAt(s, at), ObjectOf(current))
  }

  predicate Fits(e: Env, at: ObjectKey, o: Object) { Conforms(e, o) && ObjectKeyOf(o) == at }

  /** A change on the path keeps the link or queues a rescan that reaches the Pod. */
  lemma ChangeLink(e: Env, s: State, at: ObjectKey, current: Option<CachedObject>, path: seq<ObjectRef>, i: nat)
    requires current.Some? || at in s.cache.objects
    requires at in s.cache.objects ==> Fits(e, at, s.cache.objects[at].obj)
    requires current.Some? ==> Fits(e, at, current.value.obj)
    requires 1 <= i < |path| && KnownRef(e, path[i])
    requires LinkHolds(e, s.cache.objects, path[i]) && (path[i].gvk == POD_GVK ==> path[i].uid in s.members.ancestors)
    ensures var t := ChangeObject(e, s, at, current);
            || Rescan(path[i].namespace) in t.queues.pods
            || (LinkHolds(e, t.cache.objects, path[i]) && (path[i].gvk == POD_GVK ==> path[i].uid in t.members.ancestors))
  {
    hide ControllerOwner, ChangedWork, PodAlert, SelectorChanged, RootPods;
    var t := ChangeObject(e, s, at, current);
    var was := CachedAt(s, at);
    if was.Some? && was.value.uid == path[i].uid && Replaced(was, ObjectOf(current)) {
      assert was.value.namespace == path[i].namespace;
      if was.value.uid in s.members.ancestors {
        assert OwnershipChanged(was, ObjectOf(current));
      }
    }
  }

  lemma ChangeLinked(e: Env, s: State, at: ObjectKey, current: Option<CachedObject>, key: JobKey, path: seq<ObjectRef>)
    requires current.Some? || at in s.cache.objects
    requires at in s.cache.objects ==> Fits(e, at, s.cache.objects[at].obj)
    requires current.Some? ==> Fits(e, at, current.value.obj)
    requires PathOk(e, key, path) && Linked(e, s.cache.objects, s.members.ancestors, path)
    ensures var t := ChangeObject(e, s, at, current);
            RescanPending(t.queues.pods, {}, key.obj.namespace) || Linked(e, t.cache.objects, t.members.ancestors, path)
  {
    hide LinkHolds, ChangeObject, Fits, LinksTo, KnownRef;
    var t := ChangeObject(e, s, at, current);
    if !Linked(e, t.cache.objects, t.members.ancestors, path) {
      var i :| 1 <= i < |path| && !(LinkHolds(e, t.cache.objects, path[i]) && (path[i].gvk == POD_GVK ==> path[i].uid in t.members.ancestors));
      ChangeLink(e, s, at, current, path, i);
      ChainNamespaces(e, path, i);
    }
  }

  lemma ChangeEffect(e: Env, s: State, at: ObjectKey, current: Option<CachedObject>)
    requires current.Some? || at in s.cache.objects
    ensures var t := ChangeObject(e, s, at, current);
            && OnlyQueued(s, t) && t.cache.objects == Changed(s.cache.objects, at, current)
            && PodAlert(e, s, CachedAt(s, at)) <= t.queues.pods
            && (CachedAt(s, at).Some? ==> RootPods(s, CachedAt(s, at).value.uid) <= t.queues.pods)
  {
    hide OwnershipChanged, IsAncestor, SelectorChanged, ChangedWork;
  }

  lemma ChangeTied(e: Env, s: State, started: set<JobKey>, at: ObjectKey, current: Option<CachedObject>, key: JobKey, path: seq<ObjectRef>)
    requires current.Some? || at in s.cache.objects
    requires at in s.cache.objects ==> Fits(e, at, s.cache.objects[at].obj)
    requires current.Some? ==> Fits(e, at, current.value.obj)
    requires PathOk(e, key, path) && Tied(e, s, started, key, path)
    ensures Tied(e, ChangeObject(e, s, at, current), started, key, path)
  {
    ChangeEffect(e, s, at, current);
    if key !in s.queues.pods && Linked(e, s.cache.objects, s.members.ancestors, path) {
      ChangeLinked(e, s, at, current, key, path);
    }
    hide ChangeObject, Linked, ChainLinks, Conforms;
    if key !in s.queues.pods && at == KeyOf(path[0]) {
      assert key in PodAlert(e, s, CachedAt(s, at));
    }
  }

  // ---------------------------------------------------------------- what a published record rests on

  /** `record` is what evaluating the Pod against the cached root body with the selected definition gives. */
  predicate RestsOn(e: Env, objects: map<ObjectKey, CachedObject>, d: Definitions, workload: Workload, record: PodRecord)
    requires workload.path != []
  {
    var selection := SelectionFor(d, workload.root.gvk.groupKind);
    && record.workload.uid == workload.root.uid && KnownRef(e, record.workload) && ExactlyCached(objects, record.workload)
    && record.workload.gvk == RootGvk(workload.root.gvk, selection)
    && LookupDefinition(d, workload.root.gvk).1 == {}
    && Accepts(e, Content(e, workload.path[0]), Content(e, record.workload))
    && EvaluatePod(e, selection, Content(e, workload.path[0]), Content(e, record.workload), workload.resolution) == PodEvaluated(record, false)
  }

  /** The selectors admit the Pod and the root. */
  predicate Accepts(e: Env, pod: Object, root: Object) {
    e.podSelector(pod.labels) && e.objectSelector(root.labels) && e.resourceSelected(root.gvk)
  }

  /** A walk that ended at a root, tied to the cache, and perhaps a record that rests on it. */
  ghost predicate Stands(e: Env, s: State, started: set<JobKey>, key: JobKey, workload: Workload, record: Option<PodRecord>) {
    && PathOk(e, key, workload.path) && ChainEnds(e, workload)
    && Tied(e, s, started, key, workload.path)
    && (key in s.queues.pods || (record.Some? ==> RestsOn(e, s.cache.objects, s.defs, workload, record.value)))
  }

  lemma HeldIsMember(e: Env, m: Members, key: JobKey, root: Uid)
    requires MembersInv(e, m) && PodKeyOk(e, key) && Get(m.podRoots, key.uid) == Some(root)
    ensures root in m.roots && key.uid in m.roots[root].pods && m.roots[root].pods[key.uid] == key
    ensures key in m.roots[root].pods.Values
  {
    assert key == PodKey(e, key.uid);
  }

  lemma ChangeStands(e: Env, s: State, started: set<JobKey>, at: ObjectKey, current: Option<CachedObject>,
                     key: JobKey, workload: Workload, record: Option<PodRecord>)
    requires current.Some? || at in s.cache.objects
    requires at in s.cache.objects ==> Fits(e, at, s.cache.objects[at].obj)
    requires current.Some? ==> Fits(e, at, current.value.obj)
    requires MembersInv(e, s.members) && Stands(e, s, started, key, workload, record)
    ensures Stands(e, ChangeObject(e, s, at, current), started, key, workload, record)
  {
    ChangeTied(e, s, started, at, current, key, workload.path);
    ChangeEffect(e, s, at, current);
    if key !in s.queues.pods && record.Some? && at == KeyOf(record.value.workload) {
      HeldIsMember(e, s.members, key, workload.root.uid);
    }
    hide ChangeObject, Tied, PathOk, EvaluatePod, Linked, KnownRef, ChainEnds, MembersInv, Conforms, LookupDefinition, SelectionFor, Accepts;
  }

  lemma PutStands(e: Env, s: State, started: set<JobKey>, at: ObjectKey, o: CachedObject,
                  key: JobKey, workload: Workload, record: Option<PodRecord>)
    requires ObjectsConform(e, s.cache.objects) && Fits(e, at, o.obj)
    requires MembersInv(e, s.members) && Stands(e, s, started, key, workload, record)
    ensures Stands(e, PutObject(e, s, at, o), started, key, workload, record)
  {
    ChangeStands(e, s, started, at, Some(o), key, workload, record);
    assert PutObject(e, s, at, o) == ChangeObject(e, s, at, Some(o));
    hide Stands, PutObject, ChangeObject;
  }

  lemma DropStands(e: Env, s: State, started: set<JobKey>, at: ObjectKey, key: JobKey, workload: Workload, record: Option<PodRecord>)
    requires ObjectsConform(e, s.cache.objects)
    requires MembersInv(e, s.members) && Stands(e, s, started, key, workload, record)
    ensures Stands(e, DropObject(e, s, at), started, key, workload, record)
  {
    if at in s.cache.objects {
      ChangeStands(e, s, started, at, None, key, workload, record);
      assert DropObject(e, s, at) == ChangeObject(e, s, at, None);
    }
    hide Stands, DropObject, ChangeObject;
  }

  lemma {:induction false} DropObjectsStand(e: Env, s: State, started: set<JobKey>, keys: seq<ObjectKey>,
                                            key: JobKey, workload: Workload, record: Option<PodRecord>)
    requires ObjectsConform(e, s.cache.objects)
    requires MembersInv(e, s.members) && Stands(e, s, started, key, workload, record)
    ensures Stands(e, DropObjects(e, s, keys), started, key, workload, record)
    decreases |keys|
  {
    hide Stands, QueueObjectChange, MembersInv, Conforms;
    if keys != [] {
      DropStands(e, s, started, keys[0], key, workload, record);
      DropObjectsEffect(e, s, [keys[0]]);
      assert DropObjects(e, s, [keys[0]]) == DropObject(e, s, keys[0]);
      SameMembers(e, s.members, DropObject(e, s, keys[0]).members);
      DropObjectsStand(e, DropObject(e, s, keys[0]), started, keys[1..], key, workload, record);
    }
  }

  lemma {:induction false} PutObjectsStand(e: Env, s: State, started: set<JobKey>, source: WatchKey, objects: map<ObjectKey, Object>,
                                           keys: seq<ObjectKey>, key: JobKey, workload: Workload, record: Option<PodRecord>)
    requires ObjectsConform(e, s.cache.objects)
    requires forall k :: k in objects ==> ObjectKeyOf(objects[k]) == k && Conforms(e, objects[k])
    requires forall k :: k in keys ==> k in objects
    requires MembersInv(e, s.members) && Stands(e, s, started, key, workload, record)
    ensures Stands(e, PutObjects(e, s, source, objects, keys), started, key, workload, record)
    decreases |keys|
  {
    hide Stands, PutObject, MembersInv, Conforms;
    if keys != [] {
      var o := CachedObject(objects[keys[0]], source);
      PutStands(e, s, started, keys[0], o, key, workload, record);
      PutObjectEffect(e, s, keys[0], o);
      SameMembers(e, s.members, PutObject(e, s, keys[0], o).members);
      PutObjectsStand(e, PutObject(e, s, keys[0], o), started, source, objects, keys[1..], key, workload, record);
    }
  }

  lemma {:induction false} DropSourcedStands(e: Env, s: State, started: set<JobKey>, source: WatchKey, keys: seq<ObjectKey>,
                                             key: JobKey, workload: Workload, record: Option<PodRecord>)
    requires ObjectsConform(e, s.cache.objects)
    requires MembersInv(e, s.members) && Stands(e, s, started, key, workload, record)
    ensures Stands(e, DropSourced(e, s, source, keys), started, key, workload, record)
    decreases |keys|
  {
    hide Stands, QueueObjectChange, MembersInv, Conforms;
    if keys != [] {
      DropStands(e, s, started, keys[0], key, workload, record);
      DropObjectsEffect(e, s, [keys[0]]);
      assert DropObjects(e, s, [keys[0]]) == DropObject(e, s, keys[0]);
      SameMembers(e, s.members, DropObject(e, s, keys[0]).members);
      DropSourcedStands(e, if keys[0] in s.cache.objects && s.cache.objects[keys[0]].source == source then DropObject(e, s, keys[0]) else s,
                        started, source, keys[1..], key, workload, record);
    }
  }

  // ---------------------------------------------------------------- sections that leave attributions alone

  ghost predicate CalmPods(s: State, t: State) {
    && t.cache.objects == s.cache.objects && t.defs == s.defs && t.members.podRoots == s.members.podRoots
    && s.members.ancestors <= t.members.ancestors && s.queues.pods <= t.queues.pods
  }

  lemma CalmKeepsStands(e: Env, s: State, t: State, started: set<JobKey>, key: JobKey, workload: Workload, record: Option<PodRecord>)
    requires Stands(e, s, started, key, workload, record) && CalmPods(s, t)
    ensures Stands(e, t, started, key, workload, record)
  {
    hide PathOk, ChainEnds, RestsOn, LinkHolds;
  }

  /** Membership of other Pods may move. */
  lemma MoveKeepsStands(e: Env, s: State, t: State, started: set<JobKey>, moved: Uid, key: JobKey, workload: Workload, record: Option<PodRecord>)
    requires Stands(e, s, started, key, workload, record) && key.uid != moved
    requires CalmPods(s, t.(members := t.members.(podRoots := s.members.podRoots)))
    requires Get(t.members.podRoots, key.uid) == Get(s.members.podRoots, key.uid)
    ensures Stands(e, t, started, key, workload, record)
  {
    hide PathOk, ChainEnds, RestsOn, LinkHolds;
  }

  lemma RemoveRootStands(e: Env, s: State, uid: Uid, started: set<JobKey>, key: JobKey, workload: Workload, record: Option<PodRecord>)
    requires MembersInv(e, s.members) && Stands(e, s, started, key, workload, record)
    ensures Stands(e, RemoveRoot(s, uid), started, key, workload, record)
  {
    if key !in s.queues.pods {
      HeldIsMember(e, s.members, key, workload.root.uid);
      assert uid != workload.root.uid && uid in s.members.roots ==> key.uid !in s.members.roots[uid].pods;
    }
    hide PathOk, ChainEnds, RestsOn, Linked, MembersInv;
  }

  lemma {:induction false} RemoveRootsStand(e: Env, s: State, uids: seq<Uid>, started: set<JobKey>,
                                            key: JobKey, workload: Workload, record: Option<PodRecord>)
    requires MembersInv(e, s.members) && Stands(e, s, started, key, workload, record)
    ensures Stands(e, RemoveRoots(s, uids), started, key, workload, record)
    decreases |uids|
  {
    hide Stands, MembersInv, RemoveRoot;
    if uids != [] {
      RemoveRootStands(e, s, uids[0], started, key, workload, record);
      RemoveRootMembers(e, s, uids[0]);
      RemoveRootsStand(e, RemoveRoot(s, uids[0]), uids[1..], started, key, workload, record);
    }
  }

  /** A refresh that changes what a root's Pods are evaluated with queues them. */
  lemma RefreshedPods(e: Env, s: State, offered: map<GroupKind, Selection>, err: Failure, uid: Uid)
    requires uid in s.members.roots
    ensures var t := RefreshDefinitions(e, s, offered, err);
            var kind := s.members.roots[uid].ref.gvk.groupKind;
            || s.members.roots[uid].pods.Values <= t.queues.pods
            || (SelectionFor(t.defs, kind) == SelectionFor(s.defs, kind) && (t.defs.err == {} <==> s.defs.err == {}))
  {
    hide IsSameDefinition, KindPods, KindObjects, AffectedWork, FailureReason;
    var next := if err != {} then s.defs.selected else offered;
    var kind := s.members.roots[uid].ref.gvk.groupKind;
    var kinds := ChangedKinds(s.defs, next);
    if FailureReason(s.defs.err) == FailureReason(err) { ReasonTells(s.defs.err, err); }
    if kind !in kinds && FailureReason(s.defs.err) == FailureReason(err) {
    } else {
      assert Affected(s.members.roots[uid], FailureReason(s.defs.err) != FailureReason(err), kinds);
    }
  }

  lemma RefreshStands(e: Env, s: State, offered: map<GroupKind, Selection>, err: Failure, started: set<JobKey>,
                      key: JobKey, workload: Workload, record: Option<PodRecord>)
    requires MembersInv(e, s.members) && Stands(e, s, started, key, workload, record)
    ensures Stands(e, RefreshDefinitions(e, s, offered, err), started, key, workload, record)
  {
    RefreshEffect(e, s, offered, err);
    if key !in s.queues.pods {
      HeldIsMember(e, s.members, key, workload.root.uid);
      RootOfMembers(e, s.members, workload.root.uid);
      assert KnownRef(e, workload.root);
      assert s.members.roots[workload.root.uid].ref.gvk.groupKind == workload.root.gvk.groupKind;
      RefreshedPods(e, s, offered, err, workload.root.uid);
    }
    hide RefreshDefinitions, PathOk, ChainEnds, LinkHolds, MembersInv, KnownRef, EvaluatePod, Accepts;
  }

  // ---------------------------------------------------------------- watch and definition sections

  lemma EventStands(e: Env, s: State, w: Handle, o: Object, deleted: bool, started: set<JobKey>,
                    key: JobKey, workload: Workload, record: Option<PodRecord>)
    requires ObjectsConform(e, s.cache.objects) && Conforms(e, o)
    requires MembersInv(e, s.members) && Stands(e, s, started, key, workload, record)
    ensures Stands(e, ApplyWatchEvent(e, s, w, o, deleted), started, key, workload, record)
  {
    var at := ObjectKeyOf(o);
    PutStands(e, s, started, at, CachedObject(o, w.key), key, workload, record);
    DropStands(e, s, started, at, key, workload, record);
    var s1 := if deleted then DropObject(e, s, at) else PutObject(e, s, at, CachedObject(o, w.key));
    hide PutObject, DropObject, Stands, MembersInv, ObjectsConform;
    var t := ApplyWatchEvent(e, s, w, o, deleted);
    if t != s {
      CalmKeepsStands(e, s1, t, started, key, workload, record);
    }
  }

  lemma SnapshotStands(e: Env, s: State, w: Handle, objects: map<ObjectKey, Object>, drop: seq<ObjectKey>, put: seq<ObjectKey>,
                       started: set<JobKey>, key: JobKey, workload: Workload, record: Option<PodRecord>)
    requires ObjectsConform(e, s.cache.objects)
    requires forall k :: k in objects ==> ObjectKeyOf(objects[k]) == k && Conforms(e, objects[k])
    requires forall k :: k in put ==> k in objects
    requires MembersInv(e, s.members) && Stands(e, s, started, key, workload, record)
    ensures Stands(e, Replace(e, s, w, objects, drop, put), started, key, workload, record)
  {
    hide DropObjects, PutObjects, Promote, MarkReady, UpdateWatchHealth, Stands, MembersInv, Conforms;
    if IsTracked(s.cache, w) {
      var s1 := s.(cache := Promote(s.cache, w));
      PromoteObjects(s.cache, w, objects.Keys);
      CalmKeepsStands(e, s, s1, started, key, workload, record);
      DropObjectsStand(e, s1, started, drop, key, workload, record);
      DropObjectsEffect(e, s1, drop);
      var s2 := DropObjects(e, s1, drop);
      SameMembers(e, s.members, s2.members);
      PutObjectsStand(e, s2, started, w.key, objects, put, key, workload, record);
      var s3 := PutObjects(e, s2, w.key, objects, put);
      var s4 := s3.(cache := MarkReady(s3.cache, w.key, objects.Keys));
      PromoteObjects(s3.cache, w, objects.Keys);
      HealthRest(e, s4, w, {});
      HealthObjects(e, s4, w, {});
      CalmKeepsStands(e, s3, Replace(e, s, w, objects, drop, put), started, key, workload, record);
    }
  }

  lemma {:induction false} RetireWatchesStand(e: Env, s: State, keys: seq<WatchKey>, order: map<WatchKey, seq<ObjectKey>>,
                                              started: set<JobKey>, key: JobKey, workload: Workload, record: Option<PodRecord>)
    requires ObjectsConform(e, s.cache.objects)
    requires MembersInv(e, s.members) && Stands(e, s, started, key, workload, record)
    ensures Stands(e, RetireWatches(e, s, keys, order), started, key, workload, record)
    decreases |keys|
  {
    hide Stands, DropSourced, MembersInv, Conforms;
    if keys != [] {
      var objects := if keys[0] in order then order[keys[0]] else [];
      var s1 := s.(cache := s.cache.(watches := s.cache.watches - {keys[0]}));
      CalmKeepsStands(e, s, s1, started, key, workload, record);
      DropSourcedStands(e, s1, started, keys[0], objects, key, workload, record);
      DropSourcedEffect(e, s1, keys[0], objects);
      var s2 := RetireWatch(e, s, keys[0], objects);
      CalmKeepsStands(e, DropSourced(e, s1, keys[0], objects), s2, started, key, workload, record);
      SameMembers(e, s.members, s2.members);
      RetireWatchesStand(e, s2, keys[1..], order, started, key, workload, record);
    }
  }

  lemma SyncStands(e: Env, s: State, offered: map<GroupKind, Selection>, err: Failure, order: SyncOrder,
                   started: set<JobKey>, key: JobKey, workload: Workload, record: Option<PodRecord>)
    requires ObjectsConform(e, s.cache.objects)
    requires MembersInv(e, s.members) && Stands(e, s, started, key, workload, record)
    ensures Stands(e, PrepareWatchRequests(e, s, offered, err, order), started, key, workload, record)
  {
    RefreshStands(e, s, offered, err, started, key, workload, record);
    RefreshEffect(e, s, offered, err);
    var s1 := RefreshDefinitions(e, s, offered, err);
    hide RefreshDefinitions, RetireWatches, RemoveRoots, Stands, MembersInv, ObjectsConform;
    if !e.scoped || NamespaceWatchReady(s1.cache) {
      var s2 := ShrinkScope(e, s1, order.roots);
      if e.scoped {
        var s1' := s1.(scopes := AdmittedNamespaces(e, s1.cache));
        CalmKeepsStands(e, s1, s1', started, key, workload, record);
        RemoveRootsStand(e, s1', order.roots, started, key, workload, record);
        RemoveRootsMembers(e, s1', order.roots);
        RemoveRootsEffect(s1', order.roots);
      }
      RetireWatchesStand(e, s2, order.watches, order.objects, started, key, workload, record);
      var s3 := RetireWatches(e, s2, order.watches, order.objects);
      CalmKeepsStands(e, s3, ForgetFailures(s3, OutOfScopeFailures(s3)), started, key, workload, record);
    }
  }

  // ---------------------------------------------------------------- the workers' sections

  lemma EnsureRootCalmPods(s: State, workload: Workload)
    ensures CalmPods(s, EnsureRoot(s, workload))
    ensures AncestorPods(workload.path) <= EnsureRoot(s, workload).members.ancestors
  {
    hide SettleRootRef, AncestorPods;
  }

  lemma AttachPodElsewhere(s: State, key: JobKey, root: Uid, other: Uid)
    requires root in s.members.roots && other != key.uid
    ensures var t := AttachPod(s, key, root);
            && Get(t.members.podRoots, other) == Get(s.members.podRoots, other)
            && CalmPods(s, t.(members := t.members.(podRoots := s.members.podRoots)))
  {
  }

  lemma RegisterOther(e: Env, s: State, moved: JobKey, w: Workload, started: set<JobKey>,
                      key: JobKey, workload: Workload, record: Option<PodRecord>)
    requires Stands(e, s, started, key, workload, record) && key.uid != moved.uid
    ensures Stands(e, RegisterPodRoot(e, s, moved, w).0, started, key, workload, record)
  {
    EnsureRootCalmPods(s, w);
    EnsureRootTracks(s, w);
    var s1 := EnsureRoot(s, w);
    hide EnsureRoot, Stands, IsPathCurrent, HasRootOwnership;
    CalmKeepsStands(e, s, s1, started, key, workload, record);
    AttachPodElsewhere(s1, moved, w.root.uid, key.uid);
    MoveKeepsStands(e, s1, AttachPod(s1, moved, w.root.uid), started, moved.uid, key, workload, record);
  }

  lemma SteppedUid(e: Env, stepped: JobKey, pc: PodPc, key: JobKey)
    requires PodFacts(e, stepped, pc) && !pc.PodStart? && !pc.PodReturn? && PodKeyOk(e, key) && stepped != key
    ensures stepped.uid != key.uid
  {
    assert PodKeyOk(e, stepped) by { hide PodBody, Climbs, ClimbedFrom, RootBody, EvaluatePod; }
  }

  lemma RequestStands(e: Env, s: State, stepped: JobKey, pc: PodPc, input: Input, id: nat, started: set<JobKey>,
                      key: JobKey, workload: Workload, record: Option<PodRecord>)
    requires Stands(e, s, started, key, workload, record) && PodRequest(pc).Some?
    ensures Stands(e, StepPodProgram(e, s, stepped, pc, input, id).0, started, key, workload, record)
  {
    hide StepPodProgram, Stands;
    PodStepCache(e, s, stepped, pc, input, id);
    RequestRest(e, s, PodRequest(pc), input.mapping, id);
    RequestObjects(e, s, PodRequest(pc), input.mapping, id);
    CalmKeepsStands(e, s, StepPodProgram(e, s, stepped, pc, input, id).0, started, key, workload, record);
  }

  lemma PublishingStands(e: Env, s: State, stepped: JobKey, pc: PodPc, input: Input, id: nat, started: set<JobKey>,
                         key: JobKey, workload: Workload, record: Option<PodRecord>)
    requires Stands(e, s, started, key, workload, record) && PodRequest(pc).None? && !pc.PodStart? && !pc.PodRegister? && !pc.PodDrop?
    ensures Stands(e, StepPodProgram(e, s, stepped, pc, input, id).0, started, key, workload, record)
  {
    hide Stands, Lookup, IsPathCurrent, HasRootOwnership, IsDefinitionCurrent, VisitObject, MayVisit, JudgePod, RegisterPodRoot, Ensure, RequeueScope;
    CalmKeepsStands(e, s, StepPodProgram(e, s, stepped, pc, input, id).0, started, key, workload, record);
  }

  lemma PodStepStandsOther(e: Env, s: State, stepped: JobKey, pc: PodPc, input: Input, id: nat, started: set<JobKey>,
                           key: JobKey, workload: Workload, record: Option<PodRecord>)
    requires Stands(e, s, started, key, workload, record) && PodFacts(e, stepped, pc) && stepped != key && !pc.PodStart? && !pc.PodReturn?
    ensures Stands(e, StepPodProgram(e, s, stepped, pc, input, id).0, started, key, workload, record)
  {
    assert PodKeyOk(e, key);
    hide Stands, PodFacts, RegisterPodRoot, PodKeyOk;
    SteppedUid(e, stepped, pc, key);
    if PodRequest(pc).Some? {
      RequestStands(e, s, stepped, pc, input, id, started, key, workload, record);
    } else if pc.PodRegister? {
      RegisterOther(e, s, stepped, pc.workload, started, key, workload, record);
    } else if pc.PodDrop? {
      MoveKeepsStands(e, s, StepPodProgram(e, s, stepped, pc, input, id).0, started, stepped.uid, key, workload, record);
    } else {
      PublishingStands(e, s, stepped, pc, input, id, started, key, workload, record);
    }
  }

  /** A rescan queues every Pod it may concern. */
  lemma RescanReaches(e: Env, s: State, namespace: Name, started: set<JobKey>, key: JobKey, workload: Workload, record: Option<PodRecord>)
    requires Stands(e, s, started, key, workload, record)
    ensures Stands(e, RequeueScope(e, s, namespace), started - {Rescan(namespace)}, key, workload, record)
  {
    var t := RequeueScope(e, s, namespace);
    hide RescannedWork, ChainEnds, ChainLinks, RestsOn, LinkHolds;
    if key !in s.queues.pods && (namespace == 0 || namespace == key.obj.namespace) {
      var at := KeyOf(workload.path[0]);
      assert key in PodAlert(e, s, Some(s.cache.objects[at].obj));
      assert key in RescannedPods(e, s, namespace);
    }
    hide RescannedPods, Linked;
  }

  lemma RootStepCalmPods(e: Env, s: State, uid: Uid, pc: RootPc, input: Input, id: nat)
    requires !pc.RootWithdraw?
    ensures CalmPods(s, StepRootProgram(e, s, uid, pc, input, id).0)
    ensures StepRootProgram(e, s, uid, pc, input, id).0.pubs.pods == s.pubs.pods
  {
    hide Ensure, FailureReason;
    if RootRequest(pc).Some? {
      RootStepCache(e, s, uid, pc, input, id);
      RequestRest(e, s, RootRequest(pc), input.mapping, id);
      RequestObjects(e, s, RootRequest(pc), input.mapping, id);
      hide StepRootProgram, ServeRequest;
    } else {
      hide Lookup, HasRootOwnership, IsPathCurrent, IsDefinitionCurrent, EvaluateWorkload, ControllerOwner, Ensure, LookupDefinition, FailureReason,
           RemoveRoot;
    }
  }

  lemma SelectedStepCalmPods(e: Env, s: State, op: SelectedOp)
    ensures CalmPods(s, StepSelected(e, s, op)) && StepSelected(e, s, op).pubs.pods == s.pubs.pods
  {
    hide IsPathCurrent, IsDefinitionCurrent, EnsureRoot, RemoveSelectedMembership, AttachSelected;
    match op
    case Register(key, workload, _, _) =>
      EnsureRootCalmPods(s, workload);
      EnsureRootTracks(s, workload);
      AttachSelectedCalmPods(EnsureRoot(s, workload), key, workload.root.uid);
    case Retrack(key, o, _) =>
      RemoveSelectedCalmPods(s, key);
      if o.Some? {
        RemoveSelectedCalmPods(AddWork(s, {SelectedJob(JobFor(RefOf(o.value)))}), key);
      }
    case _ => RemoveSelectedCalmPods(s, op.key);
  }

  lemma RemoveSelectedCalmPods(s: State, key: JobKey)
    ensures CalmPods(s, RemoveSelectedMembership(s, key)) && RemoveSelectedMembership(s, key).pubs.pods == s.pubs.pods
  {
  }

  lemma AttachSelectedCalmPods(s: State, key: JobKey, root: Uid)
    requires root in s.members.roots
    ensures CalmPods(s, AttachSelected(s, key, root)) && AttachSelected(s, key, root).pubs.pods == s.pubs.pods
  {
  }

  // ---------------------------------------------------------------- the Pod's own sections

  /** A current path is cached version by version, under its own keys. */
  lemma PathIsExact(e: Env, c: Cache, path: seq<ObjectRef>, i: nat, next: nat)
    requires CacheInv(e, c, next) && IsPathCurrent(c, path) && i < |path| && KnownRef(e, path[i])
    ensures ExactlyCached(c.objects, path[i]) && LinkHolds(e, c.objects, path[i])
  {
    LookupFacts(e, c, path[i], false, next);
    var o := Lookup(c, path[i], false).obj;
    ConformingContent(e, o);
    hide Lookup, IsFull, CacheInv, ControllerOwner;
  }

  lemma PathIsLinked(e: Env, c: Cache, ancestors: set<Uid>, path: seq<ObjectRef>, next: nat)
    requires CacheInv(e, c, next) && IsPathCurrent(c, path) && ChainLinks(e, path) && AncestorPods(path) <= ancestors
    ensures Linked(e, c.objects, ancestors, path)
  {
    forall i | 1 <= i < |path|
      ensures LinkHolds(e, c.objects, path[i]) && (path[i].gvk == POD_GVK ==> path[i].uid in ancestors)
    {
      PathIsExact(e, c, path, i, next);
      hide LinkHolds, CacheInv, LinksTo, KnownRef, IsPathCurrent;
      assert path[i].gvk == POD_GVK ==> path[i].uid in AncestorPods(path);
    }
  }

  lemma RegisterOwn(e: Env, s: State, key: JobKey, workload: Workload, started: set<JobKey>, next: nat)
    requires Registered(e, s) && CacheInv(e, s.cache, next) && PathOk(e, key, workload.path) && ChainEnds(e, workload)
    requires RegisterPodRoot(e, s, key, workload).1 == {}
    ensures Stands(e, RegisterPodRoot(e, s, key, workload).0, started, key, workload, None)
  {
    var t := RegisterPodRoot(e, s, key, workload).0;
    assert KnownRef(e, workload.path[0]) && KnownRef(e, workload.root);
    PathIsExact(e, s.cache, workload.path, 0, next);
    EnsureRootCalmPods(s, workload);
    EnsureRootTracks(s, workload);
    EnsureRootMembers(e, s, workload);
    AttachPodMembers(e, EnsureRoot(s, workload), key, workload.root.uid);
    AttachPodKeeps(EnsureRoot(s, workload), key, workload.root.uid);
    PathIsLinked(e, s.cache, t.members.ancestors, workload.path, next);
    hide EnsureRoot, AttachPod, Registered, CacheInv, PathOk, ChainLinks, KnownRef, Linked, HasRootOwnership, IsPathCurrent, AncestorPods, MembersInv;
  }

  lemma AttachPodKeeps(s: State, key: JobKey, root: Uid)
    requires root in s.members.roots
    ensures var t := AttachPod(s, key, root);
            t.cache == s.cache && t.members.ancestors == s.members.ancestors && s.queues.pods <= t.queues.pods
  {
  }

  /** What a publication checks under the lock. */
  lemma PublishChecks(e: Env, s: State, path: seq<ObjectRef>, root: ObjectRef, selection: Stamped, next: PodResult, labelFailed: bool)
    requires PublishPod(e, s, path, root, selection, next, labelFailed).1 == {} && root.version != 0
    ensures IsPathCurrent(s.cache, path) && IsPathCurrent(s.cache, [root]) && s.defs.version == selection.version
  {
    hide HasRootOwnership;
    if Lookup(s.cache, root, false).Found? {
      assert forall i :: 0 <= i < |[root]| ==> [root][i] == root;
    }
    hide Lookup;
  }

  lemma StampedNow(d: Definitions, pc: PodPc)
    requires pc.PodPublish? && PodStamp(d, pc) && d.version == pc.selection.version
    ensures pc.selection.selection == SelectionFor(d, pc.workload.root.gvk.groupKind)
    ensures LookupDefinition(d, pc.workload.root.gvk).1 == {}
  {
  }

  /** What a publication without label errors stores rests on the state it was stored in. */
  lemma PublishRests(e: Env, s: State, key: JobKey, pc: PodPc, next: nat)
    requires pc.PodPublish? && PodFacts(e, key, pc) && PodStamp(s.defs, pc) && CacheInv(e, s.cache, next) && !pc.labelFailed
    requires PublishPod(e, s, pc.workload.path, RefOf(pc.root), pc.selection, PodResult(pc.record, RefOf(pc.pod), true, NoReason), pc.labelFailed).1 == {}
    ensures RestsOn(e, s.cache.objects, s.defs, pc.workload, pc.record) && IsPathCurrent(s.cache, pc.workload.path)
    ensures IsPathCurrent(s.cache, [RefOf(pc.root)])
  {
    var ref := RefOf(pc.root);
    PublishedBodies(e, key, pc);
    assert ref.version != 0 by { hide ControllerOwner; }
    PublishChecks(e, s, pc.workload.path, ref, pc.selection, PodResult(pc.record, RefOf(pc.pod), true, NoReason), pc.labelFailed);
    hide PublishPod, IsPathCurrent, PodFacts;
    PathIsExact(e, s.cache, [ref], 0, next);
    StampedNow(s.defs, pc);
    hide CacheInv, PodStamp, KnownRef, ExactlyCached, LookupDefinition, LinkHolds, EvaluatePod, Accepts, SelectionFor, ChainEnds, PathOk;
  }

  /** The bodies a publication was computed from are the contents of the referenced versions. */
  lemma PublishedBodies(e: Env, key: JobKey, pc: PodPc)
    requires pc.PodPublish? && PodFacts(e, key, pc)
    ensures PathOk(e, key, pc.workload.path) && ChainEnds(e, pc.workload)
    ensures Content(e, pc.workload.path[0]) == pc.pod && Content(e, RefOf(pc.root)) == pc.root && KnownRef(e, RefOf(pc.root))
    ensures Accepts(e, pc.pod, pc.root)
    ensures RefOf(pc.root).uid == pc.workload.root.uid && pc.root.gvk == RootGvk(pc.workload.root.gvk, pc.selection.selection)
    ensures EvaluatePod(e, pc.selection.selection, pc.pod, pc.root, pc.workload.resolution) == PodEvaluated(pc.record, pc.labelFailed)
    ensures pc.record.workload == RefOf(pc.root) && pc.record.uid == key.uid
  {
    assert pc.record.workload == RefOf(pc.root) && pc.record.uid == pc.pod.uid by { hide PodKeyOk, PodBody, ClimbedFrom, RootBody; }
    ConformingContent(e, pc.pod);
    ConformingContent(e, pc.root);
    hide EvaluatePod, Conforms, ChainLinks, KnownRef;
  }

  predicate CleanPod(result: PodResult) { result.hasValue && result.error == NoReason }

  /** When the job returns successfully, a clean result is the one it just published. */
  lemma OwnStepResult(e: Env, s: State, key: JobKey, pc: PodPc, input: Input, id: nat)
    requires PodFacts(e, key, pc) && !pc.PodReturn? && !key.rescan && PodsFiled(s)
    requires var (t, pc') := StepPodProgram(e, s, key, pc, input, id);
             pc' == PodReturn({}) && key.uid in t.pubs.pods && CleanPod(t.pubs.pods[key.uid])
    ensures pc.PodPublish? && !pc.labelFailed
    ensures PublishPod(e, s, pc.workload.path, RefOf(pc.root), pc.selection, PodResult(pc.record, RefOf(pc.pod), true, NoReason), pc.labelFailed).1 == {}
    ensures var t := StepPodProgram(e, s, key, pc, input, id).0;
            t == s.(pubs := t.pubs) && t.pubs.pods[key.uid] == PodResult(pc.record, RefOf(pc.pod), true, NoReason)
  {
    if pc.PodPublish? {
      PublishedBodies(e, key, pc);
    }
    hide Lookup, IsPathCurrent, HasRootOwnership, IsDefinitionCurrent, VisitObject, MayVisit, JudgePod, Ensure, EvaluatePod, RequeueScope, EnsureRoot, AttachPod,
         PodBody, Climbs, ClimbedFrom, RootBody;
  }

  // ---------------------------------------------------------------- the invariant

  function Started(pods: map<JobKey, PodPc>): set<JobKey> { set k | k in pods && pods[k] == PodStart }

  /** Pods whose job waits for a retry, or runs and has not yet returned successfully. */
  function BusyPods(sys: System): set<JobKey> {
    sys.podDelayed + set k | k in sys.pods && sys.pods[k] != PodReturn({})
  }

  /** The walk an in-flight job stands on, once it is registered. */
  function WalkOf(pc: PodPc): Option<Workload> {
    match pc
    case PodReadRoot(_, workload, _, _) => Some(workload)
    case PodCheckWatch(_, workload, _, _, _) => Some(workload)
    case PodEnsureRoot(_, workload, _, _) => Some(workload)
    case PodReadRootAgain(_, workload, _, _) => Some(workload)
    case PodPublish(_, workload, _, _, _, _) => Some(workload)
    case _ => None
  }

  ghost predicate PodSettled(e: Env, sys: System, p: Uid) {
    var s, key := sys.s, PodKey(e, p);
    p in s.pubs.pods && CleanPod(s.pubs.pods[p]) && key !in BusyPods(sys) && key !in s.queues.pods
    ==> exists workload :: Stands(e, s, Started(sys.pods), key, workload, Some(s.pubs.pods[p].record))
  }

  ghost predicate PodsFiled(s: State) {
    forall p :: p in s.pubs.pods ==> s.pubs.pods[p].record.uid == p
  }

  ghost predicate PodsInv(e: Env, sys: System) {
    && PodsFiled(sys.s)
    && (forall key :: key in sys.pods && WalkOf(sys.pods[key]).Some? ==>
          Stands(e, sys.s, Started(sys.pods), key, WalkOf(sys.pods[key]).value, None))
    && (forall p :: PodSettled(e, sys, p))
  }

  lemma RootStepStands(e: Env, s: State, uid: Uid, pc: RootPc, input: Input, id: nat, started: set<JobKey>,
                       key: JobKey, workload: Workload, record: Option<PodRecord>)
    requires MembersInv(e, s.members) && Stands(e, s, started, key, workload, record)
    ensures Stands(e, StepRootProgram(e, s, uid, pc, input, id).0, started, key, workload, record)
  {
    if pc.RootWithdraw? {
      RemoveRootStands(e, s, uid, started, key, workload, record);
      hide RemoveRoot, Stands;
    } else {
      RootStepCalmPods(e, s, uid, pc, input, id);
      hide StepRootProgram;
      CalmKeepsStands(e, s, StepRootProgram(e, s, uid, pc, input, id).0, started, key, workload, record);
    }
  }

  /** The sections of watches, the sources worker, selected objects and root jobs keep what attributions stand on. */
  lemma SectionStands(e: Env, sys: System, a: Action, started: set<JobKey>, key: JobKey, workload: Workload, record: Option<PodRecord>)
    requires Enabled(e, sys, a) && ObjectsConform(e, sys.s.cache.objects) && MembersInv(e, sys.s.members)
    requires Stands(e, sys.s, started, key, workload, record)
    requires !a.TakePod? && !a.StepPod? && !a.FinishPod? && !a.RetryPod?
    ensures Stands(e, Next(e, sys, a).s, started, key, workload, record)
  {
    hide ApplyWatchEvent, Replace, UpdateWatchHealth, PrepareWatchRequests, Ensure, StepRootProgram, StepSelected, StepPodProgram,
         ObjectsConform, MembersInv, IsSyncOrder, Genuine, Stands, Conforms;
    var s, t := sys.s, Next(e, sys, a);
    match a
    case WatchEvent(w, o, deleted) =>
      DeliverableFacts(e, w, o);
      EventStands(e, s, w, o, deleted, started, key, workload, record);
    case WatchSnapshot(w, objects, drop, put) =>
      DeliverableConforms(e, w, objects);
      SnapshotStands(e, s, w, objects, drop, put, started, key, workload, record);
    case WatchStatus(w, err) =>
      HealthRest(e, s, w, err);
      HealthObjects(e, s, w, err);
      CalmKeepsStands(e, s, t.s, started, key, workload, record);
    case SyncSources(offered, err, order) => SyncStands(e, s, offered, err, order, started, key, workload, record);
    case StartWatch(gvk, namespace, metadataOnly, mapping) =>
      EnsureRest(e, s, gvk, namespace, metadataOnly, mapping, sys.nextWatch);
      RequestObjects(e, s, Some(Request(gvk, namespace, metadataOnly)), mapping, sys.nextWatch);
      CalmKeepsStands(e, s, t.s, started, key, workload, record);
    case Selected(op) =>
      SelectedStepCalmPods(e, s, op);
      CalmKeepsStands(e, s, t.s, started, key, workload, record);
    case StepRoot(uid, input) =>
      RootStepStands(e, s, uid, sys.roots[uid], input, sys.nextWatch, started, key, workload, record);
    case _ => CalmKeepsStands(e, s, t.s, started, key, workload, record);
  }

  lemma SectionKeepsPodJobs(e: Env, sys: System, a: Action)
    requires Enabled(e, sys, a) && !a.TakePod? && !a.StepPod? && !a.FinishPod? && !a.RetryPod?
    ensures Next(e, sys, a).pods == sys.pods
  {
    hide ApplyWatchEvent, Replace, UpdateWatchHealth, PrepareWatchRequests, Ensure, StepRootProgram, StepSelected, StepPodProgram;
  }

  /** Every action keeps what every other job's attribution stands on. */
  lemma ActionStands(e: Env, sys: System, a: Action, key: JobKey, workload: Workload, record: Option<PodRecord>)
    requires CacheInv(e, sys.s.cache, sys.nextWatch) && JobsInv(e, sys) && Enabled(e, sys, a)
    requires Stands(e, sys.s, Started(sys.pods), key, workload, record)
    requires (a.TakePod? || a.StepPod?) ==> a.key != key
    ensures Stands(e, Next(e, sys, a).s, Started(Next(e, sys, a).pods), key, workload, record)
  {
    hide Stands, Started, PodFacts, RootFacts, StepPodProgram, StepRootProgram, StepSelected, ApplyWatchEvent, Replace, UpdateWatchHealth,
         PrepareWatchRequests, Ensure, MembersInv, ObjectsOk, ObjectsTracked, FullSources, WatchInv;
    if a.StepPod? {
      StepStands(e, sys.s, sys.pods, a.key, a.input, sys.nextWatch, key, workload, record);
    } else if a.TakePod? || a.FinishPod? || a.RetryPod? {
      JobStands(e, sys, a, key, workload, record);
    } else {
      CachedObjectsConform(e, sys.s.cache);
      hide Enabled;
      SectionStands(e, sys, a, Started(sys.pods), key, workload, record);
      SectionKeepsPodJobs(e, sys, a);
    }
  }

  lemma QueueMoveStands(e: Env, s: State, t: State, started: set<JobKey>, started': set<JobKey>, key: JobKey, workload: Workload, record: Option<PodRecord>)
    requires Stands(e, s, started, key, workload, record)
    requires t == s.(queues := t.queues) && s.queues.pods + started <= t.queues.pods + started'
    requires key in s.queues.pods ==> key in t.queues.pods
    ensures Stands(e, t, started', key, workload, record)
  {
    hide PathOk, ChainEnds, RestsOn, LinkHolds, Linked;
  }

  lemma StartedStands(e: Env, s: State, started: set<JobKey>, started': set<JobKey>, key: JobKey, workload: Workload, record: Option<PodRecord>)
    requires Stands(e, s, started, key, workload, record)
    requires forall k :: k in started && k !in started' ==> !k.rescan
    ensures Stands(e, s, started', key, workload, record)
  {
    hide PathOk, ChainEnds, RestsOn, LinkHolds, Linked;
    assert Rescan(key.obj.namespace).rescan && Rescan(0).rescan;
  }

  /** A step of another job, with what it does to the started jobs. */
  lemma StepStands(e: Env, s: State, pods: map<JobKey, PodPc>, stepped: JobKey, input: Input, id: nat,
                   key: JobKey, workload: Workload, record: Option<PodRecord>)
    requires stepped in pods && PodFacts(e, stepped, pods[stepped]) && !pods[stepped].PodReturn? && stepped != key
    requires Stands(e, s, Started(pods), key, workload, record)
    ensures var (t, pc') := StepPodProgram(e, s, stepped, pods[stepped], input, id);
            Stands(e, t, Started(pods[stepped := pc']), key, workload, record)
  {
    hide Stands, StepPodProgram, PodFacts;
    var pc := pods[stepped];
    var (t, pc') := StepPodProgram(e, s, stepped, pc, input, id);
    var started, started' := Started(pods), Started(pods[stepped := pc']);
    if pc.PodStart? {
      StartStep(e, s, stepped, input, id);
      PodFactsKey(e, stepped, pc);
      if stepped.rescan {
        RescanReaches(e, s, stepped.obj.namespace, started, key, workload, record);
        assert started' == started - {stepped};
      } else {
        StartedStands(e, s, started, started', key, workload, record);
      }
    } else {
      PodStepStandsOther(e, s, stepped, pc, input, id, started, key, workload, record);
      StartedStands(e, t, started, started', key, workload, record);
    }
  }

  lemma JobStands(e: Env, sys: System, a: Action, key: JobKey, workload: Workload, record: Option<PodRecord>)
    requires Enabled(e, sys, a) && (a.TakePod? || a.FinishPod? || a.RetryPod?)
    requires Stands(e, sys.s, Started(sys.pods), key, workload, record) && (a.TakePod? ==> a.key != key)
    ensures Stands(e, Next(e, sys, a).s, Started(Next(e, sys, a).pods), key, workload, record)
  {
    hide Stands;
    QueueMoveStands(e, sys.s, Next(e, sys, a).s, Started(sys.pods), Started(Next(e, sys, a).pods), key, workload, record);
  }

  lemma StartStep(e: Env, s: State, key: JobKey, input: Input, id: nat)
    ensures var (t, pc') := StepPodProgram(e, s, key, PodStart, input, id);
            (if key.rescan then t == RequeueScope(e, s, key.obj.namespace) && pc' == PodReturn({}) else t == s)
  {
    hide RequeueScope;
  }

  // ---------------------------------------------------------------- every run

  lemma RegisterFlight(e: Env, s: State, key: JobKey, pc: PodPc, input: Input, id: nat, started: set<JobKey>)
    requires Registered(e, s) && CacheInv(e, s.cache, id) && PodFacts(e, key, pc) && pc.PodRegister?
    ensures var (t, pc') := StepPodProgram(e, s, key, pc, input, id);
            WalkOf(pc').Some? ==> Stands(e, t, started, key, WalkOf(pc').value, None)
  {
    assert PathOk(e, key, pc.workload.path) && ChainEnds(e, pc.workload);
    if RegisterPodRoot(e, s, key, pc.workload).1 == {} {
      RegisterOwn(e, s, key, pc.workload, started, id);
    }
    hide RegisterPodRoot, Stands, Registered, CacheInv, PodFacts;
  }

  lemma RequestFlight(e: Env, s: State, key: JobKey, pc: PodPc, input: Input, id: nat)
    requires PodRequest(pc).Some?
    ensures var (t, pc') := StepPodProgram(e, s, key, pc, input, id);
            CalmPods(s, t) && (WalkOf(pc').Some? ==> WalkOf(pc') == WalkOf(pc))
  {
    PodStepCache(e, s, key, pc, input, id);
    RequestRest(e, s, PodRequest(pc), input.mapping, id);
    RequestObjects(e, s, PodRequest(pc), input.mapping, id);
    hide Ensure, Lookup, VisitObject;
  }

  lemma ReadFlight(e: Env, s: State, key: JobKey, pc: PodPc, input: Input, id: nat)
    requires PodRequest(pc).None? && !pc.PodRegister?
    ensures var (t, pc') := StepPodProgram(e, s, key, pc, input, id);
            WalkOf(pc').Some? ==> t == s && WalkOf(pc') == WalkOf(pc)
  {
    hide Lookup, IsPathCurrent, HasRootOwnership, IsDefinitionCurrent, VisitObject, MayVisit, EvaluatePod,
         RequeueScope, PublishPod, FailPodEvaluation, PublishPodFailure, UnregisterPod, LookupDefinition, Ensure, RegisterPodRoot;
  }

  lemma FlightStep(e: Env, s: State, key: JobKey, pc: PodPc, input: Input, id: nat, started: set<JobKey>)
    requires Registered(e, s) && CacheInv(e, s.cache, id) && PodFacts(e, key, pc)
    requires WalkOf(pc).Some? ==> Stands(e, s, started, key, WalkOf(pc).value, None)
    ensures var (t, pc') := StepPodProgram(e, s, key, pc, input, id);
            WalkOf(pc').Some? ==> Stands(e, t, started, key, WalkOf(pc').value, None)
  {
    var (t, pc') := StepPodProgram(e, s, key, pc, input, id);
    if pc.PodRegister? {
      RegisterFlight(e, s, key, pc, input, id, started);
    } else if PodRequest(pc).Some? {
      RequestFlight(e, s, key, pc, input, id);
      hide StepPodProgram, Stands, Registered, CacheInv, PodFacts;
      if WalkOf(pc').Some? {
        CalmKeepsStands(e, s, t, started, key, WalkOf(pc).value, None);
      }
    } else {
      ReadFlight(e, s, key, pc, input, id);
    }
    hide StepPodProgram, Stands, Registered, CacheInv, PodFacts;
  }

  lemma StandsForPod(e: Env, s: State, started: set<JobKey>, key: JobKey, workload: Workload, record: Option<PodRecord>)
    requires Stands(e, s, started, key, workload, record)
    ensures !key.rescan
  {
  }

  lemma PublishFiles(e: Env, s: State, key: JobKey, pc: PodPc, input: Input, id: nat)
    requires PodFacts(e, key, pc) && PodsFiled(s) && pc.PodPublish?
    ensures var t := StepPodProgram(e, s, key, pc, input, id).0;
            PodsFiled(t) && forall p :: p != key.uid ==> Get(t.pubs.pods, p) == Get(s.pubs.pods, p)
  {
    PublishedBodies(e, key, pc);
    hide IsPathCurrent, HasRootOwnership, IsDefinitionCurrent, Lookup, PodFacts, ChainEnds, PathOk, EvaluatePod, KnownRef, Accepts;
  }

  /** Only a Pod's own job changes its published result. */
  lemma StepPublishes(e: Env, s: State, key: JobKey, pc: PodPc, input: Input, id: nat)
    requires PodFacts(e, key, pc) && PodsFiled(s)
    ensures var t := StepPodProgram(e, s, key, pc, input, id).0;
            && PodsFiled(t)
            && (forall p :: p != key.uid || key.rescan ==> Get(t.pubs.pods, p) == Get(s.pubs.pods, p))
  {
    hide Lookup, IsPathCurrent, HasRootOwnership, IsDefinitionCurrent, VisitObject, MayVisit, JudgePod, PodBody, Climbs, ClimbedFrom, RootBody, EvaluatePod,
         RescannedPods, RescannedWork, EnsureRoot;
    if PodRequest(pc).Some? {
      hide StepPodProgram;
      PodStepCache(e, s, key, pc, input, id);
      RequestRest(e, s, PodRequest(pc), input.mapping, id);
    } else if pc.PodPublish? {
      PublishFiles(e, s, key, pc, input, id);
      hide StepPodProgram;
    } else if pc.PodRegister? {
      EnsureRootTracks(s, pc.workload);
    } else {
      hide RegisterPodRoot, PublishPod;
    }
  }

  lemma NextPublishes(e: Env, sys: System, a: Action)
    requires Enabled(e, sys, a) && JobsInv(e, sys) && PodsFiled(sys.s)
    ensures var t := Next(e, sys, a).s;
            && PodsFiled(t)
            && (forall p :: !a.StepPod? || p != a.key.uid || a.key.rescan ==> Get(t.pubs.pods, p) == Get(sys.s.pubs.pods, p))
  {
    hide ApplyWatchEvent, Replace, UpdateWatchHealth, PrepareWatchRequests, Ensure, StepRootProgram, StepSelected, StepPodProgram,
         PodFacts, RootFacts, Registered, IsSyncOrder, Genuine;
    var s, t := sys.s, Next(e, sys, a).s;
    match a
    case WatchEvent(w, o, deleted) => EventEffect(e, s, w, o, deleted);
    case WatchSnapshot(w, objects, drop, put) => SnapshotRest(e, s, w, objects, drop, put);
    case WatchStatus(w, err) => HealthRest(e, s, w, err);
    case SyncSources(offered, err, order) => SyncPublishes(e, s, offered, err, order);
    case StartWatch(gvk, namespace, metadataOnly, mapping) =>
      EnsureRest(e, s, gvk, namespace, metadataOnly, mapping, sys.nextWatch);
    case Selected(op) => SelectedStepCalmPods(e, s, op);
    case StepPod(key, input) => StepPublishes(e, s, key, sys.pods[key], input, sys.nextWatch);
    case StepRoot(uid, input) =>
      if sys.roots[uid].RootWithdraw? {
        assert t.pubs.pods == s.pubs.pods by { WithdrawPublishes(e, s, uid, input, sys.nextWatch); }
      } else {
        RootStepCalmPods(e, s, uid, sys.roots[uid], input, sys.nextWatch);
      }
    case _ =>
  }

  lemma WithdrawPublishes(e: Env, s: State, uid: Uid, input: Input, id: nat)
    ensures StepRootProgram(e, s, uid, RootWithdraw, input, id).0.pubs.pods == s.pubs.pods
  {
  }

  lemma SyncPublishes(e: Env, s: State, offered: map<GroupKind, Selection>, err: Failure, order: SyncOrder)
    ensures PrepareWatchRequests(e, s, offered, err, order).pubs.pods == s.pubs.pods
  {
    RefreshEffect(e, s, offered, err);
    var s1 := RefreshDefinitions(e, s, offered, err);
    hide RefreshDefinitions, RetireWatches, RemoveRoots;
    if !e.scoped || NamespaceWatchReady(s1.cache) {
      if e.scoped {
        RemoveRootsEffect(s1.(scopes := AdmittedNamespaces(e, s1.cache)), order.roots);
      }
      RetireWatchesRest(e, ShrinkScope(e, s1, order.roots), order.watches, order.objects);
    }
  }

  lemma NextKeepsFlights(e: Env, sys: System, a: Action)
    requires CacheInv(e, sys.s.cache, sys.nextWatch) && JobsInv(e, sys) && Enabled(e, sys, a) && PodsInv(e, sys)
    ensures var t := Next(e, sys, a);
            forall key :: key in t.pods && WalkOf(t.pods[key]).Some? ==>
              Stands(e, t.s, Started(t.pods), key, WalkOf(t.pods[key]).value, None)
  {
    var t := Next(e, sys, a);
    hide ApplyWatchEvent, Replace, UpdateWatchHealth, PrepareWatchRequests, Ensure, StepRootProgram, StepSelected, StepPodProgram,
         PodFacts, RootFacts, Registered, CacheInv, Enabled, Stands, PodSettled, PodsFiled;
    forall key | key in t.pods && WalkOf(t.pods[key]).Some?
      ensures Stands(e, t.s, Started(t.pods), key, WalkOf(t.pods[key]).value, None)
    {
      if a.StepPod? && a.key == key {
        FlightStep(e, sys.s, key, sys.pods[key], a.input, sys.nextWatch, Started(sys.pods));
        StandsForPod(e, t.s, Started(sys.pods), key, WalkOf(t.pods[key]).value, None);
        StartedStands(e, t.s, Started(sys.pods), Started(t.pods), key, WalkOf(t.pods[key]).value, None);
      } else {
        ActionStands(e, sys, a, key, WalkOf(sys.pods[key]).value, None);
      }
    }
  }

  lemma OwnPublication(e: Env, s: State, key: JobKey, pc: PodPc, input: Input, id: nat, started: set<JobKey>)
    requires CacheInv(e, s.cache, id) && PodFacts(e, key, pc) && PodStamp(s.defs, pc) && PodsFiled(s) && !pc.PodReturn? && !key.rescan
    requires WalkOf(pc).Some? ==> Stands(e, s, started, key, WalkOf(pc).value, None)
    requires var (t, pc') := StepPodProgram(e, s, key, pc, input, id);
             pc' == PodReturn({}) && key.uid in t.pubs.pods && CleanPod(t.pubs.pods[key.uid])
    ensures var t := StepPodProgram(e, s, key, pc, input, id).0;
            exists workload :: Stands(e, t, started, key, workload, Some(t.pubs.pods[key.uid].record))
  {
    OwnStepResult(e, s, key, pc, input, id);
    PublishRests(e, s, key, pc, id);
    var t := StepPodProgram(e, s, key, pc, input, id).0;
    hide CacheInv, PodFacts, Stands, PodStamp, StepPodProgram, RestsOn, PublishPod;
    OwnStands(e, s, t, started, key, pc.workload, pc.record);
  }

  lemma SettledStep(e: Env, sys: System, a: Action, p: Uid)
    requires CacheInv(e, sys.s.cache, sys.nextWatch) && JobsInv(e, sys) && StampsInv(e, sys) && Enabled(e, sys, a) && PodsInv(e, sys)
    requires a.StepPod? && a.key == PodKey(e, p)
    ensures PodSettled(e, Next(e, sys, a), p)
  {
    hide CacheInv, PodFacts, RootFacts, Stands, PodStamp, RootStamp, Registered, StepPodProgram, PodsFiled, Started, JobKeysOk, EvaluatePod;
    var s, t, key := sys.s, Next(e, sys, a), a.key;
    var pc := sys.pods[key];
    if t.pods[key] == PodReturn({}) && p in t.s.pubs.pods && CleanPod(t.s.pubs.pods[p]) {
      OwnPublication(e, s, key, pc, a.input, sys.nextWatch, Started(sys.pods));
      hide Next, JobsInv, StampsInv, PodsInv;
      var workload :| Stands(e, t.s, Started(sys.pods), key, workload, Some(t.s.pubs.pods[p].record));
      StandsElsewhere(e, t.s, sys.pods, key, t.pods, workload, Some(t.s.pubs.pods[p].record));
    }
  }

  lemma StandsElsewhere(e: Env, s: State, pods: map<JobKey, PodPc>, stepped: JobKey, pods': map<JobKey, PodPc>, workload: Workload, record: Option<PodRecord>)
    requires Stands(e, s, Started(pods), stepped, workload, record) && !stepped.rescan
    requires forall k :: k in pods && k != stepped ==> k in pods' && pods'[k] == pods[k]
    ensures Stands(e, s, Started(pods'), stepped, workload, record)
  {
    hide Stands;
    StartedStands(e, s, Started(pods), Started(pods'), stepped, workload, record);
  }

  lemma OwnStands(e: Env, s: State, t: State, started: set<JobKey>, key: JobKey, workload: Workload, record: PodRecord)
    requires Stands(e, s, started, key, workload, None) && RestsOn(e, s.cache.objects, s.defs, workload, record)
    requires t == s.(pubs := t.pubs)
    ensures Stands(e, t, started, key, workload, Some(record))
  {
    hide PathOk, ChainEnds, RestsOn, LinkHolds, Linked;
  }

  lemma NextSettlesPod(e: Env, sys: System, a: Action, p: Uid)
    requires CacheInv(e, sys.s.cache, sys.nextWatch) && JobsInv(e, sys) && StampsInv(e, sys) && Enabled(e, sys, a) && PodsInv(e, sys)
    ensures PodSettled(e, Next(e, sys, a), p)
  {
    if a.StepPod? && a.key == PodKey(e, p) {
      SettledStep(e, sys, a, p);
    } else {
      NextPublishes(e, sys, a);
      BusyStays(e, sys, a, PodKey(e, p));
      var s, t, key := sys.s, Next(e, sys, a), PodKey(e, p);
      assert PodSettled(e, sys, p);
      assert a.StepPod? ==> p != a.key.uid || a.key.rescan by {
        if a.StepPod? { PodFactsKey(e, a.key, sys.pods[a.key]); }
      }
      hide CacheInv, JobsInv, StampsInv, Enabled, Next, Stands, PodsFiled;
      if p in t.s.pubs.pods && CleanPod(t.s.pubs.pods[p]) && key !in BusyPods(t) && key !in t.s.queues.pods {
        assert Get(t.s.pubs.pods, p) == Get(s.pubs.pods, p);
        var workload :| Stands(e, s, Started(sys.pods), key, workload, Some(s.pubs.pods[p].record));
        ActionStands(e, sys, a, key, workload, Some(s.pubs.pods[p].record));
      }
    }
  }

  /** A Pod's job leaves the queue only to be processed, and a busy job settles only by its own steps. */
  lemma BusyStays(e: Env, sys: System, a: Action, key: JobKey)
    requires Enabled(e, sys, a) && JobsInv(e, sys) && !(a.StepPod? && a.key == key)
    ensures var t := Next(e, sys, a);
            (key in BusyPods(sys) || key in sys.s.queues.pods) ==> (key in BusyPods(t) || key in t.s.queues.pods)
    ensures a == TakePod(key) ==> key in BusyPods(Next(e, sys, a))
  {
    if key in sys.s.queues.pods && a != TakePod(key) {
      QueueGrows(e, sys, a, key);
    }
    hide ApplyWatchEvent, Replace, UpdateWatchHealth, PrepareWatchRequests, Ensure, StepRootProgram, StepSelected, StepPodProgram, IsSyncOrder, Genuine,
         ValidOp, Deliverable, IsTracked, Ordering, JobsInv;
  }

  lemma SyncGrows(e: Env, s: State, offered: map<GroupKind, Selection>, err: Failure, order: SyncOrder)
    ensures s.queues.pods <= PrepareWatchRequests(e, s, offered, err, order).queues.pods
  {
    RefreshEffect(e, s, offered, err);
    var s1 := RefreshDefinitions(e, s, offered, err);
    hide RefreshDefinitions, RetireWatches, RemoveRoots;
    if !e.scoped || NamespaceWatchReady(s1.cache) {
      if e.scoped {
        RemoveRootsEffect(s1.(scopes := AdmittedNamespaces(e, s1.cache)), order.roots);
      }
      RetireWatchesRest(e, ShrinkScope(e, s1, order.roots), order.watches, order.objects);
    }
  }

  lemma PodStepGrows(e: Env, s: State, key: JobKey, pc: PodPc, input: Input, id: nat)
    ensures s.queues.pods <= StepPodProgram(e, s, key, pc, input, id).0.queues.pods
  {
    if PodRequest(pc).Some? {
      RequestFlight(e, s, key, pc, input, id);
    } else if pc.PodRegister? {
      EnsureRootTracks(s, pc.workload);
      AttachPodKeeps(EnsureRoot(s, pc.workload), key, pc.workload.root.uid);
      hide EnsureRoot, AttachPod, IsPathCurrent, HasRootOwnership;
    } else {
      hide Lookup, IsPathCurrent, HasRootOwnership, IsDefinitionCurrent, VisitObject, MayVisit, JudgePod, RescannedPods, RescannedWork;
    }
  }

  lemma QueueGrows(e: Env, sys: System, a: Action, key: JobKey)
    requires Enabled(e, sys, a) && key in sys.s.queues.pods && a != TakePod(key)
    ensures key in Next(e, sys, a).s.queues.pods
  {
    hide ApplyWatchEvent, Replace, UpdateWatchHealth, PrepareWatchRequests, Ensure, StepRootProgram, StepSelected, StepPodProgram, IsSyncOrder, Genuine;
    var s := sys.s;
    match a
    case WatchEvent(w, o, deleted) => EventEffect(e, s, w, o, deleted);
    case WatchSnapshot(w, objects, drop, put) => SnapshotRest(e, s, w, objects, drop, put);
    case WatchStatus(w, err) => HealthRest(e, s, w, err);
    case SyncSources(offered, err, order) => SyncGrows(e, s, offered, err, order);
    case StartWatch(gvk, namespace, metadataOnly, mapping) =>
      EnsureRest(e, s, gvk, namespace, metadataOnly, mapping, sys.nextWatch);
    case Selected(op) => SelectedStepCalmPods(e, s, op);
    case StepPod(stepped, input) => PodStepGrows(e, s, stepped, sys.pods[stepped], input, sys.nextWatch);
    case StepRoot(uid, input) =>
      if sys.roots[uid].RootWithdraw? {
        WithdrawGrows(e, s, uid, input, sys.nextWatch);
      } else {
        RootStepCalmPods(e, s, uid, sys.roots[uid], input, sys.nextWatch);
      }
    case _ =>
  }

  lemma WithdrawGrows(e: Env, s: State, uid: Uid, input: Input, id: nat)
    ensures s.queues.pods <= StepRootProgram(e, s, uid, RootWithdraw, input, id).0.queues.pods
  {
  }

  lemma NextKeepsPods(e: Env, sys: System, a: Action)
    requires CacheInv(e, sys.s.cache, sys.nextWatch) && JobsInv(e, sys) && StampsInv(e, sys) && Enabled(e, sys, a) && PodsInv(e, sys)
    ensures PodsInv(e, Next(e, sys, a))
  {
    NextPublishes(e, sys, a);
    NextKeepsFlights(e, sys, a);
    forall p ensures PodSettled(e, Next(e, sys, a), p) {
      NextSettlesPod(e, sys, a, p);
    }
    hide Next, JobsInv, StampsInv, CacheInv, PodSettled, Enabled, PodsFiled, Stands;
  }

  lemma {:induction false} RunKeepsPods(e: Env, actions: seq<Action>)
    ensures PodsInv(e, Run(e, actions))
    decreases |actions|
  {
    if actions != [] {
      RunKeepsPods(e, actions[..|actions| - 1]);
      RunKeepsJobs(e, actions[..|actions| - 1]);
      RunKeepsCache(e, actions[..|actions| - 1]);
      RunKeepsStamps(e, actions[..|actions| - 1]);
      var sys := Run(e, actions[..|actions| - 1]);
      var a := actions[|actions| - 1];
      if Enabled(e, sys, a) {
        NextKeepsPods(e, sys, a);
      }
      hide Next, JobsInv, StampsInv, CacheInv, Enabled, PodsInv;
    }
  }

  /** In every reachable state, a Pod with a clean published result is a member of the root its record names,
      or its job is queued, waiting for a retry, or running and not yet done. */
  lemma PodsAreNeverOrphaned(e: Env, actions: seq<Action>, p: Uid)
    requires var s := Run(e, actions).s; p in s.pubs.pods && CleanPod(s.pubs.pods[p])
    ensures var sys := Run(e, actions);
            var key, root := PodKey(e, p), sys.s.pubs.pods[p].record.workload.uid;
            || key in sys.s.queues.pods || key in sys.podDelayed
            || (key in sys.pods && sys.pods[key] != PodReturn({}))
            || (root in sys.s.members.roots && p in sys.s.members.roots[root].pods
                && Get(sys.s.members.podRoots, p) == Some(root))
  {
    RunKeepsPods(e, actions);
    RunKeepsJobs(e, actions);
    var sys := Run(e, actions);
    hide Run;
    var key := PodKey(e, p);
    assert PodSettled(e, sys, p);
    if key !in sys.s.queues.pods && key !in BusyPods(sys) {
      var workload :| Stands(e, sys.s, Started(sys.pods), key, workload, Some(sys.s.pubs.pods[p].record));
      HeldIsMember(e, sys.s.members, key, workload.root.uid);
    }
    hide JobsInv, PodsInv, LinkHolds, EvaluatePod;
  }
}
