/** Membership: the two-way indexes between roots and their members stay inverse to each other. */
module MemberProofs {
  import opened Basics
  import opened Discovery
  import opened ControllerModel
  import opened ControllerSystem
  import opened CacheProofs
  import opened JobProofs

  // ---------------------------------------------------------------- the invariant

  ghost predicate PodsInverse(m: Members) {
    && (forall p :: p in m.podRoots ==> m.podRoots[p] in m.roots && p in m.roots[m.podRoots[p]].pods)
    && (forall r, p :: r in m.roots && p in m.roots[r].pods ==> p in m.podRoots && m.podRoots[p] == r)
  }

  ghost predicate SelectedInverse(m: Members) {
    && (forall k :: k in m.selected && m.selected[k].root != NO_UID ==>
          m.selected[k].root in m.roots && k in m.roots[m.selected[k].root].selected && m.selected[k].exclusion.None?)
    && (forall r, k :: r in m.roots && k in m.roots[r].selected ==> k in m.selected && m.selected[k].root == r)
  }

  /** A root is filed under its UID, with a reference of the right kind, namespace and name. */
  ghost predicate RefsOk(e: Env, m: Members) {
    forall r :: r in m.roots ==> RootRefOk(e, r, m.roots[r].ref)
  }

  /** A root holds each member Pod's own job key. */
  ghost predicate MemberKeysOk(e: Env, m: Members) {
    forall r, p :: r in m.roots && p in m.roots[r].pods ==> m.roots[r].pods[p] == PodKey(e, p) && PodKeyOk(e, PodKey(e, p))
  }

  ghost predicate MembersInv(e: Env, m: Members) {
    PodsInverse(m) && SelectedInverse(m) && RefsOk(e, m) && MemberKeysOk(e, m)
  }

  predicate DefinitionsOk(d: Definitions) {
    forall kind :: kind in d.selected ==> d.selected[kind].gvk.groupKind == kind
  }

  ghost predicate JobKeysOk(e: Env, keys: set<JobKey>) {
    forall key :: key in keys ==> QueueKeyOk(e, key)
  }

  // ---------------------------------------------------------------- the membership sections

  lemma RemoveRootMembers(e: Env, s: State, uid: Uid)
    requires MembersInv(e, s.members)
    ensures MembersInv(e, RemoveRoot(s, uid).members)
  {
    hide RootRefOk, PodKeyOk, PodKey;
    if uid in s.members.roots {
      var root := s.members.roots[uid];
      assert RootRefOk(e, uid, root.ref) && uid != NO_UID by { RootHasUid(e, s.members, uid); }
      var m' := s.members.(roots := s.members.roots - {uid}, podRoots := s.members.podRoots - root.pods.Keys,
                           selected := s.members.selected + map k | k in root.selected :: NO_OUTCOME);
      assert RemoveRoot(s, uid).members == m';
      hide RemoveRoot;
      RemovedInverses(e, s.members, uid, m');
    }
  }

  lemma RemovedInverses(e: Env, m: Members, uid: Uid, m': Members)
    requires MembersInv(e, m) && uid in m.roots
    requires m'.roots == m.roots - {uid} && m'.podRoots == m.podRoots - m.roots[uid].pods.Keys
    requires m'.selected == m.selected + map k | k in m.roots[uid].selected :: NO_OUTCOME
    ensures MembersInv(e, m')
  {
    hide RootRefOk, PodKeyOk, PodKey;
    RemovedSelected(m, uid, m');
    assert PodsInverse(m') by {
      forall p | p in m'.podRoots ensures m'.podRoots[p] in m'.roots && p in m'.roots[m'.podRoots[p]].pods {
        assert m.podRoots[p] in m.roots && p in m.roots[m.podRoots[p]].pods;
      }
      forall r, p | r in m'.roots && p in m'.roots[r].pods ensures p in m'.podRoots && m'.podRoots[p] == r {
        assert p in m.podRoots && m.podRoots[p] == r;
      }
    }
    hide PodsInverse, SelectedInverse;
  }

  lemma RemovedSelected(m: Members, uid: Uid, m': Members)
    requires SelectedInverse(m) && uid in m.roots
    requires m'.roots == m.roots - {uid} && m'.selected == m.selected + map k | k in m.roots[uid].selected :: NO_OUTCOME
    ensures SelectedInverse(m')
  {
    forall k | k in m'.selected && m'.selected[k].root != NO_UID
      ensures var r := m'.selected[k].root; r in m'.roots && k in m'.roots[r].selected && m'.selected[k].exclusion.None?
    {
      assert k !in m.roots[uid].selected;
      assert k in m.selected && m'.selected[k] == m.selected[k];
    }
    forall r, k | r in m'.roots && k in m'.roots[r].selected ensures k in m'.selected && m'.selected[k].root == r {
      assert k in m.selected && m.selected[k].root == r;
    }
  }

  lemma RootHasUid(e: Env, m: Members, uid: Uid)
    requires RefsOk(e, m) && uid in m.roots
    ensures RootRefOk(e, uid, m.roots[uid].ref) && uid != NO_UID
  {
  }

  lemma {:induction false} RemoveRootsMembers(e: Env, s: State, uids: seq<Uid>)
    requires MembersInv(e, s.members)
    ensures MembersInv(e, RemoveRoots(s, uids).members)
    decreases |uids|
  {
    hide MembersInv, RemoveRoot;
    if uids != [] {
      RemoveRootMembers(e, s, uids[0]);
      RemoveRootsMembers(e, RemoveRoot(s, uids[0]), uids[1..]);
    }
  }

  /** Pod `p` is a member of `root` alone, or of no root at all, and nothing else moved. */
  ghost predicate PodMoved(m: Members, m': Members, p: Uid, root: Uid) {
    && m'.roots.Keys == m.roots.Keys && m'.selected == m.selected
    && m'.podRoots == (if root == NO_UID then m.podRoots - {p} else m.podRoots[p := root])
    && (forall r :: r in m.roots ==>
          && m'.roots[r].ref == m.roots[r].ref && m'.roots[r].selected == m.roots[r].selected
          && (forall q :: q in m'.roots[r].pods <==> if q == p then r == root else q in m.roots[r].pods)
          && (forall q :: q in m'.roots[r].pods && q != p ==> m'.roots[r].pods[q] == m.roots[r].pods[q]))
  }

  lemma PodMovedInverse(m: Members, m': Members, p: Uid, root: Uid)
    requires PodsInverse(m) && PodMoved(m, m', p, root) && (root != NO_UID ==> root in m.roots) && NO_UID !in m.roots
    ensures PodsInverse(m')
  {
  }

  lemma PodMovedKeeps(e: Env, m: Members, m': Members, p: Uid, root: Uid)
    requires MembersInv(e, m) && PodMoved(m, m', p, root) && (root != NO_UID ==> root in m.roots)
    requires root != NO_UID ==> m'.roots[root].pods[p] == PodKey(e, p) && PodKeyOk(e, PodKey(e, p))
    ensures MembersInv(e, m')
  {
    if NO_UID in m.roots {
      RootHasUid(e, m, NO_UID);
    }
    PodMovedInverse(m, m', p, root);
    hide RootRefOk, PodKeyOk, PodKey, PodsInverse;
  }

  lemma UnregisterPodMembers(e: Env, s: State, key: JobKey)
    requires MembersInv(e, s.members)
    ensures MembersInv(e, UnregisterPod(s, key).members)
  {
    assert PodMoved(s.members, UnregisterPod(s, key).members, key.uid, NO_UID) by {
      if NO_UID in s.members.roots {
        RootHasUid(e, s.members, NO_UID);
      }
      hide RootRefOk, SelectedInverse, MemberKeysOk, RefsOk;
    }
    PodMovedKeeps(e, s.members, UnregisterPod(s, key).members, key.uid, NO_UID);
  }

  lemma EnsureRootMembers(e: Env, s: State, workload: Workload)
    requires MembersInv(e, s.members) && DefinitionsOk(s.defs) && KnownRef(e, workload.root)
    ensures MembersInv(e, EnsureRoot(s, workload).members)
  {
    hide Lookup, PodKeyOk, PodKey, AncestorPods;
    var uid := workload.root.uid;
    assert RootRefOk(e, uid, workload.root);
    var m' := EnsureRoot(s, workload).members;
    assert RootRefOk(e, uid, m'.roots[uid].ref);
    hide RootRefOk, SettleRootRef, KnownRef, MembersInv;
    RootRefSet(e, s.members, uid, m'.roots[uid].ref, m');
  }

  /** A root whose reference is set, or that is added without members. */
  lemma RootRefSet(e: Env, m: Members, uid: Uid, ref: ObjectRef, m': Members)
    requires MembersInv(e, m) && RootRefOk(e, uid, ref)
    requires m'.roots == m.roots[uid := (if uid in m.roots then m.roots[uid] else Root(ref, map[], {})).(ref := ref)]
    requires m'.podRoots == m.podRoots && m'.selected == m.selected
    ensures MembersInv(e, m')
  {
    hide RootRefOk, PodKeyOk, PodKey;
  }

  lemma AttachPodMoves(s: State, key: JobKey, root: Uid)
    requires PodsInverse(s.members) && root in s.members.roots && root != NO_UID && PodRootOf(s.members, key.uid) != root
    ensures PodMoved(s.members, AttachPod(s, key, root).members, key.uid, root)
    ensures AttachPod(s, key, root).members.roots[root].pods[key.uid] == key
  {
    var m, m' := s.members, AttachPod(s, key, root).members;
    forall r | r in m.roots
      ensures m'.roots[r].ref == m.roots[r].ref && m'.roots[r].selected == m.roots[r].selected
      ensures forall q :: q in m'.roots[r].pods <==> if q == key.uid then r == root else q in m.roots[r].pods
      ensures forall q :: q in m'.roots[r].pods && q != key.uid ==> m'.roots[r].pods[q] == m.roots[r].pods[q]
    {
      if r == root {
        assert m'.roots[r].pods == m.roots[r].pods[key.uid := key];
      } else if key.uid in m.roots[r].pods {
        assert m'.roots[r].pods == m.roots[r].pods - {key.uid};
      } else {
        assert m'.roots[r] == m.roots[r] || m'.roots[r].pods == m.roots[r].pods - {key.uid};
      }
    }
  }

  lemma AttachPodMembers(e: Env, s: State, key: JobKey, root: Uid)
    requires MembersInv(e, s.members) && root in s.members.roots && PodKeyOk(e, key)
    ensures MembersInv(e, AttachPod(s, key, root).members)
    ensures Get(AttachPod(s, key, root).members.podRoots, key.uid) == Some(root)
  {
    RootHasUid(e, s.members, root);
    if PodRootOf(s.members, key.uid) != root {
      AttachPodMoves(s, key, root);
      hide AttachPod, MembersInv, PodsInverse, SelectedInverse, MemberKeysOk, RefsOk, RootRefOk;
      PodMovedKeeps(e, s.members, AttachPod(s, key, root).members, key.uid, root);
    }
  }

  /** Pods, references and roots are as before; only selected objects moved. */
  ghost predicate SelectedMoved(m: Members, m': Members) {
    && m'.podRoots == m.podRoots && m'.roots.Keys == m.roots.Keys
    && (forall r :: r in m.roots ==> m'.roots[r].ref == m.roots[r].ref && m'.roots[r].pods == m.roots[r].pods)
  }

  lemma SelectedMovedKeeps(e: Env, m: Members, m': Members)
    requires MembersInv(e, m) && SelectedMoved(m, m') && SelectedInverse(m')
    ensures MembersInv(e, m')
  {
    hide RootRefOk, PodKeyOk, PodKey, SelectedInverse;
  }

  lemma RemoveSelectedMoves(s: State, key: JobKey)
    requires SelectedInverse(s.members) && NO_UID !in s.members.roots
    ensures SelectedMoved(s.members, RemoveSelectedMembership(s, key).members) && SelectedInverse(RemoveSelectedMembership(s, key).members)
  {
  }

  lemma RemoveSelectedMembers(e: Env, s: State, key: JobKey)
    requires MembersInv(e, s.members)
    ensures MembersInv(e, RemoveSelectedMembership(s, key).members)
  {
    NoRootWithoutUid(e, s.members);
    RemoveSelectedMoves(s, key);
    hide RemoveSelectedMembership, PodsInverse, SelectedInverse, RefsOk, MemberKeysOk;
    SelectedMovedKeeps(e, s.members, RemoveSelectedMembership(s, key).members);
  }

  lemma NoRootWithoutUid(e: Env, m: Members)
    requires MembersInv(e, m)
    ensures NO_UID !in m.roots
  {
    if NO_UID in m.roots {
      RootHasUid(e, m, NO_UID);
    }
  }

  lemma TrackSelectedMembers(e: Env, s: State, key: JobKey)
    requires MembersInv(e, s.members)
    ensures MembersInv(e, TrackSelected(s, key).members)
  {
    hide RootRefOk, PodKeyOk, PodKey;
  }

  lemma AttachSelectedMoves(s: State, key: JobKey, root: Uid)
    requires SelectedInverse(s.members) && root in s.members.roots && root != NO_UID
    ensures var m, m' := s.members, AttachSelected(s, key, root).members;
            && m'.podRoots == m.podRoots && m'.roots.Keys == m.roots.Keys
            && m'.selected == m.selected[key := Outcome(root, None)]
            && (forall r :: r in m.roots ==>
                  && m'.roots[r].ref == m.roots[r].ref && m'.roots[r].pods == m.roots[r].pods
                  && (forall k :: k in m'.roots[r].selected <==> if k == key then r == root else k in m.roots[r].selected))
  {
    var m, m' := s.members, AttachSelected(s, key, root).members;
    forall r | r in m.roots
      ensures m'.roots[r].ref == m.roots[r].ref && m'.roots[r].pods == m.roots[r].pods
      ensures forall k :: k in m'.roots[r].selected <==> if k == key then r == root else k in m.roots[r].selected
    {
      if r == root {
        assert m'.roots[r].selected == m.roots[r].selected + {key};
      } else {
        assert m'.roots[r] == m.roots[r] || m'.roots[r].selected == m.roots[r].selected - {key};
      }
    }
  }

  lemma AttachSelectedMembers(e: Env, s: State, key: JobKey, root: Uid)
    requires MembersInv(e, s.members) && root in s.members.roots
    ensures MembersInv(e, AttachSelected(s, key, root).members)
  {
    RootHasUid(e, s.members, root);
    AttachSelectedMoves(s, key, root);
    AttachSelectedInverse(s.members, AttachSelected(s, key, root).members, key, root);
    hide AttachSelected, PodsInverse, SelectedInverse, RefsOk, MemberKeysOk;
    SelectedMovedKeeps(e, s.members, AttachSelected(s, key, root).members);
  }

  lemma AttachSelectedInverse(m: Members, m': Members, key: JobKey, root: Uid)
    requires SelectedInverse(m) && root in m.roots && root != NO_UID
    requires m'.roots.Keys == m.roots.Keys && m'.selected == m.selected[key := Outcome(root, None)]
    requires forall r :: r in m.roots ==> forall k :: k in m'.roots[r].selected <==> if k == key then r == root else k in m.roots[r].selected
    ensures SelectedInverse(m')
  {
  }

  // ---------------------------------------------------------------- queued keys

  /** What a section may rely on besides the cache: registered members and well-formed job keys. */
  ghost predicate Registered(e: Env, s: State) {
    MembersInv(e, s.members) && DefinitionsOk(s.defs) && JobKeysOk(e, s.queues.pods)
  }

  ghost predicate ObjectsConform(e: Env, objects: map<ObjectKey, CachedObject>) {
    forall k :: k in objects ==> Conforms(e, objects[k].obj) && ObjectKeyOf(objects[k].obj) == k
  }

  lemma PodJobOk(e: Env, o: Object)
    requires Conforms(e, o) && o.gvk == POD_GVK
    ensures JobFor(RefOf(o)) == PodKey(e, o.uid) && QueueKeyOk(e, JobFor(RefOf(o)))
  {
  }

  lemma MemberKeysQueue(e: Env, m: Members, uid: Uid)
    requires MembersInv(e, m) && uid in m.roots
    ensures JobKeysOk(e, m.roots[uid].pods.Values)
  {
    hide RootRefOk, PodsInverse, SelectedInverse, RefsOk;
    forall key | key in m.roots[uid].pods.Values ensures QueueKeyOk(e, key) {
      var p :| p in m.roots[uid].pods && m.roots[uid].pods[p] == key;
      assert PodKeyOk(e, PodKey(e, p));
    }
  }

  lemma ChangedPodsOk(e: Env, s: State, was: Option<Object>, current: Option<Object>)
    requires MembersInv(e, s.members) && (was.Some? || current.Some?)
    requires was.Some? ==> Conforms(e, was.value)
    requires current.Some? ==> Conforms(e, current.value)
    ensures JobKeysOk(e, ChangedPods(e, s, was, current))
  {
    if was.Some? {
      if was.value.gvk == POD_GVK { PodJobOk(e, was.value); }
      if was.value.uid in s.members.roots { MemberKeysQueue(e, s.members, was.value.uid); }
    }
    if current.Some? {
      if current.value.gvk == POD_GVK { PodJobOk(e, current.value); }
      if current.value.uid in s.members.roots { MemberKeysQueue(e, s.members, current.value.uid); }
    }
    hide MembersInv, Conforms, OwnershipChanged, IsAncestor, SelectorChanged, Replaced, PodKeyOk;
  }

  lemma SameMembers(e: Env, m: Members, m': Members)
    requires MembersInv(e, m) && m' == m.(ancestors := m'.ancestors)
    ensures MembersInv(e, m')
  {
    hide RootRefOk, PodKeyOk, PodKey;
  }

  lemma ChangeKeeps(e: Env, s: State, was: Option<Object>, current: Option<Object>)
    requires Registered(e, s) && (was.Some? || current.Some?)
    requires was.Some? ==> Conforms(e, was.value)
    requires current.Some? ==> Conforms(e, current.value)
    ensures Registered(e, QueueObjectChange(e, s, was, current))
  {
    ChangedPodsOk(e, s, was, current);
    SameMembers(e, s.members, QueueObjectChange(e, s, was, current).members);
    hide ChangedPods, ChangedWork, Conforms, QueueKeyOk, MembersInv, DefinitionsOk, Replaced;
  }

  lemma PutKeeps(e: Env, s: State, key: ObjectKey, o: CachedObject)
    requires Registered(e, s) && ObjectsConform(e, s.cache.objects) && Conforms(e, o.obj)
    ensures Registered(e, PutObject(e, s, key, o))
  {
    ChangeKeeps(e, s.(cache := s.cache.(objects := s.cache.objects[key := o])), CachedAt(s, key), Some(o.obj));
  }

  lemma DropKeeps(e: Env, s: State, key: ObjectKey)
    requires Registered(e, s) && ObjectsConform(e, s.cache.objects)
    ensures Registered(e, DropObject(e, s, key))
  {
    if key in s.cache.objects {
      ChangeKeeps(e, s.(cache := s.cache.(objects := s.cache.objects - {key})), CachedAt(s, key), None);
    }
  }

  lemma {:induction false} DropObjectsKeep(e: Env, s: State, keys: seq<ObjectKey>)
    requires Registered(e, s) && ObjectsConform(e, s.cache.objects)
    ensures Registered(e, DropObjects(e, s, keys))
    decreases |keys|
  {
    hide Registered, Conforms, QueueObjectChange;
    if keys != [] {
      DropKeeps(e, s, keys[0]);
      assert DropObject(e, s, keys[0]).cache.objects == s.cache.objects - {keys[0]} by { DropObjectsEffect(e, s, [keys[0]]); }
      DropObjectsKeep(e, DropObject(e, s, keys[0]), keys[1..]);
    }
  }

  lemma {:induction false} PutObjectsKeep(e: Env, s: State, source: WatchKey, objects: map<ObjectKey, Object>, keys: seq<ObjectKey>)
    requires Registered(e, s) && ObjectsConform(e, s.cache.objects)
    requires forall k :: k in objects ==> ObjectKeyOf(objects[k]) == k && Conforms(e, objects[k])
    requires forall k :: k in keys ==> k in objects
    ensures Registered(e, PutObjects(e, s, source, objects, keys))
    decreases |keys|
  {
    hide Registered, Conforms, PutObject;
    if keys != [] {
      var o := CachedObject(objects[keys[0]], source);
      PutKeeps(e, s, keys[0], o);
      PutObjectEffect(e, s, keys[0], o);
      PutObjectsKeep(e, PutObject(e, s, keys[0], o), source, objects, keys[1..]);
    }
  }

  lemma {:induction false} DropSourcedKeep(e: Env, s: State, source: WatchKey, keys: seq<ObjectKey>)
    requires Registered(e, s) && ObjectsConform(e, s.cache.objects)
    ensures Registered(e, DropSourced(e, s, source, keys))
    decreases |keys|
  {
    hide Registered, Conforms, QueueObjectChange;
    if keys != [] {
      DropKeeps(e, s, keys[0]);
      assert DropObject(e, s, keys[0]).cache.objects == s.cache.objects - {keys[0]} by { DropObjectsEffect(e, s, [keys[0]]); }
      DropSourcedKeep(e, if keys[0] in s.cache.objects && s.cache.objects[keys[0]].source == source then DropObject(e, s, keys[0]) else s,
                      source, keys[1..]);
    }
  }

  // ---------------------------------------------------------------- every section

  lemma EventKeepsRegistered(e: Env, s: State, w: Handle, o: Object, deleted: bool)
    requires Registered(e, s) && ObjectsConform(e, s.cache.objects) && Conforms(e, o)
    ensures Registered(e, ApplyWatchEvent(e, s, w, o, deleted))
  {
    PutKeeps(e, s, ObjectKeyOf(o), CachedObject(o, w.key));
    DropKeeps(e, s, ObjectKeyOf(o));
    hide PutObject, DropObject, MembersInv, DefinitionsOk, JobKeysOk, ObjectsConform;
  }

  lemma SnapshotKeepsRegistered(e: Env, s: State, w: Handle, objects: map<ObjectKey, Object>, drop: seq<ObjectKey>, put: seq<ObjectKey>)
    requires Registered(e, s) && ObjectsConform(e, s.cache.objects)
    requires forall k :: k in objects ==> ObjectKeyOf(objects[k]) == k && Conforms(e, objects[k])
    requires forall k :: k in put ==> k in objects
    ensures Registered(e, Replace(e, s, w, objects, drop, put))
  {
    if IsTracked(s.cache, w) {
      var s1 := s.(cache := Promote(s.cache, w));
      DropObjectsKeep(e, s1, drop);
      DropObjectsEffect(e, s1, drop);
      var s2 := DropObjects(e, s1, drop);
      PutObjectsKeep(e, s2, w.key, objects, put);
      hide DropObjects, PutObjects, Promote, Conforms, Registered, ObjectsConform, UpdateWatchHealth, MarkReady;
      var s3 := PutObjects(e, s2, w.key, objects, put);
      var s4 := s3.(cache := MarkReady(s3.cache, w.key, objects.Keys));
      CachingKeeps(e, s3, s4.cache);
      HealthKeepsRegistered(e, s4, w, {});
      RescanKeeps(e, UpdateWatchHealth(e, s4, w, {}), w.key.namespace);
    }
  }

  lemma CachingKeeps(e: Env, s: State, c: Cache)
    requires Registered(e, s)
    ensures Registered(e, s.(cache := c))
  {
  }

  lemma RescanKeeps(e: Env, s: State, namespace: Name)
    requires Registered(e, s)
    ensures Registered(e, AddPods(s, {Rescan(namespace)}))
  {
    RescanOk(e, namespace);
    hide MembersInv, DefinitionsOk, QueueKeyOk;
  }

  lemma RescanOk(e: Env, namespace: Name)
    ensures QueueKeyOk(e, Rescan(namespace))
  {
  }

  lemma HealthKeepsRegistered(e: Env, s: State, w: Handle, err: Failure)
    requires Registered(e, s)
    ensures Registered(e, UpdateWatchHealth(e, s, w, err))
  {
    RescanOk(e, w.key.namespace);
    hide MembersInv, DefinitionsOk, QueueKeyOk;
  }

  lemma {:induction false} RetireWatchesKeepRegistered(e: Env, s: State, keys: seq<WatchKey>, order: map<WatchKey, seq<ObjectKey>>)
    requires Registered(e, s) && ObjectsConform(e, s.cache.objects)
    ensures Registered(e, RetireWatches(e, s, keys, order))
    decreases |keys|
  {
    if keys != [] {
      var key := keys[0];
      var objects := if key in order then order[key] else [];
      var s1 := s.(cache := s.cache.(watches := s.cache.watches - {key}));
      DropSourcedKeep(e, s1, key, objects);
      DropSourcedEffect(e, s1, key, objects);
      hide DropSourced, MembersInv, DefinitionsOk, JobKeysOk, Conforms;
      RetireWatchesKeepRegistered(e, RetireWatch(e, s, key, objects), keys[1..], order);
    }
  }

  lemma AlertsOk(e: Env, s: State, objects: map<ObjectKey, CachedObject>)
    requires ObjectsConform(e, objects)
    ensures forall k, j :: k in objects && j in PodAlert(e, s, Some(objects[k].obj)) ==> QueueKeyOk(e, j)
  {
    forall k, j | k in objects && j in PodAlert(e, s, Some(objects[k].obj)) ensures QueueKeyOk(e, j) {
      PodJobOk(e, objects[k].obj);
    }
  }

  lemma RefreshedDefinitionsOk(e: Env, s: State, offered: map<GroupKind, Selection>, err: Failure)
    requires DefinitionsOk(s.defs) && ValidOffer(offered)
    ensures DefinitionsOk(RefreshDefinitions(e, s, offered, err).defs)
  {
    hide KindPods, AffectedPods, KindObjects, AffectedWork, FailureReason, ChangedKinds;
  }

  lemma RefreshedKeysOk(e: Env, s: State, offered: map<GroupKind, Selection>, err: Failure)
    requires MembersInv(e, s.members) && ObjectsConform(e, s.cache.objects) && JobKeysOk(e, s.queues.pods)
    ensures JobKeysOk(e, RefreshDefinitions(e, s, offered, err).queues.pods)
  {
    var next := if err != {} then s.defs.selected else offered;
    var healthChanged := FailureReason(s.defs.err) != FailureReason(err);
    var kinds := ChangedKinds(s.defs, next);
    var d := s.defs.(selected := MergedDefinitions(s.defs, next), err := err, version := s.defs.version + 1);
    var p := if e.clusterDefinitions then s.pubs.(definitionHealth := Some(Health(err == {}, FailureReason(err)))) else s.pubs;
    var s1 := s.(defs := d, pubs := p);
    KindPodsOk(e, s1, kinds);
    AffectedPodsOk(e, s1, healthChanged, kinds);
    RescanOk(e, 0);
    hide MembersInv, ObjectsConform, QueueKeyOk, KindPods, AffectedPods, KindObjects, AffectedWork, MergedDefinitions, ChangedKinds, FailureReason;
  }

  lemma RefreshKeepsRegistered(e: Env, s: State, offered: map<GroupKind, Selection>, err: Failure)
    requires Registered(e, s) && ObjectsConform(e, s.cache.objects) && ValidOffer(offered)
    ensures Registered(e, RefreshDefinitions(e, s, offered, err))
  {
    RefreshedDefinitionsOk(e, s, offered, err);
    RefreshedKeysOk(e, s, offered, err);
    RefreshEffect(e, s, offered, err);
    hide RefreshDefinitions, MembersInv, DefinitionsOk, JobKeysOk;
  }

  lemma KindPodsOk(e: Env, s: State, kinds: set<GroupKind>)
    requires ObjectsConform(e, s.cache.objects)
    ensures JobKeysOk(e, KindPods(e, s, kinds))
  {
    AlertsOk(e, s, s.cache.objects);
    hide ObjectsConform, QueueKeyOk, PodAlert, PodRootOf;
  }

  lemma AffectedPodsOk(e: Env, s: State, everything: bool, kinds: set<GroupKind>)
    requires MembersInv(e, s.members)
    ensures JobKeysOk(e, AffectedPods(s, everything, kinds))
  {
    forall r, j | r in s.members.roots && j in s.members.roots[r].pods.Values ensures QueueKeyOk(e, j) {
      MemberKeysQueue(e, s.members, r);
    }
    hide MembersInv, QueueKeyOk, Affected;
  }

  lemma SyncKeepsRegistered(e: Env, s: State, offered: map<GroupKind, Selection>, err: Failure, order: SyncOrder)
    requires Registered(e, s) && ObjectsConform(e, s.cache.objects) && ValidOffer(offered)
    ensures Registered(e, PrepareWatchRequests(e, s, offered, err, order))
  {
    RefreshKeepsRegistered(e, s, offered, err);
    RefreshEffect(e, s, offered, err);
    var s1 := RefreshDefinitions(e, s, offered, err);
    hide RefreshDefinitions, RetireWatches, ObjectsConform, RemoveRoots;
    if !e.scoped || NamespaceWatchReady(s1.cache) {
      if e.scoped {
        RemoveRootsKeepRegistered(e, s1.(scopes := AdmittedNamespaces(e, s1.cache)), order.roots);
        RemoveRootsEffect(s1.(scopes := AdmittedNamespaces(e, s1.cache)), order.roots);
      }
      RetireWatchesKeepRegistered(e, ShrinkScope(e, s1, order.roots), order.watches, order.objects);
    }
  }

  lemma {:induction false} RemoveRootsKeepRegistered(e: Env, s: State, uids: seq<Uid>)
    requires Registered(e, s)
    ensures Registered(e, RemoveRoots(s, uids))
    decreases |uids|
  {
    if uids != [] {
      RemoveRootMembers(e, s, uids[0]);
      if uids[0] in s.members.roots {
        MemberKeysQueue(e, s.members, uids[0]);
      }
      hide MembersInv, DefinitionsOk, QueueKeyOk;
      RemoveRootsKeepRegistered(e, RemoveRoot(s, uids[0]), uids[1..]);
    }
  }

  lemma RegisterKeeps(e: Env, s: State, key: JobKey, workload: Workload)
    requires Registered(e, s) && PodKeyOk(e, key) && KnownRef(e, workload.root)
    ensures Registered(e, RegisterPodRoot(e, s, key, workload).0)
  {
    EnsureRootMembers(e, s, workload);
    AttachPodMembers(e, EnsureRoot(s, workload), key, workload.root.uid);
    hide IsPathCurrent, HasRootOwnership, MembersInv, DefinitionsOk, QueueKeyOk, KnownRef, AncestorPods, SettleRootRef;
  }

  lemma PodStepKeepsRegistered(e: Env, s: State, key: JobKey, pc: PodPc, input: Input, id: nat)
    requires Registered(e, s) && ObjectsConform(e, s.cache.objects) && PodFacts(e, key, pc)
    ensures Registered(e, StepPodProgram(e, s, key, pc, input, id).0)
  {
    if PodRequest(pc).Some? {
      PodStepCache(e, s, key, pc, input, id);
      RequestRest(e, s, PodRequest(pc), input.mapping, id);
      hide StepPodProgram, MembersInv, DefinitionsOk, JobKeysOk;
    } else if pc.PodRegister? {
      assert KnownRef(e, pc.workload.root);
      RegisterKeeps(e, s, key, pc.workload);
      hide RegisterPodRoot, Registered;
    } else if pc.PodDrop? {
      UnregisterPodMembers(e, s, key);
      hide MembersInv, DefinitionsOk, JobKeysOk;
    } else if pc.PodStart? {
      AlertsOk(e, s, s.cache.objects);
      hide MembersInv, DefinitionsOk, QueueKeyOk, ObjectsConform, PodAlert, RescannedWork;
    } else {
      hide Registered, Lookup, IsPathCurrent, HasRootOwnership, IsDefinitionCurrent, VisitObject, MayVisit, JudgePod, PodFacts, ObjectsConform;
      assert StepPodProgram(e, s, key, pc, input, id).0 == s.(pubs := StepPodProgram(e, s, key, pc, input, id).0.pubs);
      PublishingKeeps(e, s, StepPodProgram(e, s, key, pc, input, id).0.pubs);
    }
  }

  lemma PublishingKeeps(e: Env, s: State, pubs: Publications)
    requires Registered(e, s)
    ensures Registered(e, s.(pubs := pubs))
  {
  }

  lemma RootPublishMembers(e: Env, m: Members, uid: Uid, ref: ObjectRef)
    requires MembersInv(e, m) && uid in m.roots && RootRefOk(e, uid, ref)
    ensures MembersInv(e, m.(roots := m.roots[uid := m.roots[uid].(ref := ref)]))
  {
    hide RootRefOk, PodKeyOk, PodKey;
  }

  lemma RootStepKeepsRegistered(e: Env, s: State, uid: Uid, pc: RootPc, input: Input, id: nat)
    requires Registered(e, s) && RootFacts(e, uid, pc)
    ensures Registered(e, StepRootProgram(e, s, uid, pc, input, id).0)
  {
    if RootRequest(pc).Some? {
      RootStepCache(e, s, uid, pc, input, id);
      RequestRest(e, s, RootRequest(pc), input.mapping, id);
      hide StepRootProgram, MembersInv, DefinitionsOk, JobKeysOk;
    } else if pc.RootPublish? {
      assert RootRefOk(e, uid, RefOf(pc.root));
      if uid in s.members.roots {
        RootPublishMembers(e, s.members, uid, RefOf(pc.root));
      }
      hide MembersInv, DefinitionsOk, JobKeysOk, IsPathCurrent, HasRootOwnership, IsDefinitionCurrent;
    } else if pc.RootWithdraw? {
      RemoveRootsKeepRegistered(e, s, [uid]);
      assert RemoveRoots(s, [uid]) == RemoveRoot(s, uid);
      hide Registered, RemoveRoot;
    } else {
      hide Registered, Lookup, IsPathCurrent, HasRootOwnership, IsDefinitionCurrent, EvaluateWorkload, RootFacts;
      assert StepRootProgram(e, s, uid, pc, input, id).0 == s.(pubs := StepRootProgram(e, s, uid, pc, input, id).0.pubs);
      PublishingKeeps(e, s, StepRootProgram(e, s, uid, pc, input, id).0.pubs);
    }
  }

  lemma SelectedStepMembers(e: Env, s: State, op: SelectedOp)
    requires MembersInv(e, s.members) && DefinitionsOk(s.defs) && ValidOp(e, op)
    ensures MembersInv(e, StepSelected(e, s, op).members)
  {
    hide MembersInv, IsPathCurrent, IsDefinitionCurrent;
    match op
    case Track(key) =>
      TrackSelectedMembers(e, s, key);
    case Retrack(key, o, selection) =>
      RemoveSelectedMembers(e, s, key);
      if o.Some? {
        RemoveSelectedMembers(e, AddWork(s, {SelectedJob(JobFor(RefOf(o.value)))}), key);
      }
      hide RemoveSelectedMembership;
    case Register(key, workload, _, _) =>
      assert KnownRef(e, workload.root);
      EnsureRootMembers(e, s, workload);
      EnsureRootTracks(s, workload);
      AttachSelectedMembers(e, EnsureRoot(s, workload), key, workload.root.uid);
      hide EnsureRoot, AttachSelected;
    case Exclude(key, workload, selection, rootSelection) =>
      RemoveSelectedMembers(e, s, key);
      ExcludedMembers(e, RemoveSelectedMembership(s, key).members, key,
                      Exclusion(workload.path, workload.root, selection, rootSelection));
      hide RemoveSelectedMembership;
    case Untrack(key) => RemoveSelectedMembers(e, s, key);
    case Fail(_, _) =>
  }

  lemma ExcludedMembers(e: Env, m: Members, key: JobKey, exclusion: Exclusion)
    requires MembersInv(e, m) && key !in m.selected
    ensures MembersInv(e, m.(selected := m.selected[key := Outcome(NO_UID, Some(exclusion))]))
  {
    hide RootRefOk, PodKeyOk, PodKey;
  }

  lemma SelectedStepKeepsRegistered(e: Env, s: State, op: SelectedOp)
    requires Registered(e, s) && ValidOp(e, op)
    ensures Registered(e, StepSelected(e, s, op))
  {
    SelectedStepMembers(e, s, op);
    SelectedStepTracks(e, s, op);
    SelectedStepPods(e, s, op);
    hide StepSelected, MembersInv, DefinitionsOk, JobKeysOk;
  }

  lemma SelectedStepPods(e: Env, s: State, op: SelectedOp)
    ensures StepSelected(e, s, op).queues.pods == s.queues.pods
  {
    hide IsPathCurrent, IsDefinitionCurrent, SettleRootRef, AncestorPods;
  }

  // ---------------------------------------------------------------- every run

  /** Membership, queued keys and what every running job carries are in order. */
  ghost predicate JobsInv(e: Env, sys: System) {
    && Registered(e, sys.s)
    && JobKeysOk(e, sys.podDelayed)
    && (forall key :: key in sys.pods ==> PodFacts(e, key, sys.pods[key]))
    && (forall uid :: uid in sys.roots ==> RootFacts(e, uid, sys.roots[uid]))
  }

  lemma CachedObjectsConform(e: Env, c: Cache)
    requires ObjectsOk(e, c)
    ensures ObjectsConform(e, c.objects)
  {
    hide Conforms;
  }

  lemma PodFactsKey(e: Env, key: JobKey, pc: PodPc)
    requires PodFacts(e, key, pc)
    ensures QueueKeyOk(e, key)
  {
    hide PodBody, Climbs, ClimbedFrom, RootBody, EvaluatePod;
  }

  lemma DeliverableConforms(e: Env, w: Handle, objects: map<ObjectKey, Object>)
    requires forall k :: k in objects ==> ObjectKeyOf(objects[k]) == k && Deliverable(e, w, objects[k])
    ensures forall k :: k in objects ==> ObjectKeyOf(objects[k]) == k && Conforms(e, objects[k])
  {
    hide Conforms, IsFull;
  }

  lemma NextKeepsRegistered(e: Env, sys: System, a: Action)
    requires CacheInv(e, sys.s.cache, sys.nextWatch) && JobsInv(e, sys) && Enabled(e, sys, a)
    ensures Registered(e, Next(e, sys, a).s)
  {
    CachedObjectsConform(e, sys.s.cache);
    hide ApplyWatchEvent, Replace, UpdateWatchHealth, PrepareWatchRequests, Ensure, StepPodProgram, StepRootProgram, StepSelected,
         ObjectsConform, CacheInv, PodFacts, RootFacts, MembersInv, DefinitionsOk, QueueKeyOk, IsSyncOrder, Genuine;
    var s := sys.s;
    match a
    case WatchEvent(w, o, deleted) =>
      DeliverableFacts(e, w, o);
      EventKeepsRegistered(e, s, w, o, deleted);
    case WatchSnapshot(w, objects, drop, put) =>
      DeliverableConforms(e, w, objects);
      SnapshotKeepsRegistered(e, s, w, objects, drop, put);
    case WatchStatus(w, err) => HealthKeepsRegistered(e, s, w, err);
    case SyncSources(offered, err, order) => SyncKeepsRegistered(e, s, offered, err, order);
    case StartWatch(gvk, namespace, metadataOnly, mapping) =>
      EnsureRest(e, s, gvk, namespace, metadataOnly, mapping, sys.nextWatch);
    case Selected(op) => SelectedStepKeepsRegistered(e, s, op);
    case StepPod(key, input) => PodStepKeepsRegistered(e, s, key, sys.pods[key], input, sys.nextWatch);
    case StepRoot(uid, input) => RootStepKeepsRegistered(e, s, uid, sys.roots[uid], input, sys.nextWatch);
    case _ =>
  }

  lemma NextKeepsFacts(e: Env, sys: System, a: Action)
    requires CacheInv(e, sys.s.cache, sys.nextWatch) && JobsInv(e, sys) && Enabled(e, sys, a)
    ensures var t := Next(e, sys, a);
            && JobKeysOk(e, t.podDelayed)
            && (forall key :: key in t.pods ==> PodFacts(e, key, t.pods[key]))
            && (forall uid :: uid in t.roots ==> RootFacts(e, uid, t.roots[uid]))
  {
    hide ApplyWatchEvent, Replace, UpdateWatchHealth, PrepareWatchRequests, Ensure, StepPodProgram, StepRootProgram, StepSelected,
         CacheInv, MembersInv, DefinitionsOk, QueueKeyOk;
    match a
    case TakePod(key) =>
      assert PodFacts(e, key, PodStart);
      hide PodFacts, RootFacts;
    case StepPod(key, input) =>
      PodFactsStep(e, sys.s, key, sys.pods[key], input, sys.nextWatch);
      hide PodFacts, RootFacts;
    case FinishPod(key) =>
      PodFactsKey(e, key, sys.pods[key]);
      hide PodFacts, RootFacts;
    case TakeRoot(uid) =>
      assert RootFacts(e, uid, RootStart);
      hide PodFacts, RootFacts;
    case StepRoot(uid, input) =>
      if uid in sys.s.members.roots {
        assert MembersInv(e, sys.s.members);
        RootOfMembers(e, sys.s.members, uid);
      }
      RootFactsStep(e, sys.s, uid, sys.roots[uid], input, sys.nextWatch);
      hide PodFacts, RootFacts;
    case _ => hide PodFacts, RootFacts;
  }

  lemma RootOfMembers(e: Env, m: Members, uid: Uid)
    requires MembersInv(e, m) && uid in m.roots
    ensures RootRefOk(e, uid, m.roots[uid].ref) && uid != NO_UID
  {
  }

  lemma {:induction false} RunKeepsJobs(e: Env, actions: seq<Action>)
    ensures JobsInv(e, Run(e, actions))
    decreases |actions|
  {
    if actions != [] {
      RunKeepsJobs(e, actions[..|actions| - 1]);
      RunKeepsCache(e, actions[..|actions| - 1]);
      var sys := Run(e, actions[..|actions| - 1]);
      var a := actions[|actions| - 1];
      if Enabled(e, sys, a) {
        NextKeepsRegistered(e, sys, a);
        NextKeepsFacts(e, sys, a);
      }
      hide Next, Registered, CacheInv, PodFacts, RootFacts, JobKeysOk, Enabled;
    }
  }

  /** A Pod names a root exactly when that root lists the Pod, and a selected object likewise; roots are
      filed under their UID, and no outcome carries both a root and an exclusion. */
  ghost predicate TwoWay(m: Members) {
    && (forall p, r :: (p in m.podRoots && m.podRoots[p] == r) <==> (r in m.roots && p in m.roots[r].pods))
    && (forall k, r :: r != NO_UID ==>
          ((k in m.selected && m.selected[k].root == r) <==> (r in m.roots && k in m.roots[r].selected)))
    && (forall r :: r in m.roots ==> r != NO_UID && m.roots[r].ref.uid == r)
    && (forall r, p :: r in m.roots && p in m.roots[r].pods ==> m.roots[r].pods[p].uid == p)
    && (forall k :: k in m.selected ==> m.selected[k].root == NO_UID || m.selected[k].exclusion.None?)
  }

  lemma MembersAreTwoWay(e: Env, m: Members)
    requires MembersInv(e, m)
    ensures TwoWay(m)
  {
    forall r | r in m.roots ensures r != NO_UID && m.roots[r].ref.uid == r {
      RootOfMembers(e, m, r);
    }
    forall r, p | r in m.roots && p in m.roots[r].pods ensures m.roots[r].pods[p].uid == p {
      assert m.roots[r].pods[p] == PodKey(e, p);
    }
    hide RootRefOk, PodKeyOk, RefsOk, MemberKeysOk;
  }

  lemma MembershipIsTwoWay(e: Env, actions: seq<Action>)
    ensures TwoWay(Run(e, actions).s.members)
  {
    RunKeepsJobs(e, actions);
    MembersAreTwoWay(e, Run(e, actions).s.members);
    hide Run, TwoWay, MembersInv;
  }
}
