/** The controller's state as the program keeps it: one object whose methods are the critical sections of its lock.
    Each method is proved to do exactly what the corresponding function of ControllerModel says. */
module Controller {
  import opened Basics
  import opened Discovery
  import opened ControllerModel
  import opened ControllerSystem
  import opened PublicationStore
  import opened CacheProofs

  class ControllerState {
    const env: Env
    const publications: Store

    var objects: map<ObjectKey, CachedObject>
    var sources: map<WatchKey, CacheSource>
    var watches: map<WatchKey, Watch>
    var replacements: map<WatchKey, Watch>
    var watchFailures: map<WatchKey, Failure>
    var scopes: set<Name>

    var roots: map<Uid, Root>
    var podRoots: map<Uid, Uid>
    var ancestorPods: set<Uid>
    var selectedObjectRoots: map<JobKey, Outcome>

    var selectedDefinitions: map<GroupKind, Selection>
    var definitionErr: Failure
    var definitionVersion: nat

    var podQueue: set<JobKey>
    var workloadQueue: set<WorkJob>
    var syncQueued: bool

    ghost function Snapshot(): State
      reads this, publications
    {
      State(Cache(objects, sources, watches, replacements),
            Members(roots, podRoots, selectedObjectRoots, ancestorPods),
            Definitions(selectedDefinitions, definitionErr, definitionVersion),
            publications.View(), Queues(podQueue, workloadQueue, syncQueued), scopes, watchFailures)
    }

    /** newControllerState and New: nothing known yet, one pass of the sources worker queued. */
    constructor (env: Env)
      ensures Snapshot() == InitialState(env) && this.env == env && fresh(publications)
    {
      this.env := env;
      publications := new Store();
      objects, sources, watches, replacements, watchFailures := map[], map[], map[], map[], map[];
      scopes := if env.scoped then {} else {0};
      roots, podRoots, ancestorPods, selectedObjectRoots := map[], map[], {}, map[];
      selectedDefinitions, definitionErr, definitionVersion := map[], if env.clusterDefinitions then {Other} else {}, 0;
      podQueue, workloadQueue, syncQueued := {}, {}, true;
      new;
      if env.clusterDefinitions {
        publications.SetSourceHealth(DefinitionSource, Health(false, NoReason));
      }
    }

    // ------------------------------------------------------------ reading (state.go)

    /** The first live source of the kind that covers the namespace; the collection-wide one where both exist. */
    method SourceCovering(gvk: Gvk, namespace: Name) returns (found: Option<WatchKey>)
      ensures found == SourceFor(Snapshot().cache, gvk, namespace)
    {
      if WatchKey(gvk, 0) in sources {
        return Some(WatchKey(gvk, 0));
      }
      if WatchKey(gvk, namespace) in sources {
        return Some(WatchKey(gvk, namespace));
      }
      return None;
    }

    method LookupObject(ref: ObjectRef, requireFullObject: bool) returns (result: ReadResult)
      ensures result == Lookup(Snapshot().cache, ref, requireFullObject)
    {
      var key := KeyOf(ref);
      var ok := key in objects;
      if !ok && key.namespace != 0 {
        key := key.(namespace := 0);
        ok := key in objects;
      }
      var sourceKey: Option<WatchKey> := if ok then Some(objects[key].source) else None;
      if !ok {
        sourceKey := SourceCovering(ref.gvk, ref.namespace);
        if sourceKey.None? {
          return Missing({Pending});
        }
      }
      var source := if sourceKey.value in sources then sources[sourceKey.value] else NO_SOURCE;
      if source.err != {} {
        return Missing(source.err);
      }
      if !source.synced || (requireFullObject && !source.full) {
        return Missing({Pending});
      }
      if !ok || (ref.uid != 0 && objects[key].obj.uid != ref.uid) {
        return Missing({NotFound});
      }
      if ref.version != 0 && objects[key].obj.version != ref.version {
        return Missing({Stale});
      }
      return Found(objects[key].obj);
    }

    method PathCurrent(path: seq<ObjectRef>) returns (current: bool)
      ensures current == IsPathCurrent(Snapshot().cache, path)
    {
      for i := 0 to |path|
        invariant forall j :: 0 <= j < i ==> Lookup(Snapshot().cache, path[j], false).Found?
      {
        var read := LookupObject(path[i], false);
        if read.Missing? {
          return false;
        }
      }
      return true;
    }

    method DefinitionCurrent(ref: ObjectRef, stamped: Stamped) returns (current: bool)
      ensures current == IsDefinitionCurrent(Snapshot().defs, ref, stamped)
    {
      if definitionVersion != stamped.version {
        return false;
      }
      var kind := ref.gvk.groupKind;
      var selected := if kind in selectedDefinitions then selectedDefinitions[kind] else NO_SELECTION;
      return selected.gvk == stamped.selection.gvk && selected.origin == stamped.selection.origin;
    }

    method ReadDefinition(gvk: Gvk) returns (stamped: Stamped, err: Failure)
      ensures (stamped, err) == LookupDefinition(Snapshot().defs, gvk)
    {
      var kind := gvk.groupKind;
      var selected := if kind in selectedDefinitions then selectedDefinitions[kind] else NO_SELECTION;
      stamped := Stamped(selected, definitionVersion);
      if definitionErr != {} {
        return stamped, definitionErr;
      }
      return stamped, selected.err;
    }

    /** No healthy view of the object may show an owner that is not ignored; a full view of the selected
        version decides alone. */
    method RootOwnership(ref: ObjectRef) returns (owns: bool)
      ensures owns == HasRootOwnership(env, Snapshot().cache, Snapshot().defs, ref)
    {
      var kind := ref.gvk.groupKind;
      var selected := if kind in selectedDefinitions then selectedDefinitions[kind] else NO_SELECTION;
      if selected.definition.Some? && selected.err == {} {
        var at := ObjectKey(selected.gvk, ref.namespace, ref.name);
        if at in objects && objects[at].obj.uid == ref.uid {
          var source := if objects[at].source in sources then sources[objects[at].source] else NO_SOURCE;
          if source.full && source.synced && source.err == {} {
            return IsTopOwner(env, objects[at].obj);
          }
        }
      }
      ghost var c := Snapshot().cache;
      var left := sources.Keys;
      while left != {}
        invariant left <= sources.Keys
        invariant forall key :: key in sources && key !in left ==>
                    sources[key].synced && sources[key].err == {} && key.gvk.groupKind == ref.gvk.groupKind
                    ==> var view := SourceView(c, key, ref); view.Some? ==> IsTopOwner(env, view.value)
      {
        var key :| key in left;
        left := left - {key};
        var source := sources[key];
        if source.synced && source.err == {} && key.gvk.groupKind == kind {
          var at := ObjectKey(key.gvk, ref.namespace, ref.name);
          if at in objects && objects[at].source == key && objects[at].obj.uid == ref.uid {
            if !IsTopOwner(env, objects[at].obj) {
              return false;
            }
          }
        }
      }
      return true;
    }

    method NamespaceInScope(namespace: Name) returns (inScope: bool)
      ensures inScope == IsNamespaceInScope(env, Snapshot().scopes, namespace)
    {
      return !env.scoped || namespace == 0 || namespace in scopes;
    }

    method SnapshotRoot(uid: Uid) returns (ref: Option<ObjectRef>)
      ensures ref == if uid in Snapshot().members.roots then Some(Snapshot().members.roots[uid].ref) else None
    {
      return if uid in roots then Some(roots[uid].ref) else None;
    }

    // ------------------------------------------------------------ membership (state.go)

    method UnregisterPod(key: JobKey)
      modifies this, publications
      ensures Snapshot() == ControllerModel.UnregisterPod(old(Snapshot()), key)
    {
      var uid := if key.uid in podRoots then podRoots[key.uid] else NO_UID;
      if uid in roots {
        roots := roots[uid := roots[uid].(pods := roots[uid].pods - {key.uid})];
        workloadQueue := workloadQueue + {RootJob(uid)};
      }
      podRoots := podRoots - {key.uid};
      publications.RemovePod(key.uid);
    }

    /** Queue every member Pod and every selected object of a root. */
    method EnqueueMembers(root: Root)
      modifies this`podQueue, this`workloadQueue
      ensures Snapshot() == ControllerModel.EnqueueMembers(old(Snapshot()), root)
    {
      var pods := root.pods.Keys;
      while pods != {}
        invariant pods <= root.pods.Keys && workloadQueue == old(workloadQueue)
        invariant podQueue == old(podQueue) + set p | p in root.pods && p !in pods :: root.pods[p]
      {
        var p :| p in pods;
        pods := pods - {p};
        podQueue := podQueue + {root.pods[p]};
      }
      assert podQueue == old(podQueue) + root.pods.Values;
      var keys := root.selected;
      assert root.selected - keys == {};
      while keys != {}
        invariant keys <= root.selected && podQueue == old(podQueue) + root.pods.Values
        invariant workloadQueue == old(workloadQueue) + SelectedJobs(root.selected - keys)
      {
        var key :| key in keys;
        keys := keys - {key};
        workloadQueue := workloadQueue + {SelectedJob(key)};
      }
      assert root.selected - keys == root.selected;
    }

    /** removeRoot's loops over the root's members. */
    method DetachPods(pods: set<Uid>)
      modifies this`podRoots
      ensures podRoots == old(podRoots) - pods
    {
      var left := pods;
      while left != {}
        invariant left <= pods && podRoots == old(podRoots) - (pods - left)
      {
        var p :| p in left;
        left := left - {p};
        podRoots := podRoots - {p};
      }
      assert pods - left == pods;
    }

    method ForgetOutcomes(keys: set<JobKey>)
      modifies this`selectedObjectRoots
      ensures selectedObjectRoots == old(selectedObjectRoots) + map k | k in keys :: NO_OUTCOME
    {
      var left := keys;
      while left != {}
        invariant left <= keys
        invariant selectedObjectRoots == old(selectedObjectRoots) + map k | k in keys - left :: NO_OUTCOME
      {
        var key :| key in left;
        left := left - {key};
        selectedObjectRoots := selectedObjectRoots[key := NO_OUTCOME];
      }
      assert keys - left == keys;
    }

    method RemoveRoot(uid: Uid)
      modifies this, publications
      ensures Snapshot() == ControllerModel.RemoveRoot(old(Snapshot()), uid)
    {
      if uid in roots {
        var root := roots[uid];
        EnqueueMembers(root);
        DetachPods(root.pods.Keys);
        ForgetOutcomes(root.selected);
        roots := roots - {uid};
      }
      publications.RemoveWorkload(uid);
    }

    method MarkAncestors(path: seq<ObjectRef>)
      modifies this`ancestorPods
      ensures ancestorPods == old(ancestorPods) + AncestorPods(path)
    {
      if path == [] {
        return;
      }
      for i := 1 to |path|
        invariant ancestorPods == old(ancestorPods) + AncestorPods(path[..i])
      {
        if path[i].gvk == POD_GVK {
          ancestorPods := ancestorPods + {path[i].uid};
        }
        MoreAncestors(path, i);
      }
      assert path[..|path|] == path;
    }

    method EnsureRoot(workload: Workload)
      modifies this
      ensures Snapshot() == ControllerModel.EnsureRoot(old(Snapshot()), workload)
    {
      MarkAncestors(workload.path);
      hide Lookup, AncestorPods;
      var wanted := workload.root;
      var root := if wanted.uid in roots then roots[wanted.uid] else Root(wanted, map[], {});
      var kind := wanted.gvk.groupKind;
      var selected := if kind in selectedDefinitions then selectedDefinitions[kind] else NO_SELECTION;
      if selected.definition.Some? {
        root := root.(ref := root.ref.(gvk := selected.gvk));
      } else if root.ref.gvk != wanted.gvk {
        var current := LookupObject(root.ref.(version := 0), false);
        if current.Missing? {
          root := root.(ref := wanted);
          workloadQueue := workloadQueue + {RootJob(wanted.uid)};
        }
      }
      roots := roots[wanted.uid := root];
    }
  
    method RegisterPodRoot(key: JobKey, workload: Workload) returns (err: Failure)
      modifies this
      ensures (Snapshot(), err) == ControllerModel.RegisterPodRoot(env, old(Snapshot()), key, workload)
    {
      hide Lookup, IsPathCurrent, HasRootOwnership, ControllerModel.EnsureRoot;
      var keyInScope := NamespaceInScope(key.obj.namespace);
      var rootInScope := NamespaceInScope(workload.root.namespace);
      var current := PathCurrent(workload.path);
      if !keyInScope || !rootInScope || !current {
        return {Stale};
      }
      var owns := RootOwnership(workload.root);
      if !owns {
        return {Unresolved};
      }
      EnsureRoot(workload);
      EnsureRootTracks(old(Snapshot()), workload);
      AttachPod(key, workload.root.uid);
      return {};
    }

    /** The second half of registerPodRoot: move the Pod's membership. */
    method AttachPod(key: JobKey, root: Uid)
      requires root in roots
      modifies this`roots, this`podRoots, this`workloadQueue
      ensures Snapshot() == ControllerModel.AttachPod(old(Snapshot()), key, root)
    {
      var previous := if key.uid in podRoots then podRoots[key.uid] else NO_UID;
      if previous != root {
        if previous in roots {
          roots := roots[previous := roots[previous].(pods := roots[previous].pods - {key.uid})];
          workloadQueue := workloadQueue + {RootJob(previous)};
        }
        podRoots := podRoots[key.uid := root];
        roots := roots[root := roots[root].(pods := roots[root].pods[key.uid := key])];
        workloadQueue := workloadQueue + {RootJob(root)};
      }
    }

    method TrackSelectedObject(key: JobKey)
      modifies this`selectedObjectRoots
      ensures Snapshot() == TrackSelected(old(Snapshot()), key)
    {
      var outcome := if key in selectedObjectRoots then selectedObjectRoots[key] else NO_OUTCOME;
      selectedObjectRoots := selectedObjectRoots[key := outcome.(exclusion := None)];
    }

    /** Take a selected object off a root's list, if there is such a root. */
    method LeaveSelected(uid: Uid, key: JobKey)
      modifies this`roots, this`workloadQueue
      ensures roots == WithoutSelected(old(roots), uid, key)
      ensures workloadQueue == old(workloadQueue) + if uid in old(roots) then {RootJob(uid)} else {}
    {
      if uid in roots {
        roots := roots[uid := roots[uid].(selected := roots[uid].selected - {key})];
        workloadQueue := workloadQueue + {RootJob(uid)};
      }
    }

    method RemoveSelectedObjectMembership(key: JobKey)
      modifies this, publications
      ensures Snapshot() == RemoveSelectedMembership(old(Snapshot()), key)
    {
      LeaveSelected(if key in selectedObjectRoots then selectedObjectRoots[key].root else NO_UID, key);
      selectedObjectRoots := selectedObjectRoots - {key};
      publications.RemoveDiscoveryFailure(UidOf(key.uid));
    }

    method ReplaceSelectedObjectTracking(key: JobKey, obj: Option<Object>, selection: Stamped) returns (err: Failure)
      modifies this, publications
      ensures (Snapshot(), err) == ReplaceSelectedTracking(old(Snapshot()), key, obj, selection)
    {
      hide IsPathCurrent, IsDefinitionCurrent, RemoveSelectedMembership;
      var current := DefinitionCurrent(JobRef(key), selection);
      if !current {
        return {Stale};
      }
      if obj.Some? {
        var replacement := JobFor(RefOf(obj.value));
        workloadQueue := workloadQueue + {SelectedJob(replacement)};
        var outcome := if replacement in selectedObjectRoots then selectedObjectRoots[replacement] else NO_OUTCOME;
        if outcome.root == NO_UID {
          if outcome.exclusion.None? {
            return {Pending};
          }
          var exclusion := outcome.exclusion.value;
          var pathCurrent := PathCurrent(exclusion.path);
          var selectionCurrent := DefinitionCurrent(JobRef(replacement), exclusion.selection);
          var rootSelectionCurrent := DefinitionCurrent(exclusion.root, exclusion.rootSelection);
          if !pathCurrent || !selectionCurrent || !rootSelectionCurrent {
            return {Stale};
          }
        }
      }
      RemoveSelectedObjectMembership(key);
      return {};
    }

    method RegisterSelectedObjectRoot(key: JobKey, workload: Workload, selection: Stamped, rootSelection: Stamped) returns (err: Failure)
      modifies this, publications
      ensures (Snapshot(), err) == RegisterSelectedRoot(env, old(Snapshot()), key, workload, selection, rootSelection)
    {
      hide Lookup, IsPathCurrent, IsDefinitionCurrent, ControllerModel.EnsureRoot, AttachSelected;
      var keyInScope := NamespaceInScope(key.obj.namespace);
      var rootInScope := NamespaceInScope(workload.root.namespace);
      if !keyInScope || !rootInScope {
        return {Stale};
      }
      var pathCurrent := PathCurrent(workload.path);
      var selectionCurrent := DefinitionCurrent(JobRef(key), selection);
      var rootSelectionCurrent := DefinitionCurrent(workload.root, rootSelection);
      if !pathCurrent || !selectionCurrent || !rootSelectionCurrent {
        return {Stale};
      }
      EnsureRoot(workload);
      EnsureRootTracks(old(Snapshot()), workload);
      AttachSelectedObject(key, workload.root.uid);
      return {};
    }

    /** The second half of registerSelectedObjectRoot. */
    method AttachSelectedObject(key: JobKey, root: Uid)
      requires root in roots
      modifies this, publications
      ensures Snapshot() == AttachSelected(old(Snapshot()), key, root)
    {
      hide WithoutSelected;
      MoveSelected(key, root);
      publications.RemoveDiscoveryFailure(UidOf(key.uid));
    }

    method MoveSelected(key: JobKey, root: Uid)
      requires root in roots
      modifies this`roots, this`selectedObjectRoots, this`workloadQueue
      ensures var previous := SelectedRootOf(old(Snapshot()).members, key);
              var left := if previous != root then WithoutSelected(old(roots), previous, key) else old(roots);
              && root in left
              && roots == left[root := left[root].(selected := left[root].selected + {key})]
              && workloadQueue == old(workloadQueue)
                 + (if previous != root && previous in old(roots) then {RootJob(previous)} else {}) + {RootJob(root)}
      ensures selectedObjectRoots == old(selectedObjectRoots)[key := Outcome(root, None)]
    {
      var previous := if key in selectedObjectRoots then selectedObjectRoots[key].root else NO_UID;
      if previous != root {
        LeaveSelected(previous, key);
      }
      selectedObjectRoots := selectedObjectRoots[key := Outcome(root, None)];
      roots := roots[root := roots[root].(selected := roots[root].selected + {key})];
      workloadQueue := workloadQueue + {RootJob(root)};
    }

    method ExcludeSelectedObject(key: JobKey, workload: Workload, selection: Stamped, rootSelection: Stamped) returns (err: Failure)
      modifies this, publications
      ensures (Snapshot(), err) == ExcludeSelected(old(Snapshot()), key, workload, selection, rootSelection)
    {
      hide IsPathCurrent, IsDefinitionCurrent, RemoveSelectedMembership;
      var pathCurrent := PathCurrent(workload.path);
      var selectionCurrent := DefinitionCurrent(JobRef(key), selection);
      var rootSelectionCurrent := DefinitionCurrent(workload.root, rootSelection);
      if !pathCurrent || !selectionCurrent || !rootSelectionCurrent {
        return {Stale};
      }
      RemoveSelectedObjectMembership(key);
      selectedObjectRoots := selectedObjectRoots[key := Outcome(NO_UID,
        Some(Exclusion(workload.path, workload.root, selection, rootSelection)))];
      return {};
    }

    method FailSelectedObjectDiscovery(key: JobKey, err: Failure)
      modifies publications
      ensures Snapshot() == RecordDiscoveryFailure(old(Snapshot()), key, err)
    {
      publications.SetDiscoveryFailure(OfObject(JobRef(key)), FailureReason(err));
    }

    // ------------------------------------------------------------ publication (state.go)

    method PublishPodFailure(key: JobKey, cause: Failure, root: Option<ObjectRef>) returns (err: Failure)
      modifies publications
      ensures (Snapshot(), err) == ControllerModel.PublishPodFailure(old(Snapshot()), key, cause, root)
    {
      var next := PodResult(NoRecord(key.uid, NO_REF), JobRef(key), false, NoReason);
      if root.Some? {
        next := next.(record := next.record.(workload := root.value));
      }
      var previous := publications.Pod(key.uid);
      if previous.Some? && (previous.value.hasValue || root.None?) {
        next := previous.value;
      }
      next := next.(error := FailureReason(cause));
      publications.UpsertPod(next);
      return if Evaluation in cause || BadDefinition in cause then {} else cause;
    }

    method FailPodEvaluation(key: JobKey, path: seq<ObjectRef>, cause: Failure, root: ObjectRef, selection: Stamped) returns (err: Failure)
      modifies publications
      ensures (Snapshot(), err) == ControllerModel.FailPodEvaluation(env, old(Snapshot()), key, path, cause, root, selection)
    {
      hide Lookup, IsPathCurrent, IsDefinitionCurrent, HasRootOwnership, ControllerModel.PublishPodFailure;
      var definitionCurrent := DefinitionCurrent(root, selection);
      var pathCurrent := PathCurrent(path);
      if !definitionCurrent || !pathCurrent {
        return {Stale};
      }
      var read := LookupObject(root, false);
      var owns := RootOwnership(root);
      if read.Missing? || !owns {
        return {Stale};
      }
      err := PublishPodFailure(key, cause, Some(root));
    }

    method PublishPod(path: seq<ObjectRef>, root: ObjectRef, selection: Stamped, result: PodResult, labelFailed: bool) returns (err: Failure)
      modifies publications
      ensures (Snapshot(), err) == ControllerModel.PublishPod(env, old(Snapshot()), path, root, selection, result, labelFailed)
    {
      hide Lookup, IsPathCurrent, IsDefinitionCurrent, HasRootOwnership;
      var pathCurrent := PathCurrent(path);
      var owns := RootOwnership(root);
      var definitionCurrent := DefinitionCurrent(root, selection);
      if !pathCurrent || !owns || !definitionCurrent {
        return {Stale};
      }
      var current := LookupObject(root, false);
      if current.Missing? || current.obj.version != root.version {
        return {Stale};
      }
      var next := result;
      if labelFailed {
        next := next.(error := EvaluationFailed);
        var previous := publications.Pod(next.record.uid);
        if previous.Some? && previous.value.hasValue {
          var definitionRemoved := selection.selection.definition.None? && previous.value.record.karta != 0;
          if !definitionRemoved {
            next := next.(record := previous.value.record);
          }
        }
      }
      publications.UpsertPod(next);
      return {};
    }

    method FailWorkload(uid: Uid, ref: ObjectRef, cause: Failure) returns (err: Failure)
      modifies publications
      ensures (Snapshot(), err) == ControllerModel.FailWorkload(old(Snapshot()), uid, ref, cause)
    {
      if uid !in roots {
        return {};
      }
      var next := WorkloadResult(WorkloadRecord(uid, ref, 0, false, None, false, [], 0, 0), false, NoReason, NoReason);
      var previous := publications.Workload(uid);
      if previous.Some? {
        next := previous.value;
      }
      next := next.(error := FailureReason(cause));
      publications.UpsertWorkload(next);
      return cause;
    }

    method PublishWorkload(uid: Uid, ref: ObjectRef, selection: Stamped, result: WorkloadResult) returns (err: Failure)
      modifies this`roots, publications
      ensures (Snapshot(), err) == ControllerModel.PublishWorkload(env, old(Snapshot()), uid, ref, selection, result)
    {
      hide Lookup, IsPathCurrent, IsDefinitionCurrent, HasRootOwnership;
      var inScope := NamespaceInScope(ref.namespace);
      if uid !in roots || !inScope {
        return {Stale};
      }
      var pathCurrent := PathCurrent([ref]);
      var owns := RootOwnership(ref);
      if !pathCurrent || !owns {
        return {Stale};
      }
      var definitionCurrent := DefinitionCurrent(ref, selection);
      if !definitionCurrent {
        return {Stale};
      }
      var next := result;
      if next.statusError != NoReason {
        var previous := publications.Workload(uid);
        if previous.Some? && previous.value.hasValue {
          var definitionRemoved := selection.selection.definition.None? && next.record.hasStatus && previous.value.record.karta != 0;
          if !definitionRemoved {
            next := next.(record := previous.value.record);
          }
        }
      }
      roots := roots[uid := roots[uid].(ref := ref)];
      publications.UpsertWorkload(next);
      return {};
    }
  
    // ------------------------------------------------------------ queueing (state.go, sources.go)

    /** The state a queueing section started from: the queues and the ancestor marks may have moved since. */
    ghost predicate Began(s: State)
      reads this, publications
    {
      s == Snapshot().(queues := s.queues, members := Snapshot().members.(ancestors := s.members.ancestors))
    }

    /** enqueuePod: previously tracked Pods still need a worker to remove their result. */
    method EnqueuePod(o: Option<Object>, ghost s: State)
      requires Began(s)
      modifies this`podQueue
      ensures podQueue == old(podQueue) + PodAlert(env, s, o)
    {
      if o.None? || o.value.gvk != POD_GVK {
        return;
      }
      var member := o.value.uid in podRoots;
      var published := publications.Pod(o.value.uid);
      if env.podSelector(o.value.labels) || member || published.Some? {
        podQueue := podQueue + {JobFor(RefOf(o.value))};
      }
    }

    method DiscoversKind(gvk: Gvk) returns (discovers: bool)
      ensures discovers == ShouldDiscover(Snapshot().defs, gvk)
    {
      var selected := if gvk.groupKind in selectedDefinitions then selectedDefinitions[gvk.groupKind] else NO_SELECTION;
      return gvk != NAMESPACE_GVK && gvk != KARTA_GVK && (gvk != POD_GVK || (selected.definition.Some? && selected.gvk == gvk));
    }

    /** The part of queueObjectChange about an object that is gone or replaced. */
    method QueueReplaced(was: Object, ghost s: State)
      requires Began(s)
      modifies this`ancestorPods, this`podQueue, this`workloadQueue
      ensures ancestorPods == old(ancestorPods) - {was.uid}
      ensures podQueue == old(podQueue) + RootPods(s, was.uid)
      ensures workloadQueue == old(workloadQueue) + ReplacedWork(s, was)
    {
      ancestorPods := ancestorPods - {was.uid};
      var key := JobFor(RefOf(was));
      if key in selectedObjectRoots {
        workloadQueue := workloadQueue + {SelectedJob(key)};
      }
      if was.uid in roots {
        workloadQueue := workloadQueue + {RootJob(was.uid)};
        EnqueueMembers(roots[was.uid]);
      }
    }

    /** The part of queueObjectChange about the object that is there now. */
    method QueueCurrent(current: Object, ownershipChanged: bool, ghost s: State)
      requires Began(s)
      modifies this`podQueue, this`workloadQueue
      ensures podQueue == old(podQueue) + RootPods(s, current.uid)
      ensures workloadQueue == old(workloadQueue) + CurrentWork(s, current, ownershipChanged)
    {
      var key := JobFor(RefOf(current));
      var tracked := key in selectedObjectRoots;
      var discovers := DiscoversKind(current.gvk);
      if (!tracked || ownershipChanged) && discovers {
        workloadQueue := workloadQueue + {SelectedJob(key)};
      }
      if current.uid in roots {
        workloadQueue := workloadQueue + {RootJob(current.uid)};
        EnqueuePods(roots[current.uid].pods);
      }
    }

    method EnqueuePods(members: map<Uid, JobKey>)
      modifies this`podQueue
      ensures podQueue == old(podQueue) + members.Values
    {
      var left := members.Keys;
      while left != {}
        invariant left <= members.Keys
        invariant podQueue == old(podQueue) + set p | p in members && p !in left :: members[p]
      {
        var p :| p in left;
        left := left - {p};
        podQueue := podQueue + {members[p]};
      }
      assert podQueue == old(podQueue) + members.Values;
    }

    /** queueObjectChange's alerts: the Pods' own jobs, then the members of the roots concerned. */
    method QueueMembers(was: Option<Object>, current: Option<Object>, ownershipChanged: bool, ghost s: State)
      requires Began(s)
      modifies this`podQueue, this`workloadQueue, this`ancestorPods
      ensures podQueue == old(podQueue) + MemberPods(env, s, was, current)
      ensures workloadQueue == old(workloadQueue) + MemberWork(s, was, current, ownershipChanged)
      ensures ancestorPods == if Replaced(was, current) then old(ancestorPods) - {was.value.uid} else old(ancestorPods)
    {
      hide PodAlert, RootPods, ReplacedWork, CurrentWork;
      EnqueuePod(was, s);
      EnqueuePod(current, s);
      if was.Some? && (current.None? || was.value.uid != current.value.uid) {
        QueueReplaced(was.value, s);
      }
      if current.Some? {
        QueueCurrent(current.value, ownershipChanged, s);
      }
    }

    method QueueObjectChange(was: Option<Object>, current: Option<Object>)
      requires was.Some? || current.Some?
      modifies this`podQueue, this`workloadQueue, this`syncQueued, this`ancestorPods
      ensures Snapshot() == ControllerModel.QueueObjectChange(env, old(Snapshot()), was, current)
    {
      hide OwnershipChanged, IsAncestor, SelectorChanged, MemberPods, MemberWork, ChangedPods, ChangedWork;
      ghost var s := Snapshot();
      var obj := if current.Some? then current.value else was.value;
      syncQueued := syncQueued || (obj.gvk == NAMESPACE_GVK && env.scoped);
      var ownershipChanged := OwnershipChanged(was, current);
      var ancestor := IsAncestor(ancestorPods, was, obj);
      QueueMembers(was, current, ownershipChanged, s);
      podQueue := podQueue + if (ownershipChanged && ancestor) || SelectorChanged(env, was, current) then {Rescan(obj.namespace)} else {};
      ChangedState(env, s, was, current, Snapshot());
      hide ControllerModel.QueueObjectChange;
    }
  
    // ------------------------------------------------------------ watches (sources.go)

    method StoreObject(key: ObjectKey, o: CachedObject)
      modifies this`objects, this`podQueue, this`workloadQueue, this`syncQueued, this`ancestorPods
      ensures Snapshot() == PutObject(env, old(Snapshot()), key, o)
    {
      hide ControllerModel.QueueObjectChange;
      var was := if key in objects then Some(objects[key].obj) else None;
      objects := objects[key := o];
      QueueObjectChange(was, Some(o.obj));
    }

    method DeleteObject(key: ObjectKey)
      modifies this`objects, this`podQueue, this`workloadQueue, this`syncQueued, this`ancestorPods
      ensures Snapshot() == DropObject(env, old(Snapshot()), key)
    {
      hide ControllerModel.QueueObjectChange;
      if key in objects {
        var was := objects[key].obj;
        objects := objects - {key};
        QueueObjectChange(Some(was), None);
      }
    }

    method ApplyWatchEvent(w: Handle, o: Object, deleted: bool)
      modifies this
      ensures Snapshot() == ControllerModel.ApplyWatchEvent(env, old(Snapshot()), w, o, deleted)
    {
      hide ControllerModel.QueueObjectChange;
      if w.key !in watches || watches[w.key].id != w.id {
        return;
      }
      var key := ObjectKeyOf(o);
      if deleted {
        if key !in objects || objects[key].obj.uid != o.uid {
          return;
        }
        DeleteObject(key);
        watches := watches[w.key := watches[w.key].(objects := watches[w.key].objects - {key})];
      } else {
        StoreObject(key, CachedObject(o, w.key));
        watches := watches[w.key := watches[w.key].(objects := watches[w.key].objects + {key})];
      }
    }

    method IsTrackedWatch(w: Handle) returns (tracked: bool)
      ensures tracked == IsTracked(Snapshot().cache, w)
    {
      return (w.key in watches && watches[w.key].id == w.id) || (w.key in replacements && replacements[w.key].id == w.id);
    }

    method EnqueueRoots()
      modifies this`workloadQueue
      ensures workloadQueue == old(workloadQueue) + RootJobs(roots)
    {
      var left := roots.Keys;
      while left != {}
        invariant left <= roots.Keys
        invariant workloadQueue == old(workloadQueue) + set uid | uid in roots && uid !in left :: RootJob(uid)
      {
        var uid :| uid in left;
        left := left - {uid};
        workloadQueue := workloadQueue + {RootJob(uid)};
      }
    }

    /** Keep the error in the watch itself and, for the active watch, in the mirror lookups use. */
    method RecordHealth(w: Handle, err: Failure) returns (was: Watch)
      requires IsTracked(Snapshot().cache, w)
      modifies this`watches, this`sources, this`replacements
      ensures was == WatchOf(old(Snapshot()).cache, w)
      ensures Snapshot() == old(Snapshot()).(cache := HealthCache(old(Snapshot()).cache, w, err))
    {
      if w.key in watches && watches[w.key].id == w.id {
        was := watches[w.key];
        watches := watches[w.key := was.(err := err)];
        sources := sources[w.key := CacheSource(was.full, was.ready, err)];
      } else {
        was := replacements[w.key];
        replacements := replacements[w.key := was.(err := err)];
      }
    }

    /** Only the replacement speaks for a collection that is being replaced. */
    method PublishHealth(w: Handle, health: Health)
      modifies publications
      ensures var was := old(publications.View());
              publications.View() == if w.key !in replacements || replacements[w.key].id == w.id
                                     then was.(health := was.health[w.key := health]) else was
    {
      if w.key !in replacements || replacements[w.key].id == w.id {
        publications.SetSourceHealth(Collection(w.key), health);
      }
    }

    method QueueRecovery(recovered: bool, key: WatchKey)
      modifies this`podQueue, this`workloadQueue, this`syncQueued
      ensures Queues(podQueue, workloadQueue, syncQueued)
           == Queues(if recovered then old(podQueue) + {Rescan(key.namespace)} else old(podQueue),
                     if recovered then old(workloadQueue) + RootJobs(roots) else old(workloadQueue),
                     old(syncQueued) || key.gvk == NAMESPACE_GVK)
    {
      if recovered {
        podQueue := podQueue + {Rescan(key.namespace)};
        EnqueueRoots();
      }
      if key.gvk == NAMESPACE_GVK {
        syncQueued := true;
      }
    }

    method UpdateWatchHealth(w: Handle, err: Failure)
      modifies this, publications
      ensures Snapshot() == ControllerModel.UpdateWatchHealth(env, old(Snapshot()), w, err)
    {
      var tracked := IsTrackedWatch(w);
      if tracked {
        UpdateTrackedHealth(w, err);
      }
    }

    method UpdateTrackedHealth(w: Handle, err: Failure)
      requires IsTracked(Snapshot().cache, w)
      modifies this, publications
      ensures Snapshot() == ControllerModel.UpdateWatchHealth(env, old(Snapshot()), w, err)
    {
      hide ControllerModel.UpdateWatchHealth, HealthCache, WatchOf, IsTracked;
      var was := RecordHealth(w, err);
      PublishHealth(w, Health(was.ready, FailureReason(err)));
      QueueRecovery(was.err != {} && err == {}, w.key);
      UpdatedState(env, old(Snapshot()), w, err, Snapshot());
    }

    /** A live replacement becomes the active watch, with the keys of the one it replaces. */
    method TakeOver(w: Handle)
      requires IsTracked(Snapshot().cache, w)
      modifies this`watches, this`replacements
      ensures Snapshot() == old(Snapshot()).(cache := Promote(old(Snapshot()).cache, w))
    {
      if w.key !in watches || watches[w.key].id != w.id {
        var kept := if w.key in watches then watches[w.key].objects else {};
        watches := watches[w.key := replacements[w.key].(objects := kept)];
        replacements := replacements - {w.key};
      }
    }

    /** Drop what the previous list had and the new one lacks. */
    method DropVanished(keys: set<ObjectKey>, listed: map<ObjectKey, Object>) returns (ghost drop: seq<ObjectKey>)
      modifies this`objects, this`podQueue, this`workloadQueue, this`syncQueued, this`ancestorPods
      ensures Ordering(drop, keys - listed.Keys)
      ensures Snapshot() == DropObjects(env, old(Snapshot()), drop)
    {
      hide DropObject, DropObjects;
      drop := [];
      DropNone(env, Snapshot());
      var left := keys;
      while left != {}
        invariant left <= keys && Ordering(drop, (keys - left) - listed.Keys)
        invariant Snapshot() == DropObjects(env, old(Snapshot()), drop)
      {
        var key :| key in left;
        left := left - {key};
        if key !in listed {
          DropOneMore(env, old(Snapshot()), drop, key);
          DeleteObject(key);
          OrderingExtends(drop, (keys - left - {key}) - listed.Keys, key);
          drop := drop + [key];
        }
        assert (keys - left) - listed.Keys == (keys - left - {key}) - listed.Keys + if key in listed then {} else {key};
      }
      assert keys - left == keys;
    }

    method StoreListed(source: WatchKey, listed: map<ObjectKey, Object>) returns (ghost put: seq<ObjectKey>)
      modifies this`objects, this`podQueue, this`workloadQueue, this`syncQueued, this`ancestorPods
      ensures Ordering(put, listed.Keys)
      ensures Snapshot() == PutObjects(env, old(Snapshot()), source, listed, put)
    {
      hide PutObject, PutObjects;
      put := [];
      PutNone(env, Snapshot(), source, listed);
      var left := listed.Keys;
      while left != {}
        invariant left <= listed.Keys && Ordering(put, listed.Keys - left)
        invariant Snapshot() == PutObjects(env, old(Snapshot()), source, listed, put)
      {
        var key :| key in left;
        left := left - {key};
        PutOneMore(env, old(Snapshot()), source, listed, put, key);
        StoreObject(key, CachedObject(listed[key], source));
        put := put + [key];
      }
      assert listed.Keys - left == listed.Keys;
    }

    method ReplaceObjects(w: Handle, listed: map<ObjectKey, Object>) returns (ghost drop: seq<ObjectKey>, ghost put: seq<ObjectKey>)
      requires IsTracked(Snapshot().cache, w)
      modifies this
      ensures Ordering(put, listed.Keys) && Ordering(drop, Vanished(old(Snapshot()).cache, w, listed)) && w.key in watches
      ensures var s := old(Snapshot());
              Snapshot() == PutObjects(env, DropObjects(env, s.(cache := Promote(s.cache, w)), drop), w.key, listed, put)
    {
      hide PutObjects, DropObjects, Promote, Vanished;
      ghost var c := Snapshot().cache;
      TakeOver(w);
      PromotedKeys(c, w, listed);
      drop := DropVanished(watches[w.key].objects, listed);
      put := StoreListed(w.key, listed);
    }

    method MarkListed(key: WatchKey, keys: set<ObjectKey>)
      requires key in watches
      modifies this`watches
      ensures Snapshot() == old(Snapshot()).(cache := MarkReady(old(Snapshot()).cache, key, keys))
    {
      watches := watches[key := watches[key].(objects := keys, ready := true)];
    }

    /** Apply a complete list. A replacement takes over the keys of the watch it replaces first. */
    method Replace(w: Handle, listed: map<ObjectKey, Object>) returns (ghost drop: seq<ObjectKey>, ghost put: seq<ObjectKey>)
      modifies this, publications
      ensures forall k :: k in put ==> k in listed
      ensures old(IsTracked(Snapshot().cache, w)) ==>
                Ordering(put, listed.Keys) && Ordering(drop, Vanished(old(Snapshot()).cache, w, listed))
      ensures Snapshot() == ControllerModel.Replace(env, old(Snapshot()), w, listed, drop, put)
    {
      hide ControllerModel.UpdateWatchHealth, PutObjects, DropObjects, Promote, MarkReady, Vanished;
      drop, put := [], [];
      var tracked := IsTrackedWatch(w);
      if tracked {
        drop, put := ReplaceObjects(w, listed);
        MarkListed(w.key, listed.Keys);
        UpdateWatchHealth(w, {});
        podQueue := podQueue + {Rescan(w.key.namespace)};
      }
    }

    method DropSourcedKeys(source: WatchKey, keys: set<ObjectKey>) returns (ghost order: seq<ObjectKey>)
      modifies this`objects, this`podQueue, this`workloadQueue, this`syncQueued, this`ancestorPods
      ensures Ordering(order, keys)
      ensures Snapshot() == DropSourced(env, old(Snapshot()), source, order)
    {
      hide DropObject, DropSourced;
      order := [];
      DropSourcedNone(env, Snapshot(), source);
      var left := keys;
      while left != {}
        invariant left <= keys && Ordering(order, keys - left)
        invariant Snapshot() == DropSourced(env, old(Snapshot()), source, order)
      {
        var key :| key in left;
        left := left - {key};
        DropSourcedOneMore(env, old(Snapshot()), source, order, key);
        if key in objects && objects[key].source == source {
          DeleteObject(key);
        }
        order := order + [key];
      }
      assert keys - left == keys;
    }

    /** retireWatch, and the removal of a pending replacement that goes with it. */
    method RetireWatch(key: WatchKey) returns (ghost order: seq<ObjectKey>)
      requires key in watches
      modifies this, publications
      ensures Ordering(order, old(watches)[key].objects)
      ensures Snapshot() == ControllerModel.RetireWatch(env, old(Snapshot()), key, order)
    {
      hide DropSourced;
      var w := watches[key];
      watches := watches - {key};
      order := DropSourcedKeys(key, w.objects);
      sources := sources - {key};
      publications.RemoveSourceHealth(key);
      replacements := replacements - {key};
    }

    method RecordWatchFailure(request: WatchKey, err: Failure) returns (reported: Failure)
      modifies this`watchFailures, publications
      ensures Snapshot() == ControllerModel.RecordWatchFailure(env, old(Snapshot()), request, err)
      ensures reported == if env.scoped && request.namespace != 0 && request.namespace !in scopes then {Pending} else err
    {
      if env.scoped && request.namespace != 0 && request.namespace !in scopes {
        return {Pending};
      }
      watchFailures := watchFailures[request := err];
      publications.SetDiscoveryFailure(OfSource(request), FailureReason(err));
      return err;
    }

    method ForgetWatchFailures(requests: set<WatchKey>)
      modifies this`watchFailures, publications
      ensures Snapshot() == ForgetFailures(old(Snapshot()), requests)
    {
      var left := requests;
      while left != {}
        invariant left <= requests && watchFailures == old(watchFailures) - (requests - left)
        invariant publications.View() == old(publications.View()).(sourceFailures := old(publications.sourceFailures) - (requests - left))
      {
        var request :| request in left;
        left := left - {request};
        watchFailures := watchFailures - {request};
        publications.RemoveDiscoveryFailure(SourceUid(request));
      }
      assert requests - left == requests;
    }

    /** ensureWatch: `mapping` is the outcome of the REST mapping, `id` the identity of the watch it may start. */
    method EnsureWatch(gvk: Gvk, namespace: Name, metadataOnly: bool, mapping: Failure, id: nat) returns (err: Failure)
      modifies this, publications
      ensures (Snapshot(), err) == Ensure(env, old(Snapshot()), gvk, namespace, metadataOnly, mapping, id)
    {
      if mapping != {} {
        err := RecordWatchFailure(WatchKey(gvk, namespace), mapping);
        return;
      }
      var key := WatchKey(gvk, if env.clusterScoped(gvk.groupKind) || !env.scoped then 0 else namespace);
      ForgetWatchFailures(set r | r in watchFailures && r.gvk == gvk && (key.namespace == 0 || r.namespace == key.namespace));
      hide ForgetFailures;
      if key.namespace != 0 && key.namespace !in scopes {
        return {Pending};
      }
      if key in watches && (metadataOnly || watches[key].full || key in replacements) {
        return {};
      }
      StartWatch(key, Watch(id, !metadataOnly, false, {}, {}));
      return {};
    }

    /** A new watch replaces a live one only after its first list. */
    method StartWatch(key: WatchKey, w: Watch)
      modifies this, publications
      ensures var s := old(Snapshot());
              Snapshot() == SetHealth(s.(cache := if key in s.cache.watches then s.cache.(replacements := s.cache.replacements[key := w])
                                                  else s.cache.(watches := s.cache.watches[key := w],
                                                                sources := s.cache.sources[key := SourceMirror(w)])),
                                      key, Health(false, NoReason))
    {
      if key in watches {
        replacements := replacements[key := w];
      } else {
        watches := watches[key := w];
        sources := sources[key := SourceMirror(w)];
      }
      publications.SetSourceHealth(Collection(key), Health(false, NoReason));
    }

    // ------------------------------------------------------------ definitions (runtime.go)

    /** Keep the snapshot of what did not change; collect the kinds that did. */
    method CompareDefinitions(next: map<GroupKind, Selection>) returns (merged: map<GroupKind, Selection>, changed: set<GroupKind>)
      ensures merged == MergedDefinitions(Snapshot().defs, next) && changed == ChangedKinds(Snapshot().defs, next)
    {
      hide IsSameDefinition;
      ghost var d := Snapshot().defs;
      merged, changed := next, {};
      var left := next.Keys;
      while left != {}
        invariant left <= next.Keys && merged.Keys == next.Keys
        invariant forall kind :: kind in next ==>
                    merged[kind] == if kind !in left && KeepsDefinition(d, kind, next[kind]) then selectedDefinitions[kind] else next[kind]
        invariant changed == set kind | kind in next && kind !in left && !KeepsDefinition(d, kind, next[kind])
      {
        var kind :| kind in left;
        left := left - {kind};
        if kind in selectedDefinitions && IsSameDefinition(selectedDefinitions[kind], next[kind]) {
          merged := merged[kind := selectedDefinitions[kind]];
        } else {
          changed := changed + {kind};
        }
      }
      assert changed == set kind | kind in next && !KeepsDefinition(d, kind, next[kind]);
      ghost var replaced := changed;
      left := selectedDefinitions.Keys;
      while left != {}
        invariant left <= selectedDefinitions.Keys
        invariant changed == replaced + ((selectedDefinitions.Keys - left) - next.Keys)
      {
        var kind :| kind in left;
        left := left - {kind};
        if kind !in next {
          changed := changed + {kind};
        }
      }
      assert selectedDefinitions.Keys - left == selectedDefinitions.Keys;
    }

    /** The jobs of cached objects whose kind's definition changed, and of Pods without an unaffected root. */
    method EnqueueKinds(kinds: set<GroupKind>)
      modifies this`podQueue, this`workloadQueue
      ensures podQueue == old(podQueue) + KindPods(env, old(Snapshot()), kinds)
      ensures workloadQueue == old(workloadQueue) + KindObjects(old(Snapshot()), kinds)
    {
      hide PodAlert, ShouldDiscover;
      ghost var s := Snapshot();
      var left := objects.Keys;
      assert KindPodsAmong(env, s, kinds, objects.Keys - left) == {} && KindObjectsAmong(s, kinds, objects.Keys - left) == {};
      while left != {}
        invariant left <= objects.Keys && Began(s)
        invariant podQueue == s.queues.pods + KindPodsAmong(env, s, kinds, objects.Keys - left)
        invariant workloadQueue == s.queues.work + KindObjectsAmong(s, kinds, objects.Keys - left)
      {
        var k :| k in left;
        KindAmongStep(env, s, kinds, objects.Keys - left, k);
        assert objects.Keys - (left - {k}) == (objects.Keys - left) + {k};
        left := left - {k};
        EnqueueKind(objects[k].obj, kinds, s);
        hide KindPodsAmong, KindObjectsAmong, KindPodsOf, KindObjectsOf;
      }
      assert objects.Keys - left == objects.Keys;
      KindAmongAll(env, s, kinds);
    }

    /** What the refresh does about one cached object. */
    method EnqueueKind(o: Object, kinds: set<GroupKind>, ghost s: State)
      requires Began(s)
      modifies this`podQueue, this`workloadQueue
      ensures podQueue == old(podQueue) + KindPodsOf(env, s, kinds, o)
      ensures workloadQueue == old(workloadQueue) + KindObjectsOf(s, kinds, o)
    {
      hide ShouldDiscover;
      if o.gvk.groupKind in kinds {
        EnqueuePod(Some(o), s);
        var discovers := DiscoversKind(o.gvk);
        if discovers {
          workloadQueue := workloadQueue + {SelectedJob(JobFor(RefOf(o)))};
        }
      }
      if o.gvk == POD_GVK {
        var root := if o.uid in podRoots then podRoots[o.uid] else NO_UID;
        if root !in roots || roots[root].ref.gvk.groupKind in kinds {
          EnqueuePod(Some(o), s);
        }
      }
    }

    /** Roots of changed kinds, or all of them, with their members. */
    method EnqueueAffectedRoots(everything: bool, kinds: set<GroupKind>)
      modifies this`podQueue, this`workloadQueue
      ensures podQueue == old(podQueue) + AffectedPods(old(Snapshot()), everything, kinds)
      ensures workloadQueue == old(workloadQueue) + AffectedRootWork(old(Snapshot()), everything, kinds, roots.Keys)
    {
      ghost var s := Snapshot();
      AffectedEnds(s, everything, kinds);
      hide AffectedPods, AffectedPodsAmong, AffectedRootWork, Affected;
      var left := roots.Keys;
      assert roots.Keys - left == {};
      while left != {}
        invariant left <= roots.Keys && s.members.roots == roots
        invariant podQueue == s.queues.pods + AffectedPodsAmong(s, everything, kinds, roots.Keys - left)
        invariant workloadQueue == s.queues.work + AffectedRootWork(s, everything, kinds, roots.Keys - left)
      {
        var uid :| uid in left;
        AffectedStep(s, everything, kinds, roots.Keys - left, uid);
        assert roots.Keys - (left - {uid}) == (roots.Keys - left) + {uid};
        left := left - {uid};
        EnqueueIfAffected(uid, everything, kinds);
      }
      assert roots.Keys - left == roots.Keys;
    }

    method EnqueueIfAffected(uid: Uid, everything: bool, kinds: set<GroupKind>)
      requires uid in roots
      modifies this`podQueue, this`workloadQueue
      ensures podQueue == old(podQueue) + if Affected(roots[uid], everything, kinds) then roots[uid].pods.Values else {}
      ensures workloadQueue == old(workloadQueue)
                + if Affected(roots[uid], everything, kinds) then {RootJob(uid)} + SelectedJobs(roots[uid].selected) else {}
    {
      if Affected(roots[uid], everything, kinds) {
        workloadQueue := workloadQueue + {RootJob(uid)};
        EnqueueMembers(roots[uid]);
      }
    }

    method EnqueueTracked(kinds: set<GroupKind>)
      modifies this`workloadQueue
      ensures workloadQueue == old(workloadQueue)
                + set j | j in selectedObjectRoots && j.obj.gvk.groupKind in kinds :: SelectedJob(j)
    {
      var left := selectedObjectRoots.Keys;
      while left != {}
        invariant left <= selectedObjectRoots.Keys
        invariant workloadQueue == old(workloadQueue)
                    + set j | j in selectedObjectRoots && j !in left && j.obj.gvk.groupKind in kinds :: SelectedJob(j)
      {
        var j :| j in left;
        left := left - {j};
        if j.obj.gvk.groupKind in kinds {
          workloadQueue := workloadQueue + {SelectedJob(j)};
        }
      }
    }

    /** Commit a prepared snapshot of definitions, and queue what it affects. */
    method RefreshDefinitions(offered: map<GroupKind, Selection>, sourceErr: Failure)
      modifies this, publications
      ensures Snapshot() == ControllerModel.RefreshDefinitions(env, old(Snapshot()), offered, sourceErr)
    {
      hide FailureReason, MergedDefinitions, ChangedKinds, KindPods, KindObjects, AffectedPods, AffectedWork, ControllerModel.RefreshDefinitions, RefreshedQueues;
      var next := if sourceErr != {} then selectedDefinitions else offered;
      var healthChanged := FailureReason(definitionErr) != FailureReason(sourceErr);
      var merged, changed := CompareDefinitions(next);
      definitionErr := sourceErr;
      selectedDefinitions := merged;
      PublishDefinitionHealth(Health(sourceErr == {}, FailureReason(sourceErr)));
      ghost var s1 := Snapshot();
      if healthChanged || changed != {} {
        definitionVersion := definitionVersion + 1;
        EnqueueRefreshed(healthChanged, changed);
      }
      RefreshedState(env, old(Snapshot()), offered, sourceErr, s1, Snapshot());
    }

    method PublishDefinitionHealth(health: Health)
      modifies publications
      ensures publications.View() == if env.clusterDefinitions then old(publications.View()).(definitionHealth := Some(health))
                                     else old(publications.View())
    {
      if env.clusterDefinitions {
        publications.SetSourceHealth(DefinitionSource, health);
      }
    }

    method EnqueueRefreshed(healthChanged: bool, changed: set<GroupKind>)
      modifies this`podQueue, this`workloadQueue
      ensures Snapshot() == RefreshedQueues(env, old(Snapshot()), healthChanged, changed)
    {
      ghost var s := Snapshot();
      hide KindPods, KindObjects, AffectedPods, AffectedWork, AffectedRootWork;
      if healthChanged {
        podQueue := podQueue + {Rescan(0)};
      } else {
        EnqueueKinds(changed);
      }
      AffectedSplit(s, Snapshot(), healthChanged, changed);
      EnqueueAffectedRoots(healthChanged, changed);
      EnqueueTracked(changed);
      assert podQueue == RefreshedQueues(env, s, healthChanged, changed).queues.pods;
      assert workloadQueue == RefreshedQueues(env, s, healthChanged, changed).queues.work;
    }

    // ------------------------------------------------------------ the sources worker (sources.go)

    /** The namespaces the selector admits, from the objects of the namespace watch. */
    method AdmitNamespaces() returns (admitted: set<Name>)
      requires NAMESPACE_WATCH in watches
      ensures admitted == AdmittedNamespaces(env, Snapshot().cache)
    {
      admitted := {};
      var keys := watches[NAMESPACE_WATCH].objects;
      var left := keys;
      while left != {}
        invariant left <= keys
        invariant admitted == set k | k in keys && k !in left && k in objects && env.admits(objects[k].obj.labels) :: objects[k].obj.name
      {
        var key :| key in left;
        left := left - {key};
        if key in objects && env.admits(objects[key].obj.labels) {
          admitted := admitted + {objects[key].obj.name};
        }
      }
    }

    method RemoveOutOfScopeRoots() returns (ghost order: seq<Uid>)
      modifies this, publications
      ensures Ordering(order, OutOfScopeRoots(env, old(Snapshot())))
      ensures Snapshot() == RemoveRoots(old(Snapshot()), order)
    {
      order := [];
      ghost var s := Snapshot();
      var left := roots.Keys;
      assert Withdrawn(env, s, order, left, s);
      while left != {}
        invariant left <= s.members.roots.Keys && Withdrawn(env, s, order, left, Snapshot())
      {
        var uid :| uid in left;
        WithdrawnStep(env, s, order, left, Snapshot(), uid);
        hide Withdrawn, ControllerModel.RemoveRoot;
        var inScope := NamespaceInScope(roots[uid].ref.namespace);
        if !inScope {
          RemoveRoot(uid);
          order := order + [uid];
        }
        left := left - {uid};
      }
    }

    method RetireOutOfScopeWatches() returns (ghost keys: seq<WatchKey>, ghost order: map<WatchKey, seq<ObjectKey>>)
      modifies this, publications
      ensures Ordering(keys, OutOfScopeWatches(old(Snapshot())))
      ensures forall k :: k in keys ==> k in order && k in old(watches) && Ordering(order[k], old(watches)[k].objects)
      ensures Snapshot() == RetireWatches(env, old(Snapshot()), keys, order)
    {
      keys, order := [], map[];
      ghost var s := Snapshot();
      var left := watches.Keys;
      assert Retired(env, s, keys, order, left, s);
      while left != {}
        invariant left <= s.cache.watches.Keys && Retired(env, s, keys, order, left, Snapshot())
        invariant left <= watches.Keys && scopes == s.scopes
      {
        hide Retired, ControllerModel.RetireWatch;
        var key :| key in left;
        ghost var before := Snapshot();
        if key.namespace != 0 && key.namespace !in scopes {
          var objects := RetireWatch(key);
          RetiredMore(env, s, keys, order, left, before, key, objects);
          RetireRest(env, before, key, objects);
          keys, order := keys + [key], order[key := objects];
        } else {
          RetiredSkip(env, s, keys, order, left, before, key);
        }
        left := left - {key};
      }
    }

    method KindsToWatch() returns (kinds: set<Gvk>)
      ensures kinds == WatchKinds(env, Snapshot().defs)
    {
      kinds := {POD_GVK} + env.requiredKinds;
      ghost var selected: set<Gvk> := {};
      var left := selectedDefinitions.Keys;
      while left != {}
        invariant left <= selectedDefinitions.Keys && kinds == {POD_GVK} + env.requiredKinds + selected
        invariant selected == set kind | kind in selectedDefinitions && kind !in left && selectedDefinitions[kind].gvk.version != 0
                                         && selectedDefinitions[kind].gvk.groupKind.kind != 0 :: selectedDefinitions[kind].gvk
      {
        var kind :| kind in left;
        left := left - {kind};
        var gvk := selectedDefinitions[kind].gvk;
        if gvk.version != 0 && gvk.groupKind.kind != 0 {
          kinds, selected := kinds + {gvk}, selected + {gvk};
        }
      }
    }

    /** Each kind in each namespace of the scope, once. */
    method ListRequests() returns (requests: seq<WatchKey>)
      ensures Ordering(requests, WatchRequests(env, Snapshot()))
    {
      requests := [];
      var kinds := KindsToWatch();
      var leftKinds := kinds;
      while leftKinds != {}
        invariant leftKinds <= kinds
        invariant Ordering(requests, set gvk, namespace | gvk in kinds - leftKinds && namespace in scopes :: WatchKey(gvk, namespace))
      {
        var gvk :| gvk in leftKinds;
        ghost var done := set g, namespace | g in kinds - leftKinds && namespace in scopes :: WatchKey(g, namespace);
        leftKinds := leftKinds - {gvk};
        var left := scopes;
        assert (set namespace | namespace in scopes - left :: WatchKey(gvk, namespace)) == {};
        while left != {}
          invariant left <= scopes
          invariant Ordering(requests, done + set namespace | namespace in scopes - left :: WatchKey(gvk, namespace))
        {
          var namespace :| namespace in left;
          left := left - {namespace};
          ghost var before := done + set n | n in scopes - left - {namespace} :: WatchKey(gvk, n);
          OrderingExtends(requests, before, WatchKey(gvk, namespace));
          requests := requests + [WatchKey(gvk, namespace)];
        }
      }
    }

    method NamespacesReady() returns (ready: bool)
      ensures ready == NamespaceWatchReady(Snapshot().cache)
    {
      return NAMESPACE_WATCH in watches && watches[NAMESPACE_WATCH].ready && watches[NAMESPACE_WATCH].err == {};
    }

    /** prepareWatchRequests: new definitions and a new scope take effect together, and every kind is asked for in every
        namespace of the new scope; without a ready namespace watch nothing is asked for and that is reported as pending. */
    method PrepareWatchRequests(offered: map<GroupKind, Selection>, err: Failure)
      returns (requests: Option<seq<WatchKey>>, reported: Failure, ghost order: SyncOrder)
      modifies this, publications
      ensures IsSyncOrder(env, old(Snapshot()), offered, err, order)
      ensures Snapshot() == ControllerModel.PrepareWatchRequests(env, old(Snapshot()), offered, err, order)
      ensures requests.Some? <==> (env.scoped ==> NamespaceWatchReady(old(Snapshot()).cache))
      ensures requests.Some? ==> Ordering(requests.value, WatchRequests(env, Snapshot())) && reported == err
      ensures requests.None? ==> reported == {Pending}
    {
      hide ControllerModel.PrepareWatchRequests, IsSyncOrder, WatchRequests, ControllerModel.RefreshDefinitions, ScopePass, IsPassOrder;
      ghost var s := Snapshot();
      RefreshEffect(env, s, offered, err);
      RefreshDefinitions(offered, err);
      ghost var s1 := Snapshot();
      var ready := NamespacesReady();
      if env.scoped && !ready {
        order := SyncOrder([], [], map[]);
        PassIs(env, s, offered, err, order);
        return None, {Pending}, order;
      }
      order := ChangeScope();
      PassIs(env, s, offered, err, order);
      var listed := ListRequests();
      return Some(listed), err, order;
    }

    /** The scope of the pass, and what leaves it. */
    method ChangeScope() returns (ghost order: SyncOrder)
      requires env.scoped ==> NamespaceWatchReady(Snapshot().cache)
      modifies this, publications
      ensures IsPassOrder(env, old(Snapshot()), order)
      ensures Snapshot() == ScopePass(env, old(Snapshot()), order)
    {
      hide RemoveRoots, RetireWatches, AdmittedNamespaces, OutOfScopeRoots, OutOfScopeWatches;
      order := SyncOrder([], [], map[]);
      if env.scoped {
        scopes := AdmitNamespaces();
        var removed := RemoveOutOfScopeRoots();
        order := order.(roots := removed);
      }
      var retired, objectOrder := RetireOutOfScopeWatches();
      order := order.(watches := retired, objects := objectOrder);
      ForgetWatchFailures(set r | r in watchFailures && r.namespace != 0 && r.namespace !in scopes);
    }

    // ------------------------------------------------------------ rescans and readiness

    method EnqueueObject(o: Object, ghost s: State)
      requires Began(s)
      modifies this`podQueue, this`workloadQueue
      ensures podQueue == old(podQueue) + PodAlert(env, s, Some(o))
      ensures workloadQueue == old(workloadQueue) + if ShouldDiscover(s.defs, o.gvk) then {SelectedJob(JobFor(RefOf(o)))} else {}
    {
      hide ShouldDiscover;
      EnqueuePod(Some(o), s);
      var discovers := DiscoversKind(o.gvk);
      if discovers {
        workloadQueue := workloadQueue + {SelectedJob(JobFor(RefOf(o)))};
      }
    }

    /** The cached objects of one namespace, or of all of them. */
    method EnqueueNamespace(namespace: Name)
      modifies this`podQueue, this`workloadQueue
      ensures podQueue == old(podQueue) + RescannedPods(env, old(Snapshot()), namespace)
      ensures workloadQueue == old(workloadQueue) + RescannedObjects(old(Snapshot()), namespace, objects.Keys)
    {
      hide PodAlert, ShouldDiscover;
      ghost var s := Snapshot();
      RescannedEnds(env, s, namespace);
      hide RescannedPods, RescannedPodsAmong, RescannedObjects;
      var left := objects.Keys;
      assert objects.Keys - left == {};
      while left != {}
        invariant left <= objects.Keys && Began(s)
        invariant podQueue == s.queues.pods + RescannedPodsAmong(env, s, namespace, objects.Keys - left)
        invariant workloadQueue == s.queues.work + RescannedObjects(s, namespace, objects.Keys - left)
      {
        var k :| k in left;
        RescannedStep(env, s, namespace, objects.Keys - left, k);
        assert objects.Keys - (left - {k}) == (objects.Keys - left) + {k};
        left := left - {k};
        if namespace == 0 || objects[k].obj.namespace == namespace {
          EnqueueObject(objects[k].obj, s);
        }
      }
      assert objects.Keys - left == objects.Keys;
    }

    method EnqueueTrackedIn(namespace: Name)
      modifies this`workloadQueue
      ensures workloadQueue == old(workloadQueue)
                + set j | j in selectedObjectRoots && (namespace == 0 || j.obj.namespace == namespace) :: SelectedJob(j)
    {
      var left := selectedObjectRoots.Keys;
      while left != {}
        invariant left <= selectedObjectRoots.Keys
        invariant workloadQueue == old(workloadQueue)
                    + set j | j in selectedObjectRoots && j !in left && (namespace == 0 || j.obj.namespace == namespace) :: SelectedJob(j)
      {
        var j :| j in left;
        left := left - {j};
        if namespace == 0 || j.obj.namespace == namespace {
          workloadQueue := workloadQueue + {SelectedJob(j)};
        }
      }
    }

    method RequeueScope(namespace: Name)
      modifies this`podQueue, this`workloadQueue
      ensures Snapshot() == ControllerModel.RequeueScope(env, old(Snapshot()), namespace)
    {
      hide RescannedPods;
      EnqueueNamespace(namespace);
      EnqueueTrackedIn(namespace);
      RescannedSplit(old(Snapshot()), namespace);
      hide RescannedWork, RescannedObjects;
    }

    method HasRequired(namespace: Name) returns (all: bool)
      ensures all == HasRequiredWatches(env, Snapshot().cache, namespace)
    {
      var left := env.requiredKinds + {POD_GVK};
      while left != {}
        invariant left <= env.requiredKinds + {POD_GVK}
        invariant forall gvk | gvk in env.requiredKinds + {POD_GVK} && gvk !in left ::
                    WatchKey(gvk, 0) in watches || WatchKey(gvk, namespace) in watches
      {
        var gvk :| gvk in left;
        left := left - {gvk};
        if WatchKey(gvk, 0) !in watches && WatchKey(gvk, namespace) !in watches {
          return false;
        }
      }
      return true;
    }

    method NoRequiredFailure() returns (none: bool)
      ensures none <==> forall r | r in watchFailures :: !RequiredWatch(env, r.gvk)
    {
      var left := watchFailures.Keys;
      while left != {}
        invariant left <= watchFailures.Keys
        invariant forall r | r in watchFailures && r !in left :: !RequiredWatch(env, r.gvk)
      {
        var r :| r in left;
        left := left - {r};
        if RequiredWatch(env, r.gvk) {
          return false;
        }
      }
      return true;
    }

    method RequiredWatchesReady() returns (ready: bool)
      ensures ready <==> forall k | k in watches && RequiredWatch(env, k.gvk) :: watches[k].ready && watches[k].err == {} && k !in replacements
    {
      var left := watches.Keys;
      while left != {}
        invariant left <= watches.Keys
        invariant forall k | k in watches && k !in left && RequiredWatch(env, k.gvk) ::
                    watches[k].ready && watches[k].err == {} && k !in replacements
      {
        var k :| k in left;
        left := left - {k};
        if RequiredWatch(env, k.gvk) && (!watches[k].ready || watches[k].err != {} || k in replacements) {
          return false;
        }
      }
      return true;
    }

    /** ready, while the runtime has not been stopped. */
    method Ready() returns (ready: bool)
      ensures ready == ControllerModel.Ready(env, Snapshot())
    {
      if definitionErr != {} || watches == map[] {
        return false;
      }
      var noFailure := NoRequiredFailure();
      var watchesReady := RequiredWatchesReady();
      if !noFailure || !watchesReady {
        return false;
      }
      if !env.scoped {
        ready := HasRequired(0);
        return;
      }
      if NAMESPACE_WATCH !in watches {
        return false;
      }
      hide HasRequiredWatches;
      var left := watches[NAMESPACE_WATCH].objects;
      while left != {}
        invariant left <= watches[NAMESPACE_WATCH].objects
        invariant forall k | k in watches[NAMESPACE_WATCH].objects && k !in left ::
                    k in objects && env.admits(objects[k].obj.labels) ==> HasRequiredWatches(env, Snapshot().cache, objects[k].obj.name)
      {
        var k :| k in left;
        left := left - {k};
        if k in objects && env.admits(objects[k].obj.labels) {
          var covered := HasRequired(objects[k].obj.name);
          if !covered {
            return false;
          }
        }
      }
      return true;
    }
  }

  lemma UpdatedState(e: Env, s: State, w: Handle, err: Failure, t: State)
    requires IsTracked(s.cache, w)
    requires t == s.(cache := HealthCache(s.cache, w, err), pubs := t.pubs, queues := t.queues)
    requires t.pubs == if w.key !in t.cache.replacements || IsReplacement(t.cache, w)
                       then s.pubs.(health := s.pubs.health[w.key := Health(WatchOf(s.cache, w).ready, FailureReason(err))]) else s.pubs
    requires var recovered := WatchOf(s.cache, w).err != {} && err == {};
             t.queues == Queues(if recovered then s.queues.pods + {Rescan(w.key.namespace)} else s.queues.pods,
                                if recovered then s.queues.work + RootJobs(s.members.roots) else s.queues.work,
                                s.queues.sync || w.key.gvk == NAMESPACE_GVK)
    ensures t == ControllerModel.UpdateWatchHealth(e, s, w, err)
  {
  }

  lemma PromotedKeys(c: Cache, w: Handle, listed: map<ObjectKey, Object>)
    requires IsTracked(c, w)
    ensures w.key in Promote(c, w).watches && Vanished(c, w, listed) == Promote(c, w).watches[w.key].objects - listed.Keys
  {
  }

  lemma DropNone(e: Env, s: State)
    ensures DropObjects(e, s, []) == s
  {
  }

  lemma {:induction false} DropOneMore(e: Env, s: State, keys: seq<ObjectKey>, key: ObjectKey)
    ensures DropObjects(e, s, keys + [key]) == DropObject(e, DropObjects(e, s, keys), key)
    decreases |keys|
  {
    hide DropObject;
    if keys == [] {
      assert [key][1..] == [];
    } else {
      assert (keys + [key])[1..] == keys[1..] + [key];
      DropOneMore(e, DropObject(e, s, keys[0]), keys[1..], key);
    }
  }

  lemma DropSourcedNone(e: Env, s: State, source: WatchKey)
    ensures DropSourced(e, s, source, []) == s
  {
  }

  lemma {:induction false} DropSourcedOneMore(e: Env, s: State, source: WatchKey, keys: seq<ObjectKey>, key: ObjectKey)
    ensures var t := DropSourced(e, s, source, keys);
            DropSourced(e, s, source, keys + [key])
            == if key in t.cache.objects && t.cache.objects[key].source == source then DropObject(e, t, key) else t
    decreases |keys|
  {
    hide DropObject;
    if keys == [] {
      assert [key][1..] == [];
    } else {
      assert (keys + [key])[1..] == keys[1..] + [key];
      DropSourcedOneMore(e, if keys[0] in s.cache.objects && s.cache.objects[keys[0]].source == source then DropObject(e, s, keys[0]) else s,
                         source, keys[1..], key);
    }
  }

  ghost function KindPodsOf(e: Env, s: State, kinds: set<GroupKind>, o: Object): set<JobKey> {
    if o.gvk.groupKind in kinds
       || (var root := PodRootOf(s.members, o.uid); root !in s.members.roots || s.members.roots[root].ref.gvk.groupKind in kinds)
    then PodAlert(e, s, Some(o)) else {}
  }

  ghost function KindObjectsOf(s: State, kinds: set<GroupKind>, o: Object): set<WorkJob> {
    if o.gvk.groupKind in kinds && ShouldDiscover(s.defs, o.gvk) then {SelectedJob(JobFor(RefOf(o)))} else {}
  }

  ghost function KindPodsAmong(e: Env, s: State, kinds: set<GroupKind>, keys: set<ObjectKey>): set<JobKey> {
    set k, j | k in keys && k in s.cache.objects && j in KindPodsOf(e, s, kinds, s.cache.objects[k].obj) :: j
  }

  ghost function KindObjectsAmong(s: State, kinds: set<GroupKind>, keys: set<ObjectKey>): set<WorkJob> {
    set k, j | k in keys && k in s.cache.objects && j in KindObjectsOf(s, kinds, s.cache.objects[k].obj) :: j
  }

  lemma KindAmongStep(e: Env, s: State, kinds: set<GroupKind>, keys: set<ObjectKey>, k: ObjectKey)
    requires k in s.cache.objects
    ensures KindPodsAmong(e, s, kinds, keys + {k}) == KindPodsAmong(e, s, kinds, keys) + KindPodsOf(e, s, kinds, s.cache.objects[k].obj)
    ensures KindObjectsAmong(s, kinds, keys + {k}) == KindObjectsAmong(s, kinds, keys) + KindObjectsOf(s, kinds, s.cache.objects[k].obj)
  {
    hide KindPodsOf, KindObjectsOf;
  }

  lemma KindAmongAll(e: Env, s: State, kinds: set<GroupKind>)
    ensures KindPodsAmong(e, s, kinds, s.cache.objects.Keys) == KindPods(e, s, kinds)
    ensures KindObjectsAmong(s, kinds, s.cache.objects.Keys) == KindObjects(s, kinds)
  {
    hide PodAlert, ShouldDiscover;
    forall j ensures j in KindPodsAmong(e, s, kinds, s.cache.objects.Keys) <==> j in KindPods(e, s, kinds) {
      if j in KindPods(e, s, kinds) {
        var k :| k in s.cache.objects && j in KindPodsOf(e, s, kinds, s.cache.objects[k].obj);
      }
      if j in KindPodsAmong(e, s, kinds, s.cache.objects.Keys) {
        var k :| k in s.cache.objects && j in KindPodsOf(e, s, kinds, s.cache.objects[k].obj);
        assert j in PodAlert(e, s, Some(s.cache.objects[k].obj));
      }
    }
    forall j ensures j in KindObjectsAmong(s, kinds, s.cache.objects.Keys) <==> j in KindObjects(s, kinds) {
      if j in KindObjects(s, kinds) {
        var k :| k in s.cache.objects && j in KindObjectsOf(s, kinds, s.cache.objects[k].obj);
      }
    }
  }

  ghost function AffectedPodsAmong(s: State, everything: bool, kinds: set<GroupKind>, uids: set<Uid>): set<JobKey> {
    set r, j | r in uids && r in s.members.roots && Affected(s.members.roots[r], everything, kinds) && j in s.members.roots[r].pods.Values :: j
  }

  /** The jobs of the given roots, where affected, and of their selected objects. */
  ghost function AffectedRootWork(s: State, everything: bool, kinds: set<GroupKind>, uids: set<Uid>): set<WorkJob> {
    (set r | r in uids && r in s.members.roots && Affected(s.members.roots[r], everything, kinds) :: RootJob(r))
    + (set r, j | r in uids && r in s.members.roots && Affected(s.members.roots[r], everything, kinds) && j in s.members.roots[r].selected
       :: SelectedJob(j))
  }

  lemma AffectedStep(s: State, everything: bool, kinds: set<GroupKind>, uids: set<Uid>, uid: Uid)
    requires uid in s.members.roots
    ensures var root := s.members.roots[uid];
            var affected := Affected(root, everything, kinds);
            && AffectedPodsAmong(s, everything, kinds, uids + {uid})
               == AffectedPodsAmong(s, everything, kinds, uids) + (if affected then root.pods.Values else {})
            && AffectedRootWork(s, everything, kinds, uids + {uid})
               == AffectedRootWork(s, everything, kinds, uids) + (if affected then {RootJob(uid)} + SelectedJobs(root.selected) else {})
  {
    hide Affected;
  }

  lemma AffectedEnds(s: State, everything: bool, kinds: set<GroupKind>)
    ensures AffectedPodsAmong(s, everything, kinds, {}) == {} && AffectedRootWork(s, everything, kinds, {}) == {}
    ensures AffectedPodsAmong(s, everything, kinds, s.members.roots.Keys) == AffectedPods(s, everything, kinds)
  {
    hide Affected;
  }

  /** A pass of the sources worker, on a state that already has the new definitions. */
  ghost function ScopePass(e: Env, s: State, order: SyncOrder): State
    requires e.scoped ==> NamespaceWatchReady(s.cache)
  {
    var t := RetireWatches(e, ShrinkScope(e, s, order.roots), order.watches, order.objects);
    ForgetFailures(t, OutOfScopeFailures(t))
  }

  ghost predicate IsPassOrder(e: Env, s: State, order: SyncOrder)
    requires e.scoped ==> NamespaceWatchReady(s.cache)
  {
    && (e.scoped ==> Ordering(order.roots, OutOfScopeRoots(e, s.(scopes := AdmittedNamespaces(e, s.cache)))))
    && (var t := ShrinkScope(e, s, order.roots);
        && Ordering(order.watches, OutOfScopeWatches(t))
        && (forall k :: k in order.watches ==>
              (k in order.objects && k in t.cache.watches && Ordering(order.objects[k], t.cache.watches[k].objects))))
  }

  lemma PassIs(e: Env, s: State, offered: map<GroupKind, Selection>, err: Failure, order: SyncOrder)
    ensures var s1 := ControllerModel.RefreshDefinitions(e, s, offered, err);
            if e.scoped && !NamespaceWatchReady(s1.cache) then
              IsSyncOrder(e, s, offered, err, order) && ControllerModel.PrepareWatchRequests(e, s, offered, err, order) == s1
            else
              (IsSyncOrder(e, s, offered, err, order) <==> IsPassOrder(e, s1, order))
              && ControllerModel.PrepareWatchRequests(e, s, offered, err, order) == ScopePass(e, s1, order)
  {
    hide ControllerModel.RefreshDefinitions, RemoveRoots, RetireWatches, AdmittedNamespaces, OutOfScopeRoots, OutOfScopeWatches, ShrinkScope;
  }

  /** The jobs a committed refresh queues, on a state that already has the new definitions. */
  ghost function RefreshedQueues(e: Env, s: State, healthChanged: bool, kinds: set<GroupKind>): State {
    s.(queues := Queues(s.queues.pods + ((if healthChanged then {Rescan(0)} else KindPods(e, s, kinds)) + AffectedPods(s, healthChanged, kinds)),
                        s.queues.work + ((if healthChanged then {} else KindObjects(s, kinds)) + AffectedWork(s, healthChanged, kinds)),
                        s.queues.sync))
  }

  lemma RefreshedState(e: Env, s: State, offered: map<GroupKind, Selection>, err: Failure, s1: State, t: State)
    requires var next := if err != {} then s.defs.selected else offered;
             var healthChanged := FailureReason(s.defs.err) != FailureReason(err);
             var kinds := ChangedKinds(s.defs, next);
             && s1 == s.(defs := s.defs.(selected := MergedDefinitions(s.defs, next), err := err),
                         pubs := if e.clusterDefinitions then s.pubs.(definitionHealth := Some(Health(err == {}, FailureReason(err)))) else s.pubs)
             && (if healthChanged || kinds != {}
                 then t == RefreshedQueues(e, s1.(defs := s1.defs.(version := s.defs.version + 1)), healthChanged, kinds)
                 else t == s1)
    ensures t == ControllerModel.RefreshDefinitions(e, s, offered, err)
  {
    hide FailureReason, MergedDefinitions, ChangedKinds, KindPods, KindObjects, AffectedPods, AffectedWork;
  }

  lemma AffectedSplit(s: State, t: State, everything: bool, kinds: set<GroupKind>)
    requires t.members == s.members
    ensures AffectedPods(t, everything, kinds) == AffectedPods(s, everything, kinds)
    ensures AffectedWork(s, everything, kinds)
         == AffectedRootWork(t, everything, kinds, s.members.roots.Keys)
            + set j | j in s.members.selected && j.obj.gvk.groupKind in kinds :: SelectedJob(j)
  {
    hide Affected;
  }

  lemma {:induction false} RemoveOneMore(s: State, uids: seq<Uid>, uid: Uid)
    ensures RemoveRoots(s, uids + [uid]) == RemoveRoot(RemoveRoots(s, uids), uid)
    decreases |uids|
  {
    hide RemoveRoot;
    if uids == [] {
      assert [uid][1..] == [];
    } else {
      assert (uids + [uid])[1..] == uids[1..] + [uid];
      RemoveOneMore(RemoveRoot(s, uids[0]), uids[1..], uid);
    }
  }

  /** The pass over the roots so far: all but those in `left` were looked at. */
  ghost predicate Withdrawn(e: Env, s: State, order: seq<Uid>, left: set<Uid>, t: State) {
    && Ordering(order, set uid | uid in s.members.roots && uid !in left && !IsNamespaceInScope(e, s.scopes, s.members.roots[uid].ref.namespace))
    && t == RemoveRoots(s, order) && t.scopes == s.scopes && t.members.roots == s.members.roots - (set uid | uid in order)
  }

  lemma WithdrawnStep(e: Env, s: State, order: seq<Uid>, left: set<Uid>, t: State, uid: Uid)
    requires Withdrawn(e, s, order, left, t) && uid in left && left <= s.members.roots.Keys
    ensures uid in t.members.roots && t.members.roots[uid] == s.members.roots[uid] && t.scopes == s.scopes
    ensures if IsNamespaceInScope(e, s.scopes, s.members.roots[uid].ref.namespace) then Withdrawn(e, s, order, left - {uid}, t)
            else Withdrawn(e, s, order + [uid], left - {uid}, RemoveRoot(t, uid))
  {
    hide RemoveRoot, RemoveRoots;
    var done := set u | u in s.members.roots && u !in left && !IsNamespaceInScope(e, s.scopes, s.members.roots[u].ref.namespace);
    var next := set u | u in s.members.roots && u !in left - {uid} && !IsNamespaceInScope(e, s.scopes, s.members.roots[u].ref.namespace);
    assert uid !in done && uid !in order;
    if IsNamespaceInScope(e, s.scopes, s.members.roots[uid].ref.namespace) {
      assert next == done;
    } else {
      assert next == done + {uid};
      OrderingExtends(order, done, uid);
      RemoveOneMore(s, order, uid);
      RemovedRoots(t, uid);
      assert (set u | u in order + [uid]) == (set u | u in order) + {uid};
    }
  }

  lemma RemovedRoots(s: State, uid: Uid)
    ensures RemoveRoot(s, uid).members.roots == s.members.roots - {uid} && RemoveRoot(s, uid).scopes == s.scopes
  {
  }

  /** The pass over the watches so far: all but those in `left` were looked at. */
  ghost predicate Retired(e: Env, s: State, keys: seq<WatchKey>, order: map<WatchKey, seq<ObjectKey>>, left: set<WatchKey>, t: State) {
    && Ordering(keys, set k | k in s.cache.watches && k !in left && k.namespace != 0 && k.namespace !in s.scopes)
    && (forall k :: k in keys ==> k in order && k in s.cache.watches && Ordering(order[k], s.cache.watches[k].objects))
    && t == RetireWatches(e, s, keys, order)
    && t.cache.watches == s.cache.watches - (set k | k in keys)
  }

  lemma RetiredMore(e: Env, s: State, keys: seq<WatchKey>, order: map<WatchKey, seq<ObjectKey>>, left: set<WatchKey>, t: State,
                    key: WatchKey, objects: seq<ObjectKey>)
    requires Retired(e, s, keys, order, left, t) && key in left && key in t.cache.watches && Ordering(objects, t.cache.watches[key].objects)
    requires key.namespace != 0 && key.namespace !in s.scopes
    ensures Retired(e, s, keys + [key], order[key := objects], left - {key}, RetireWatch(e, t, key, objects))
  {
    hide RetireWatch, RetireWatches;
    assert key !in keys;
    var done := set k | k in s.cache.watches && k !in left && k.namespace != 0 && k.namespace !in s.scopes;
    assert done + {key} == set k | k in s.cache.watches && k !in left - {key} && k.namespace != 0 && k.namespace !in s.scopes;
    OrderingExtends(keys, done, key);
    RetireOneMore(e, s, keys, order, key, objects);
    RetireRest(e, t, key, objects);
    assert (set k | k in keys + [key]) == (set k | k in keys) + {key};
  }

  lemma RetiredSkip(e: Env, s: State, keys: seq<WatchKey>, order: map<WatchKey, seq<ObjectKey>>, left: set<WatchKey>, t: State, key: WatchKey)
    requires Retired(e, s, keys, order, left, t) && (key.namespace == 0 || key.namespace in s.scopes)
    ensures Retired(e, s, keys, order, left - {key}, t)
  {
    var done := set k | k in s.cache.watches && k !in left && k.namespace != 0 && k.namespace !in s.scopes;
    assert done == set k | k in s.cache.watches && k !in left - {key} && k.namespace != 0 && k.namespace !in s.scopes;
    hide RetireWatches;
  }

  lemma {:induction false} RetireOneMore(e: Env, s: State, keys: seq<WatchKey>, order: map<WatchKey, seq<ObjectKey>>,
                                         key: WatchKey, objects: seq<ObjectKey>)
    requires key !in keys
    ensures RetireWatches(e, s, keys + [key], order[key := objects]) == RetireWatch(e, RetireWatches(e, s, keys, order), key, objects)
    decreases |keys|
  {
    hide RetireWatch;
    if keys == [] {
      assert [key][1..] == [];
    } else {
      assert (keys + [key])[1..] == keys[1..] + [key];
      RetireOneMore(e, RetireWatch(e, s, keys[0], if keys[0] in order then order[keys[0]] else []), keys[1..], order, key, objects);
    }
  }

  ghost function RescannedPodsAmong(e: Env, s: State, namespace: Name, keys: set<ObjectKey>): set<JobKey> {
    set k, j | k in keys && k in s.cache.objects && (namespace == 0 || s.cache.objects[k].obj.namespace == namespace)
               && j in PodAlert(e, s, Some(s.cache.objects[k].obj)) :: j
  }

  ghost function RescannedObjects(s: State, namespace: Name, keys: set<ObjectKey>): set<WorkJob> {
    set k | k in keys && k in s.cache.objects && (namespace == 0 || s.cache.objects[k].obj.namespace == namespace)
            && ShouldDiscover(s.defs, s.cache.objects[k].obj.gvk) :: SelectedJob(JobFor(RefOf(s.cache.objects[k].obj)))
  }

  lemma RescannedStep(e: Env, s: State, namespace: Name, keys: set<ObjectKey>, k: ObjectKey)
    requires k in s.cache.objects
    ensures var o := s.cache.objects[k].obj;
            var concerned := namespace == 0 || o.namespace == namespace;
            && RescannedPodsAmong(e, s, namespace, keys + {k})
               == RescannedPodsAmong(e, s, namespace, keys) + (if concerned then PodAlert(e, s, Some(o)) else {})
            && RescannedObjects(s, namespace, keys + {k})
               == RescannedObjects(s, namespace, keys)
                  + (if concerned && ShouldDiscover(s.defs, o.gvk) then {SelectedJob(JobFor(RefOf(o)))} else {})
  {
    hide PodAlert, ShouldDiscover;
  }

  lemma RescannedEnds(e: Env, s: State, namespace: Name)
    ensures RescannedPodsAmong(e, s, namespace, {}) == {} && RescannedObjects(s, namespace, {}) == {}
    ensures RescannedPodsAmong(e, s, namespace, s.cache.objects.Keys) == RescannedPods(e, s, namespace)
  {
    hide PodAlert, ShouldDiscover;
  }

  lemma RescannedSplit(s: State, namespace: Name)
    ensures RescannedWork(s, namespace)
         == RescannedObjects(s, namespace, s.cache.objects.Keys)
            + set j | j in s.members.selected && (namespace == 0 || j.obj.namespace == namespace) :: SelectedJob(j)
  {
    hide ShouldDiscover;
  }

  lemma PutNone(e: Env, s: State, source: WatchKey, objects: map<ObjectKey, Object>)
    ensures PutObjects(e, s, source, objects, []) == s
  {
  }

  lemma {:induction false} PutOneMore(e: Env, s: State, source: WatchKey, objects: map<ObjectKey, Object>, keys: seq<ObjectKey>, key: ObjectKey)
    requires key in objects && forall k :: k in keys ==> k in objects
    ensures PutObjects(e, s, source, objects, keys + [key])
         == PutObject(e, PutObjects(e, s, source, objects, keys), key, CachedObject(objects[key], source))
    decreases |keys|
  {
    hide PutObject;
    if keys == [] {
      assert [key][1..] == [];
    } else {
      assert (keys + [key])[1..] == keys[1..] + [key];
      PutOneMore(e, PutObject(e, s, keys[0], CachedObject(objects[keys[0]], source)), source, objects, keys[1..], key);
    }
  }

  lemma ChangedState(e: Env, s: State, was: Option<Object>, current: Option<Object>, t: State)
    requires was.Some? || current.Some?
    requires var obj := if current.Some? then current.value else was.value;
             && t == s.(queues := t.queues, members := s.members.(ancestors := t.members.ancestors))
             && t.queues.pods == (s.queues.pods + MemberPods(e, s, was, current))
                + (if (OwnershipChanged(was, current) && IsAncestor(s.members.ancestors, was, obj)) || SelectorChanged(e, was, current)
                   then {Rescan(obj.namespace)} else {})
             && t.queues.work == s.queues.work + MemberWork(s, was, current, OwnershipChanged(was, current))
             && (t.queues.sync <==> s.queues.sync || (obj.gvk == NAMESPACE_GVK && e.scoped))
             && t.members.ancestors == if Replaced(was, current) then s.members.ancestors - {was.value.uid} else s.members.ancestors
    ensures t == ControllerModel.QueueObjectChange(e, s, was, current)
  {
    ChangedQueues(e, s, was, current);
    hide OwnershipChanged, IsAncestor, SelectorChanged, MemberPods, MemberWork, ChangedPods, ChangedWork;
  }

  /** What the disappearance of an object queues besides Pods. */
  ghost function ReplacedWork(s: State, was: Object): set<WorkJob> {
    (if JobFor(RefOf(was)) in s.members.selected then {SelectedJob(JobFor(RefOf(was)))} else {})
    + RootWork(s, was.uid)
    + (if was.uid in s.members.roots then SelectedJobs(s.members.roots[was.uid].selected) else {})
  }

  /** What an object that is there now queues besides Pods. */
  ghost function CurrentWork(s: State, current: Object, ownershipChanged: bool): set<WorkJob> {
    (if (JobFor(RefOf(current)) !in s.members.selected || ownershipChanged) && ShouldDiscover(s.defs, current.gvk)
     then {SelectedJob(JobFor(RefOf(current)))} else {})
    + RootWork(s, current.uid)
  }

  ghost function MemberPods(e: Env, s: State, was: Option<Object>, current: Option<Object>): set<JobKey> {
    PodAlert(e, s, was) + PodAlert(e, s, current)
    + (if Replaced(was, current) then RootPods(s, was.value.uid) else {})
    + (if current.Some? then RootPods(s, current.value.uid) else {})
  }

  ghost function MemberWork(s: State, was: Option<Object>, current: Option<Object>, ownershipChanged: bool): set<WorkJob> {
    (if Replaced(was, current) then ReplacedWork(s, was.value) else {})
    + (if current.Some? then CurrentWork(s, current.value, ownershipChanged) else {})
  }

  lemma ChangedQueues(e: Env, s: State, was: Option<Object>, current: Option<Object>)
    requires was.Some? || current.Some?
    ensures ChangedWork(e, s, was, current) == MemberWork(s, was, current, OwnershipChanged(was, current))
    ensures ChangedPods(e, s, was, current)
         == MemberPods(e, s, was, current)
            + (var obj := if current.Some? then current.value else was.value;
               if (OwnershipChanged(was, current) && IsAncestor(s.members.ancestors, was, obj)) || SelectorChanged(e, was, current)
               then {Rescan(obj.namespace)} else {})
  {
  }

  lemma MoreAncestors(path: seq<ObjectRef>, i: nat)
    requires 1 <= i < |path|
    ensures AncestorPods(path[..i + 1]) == AncestorPods(path[..i]) + if path[i].gvk == POD_GVK then {path[i].uid} else {}
  {
    var longer, shorter := path[..i + 1], path[..i];
    forall uid | uid in AncestorPods(longer)
      ensures uid in AncestorPods(shorter) + if path[i].gvk == POD_GVK then {path[i].uid} else {}
    {
      var j :| 1 <= j < |longer| && longer[j].gvk == POD_GVK && longer[j].uid == uid;
      if j < i { assert shorter[j] == longer[j]; }
    }
    forall uid | uid in AncestorPods(shorter) ensures uid in AncestorPods(longer) {
      var j :| 1 <= j < |shorter| && shorter[j].gvk == POD_GVK && shorter[j].uid == uid;
      assert shorter[j] == longer[j];
    }
    if path[i].gvk == POD_GVK {
      assert longer[i] == path[i];
    }
  }
}
