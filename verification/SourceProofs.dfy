/** Watched sources: namespace containment, health mirrors, and one logical collection per source. */
module SourceProofs {
  import opened Basics
  import opened Discovery
  import opened ControllerModel
  import opened ControllerSystem
  import opened CacheProofs

  // ---------------------------------------------------------------- namespace containment

  /** With a namespace selector, an admitted namespace or a cluster-scoped kind. */
  predicate Admitted(e: Env, scopes: set<Name>, gvk: Gvk, namespace: Name) {
    !e.scoped || (if namespace == 0 then e.clusterScoped(gvk.groupKind) else namespace in scopes)
  }

  ghost predicate SourcesContained(e: Env, s: State) {
    && (forall k :: k in s.cache.watches ==> Admitted(e, s.scopes, k.gvk, k.namespace))
    && (forall k :: k in s.cache.replacements ==> Admitted(e, s.scopes, k.gvk, k.namespace))
    && (forall r :: r in s.watchFailures ==> IsNamespaceInScope(e, s.scopes, r.namespace))
  }

  ghost predicate RootsContained(e: Env, s: State) {
    forall uid :: uid in s.members.roots ==> IsNamespaceInScope(e, s.scopes, s.members.roots[uid].ref.namespace)
  }

  /** A request that names a namespace, or needs none. */
  predicate ScopedRequest(e: Env, r: Request) {
    !e.scoped || r.namespace != 0 || e.clusterScoped(r.gvk.groupKind)
  }

  /** What holds of namespaces in every run: a watch in a namespace is in an admitted one, and so is a watch failure. */
  ghost predicate NamespacedIn(e: Env, s: State) {
    && (forall k :: k in s.cache.watches && k.namespace != 0 ==> k.namespace in s.scopes)
    && (forall r :: r in s.watchFailures ==> IsNamespaceInScope(e, s.scopes, r.namespace))
  }

  /** With a namespace selector, the watches over all namespaces of a namespaced kind. */
  function OpenWatches(e: Env, c: Cache): set<WatchKey> {
    set k | k in c.watches && e.scoped && k.namespace == 0 && !e.clusterScoped(k.gvk.groupKind)
  }

  lemma ContainedMeansClosed(e: Env, s: State)
    requires NamespacedIn(e, s) && ReplacementsOk(s.cache)
    ensures SourcesContained(e, s) <==> OpenWatches(e, s.cache) == {}
  {
    if k :| k in s.cache.watches && !Admitted(e, s.scopes, k.gvk, k.namespace) {
      assert k in OpenWatches(e, s.cache);
    }
  }

  /** Serving a request opens a watch over all namespaces exactly when a namespaced kind is asked for in no namespace. */
  lemma RequestOpens(e: Env, s: State, r: Request, mapping: Failure, id: nat)
    requires NamespacedIn(e, s)
    ensures var t := ServeRequest(e, s, Some(r), mapping, id);
            && NamespacedIn(e, t)
            && OpenWatches(e, t.cache)
               == OpenWatches(e, s.cache) + if mapping == {} && !ScopedRequest(e, r) then {WatchKey(r.gvk, 0)} else {}
  {
    EnsureEffect(e, s, r.gvk, r.namespace, r.metadataOnly, mapping, id);
    RequestRest(e, s, Some(r), mapping, id);
    RequestFailures(e, s, r, mapping, id);
    hide Ensure;
  }

  lemma RequestFailures(e: Env, s: State, r: Request, mapping: Failure, id: nat)
    ensures var t := ServeRequest(e, s, Some(r), mapping, id);
            forall f :: f in t.watchFailures ==>
              f in s.watchFailures || (f == WatchKey(r.gvk, r.namespace) && IsNamespaceInScope(e, s.scopes, r.namespace))
  {
    hide FailureReason, ServingKey;
  }

  /** The same collections are watched in the same scope. */
  ghost predicate SameWatched(s: State, t: State) {
    t.cache.watches.Keys == s.cache.watches.Keys && t.scopes == s.scopes && t.watchFailures == s.watchFailures
  }

  lemma EventWatches(e: Env, s: State, w: Handle, o: Object, deleted: bool)
    ensures SameWatched(s, ApplyWatchEvent(e, s, w, o, deleted))
  {
    EventEffect(e, s, w, o, deleted);
    hide ApplyWatchEvent;
  }

  lemma HealthWatches(e: Env, s: State, w: Handle, err: Failure)
    ensures SameWatched(s, UpdateWatchHealth(e, s, w, err))
  {
    HealthEffect(e, s, w, err);
    HealthRest(e, s, w, err);
    hide UpdateWatchHealth;
  }

  lemma SnapshotWatches(e: Env, s: State, w: Handle, objects: map<ObjectKey, Object>, drop: seq<ObjectKey>, put: seq<ObjectKey>)
    requires ReplacementsOk(s.cache) && Genuine(s.cache, w) && IsTracked(s.cache, w)
    requires Ordering(put, objects.Keys) && Ordering(drop, Vanished(s.cache, w, objects))
    ensures SameWatched(s, Replace(e, s, w, objects, drop, put))
  {
    SnapshotRest(e, s, w, objects, drop, put);
    SnapshotEffect(e, s, w, objects, drop, put);
    AcceptedShape(s.cache, w, objects);
    hide Replace, AcceptedCache, ReplacementsOk;
  }

  // ---------------------------------------------------------------- the sources worker

  lemma {:induction false} RemoveRootsRoots(s: State, uids: seq<Uid>)
    ensures RemoveRoots(s, uids).members.roots == s.members.roots - (set uid | uid in uids)
    decreases |uids|
  {
    if uids != [] {
      RemoveRootsRoots(RemoveRoot(s, uids[0]), uids[1..]);
      assert RemoveRoot(s, uids[0]).members.roots == s.members.roots - {uids[0]};
      hide RemoveRoot;
      assert (set uid | uid in uids) == {uids[0]} + (set uid | uid in uids[1..]);
    }
  }

  lemma ShrinkKeepsRootScope(e: Env, s: State, order: seq<Uid>)
    requires e.scoped ==> NamespaceWatchReady(s.cache)
    requires e.scoped ==> Ordering(order, OutOfScopeRoots(e, s.(scopes := AdmittedNamespaces(e, s.cache))))
    requires RootsContained(e, s)
    ensures RootsContained(e, ShrinkScope(e, s, order))
  {
    if e.scoped {
      var s1 := s.(scopes := AdmittedNamespaces(e, s.cache));
      RemoveRootsEffect(s1, order);
      RemoveRootsRoots(s1, order);
      hide RemoveRoots;
    }
  }

  /** A pass retires the watches outside the scope it leaves, and no watch in no namespace. */
  lemma SyncRetires(e: Env, s: State, offered: map<GroupKind, Selection>, err: Failure, order: SyncOrder)
    requires IsSyncOrder(e, s, offered, err, order) && NamespacedIn(e, s)
    ensures var t := PrepareWatchRequests(e, s, offered, err, order);
            && NamespacedIn(e, t)
            && t.cache.watches.Keys == set k | k in s.cache.watches && (k.namespace == 0 || k.namespace in t.scopes)
  {
    RefreshEffect(e, s, offered, err);
    var s1 := RefreshDefinitions(e, s, offered, err);
    hide RefreshDefinitions, RemoveRoots, RetireWatches;
    if !e.scoped || NamespaceWatchReady(s1.cache) {
      var s2 := ShrinkScope(e, s1, order.roots);
      if e.scoped {
        RemoveRootsEffect(s1.(scopes := AdmittedNamespaces(e, s1.cache)), order.roots);
      }
      RetireWatchesRest(e, s2, order.watches, order.objects);
    }
  }

  // ---------------------------------------------------------------- roots

  /** Every root's namespace was already a root's namespace, or passed the scope check. */
  ghost predicate RootsFrom(e: Env, s: State, t: State) {
    && t.scopes == s.scopes
    && forall uid :: uid in t.members.roots ==>
         || (uid in s.members.roots && t.members.roots[uid].ref.namespace == s.members.roots[uid].ref.namespace)
         || IsNamespaceInScope(e, s.scopes, t.members.roots[uid].ref.namespace)
  }

  lemma EnsureRootFrom(e: Env, s: State, workload: Workload)
    requires IsNamespaceInScope(e, s.scopes, workload.root.namespace)
    ensures RootsFrom(e, s, EnsureRoot(s, workload))
  {
    hide Lookup, AncestorPods;
  }

  lemma AttachPodFrom(e: Env, s: State, key: JobKey, root: Uid)
    requires root in s.members.roots
    ensures RootsFrom(e, s, AttachPod(s, key, root))
  {
  }

  lemma AttachSelectedFrom(e: Env, s: State, key: JobKey, root: Uid)
    requires root in s.members.roots
    ensures RootsFrom(e, s, AttachSelected(s, key, root))
  {
  }

  lemma PodStepFrom(e: Env, s: State, key: JobKey, pc: PodPc, input: Input, id: nat)
    requires PodRequest(pc).None?
    ensures RootsFrom(e, s, StepPodProgram(e, s, key, pc, input, id).0)
  {
    hide Lookup, HasRootOwnership, IsPathCurrent, VisitObject, MayVisit, JudgePod, RescannedPods, RescannedWork, EnsureRoot, AttachPod;
    if pc.PodRegister? {
      EnsureRootTracks(s, pc.workload);
      if IsNamespaceInScope(e, s.scopes, pc.workload.root.namespace) {
        EnsureRootFrom(e, s, pc.workload);
        AttachPodFrom(e, EnsureRoot(s, pc.workload), key, pc.workload.root.uid);
      }
    }
  }

  lemma RootStepFrom(e: Env, s: State, uid: Uid, pc: RootPc, input: Input, id: nat)
    requires RootRequest(pc).None?
    ensures RootsFrom(e, s, StepRootProgram(e, s, uid, pc, input, id).0)
  {
    hide Lookup, HasRootOwnership, IsPathCurrent, EvaluateWorkload;
  }

  lemma SelectedStepFrom(e: Env, s: State, op: SelectedOp)
    ensures RootsFrom(e, s, StepSelected(e, s, op))
  {
    hide Lookup, HasRootOwnership, IsPathCurrent, IsDefinitionCurrent, EnsureRoot, AttachSelected;
    if op.Register? {
      EnsureRootTracks(s, op.workload);
      if IsNamespaceInScope(e, s.scopes, op.workload.root.namespace) {
        EnsureRootFrom(e, s, op.workload);
        AttachSelectedFrom(e, EnsureRoot(s, op.workload), op.key, op.workload.root.uid);
      }
    }
  }

  // ---------------------------------------------------------------- every run

  /** The watch request an action makes, if any. */
  function ActionRequest(sys: System, a: Action): Option<Request> {
    match a
    case StartWatch(gvk, namespace, metadataOnly, _) => Some(Request(gvk, namespace, metadataOnly))
    case StepPod(key, _) => if key in sys.pods then PodRequest(sys.pods[key]) else None
    case StepRoot(uid, _) => if uid in sys.roots then RootRequest(sys.roots[uid]) else None
    case _ => None
  }

  function ActionMapping(a: Action): Failure {
    match a
    case StartWatch(_, _, _, mapping) => mapping
    case StepPod(_, input) => input.mapping
    case StepRoot(_, input) => input.mapping
    case _ => {}
  }

  /** The watch over all namespaces of a namespaced kind that an action opens, if it does. */
  ghost function Opened(e: Env, sys: System, a: Action): set<WatchKey> {
    var r := ActionRequest(sys, a);
    if Enabled(e, sys, a) && r.Some? && ActionMapping(a) == {} && !ScopedRequest(e, r.value) then {WatchKey(r.value.gvk, 0)} else {}
  }

  ghost function OpenedBy(e: Env, actions: seq<Action>): set<WatchKey>
    decreases |actions|
  {
    if actions == [] then {}
    else OpenedBy(e, actions[..|actions| - 1]) + Opened(e, Run(e, actions[..|actions| - 1]), actions[|actions| - 1])
  }

  /** No request the run serves asks for a namespaced kind in no namespace. */
  ghost predicate ScopedRun(e: Env, actions: seq<Action>) {
    forall i :: 0 <= i < |actions| ==> Opened(e, Run(e, actions[..i]), actions[i]) == {}
  }

  lemma {:induction false} ScopedRunOpensNothing(e: Env, actions: seq<Action>)
    ensures ScopedRun(e, actions) <==> OpenedBy(e, actions) == {}
    decreases |actions|
  {
    hide Opened, Run;
    if actions != [] {
      var past := actions[..|actions| - 1];
      ScopedRunOpensNothing(e, past);
      assert forall i :: 0 <= i < |past| ==> actions[..i] == past[..i] && actions[i] == past[i];
      assert actions[..|past|] == past;
      assert ScopedRun(e, actions) <==> ScopedRun(e, past) && Opened(e, Run(e, past), actions[|past|]) == {} by {
        if ScopedRun(e, past) && Opened(e, Run(e, past), actions[|past|]) == {} {
          forall i | 0 <= i < |actions| ensures Opened(e, Run(e, actions[..i]), actions[i]) == {} {
            if i < |past| { assert Opened(e, Run(e, past[..i]), past[i]) == {}; }
          }
        }
        if ScopedRun(e, actions) {
          forall i | 0 <= i < |past| ensures Opened(e, Run(e, past[..i]), past[i]) == {} {
            assert Opened(e, Run(e, actions[..i]), actions[i]) == {};
          }
        }
      }
    }
  }

  /** One action opens exactly what it asks for, and closes nothing. */
  lemma NextOpens(e: Env, sys: System, a: Action)
    requires Enabled(e, sys, a) && ReplacementsOk(sys.s.cache) && NamespacedIn(e, sys.s)
    ensures NamespacedIn(e, Next(e, sys, a).s)
    ensures OpenWatches(e, Next(e, sys, a).s.cache) == OpenWatches(e, sys.s.cache) + Opened(e, sys, a)
  {
    hide ApplyWatchEvent, Replace, UpdateWatchHealth, PrepareWatchRequests, Ensure, StepPodProgram, StepRootProgram, StepSelected, ReplacementsOk;
    var s := sys.s;
    if ActionRequest(sys, a).Some? {
      RequestOpens(e, s, ActionRequest(sys, a).value, ActionMapping(a), sys.nextWatch);
      RequestNext(e, sys, a);
      hide Next, OpenWatches, NamespacedIn;
    } else {
      match a
      case WatchEvent(w, o, deleted) => EventWatches(e, s, w, o, deleted);
      case WatchSnapshot(w, objects, drop, put) =>
        if IsTracked(s.cache, w) {
          SnapshotWatches(e, s, w, objects, drop, put);
        } else {
          UntrackedSnapshot(e, s, w, objects, drop, put);
        }
      case WatchStatus(w, err) => HealthWatches(e, s, w, err);
      case SyncSources(offered, err, order) => SyncRetires(e, s, offered, err, order);
      case StartWatch(gvk, namespace, metadataOnly, mapping) => assert false;
      case Selected(op) => SelectedStepTracks(e, s, op);
      case StepPod(key, input) => PodStepCache(e, s, key, sys.pods[key], input, sys.nextWatch);
      case StepRoot(uid, input) => RootStepCache(e, s, uid, sys.roots[uid], input, sys.nextWatch);
      case _ =>
    }
  }

  lemma NextKeepsRootScope(e: Env, sys: System, a: Action)
    requires Enabled(e, sys, a) && ReplacementsOk(sys.s.cache)
    requires RootsContained(e, sys.s)
    ensures RootsContained(e, Next(e, sys, a).s)
  {
    hide ApplyWatchEvent, Replace, UpdateWatchHealth, PrepareWatchRequests, EnsureWatch, StepPodProgram, StepRootProgram, StepSelected, ReplacementsOk;
    var s := sys.s;
    match a
    case WatchEvent(w, o, deleted) => EventEffect(e, s, w, o, deleted);
    case WatchSnapshot(w, objects, drop, put) => SnapshotRest(e, s, w, objects, drop, put);
    case WatchStatus(w, err) => HealthRest(e, s, w, err);
    case SyncSources(offered, err, order) => SyncKeepsRootScope(e, s, offered, err, order);
    case StartWatch(gvk, namespace, metadataOnly, mapping) => EnsureRest(e, s, gvk, namespace, metadataOnly, mapping, sys.nextWatch);
    case Selected(op) => SelectedStepFrom(e, s, op);
    case StepPod(key, input) =>
      if PodRequest(sys.pods[key]).Some? {
        PodStepCache(e, s, key, sys.pods[key], input, sys.nextWatch);
        RequestRest(e, s, PodRequest(sys.pods[key]), input.mapping, sys.nextWatch);
      } else {
        PodStepFrom(e, s, key, sys.pods[key], input, sys.nextWatch);
      }
    case StepRoot(uid, input) =>
      if RootRequest(sys.roots[uid]).Some? {
        RootStepCache(e, s, uid, sys.roots[uid], input, sys.nextWatch);
        RequestRest(e, s, RootRequest(sys.roots[uid]), input.mapping, sys.nextWatch);
      } else {
        RootStepFrom(e, s, uid, sys.roots[uid], input, sys.nextWatch);
      }
    case _ =>
  }

  lemma SyncKeepsRootScope(e: Env, s: State, offered: map<GroupKind, Selection>, err: Failure, order: SyncOrder)
    requires IsSyncOrder(e, s, offered, err, order) && RootsContained(e, s)
    ensures RootsContained(e, PrepareWatchRequests(e, s, offered, err, order))
  {
    RefreshEffect(e, s, offered, err);
    var s1 := RefreshDefinitions(e, s, offered, err);
    hide RefreshDefinitions, RemoveRoots, RetireWatches;
    if !e.scoped || NamespaceWatchReady(s1.cache) {
      ShrinkKeepsRootScope(e, s1, order.roots);
      RetireWatchesRest(e, ShrinkScope(e, s1, order.roots), order.watches, order.objects);
    }
  }

  /** Roots never leave the admitted namespaces, in any run. */
  lemma {:induction false} RootsStayInScope(e: Env, actions: seq<Action>)
    ensures RootsContained(e, Run(e, actions).s)
    decreases |actions|
  {
    if actions != [] {
      var past := actions[..|actions| - 1];
      RootsStayInScope(e, past);
      RunKeepsCache(e, past);
      if Enabled(e, Run(e, past), actions[|actions| - 1]) {
        NextKeepsRootScope(e, Run(e, past), actions[|actions| - 1]);
      }
    }
  }

  /** Nor do the watches in namespaces and the watch failures; and the watches over all namespaces of namespaced
      kinds are exactly those the run asked for. */
  lemma {:induction false} OpenWatchesWereRequested(e: Env, actions: seq<Action>)
    ensures NamespacedIn(e, Run(e, actions).s)
    ensures OpenWatches(e, Run(e, actions).s.cache) == OpenedBy(e, actions)
    decreases |actions|
  {
    if actions == [] {
      assert OpenWatches(e, InitialState(e).cache) == {};
    } else {
      var past := actions[..|actions| - 1];
      OpenWatchesWereRequested(e, past);
      RunKeepsCache(e, past);
      if Enabled(e, Run(e, past), actions[|actions| - 1]) {
        NextOpens(e, Run(e, past), actions[|actions| - 1]);
      }
      hide Next, OpenWatches, NamespacedIn, CacheInv, Enabled;
    }
  }

  /** Every watch, replacement and watch failure of a run is contained if and only if every request
      the run served named a namespace or a cluster-scoped kind. */
  lemma ContainmentIsExact(e: Env, actions: seq<Action>)
    ensures SourcesContained(e, Run(e, actions).s) <==> ScopedRun(e, actions)
  {
    OpenWatchesWereRequested(e, actions);
    ScopedRunOpensNothing(e, actions);
    RunKeepsCache(e, actions);
    ContainedMeansClosed(e, Run(e, actions).s);
    hide Run, ScopedRun, OpenedBy, SourcesContained, OpenWatches;
  }

  lemma RunOneMore(e: Env, actions: seq<Action>, a: Action)
    ensures Run(e, actions + [a]) == if Enabled(e, Run(e, actions), a) then Next(e, Run(e, actions), a) else Run(e, actions)
  {
    assert (actions + [a])[..|actions|] == actions;
    hide Next, Enabled;
  }

  // ---------------------------------------------------------------- who asks for what

  lemma NextScopes(e: Env, sys: System, a: Action)
    requires Enabled(e, sys, a) && ObjectsOk(e, sys.s.cache)
    ensures e.scoped && 0 !in sys.s.scopes ==> 0 !in Next(e, sys, a).s.scopes
  {
    hide ApplyWatchEvent, Replace, UpdateWatchHealth, Ensure, StepPodProgram, StepRootProgram, StepSelected, RefreshDefinitions, RetireWatches, RemoveRoots;
    var s := sys.s;
    if ActionRequest(sys, a).Some? {
      RequestNext(e, sys, a);
      RequestRest(e, s, ActionRequest(sys, a), ActionMapping(a), sys.nextWatch);
    } else {
      match a
      case WatchEvent(w, o, deleted) => EventEffect(e, s, w, o, deleted);
      case WatchSnapshot(w, objects, drop, put) => SnapshotRest(e, s, w, objects, drop, put);
      case WatchStatus(w, err) => HealthRest(e, s, w, err);
      case SyncSources(offered, err, order) =>
        RefreshEffect(e, s, offered, err);
        var s1 := RefreshDefinitions(e, s, offered, err);
        if e.scoped && NamespaceWatchReady(s1.cache) {
          assert 0 !in AdmittedNamespaces(e, s1.cache);
          RemoveRootsEffect(s1.(scopes := AdmittedNamespaces(e, s1.cache)), order.roots);
          RetireWatchesRest(e, ShrinkScope(e, s1, order.roots), order.watches, order.objects);
        }
      case StartWatch(gvk, namespace, metadataOnly, mapping) => assert false;
      case Selected(op) => SelectedStepTracks(e, s, op);
      case StepPod(key, input) => PodStepCache(e, s, key, sys.pods[key], input, sys.nextWatch);
      case StepRoot(uid, input) => RootStepCache(e, s, uid, sys.roots[uid], input, sys.nextWatch);
      case _ =>
    }
  }

  lemma {:induction false} ScopesAreNamed(e: Env, actions: seq<Action>)
    ensures e.scoped ==> 0 !in Run(e, actions).s.scopes
    decreases |actions|
  {
    if actions != [] {
      var past := actions[..|actions| - 1];
      ScopesAreNamed(e, past);
      RunKeepsCache(e, past);
      if Enabled(e, Run(e, past), actions[|actions| - 1]) {
        NextScopes(e, Run(e, past), actions[|actions| - 1]);
      }
      hide Next, Enabled;
    }
  }

  /** What the sources worker asks for is scoped, and in an admitted namespace, in every reachable state. */
  lemma PassAsksInScope(e: Env, actions: seq<Action>, r: WatchKey)
    requires var s := Run(e, actions).s; r in WatchRequests(e, s)
    ensures var s := Run(e, actions).s;
            r.namespace in s.scopes && ScopedRequest(e, Request(r.gvk, r.namespace, false))
  {
    ScopesAreNamed(e, actions);
    hide Run;
  }

  /** A Pod's job stands at an object whose controller is of a namespaced kind, lives in no namespace as its child
      does, and is not cached. */
  ghost predicate AboutToEscape(e: Env, sys: System, key: JobKey, pod: Object, path: seq<ObjectRef>, ref: ObjectRef, o: Object) {
    && e.scoped
    && key in sys.pods && sys.pods[key] == PodClimb(pod, path, ref)
    && MayVisit(path, ref) && Lookup(sys.s.cache, ref, false) == Found(o) && o.namespace == 0
    && var visit := VisitObject(e.ignored, path, ref, o);
       && visit.VisitOwner? && !e.clusterScoped(visit.ref.gvk.groupKind)
       && MayVisit(visit.path, visit.ref) && Lookup(sys.s.cache, visit.ref, false).Missing?
  }

  /** Unscoped requests are made: the next three steps of such a job open a watch over all namespaces. */
  lemma OwnerWalkEscapes(e: Env, actions: seq<Action>, key: JobKey, pod: Object, path: seq<ObjectRef>, ref: ObjectRef, o: Object)
    requires AboutToEscape(e, Run(e, actions), key, pod, path, ref, o)
    ensures var step := StepPod(key, Input({}, {}));
            !SourcesContained(e, Run(e, actions + [step] + [step] + [step]).s)
  {
    hide Run;
    var step, sys := StepPod(key, Input({}, {})), Run(e, actions);
    var visit := VisitObject(e.ignored, path, ref, o);
    RunOneMore(e, actions, step);
    RunOneMore(e, actions + [step], step);
    RunOneMore(e, actions + [step] + [step], step);
    hide MayVisit, Lookup;
    assert visit.ref.namespace == 0;
    hide VisitObject;
    var sys1 := Run(e, actions + [step]);
    assert sys1.s == sys.s && sys1.pods[key] == PodClimb(pod, visit.path, visit.ref);
    var sys2 := Run(e, actions + [step] + [step]);
    assert sys2.s == sys.s && sys2.pods[key] == PodEnsureOwner(pod, visit.path, visit.ref);
    var s3 := Run(e, actions + [step] + [step] + [step]).s;
    assert s3 == Ensure(e, sys.s, visit.ref.gvk, 0, true, {}, sys2.nextWatch).0;
    assert WatchKey(visit.ref.gvk, 0) in s3.cache.watches;
  }

  lemma RequestNext(e: Env, sys: System, a: Action)
    requires Enabled(e, sys, a) && ActionRequest(sys, a).Some?
    ensures Next(e, sys, a).s == ServeRequest(e, sys.s, ActionRequest(sys, a), ActionMapping(a), sys.nextWatch)
  {
    hide Ensure, StepPodProgram, StepRootProgram;
    match a
    case StepPod(key, input) => PodStepCache(e, sys.s, key, sys.pods[key], input, sys.nextWatch);
    case StepRoot(uid, input) => RootStepCache(e, sys.s, uid, sys.roots[uid], input, sys.nextWatch);
    case _ =>
  }
}
