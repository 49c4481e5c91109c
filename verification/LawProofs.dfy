/** Nothing registered is forgotten: roots, Pods and the scope are up to date or work on them is on the way. */
module LawProofs {
  import opened Basics
  import opened Discovery
  import opened ControllerModel
  import opened ControllerSystem
  import opened CacheProofs
  import opened SourceProofs
  import opened JobProofs
  import opened MemberProofs
  import opened WorkloadProofs
  import opened PodProofs

  // ---------------------------------------------------------------- roots

  /** No object selector and no resource rule rejects anything. */
  ghost predicate AcceptsAll(e: Env) {
    (forall labels :: e.objectSelector(labels)) && (forall gvk :: e.resourceSelected(gvk))
  }

  /** Every registered root is published, or its job is queued or among `busy`. */
  ghost predicate RootsShown(s: State, busy: set<Uid>) {
    forall uid :: uid in s.members.roots && uid !in s.pubs.workloads ==> RootJob(uid) in s.queues.work || uid in busy
  }

  /** No root appears unqueued, and no publication of a root that stays goes. */
  predicate CalmRoots(s: State, t: State) {
    && s.queues.work <= t.queues.work
    && forall uid :: uid in t.members.roots && uid !in t.pubs.workloads ==>
         RootJob(uid) in t.queues.work || (uid in s.members.roots && uid !in s.pubs.workloads)
  }

  lemma CalmKeepsShown(s: State, t: State, busy: set<Uid>)
    requires RootsShown(s, busy) && CalmRoots(s, t)
    ensures RootsShown(t, busy)
  {
  }

  /** A root may be new, or no other is. */
  lemma EnsureRootShows(s: State, workload: Workload)
    ensures var t := EnsureRoot(s, workload);
            && s.queues.work <= t.queues.work && t.pubs == s.pubs && t.members.podRoots == s.members.podRoots
            && t.members.selected == s.members.selected
            && t.members.roots.Keys == s.members.roots.Keys + {workload.root.uid}
  {
    hide SettleRootRef, AncestorPods;
  }

  lemma AttachPodShows(s: State, key: JobKey, root: Uid)
    requires root in s.members.roots
    ensures var t := AttachPod(s, key, root);
            && s.queues.work <= t.queues.work && t.pubs == s.pubs && t.members.roots.Keys == s.members.roots.Keys
            && (PodRootOf(s.members, key.uid) != root ==> RootJob(root) in t.queues.work)
  {
  }

  lemma AttachSelectedShows(s: State, key: JobKey, root: Uid)
    requires root in s.members.roots
    ensures var t := AttachSelected(s, key, root);
            && s.queues.work <= t.queues.work && t.pubs.workloads == s.pubs.workloads && t.members.roots.Keys == s.members.roots.Keys
            && RootJob(root) in t.queues.work
  {
  }

  lemma RegisterShows(e: Env, s: State, key: JobKey, workload: Workload)
    requires PodsInverse(s.members) && workload.root.uid != NO_UID
    ensures CalmRoots(s, RegisterPodRoot(e, s, key, workload).0)
  {
    EnsureRootShows(s, workload);
    AttachPodShows(EnsureRoot(s, workload), key, workload.root.uid);
    hide EnsureRoot, AttachPod, IsPathCurrent, HasRootOwnership;
  }

  lemma RegisterSelectedShows(e: Env, s: State, key: JobKey, workload: Workload, selection: Stamped, rootSelection: Stamped)
    ensures CalmRoots(s, RegisterSelectedRoot(e, s, key, workload, selection, rootSelection).0)
  {
    EnsureRootShows(s, workload);
    AttachSelectedShows(EnsureRoot(s, workload), key, workload.root.uid);
    hide EnsureRoot, AttachSelected, IsPathCurrent, IsDefinitionCurrent;
  }

  lemma {:induction false} RemoveRootsShow(s: State, uids: seq<Uid>)
    ensures CalmRoots(s, RemoveRoots(s, uids))
    decreases |uids|
  {
    if uids != [] {
      RemoveRootsShow(RemoveRoot(s, uids[0]), uids[1..]);
    }
  }

  lemma SyncShows(e: Env, s: State, offered: map<GroupKind, Selection>, err: Failure, order: SyncOrder)
    ensures CalmRoots(s, PrepareWatchRequests(e, s, offered, err, order))
  {
    RefreshEffect(e, s, offered, err);
    var s1 := RefreshDefinitions(e, s, offered, err);
    hide RefreshDefinitions, RetireWatches, RemoveRoots;
    if !e.scoped || NamespaceWatchReady(s1.cache) {
      if e.scoped {
        RemoveRootsShow(s1.(scopes := AdmittedNamespaces(e, s1.cache)), order.roots);
      }
      RetireWatchesRest(e, ShrinkScope(e, s1, order.roots), order.watches, order.objects);
    }
  }

  lemma PodStepShows(e: Env, s: State, key: JobKey, pc: PodPc, input: Input, id: nat)
    requires PodsInverse(s.members) && PodFacts(e, key, pc)
    ensures CalmRoots(s, StepPodProgram(e, s, key, pc, input, id).0)
  {
    hide Lookup, HasRootOwnership, IsPathCurrent, IsDefinitionCurrent, VisitObject, MayVisit, JudgePod, RescannedPods, RescannedWork, RegisterPodRoot,
         FailureReason, LookupDefinition, Ensure, CalmRoots, PodsInverse, PodFacts;
    if PodRequest(pc).Some? {
      PodStepCache(e, s, key, pc, input, id);
      RequestRest(e, s, PodRequest(pc), input.mapping, id);
      hide StepPodProgram;
      SameRootsCalm(s, ServeRequest(e, s, PodRequest(pc), input.mapping, id));
    } else if pc.PodRegister? {
      RootIsNamed(e, key, pc);
      RegisterShows(e, s, key, pc.workload);
    } else if pc.PodDrop? {
      UnregisterShows(s, key);
    } else {
      SameRootsCalm(s, StepPodProgram(e, s, key, pc, input, id).0);
    }
  }

  lemma RootIsNamed(e: Env, key: JobKey, pc: PodPc)
    requires pc.PodRegister? && PodFacts(e, key, pc)
    ensures pc.workload.root.uid != NO_UID
  {
    hide PodKeyOk, PodBody, LinksTo;
    assert KnownRef(e, pc.workload.path[|pc.workload.path| - 1]);
  }

  lemma UnregisterShows(s: State, key: JobKey)
    ensures CalmRoots(s, UnregisterPod(s, key))
  {
  }

  lemma SameRootsCalm(s: State, t: State)
    requires s.queues.work <= t.queues.work && t.members.roots == s.members.roots && t.pubs.workloads == s.pubs.workloads
    ensures CalmRoots(s, t)
  {
  }

  lemma SelectedShows(e: Env, s: State, op: SelectedOp)
    ensures CalmRoots(s, StepSelected(e, s, op))
  {
    hide Lookup, IsPathCurrent, IsDefinitionCurrent, RegisterSelectedRoot, FailureReason;
    if op.Register? {
      RegisterSelectedShows(e, s, op.key, op.workload, op.selection, op.rootSelection);
    }
  }

  lemma RootStepShows(e: Env, s: State, uid: Uid, pc: RootPc, input: Input, id: nat, busy: set<Uid>)
    requires AcceptsAll(e) && RootsShown(s, busy) && RootFacts(e, uid, pc) && !pc.RootReturn?
    requires !pc.RootHide?
    ensures var (t, pc') := StepRootProgram(e, s, uid, pc, input, id);
            !pc'.RootHide? && RootsShown(t, if pc' == RootReturn({}) then busy - {uid} else busy)
  {
    if RootRequest(pc).Some? {
      RootStepCache(e, s, uid, pc, input, id);
      RequestRest(e, s, RootRequest(pc), input.mapping, id);
      hide Ensure;
    } else {
      assert pc.RootCheck? ==> e.objectSelector(pc.root.labels) && e.resourceSelected(pc.root.gvk);
      hide Lookup, HasRootOwnership, IsPathCurrent, IsDefinitionCurrent, EvaluateWorkload, FailureReason, LookupDefinition, ControllerOwner, DefinedGvk,
           RootObjectOk;
    }
  }

  ghost predicate RootsInv(sys: System) {
    RootsShown(sys.s, BusyRoots(sys)) && forall uid :: uid in sys.roots ==> !sys.roots[uid].RootHide?
  }

  lemma BusyShows(s: State, busy: set<Uid>, t: State, busy': set<Uid>)
    requires RootsShown(s, busy) && t.members.roots == s.members.roots && t.pubs.workloads == s.pubs.workloads
    requires forall uid :: uid in busy || RootJob(uid) in s.queues.work ==> uid in busy' || RootJob(uid) in t.queues.work
    ensures RootsShown(t, busy')
  {
  }

  /** The actions of the rest keep every root shown. */
  lemma SectionShows(e: Env, sys: System, a: Action)
    requires JobsInv(e, sys) && Enabled(e, sys, a)
    requires a.WatchEvent? || a.WatchSnapshot? || a.WatchStatus? || a.SyncSources? || a.StartWatch? || a.Selected? || a.StepPod?
    ensures CalmRoots(sys.s, Next(e, sys, a).s)
  {
    var s := sys.s;
    assert MembersInv(e, s.members) by { JobsHaveMembers(e, sys); }
    hide ApplyWatchEvent, Replace, UpdateWatchHealth, PrepareWatchRequests, Ensure, StepPodProgram, StepRootProgram, StepSelected, CalmRoots,
         PodFacts, RootFacts, Registered, IsSyncOrder, Genuine, Deliverable, SelectedInverse, RefsOk, MemberKeysOk, PodsInverse;
    match a
    case WatchEvent(w, o, deleted) =>
      EventEffect(e, s, w, o, deleted);
      SameRootsCalm(s, ApplyWatchEvent(e, s, w, o, deleted));
    case WatchSnapshot(w, objects, drop, put) =>
      SnapshotRest(e, s, w, objects, drop, put);
      SameRootsCalm(s, Replace(e, s, w, objects, drop, put));
    case WatchStatus(w, err) =>
      HealthRest(e, s, w, err);
      SameRootsCalm(s, UpdateWatchHealth(e, s, w, err));
    case SyncSources(offered, err, order) => SyncShows(e, s, offered, err, order);
    case StartWatch(gvk, namespace, metadataOnly, mapping) =>
      EnsureRest(e, s, gvk, namespace, metadataOnly, mapping, sys.nextWatch);
      SameRootsCalm(s, Ensure(e, s, gvk, namespace, metadataOnly, mapping, sys.nextWatch).0);
    case Selected(op) => SelectedShows(e, s, op);
    case StepPod(key, input) => PodStepShows(e, s, key, sys.pods[key], input, sys.nextWatch);
  }

  lemma RootJobShows(e: Env, sys: System, uid: Uid, input: Input)
    requires AcceptsAll(e) && RootsInv(sys) && JobsInv(e, sys) && Enabled(e, sys, StepRoot(uid, input))
    ensures RootsInv(Next(e, sys, StepRoot(uid, input)))
  {
    var (t, pc') := StepRootProgram(e, sys.s, uid, sys.roots[uid], input, sys.nextWatch);
    var sys' := Next(e, sys, StepRoot(uid, input));
    hide StepRootProgram, RootsShown, AcceptsAll, RootFacts, PodFacts, Registered;
    RootStepShows(e, sys.s, uid, sys.roots[uid], input, sys.nextWatch, BusyRoots(sys));
    BusyShows(t, if pc' == RootReturn({}) then BusyRoots(sys) - {uid} else BusyRoots(sys), t, BusyRoots(sys'));
  }

  lemma NextShowsRoots(e: Env, sys: System, a: Action)
    requires AcceptsAll(e) && RootsInv(sys) && JobsInv(e, sys) && Enabled(e, sys, a)
    ensures RootsInv(Next(e, sys, a))
  {
    hide RootsShown, AcceptsAll, JobsInv, BusyRoots, CalmRoots;
    if a.StepRoot? {
      RootJobShows(e, sys, a.uid, a.input);
    } else if a.TakePod? || a.FinishPod? || a.RetryPod? || a.TakeRoot? || a.FinishRoot? || a.RetryRoot?
              || a.TakeObject? || a.RetryObject? || a.TakeSync? || a.RetrySync? {
      BusyMoves(e, sys, a);
      BusyShows(sys.s, BusyRoots(sys), Next(e, sys, a).s, BusyRoots(Next(e, sys, a)));
      RootsGoOn(e, sys, a);
      hide Next, Enabled;
    } else {
      SectionShows(e, sys, a);
      RootsGoOn(e, sys, a);
      hide Next, Enabled;
      CalmKeepsShown(sys.s, Next(e, sys, a).s, BusyRoots(sys));
    }
  }

  /** Only a root's own job moves its program. */
  lemma RootsGoOn(e: Env, sys: System, a: Action)
    requires Enabled(e, sys, a) && !a.StepRoot? && forall uid :: uid in sys.roots ==> !sys.roots[uid].RootHide?
    ensures forall uid :: uid in Next(e, sys, a).roots ==> !Next(e, sys, a).roots[uid].RootHide?
    ensures !a.TakeRoot? && !a.FinishRoot? && !a.RetryRoot? ==> BusyRoots(Next(e, sys, a)) == BusyRoots(sys)
  {
    hide ApplyWatchEvent, Replace, UpdateWatchHealth, PrepareWatchRequests, Ensure, StepPodProgram, StepSelected, IsSyncOrder, Genuine, Deliverable;
  }

  lemma BusyMoves(e: Env, sys: System, a: Action)
    requires Enabled(e, sys, a)
    requires a.TakePod? || a.FinishPod? || a.RetryPod? || a.TakeRoot? || a.FinishRoot? || a.RetryRoot?
             || a.TakeObject? || a.RetryObject? || a.TakeSync? || a.RetrySync?
    ensures var sys' := Next(e, sys, a);
            && sys'.s.members.roots == sys.s.members.roots && sys'.s.pubs.workloads == sys.s.pubs.workloads
            && forall uid :: uid in BusyRoots(sys) || RootJob(uid) in sys.s.queues.work ==> uid in BusyRoots(sys') || RootJob(uid) in sys'.s.queues.work
  {
    hide ApplyWatchEvent, Replace, UpdateWatchHealth, PrepareWatchRequests, Ensure, StepPodProgram, StepRootProgram, StepSelected, IsSyncOrder, Genuine,
         Deliverable, ValidOp, ValidOffer, IsTracked;
  }

  lemma {:induction false} RunShowsRoots(e: Env, actions: seq<Action>)
    requires AcceptsAll(e)
    ensures RootsInv(Run(e, actions))
    decreases |actions|
  {
    hide AcceptsAll;
    if actions != [] {
      var past := actions[..|actions| - 1];
      RunShowsRoots(e, past);
      RunKeepsJobs(e, past);
      if Enabled(e, Run(e, past), actions[|actions| - 1]) {
        NextShowsRoots(e, Run(e, past), actions[|actions| - 1]);
      }
      hide Next, Enabled, RootsInv, JobsInv;
    }
  }

  /** In every reachable state, where no selector and no resource rule rejects roots, every registered root is published, with a
      value or an error, or its job is queued, waiting for a retry, or running and not yet done. */
  lemma NoLostRoots(e: Env, actions: seq<Action>, uid: Uid)
    requires AcceptsAll(e) && uid in Run(e, actions).s.members.roots
    ensures var sys := Run(e, actions);
            || uid in sys.s.pubs.workloads
            || RootJob(uid) in sys.s.queues.work || uid in sys.rootDelayed
            || (uid in sys.roots && sys.roots[uid] != RootReturn({}))
  {
    RunShowsRoots(e, actions);
    hide Run;
  }
}
