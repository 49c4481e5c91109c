/** A definition read at an unchanged version is still the selected one when a worker comes to publish. */
module StampProofs {
  import opened Basics
  import opened Discovery
  import opened ControllerModel
  import opened ControllerSystem
  import opened CacheProofs
  import opened JobProofs
  import opened MemberProofs
  import opened VersionProofs

  /** What a worker read about a kind still holds if the version has not moved. */
  predicate StampOk(d: Definitions, stamped: Stamped, kind: GroupKind) {
    && stamped.version <= d.version
    && (stamped.version == d.version ==> stamped.selection == SelectionFor(d, kind))
  }

  /** A lookup would still give the same reason, or none, if the version has not moved. */
  predicate CleanStamp(d: Definitions, stamped: Stamped, kind: GroupKind, err: Failure) {
    stamped.version == d.version ==> FailureReason(LookupDefinition(d, Gvk(kind, 0)).1) == FailureReason(err)
  }

  lemma LookupStamps(d: Definitions, gvk: Gvk)
    ensures var (stamped, err) := LookupDefinition(d, gvk);
            StampOk(d, stamped, gvk.groupKind) && CleanStamp(d, stamped, gvk.groupKind, err)
  {
  }

  lemma StampsCarry(d: Definitions, later: Definitions, stamped: Stamped, kind: GroupKind, err: Failure)
    requires Stamps(d, later) && StampOk(d, stamped, kind)
    ensures StampOk(later, stamped, kind)
    ensures CleanStamp(d, stamped, kind, err) ==> CleanStamp(later, stamped, kind, err)
  {
  }

  predicate RootStamp(e: Env, d: Definitions, uid: Uid, pc: RootPc) {
    var kind := e.identity(uid).groupKind;
    match pc
    case RootEnsure(_, selection, err) => StampOk(d, selection, kind) && CleanStamp(d, selection, kind, err)
    case RootRead(_, selection, err) => StampOk(d, selection, kind) && CleanStamp(d, selection, kind, err)
    case RootCheck(_, selection, err) => StampOk(d, selection, kind) && CleanStamp(d, selection, kind, err)
    case RootPublish(root, selection, result) =>
      && StampOk(d, selection, kind)
      && (selection.version == d.version ==>
            result == EvaluateWorkload(e, selection.selection, LookupDefinition(d, Gvk(kind, 0)).1, root))
    case _ => true
  }

  lemma RootStampCarries(e: Env, d: Definitions, later: Definitions, uid: Uid, pc: RootPc)
    requires Stamps(d, later) && RootStamp(e, d, uid, pc)
    ensures RootStamp(e, later, uid, pc)
  {
    var kind := e.identity(uid).groupKind;
    match pc
    case RootEnsure(_, selection, err) => StampsCarry(d, later, selection, kind, err);
    case RootRead(_, selection, err) => StampsCarry(d, later, selection, kind, err);
    case RootCheck(_, selection, err) => StampsCarry(d, later, selection, kind, err);
    case RootPublish(_, selection, _) => StampsCarry(d, later, selection, kind, {});
    case _ =>
  }

  lemma RootStampStep(e: Env, s: State, uid: Uid, pc: RootPc, input: Input, id: nat)
    requires RootFacts(e, uid, pc) && RootStamp(e, s.defs, uid, pc)
    ensures RootStamp(e, s.defs, uid, StepRootProgram(e, s, uid, pc, input, id).1)
  {
    hide Ensure, Lookup, HasRootOwnership, PublishWorkload, FailWorkload, RemoveRoot, ControllerOwner;
    match pc
    case RootDefine(ref) => LookupStamps(s.defs, ref.gvk);
    case RootCheck(root, selection, err) =>
      EvaluateWorkloadFacts(e, selection.selection, err, root);
      hide EvaluateWorkload;
    case _ => hide EvaluateWorkload;
  }

  predicate PodStamp(d: Definitions, pc: PodPc) {
    match pc
    case PodRegister(_, workload, selection, err) => ReadAt(d, workload, selection, err)
    case PodReadRoot(_, workload, selection, err) => ReadAt(d, workload, selection, err)
    case PodCheckWatch(_, workload, selection, err, _) => ReadAt(d, workload, selection, err)
    case PodEnsureRoot(_, workload, selection, err) => ReadAt(d, workload, selection, err)
    case PodReadRootAgain(_, workload, selection, err) => ReadAt(d, workload, selection, err)
    case PodPublish(_, workload, _, selection, _, _) => ReadAt(d, workload, selection, {})
    case _ => true
  }

  predicate ReadAt(d: Definitions, workload: Workload, selection: Stamped, err: Failure) {
    StampOk(d, selection, workload.root.gvk.groupKind) && CleanStamp(d, selection, workload.root.gvk.groupKind, err)
  }

  lemma PodStampCarries(d: Definitions, later: Definitions, pc: PodPc)
    requires Stamps(d, later) && PodStamp(d, pc)
    ensures PodStamp(later, pc)
  {
    match pc
    case PodRegister(_, w, selection, err) => StampsCarry(d, later, selection, w.root.gvk.groupKind, err);
    case PodReadRoot(_, w, selection, err) => StampsCarry(d, later, selection, w.root.gvk.groupKind, err);
    case PodCheckWatch(_, w, selection, err, _) => StampsCarry(d, later, selection, w.root.gvk.groupKind, err);
    case PodEnsureRoot(_, w, selection, err) => StampsCarry(d, later, selection, w.root.gvk.groupKind, err);
    case PodReadRootAgain(_, w, selection, err) => StampsCarry(d, later, selection, w.root.gvk.groupKind, err);
    case PodPublish(_, w, _, selection, _, _) => StampsCarry(d, later, selection, w.root.gvk.groupKind, {});
    case _ =>
  }

  lemma PodStampStep(e: Env, s: State, key: JobKey, pc: PodPc, input: Input, id: nat)
    requires PodStamp(s.defs, pc)
    ensures PodStamp(s.defs, StepPodProgram(e, s, key, pc, input, id).1)
  {
    hide Ensure, Lookup, HasRootOwnership, IsPathCurrent, RegisterPodRoot, PublishPod, PublishPodFailure, FailPodEvaluation, UnregisterPod,
         RequeueScope, MayVisit, VisitObject, EvaluatePod, StampOk, CleanStamp, LookupDefinition;
    match pc
    case PodDefine(_, workload) => LookupStamps(s.defs, workload.root.gvk);
    case _ =>
  }

  ghost predicate StampsInv(e: Env, sys: System) {
    && (forall key :: key in sys.pods ==> PodStamp(sys.s.defs, sys.pods[key]))
    && (forall uid :: uid in sys.roots ==> RootStamp(e, sys.s.defs, uid, sys.roots[uid]))
  }

  lemma NextKeepsStamps(e: Env, sys: System, a: Action)
    requires Enabled(e, sys, a) && JobsInv(e, sys) && StampsInv(e, sys)
    ensures StampsInv(e, Next(e, sys, a))
  {
    NextStamps(e, sys, a);
    NextDefinitions(e, sys, a);
    hide ApplyWatchEvent, Replace, UpdateWatchHealth, PrepareWatchRequests, RefreshDefinitions, Ensure, StepPodProgram, StepRootProgram, StepSelected,
         Enabled, PodStamp, RootStamp, Registered, PodFacts, RootFacts, Stamps;
    var t := Next(e, sys, a);
    forall key | key in t.pods ensures PodStamp(t.s.defs, t.pods[key]) {
      if a == TakePod(key) {
        assert PodStamp(t.s.defs, PodStart) by { StartStamps(e, t.s.defs, 0); }
      } else if a.StepPod? && a.key == key {
        PodStampStep(e, sys.s, key, sys.pods[key], a.input, sys.nextWatch);
      } else {
        PodStampCarries(sys.s.defs, t.s.defs, sys.pods[key]);
      }
    }
    forall uid | uid in t.roots ensures RootStamp(e, t.s.defs, uid, t.roots[uid]) {
      if a == TakeRoot(uid) {
        assert RootStamp(e, t.s.defs, uid, RootStart) by { StartStamps(e, t.s.defs, uid); }
      } else if a.StepRoot? && a.uid == uid {
        RootStampStep(e, sys.s, uid, sys.roots[uid], a.input, sys.nextWatch);
      } else {
        RootStampCarries(e, sys.s.defs, t.s.defs, uid, sys.roots[uid]);
      }
    }
  }

  lemma StartStamps(e: Env, d: Definitions, uid: Uid)
    ensures PodStamp(d, PodStart) && RootStamp(e, d, uid, RootStart)
  {
  }

  lemma {:induction false} RunKeepsStamps(e: Env, actions: seq<Action>)
    ensures StampsInv(e, Run(e, actions))
    decreases |actions|
  {
    if actions != [] {
      RunKeepsStamps(e, actions[..|actions| - 1]);
      RunKeepsJobs(e, actions[..|actions| - 1]);
      var sys := Run(e, actions[..|actions| - 1]);
      var a := actions[|actions| - 1];
      if Enabled(e, sys, a) {
        NextKeepsStamps(e, sys, a);
      }
      hide Next, JobsInv, StampsInv, Enabled;
    }
  }
}
