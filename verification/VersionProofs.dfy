/** The definition version: one number that stands for the whole selected snapshot. */
module VersionProofs {
  import opened Basics
  import opened ControllerModel
  import opened ControllerSystem
  import opened CacheProofs

  /** Versions only grow, and an unchanged version means unchanged selections and health reason. */
  ghost predicate Stamps(d: Definitions, later: Definitions) {
    && d.version <= later.version
    && (d.version == later.version ==> d.selected == later.selected && FailureReason(d.err) == FailureReason(later.err))
  }

  /** The version moves exactly when an evaluation could tell the difference. */
  lemma RefreshStamps(e: Env, s: State, offered: map<GroupKind, Selection>, err: Failure)
    ensures var d := RefreshDefinitions(e, s, offered, err).defs;
            && Stamps(s.defs, d)
            && d.err == err
            && (d.version == s.defs.version <==>
                  FailureReason(s.defs.err) == FailureReason(err)
                  && (err == {} ==> offered.Keys == s.defs.selected.Keys
                                    && forall kind :: kind in offered ==> IsSameDefinition(s.defs.selected[kind], offered[kind])))
            && (err != {} ==> d.selected == s.defs.selected)
  {
    hide KindPods, KindObjects, AffectedPods, AffectedWork, IsSameDefinition;
    var next := if err != {} then s.defs.selected else offered;
    forall kind | kind in s.defs.selected ensures IsSameDefinition(s.defs.selected[kind], s.defs.selected[kind]) {
      SameAsItself(s.defs.selected[kind]);
    }
    var kinds := ChangedKinds(s.defs, next);
    if kinds == {} {
      assert forall kind :: kind in next ==> KeepsDefinition(s.defs, kind, next[kind]) by {
        forall kind | kind in next ensures KeepsDefinition(s.defs, kind, next[kind]) {
          assert kind !in kinds;
        }
      }
      assert next.Keys == s.defs.selected.Keys by {
        forall kind | kind in s.defs.selected ensures kind in next { assert kind !in kinds; }
      }
      assert MergedDefinitions(s.defs, next) == s.defs.selected;
    } else {
      var kind :| kind in kinds;
      assert err == {};
    }
    if err != {} {
      assert kinds == {};
    }
  }

  lemma SameAsItself(selection: Selection)
    ensures IsSameDefinition(selection, selection)
  {
  }

  lemma NextStamps(e: Env, sys: System, a: Action)
    requires Enabled(e, sys, a)
    ensures Stamps(sys.s.defs, Next(e, sys, a).s.defs)
  {
    hide ApplyWatchEvent, Replace, UpdateWatchHealth, PrepareWatchRequests, Ensure, StepPodProgram, StepRootProgram, StepSelected, Enabled, Stamps;
    NextDefinitions(e, sys, a);
    if a.SyncSources? {
      RefreshStamps(e, sys.s, a.offered, a.err);
    } else {
      assert Stamps(sys.s.defs, sys.s.defs) by { StampsSelf(sys.s.defs); }
    }
  }

  lemma StampsSelf(d: Definitions)
    ensures Stamps(d, d)
  {
  }

  /** Only the sources worker changes the definitions. */
  lemma NextDefinitions(e: Env, sys: System, a: Action)
    requires Enabled(e, sys, a)
    ensures Next(e, sys, a).s.defs == if a.SyncSources? then RefreshDefinitions(e, sys.s, a.offered, a.err).defs else sys.s.defs
  {
    hide ApplyWatchEvent, Replace, UpdateWatchHealth, PrepareWatchRequests, StepPodProgram, StepRootProgram, StepSelected, EnsureWatch;
    var s := sys.s;
    match a
    case WatchEvent(w, o, deleted) => EventEffect(e, s, w, o, deleted);
    case WatchSnapshot(w, objects, drop, put) => SnapshotRest(e, s, w, objects, drop, put);
    case WatchStatus(w, err) => HealthRest(e, s, w, err);
    case SyncSources(offered, err, order) => SyncDefinitions(e, s, offered, err, order);
    case StartWatch(gvk, namespace, metadataOnly, mapping) =>
      EnsureRest(e, s, gvk, namespace, metadataOnly, mapping, sys.nextWatch);
    case Selected(op) => SelectedStepTracks(e, s, op);
    case StepPod(key, input) =>
      PodStepCache(e, s, key, sys.pods[key], input, sys.nextWatch);
      RequestRest(e, s, PodRequest(sys.pods[key]), input.mapping, sys.nextWatch);
    case StepRoot(uid, input) =>
      RootStepCache(e, s, uid, sys.roots[uid], input, sys.nextWatch);
      RequestRest(e, s, RootRequest(sys.roots[uid]), input.mapping, sys.nextWatch);
    case _ =>
  }

  lemma SyncDefinitions(e: Env, s: State, offered: map<GroupKind, Selection>, err: Failure, order: SyncOrder)
    ensures PrepareWatchRequests(e, s, offered, err, order).defs == RefreshDefinitions(e, s, offered, err).defs
  {
    var s1 := RefreshDefinitions(e, s, offered, err);
    hide RefreshDefinitions, RetireWatches, RemoveRoots;
    if !e.scoped || NamespaceWatchReady(s1.cache) {
      if e.scoped {
        RemoveRootsEffect(s1.(scopes := AdmittedNamespaces(e, s1.cache)), order.roots);
      }
      RetireWatchesRest(e, ShrinkScope(e, s1, order.roots), order.watches, order.objects);
    }
  }

  /** The state after the actions, taken at any two points, is stamped faithfully. */
  lemma {:induction false} VersionStampIsFaithful(e: Env, actions: seq<Action>, more: seq<Action>)
    ensures Stamps(Run(e, actions).s.defs, Run(e, actions + more).s.defs)
    decreases |more|
  {
    if more == [] {
      assert actions + more == actions;
    } else {
      var most := more[..|more| - 1];
      var all := actions + more;
      VersionStampIsFaithful(e, actions, most);
      assert all[..|all| - 1] == actions + most;
      var sys := Run(e, actions + most);
      if Enabled(e, sys, all[|all| - 1]) {
        NextStamps(e, sys, all[|all| - 1]);
      }
    }
  }
}
