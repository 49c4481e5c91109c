/** Watch failures: recorded from the request that could not be mapped until one is, or until the namespace leaves the scope. */
module FailureProofs {
  import opened Basics
  import opened Discovery
  import opened ControllerModel
  import opened ControllerSystem
  import opened CacheProofs
  import opened SourceProofs
  import opened VersionProofs
  import opened HealthProofs

  /** A request serves a failure's namespace: its own, or any where one collection serves all. */
  predicate ServesFailure(e: Env, gvk: Gvk, namespace: Name, r: WatchKey) {
    r.gvk == gvk && (!e.scoped || e.clusterScoped(gvk.groupKind) || namespace == 0 || r.namespace == namespace)
  }

  /** A request that maps leaves no failure of its kind where it serves, neither recorded nor published, and no other different. */
  lemma MappedForgets(e: Env, s: State, gvk: Gvk, namespace: Name, metadataOnly: bool, id: nat, r: WatchKey)
    ensures var t := Ensure(e, s, gvk, namespace, metadataOnly, {}, id).0;
            && Get(t.watchFailures, r) == (if ServesFailure(e, gvk, namespace, r) then None else Get(s.watchFailures, r))
            && (FailuresPublished(s) ==>
                  Get(t.pubs.sourceFailures, r) == if ServesFailure(e, gvk, namespace, r) then None else Get(s.pubs.sourceFailures, r))
  {
    hide FailureReason;
  }

  /** A request that cannot be mapped is recorded with its error, in place of an older one, unless its namespace is out of scope. */
  lemma UnmappedRecords(e: Env, s: State, gvk: Gvk, namespace: Name, metadataOnly: bool, mapping: Failure, id: nat, r: WatchKey)
    requires mapping != {}
    ensures var (t, err) := Ensure(e, s, gvk, namespace, metadataOnly, mapping, id);
            var recorded := !e.scoped || namespace == 0 || namespace in s.scopes;
            && Get(t.watchFailures, r) == (if recorded && r == WatchKey(gvk, namespace) then Some(mapping) else Get(s.watchFailures, r))
            && err == if recorded then mapping else {Pending}
  {
    hide FailureReason;
  }

  // ---------------------------------------------------------------- one action

  /** The action asks for `r` in scope and cannot map it. */
  ghost predicate Fails(e: Env, sys: System, a: Action, r: WatchKey) {
    && Enabled(e, sys, a) && ActionRequest(sys, a).Some? && ActionMapping(a) != {}
    && WatchKey(ActionRequest(sys, a).value.gvk, ActionRequest(sys, a).value.namespace) == r
    && (e.scoped && r.namespace != 0 ==> r.namespace in sys.s.scopes)
  }

  /** The action maps a request that serves `r`, or leaves its namespace out of scope. */
  ghost predicate Settles(e: Env, sys: System, a: Action, r: WatchKey) {
    && Enabled(e, sys, a)
    && if ActionRequest(sys, a).Some? then
         ActionMapping(a) == {} && ServesFailure(e, ActionRequest(sys, a).value.gvk, ActionRequest(sys, a).value.namespace, r)
       else a.SyncSources? && r.namespace != 0 && r.namespace !in Next(e, sys, a).s.scopes
  }

  lemma NextFailures(e: Env, sys: System, a: Action, r: WatchKey)
    requires Enabled(e, sys, a) && NamespacedIn(e, sys.s) && ReplacementsOk(sys.s.cache)
    ensures Get(Next(e, sys, a).s.watchFailures, r)
         == if Fails(e, sys, a, r) then Some(ActionMapping(a)) else if Settles(e, sys, a, r) then None else Get(sys.s.watchFailures, r)
  {
    hide ApplyWatchEvent, Replace, UpdateWatchHealth, PrepareWatchRequests, Ensure, StepPodProgram, StepRootProgram, StepSelected, ReplacementsOk,
         FailureReason, FailuresPublished;
    var s := sys.s;
    if ActionRequest(sys, a).Some? {
      var q := ActionRequest(sys, a).value;
      RequestNext(e, sys, a);
      if ActionMapping(a) == {} {
        MappedForgets(e, s, q.gvk, q.namespace, q.metadataOnly, sys.nextWatch, r);
      } else {
        UnmappedRecords(e, s, q.gvk, q.namespace, q.metadataOnly, ActionMapping(a), sys.nextWatch, r);
      }
      hide Next;
    } else {
      match a
      case WatchEvent(w, o, deleted) => EventWatches(e, s, w, o, deleted);
      case WatchSnapshot(w, objects, drop, put) => SnapshotRest(e, s, w, objects, drop, put);
      case WatchStatus(w, err) => HealthRest(e, s, w, err);
      case SyncSources(offered, err, order) => SyncForgets(e, s, offered, err, order, r);
      case StartWatch(gvk, namespace, metadataOnly, mapping) => assert false;
      case Selected(op) => SelectedStepTracks(e, s, op);
      case StepPod(key, input) => PodStepCache(e, s, key, sys.pods[key], input, sys.nextWatch);
      case StepRoot(uid, input) => RootStepCache(e, s, uid, sys.roots[uid], input, sys.nextWatch);
      case _ =>
    }
  }

  lemma SyncForgets(e: Env, s: State, offered: map<GroupKind, Selection>, err: Failure, order: SyncOrder, r: WatchKey)
    requires NamespacedIn(e, s)
    ensures var t := PrepareWatchRequests(e, s, offered, err, order);
            Get(t.watchFailures, r) == if r.namespace != 0 && r.namespace !in t.scopes then None else Get(s.watchFailures, r)
  {
    RefreshEffect(e, s, offered, err);
    var s1 := RefreshDefinitions(e, s, offered, err);
    hide RefreshDefinitions, RemoveRoots, RetireWatches;
    if !e.scoped || NamespaceWatchReady(s1.cache) {
      var s2 := ShrinkScope(e, s1, order.roots);
      if e.scoped {
        RemoveRootsEffect(s1.(scopes := AdmittedNamespaces(e, s1.cache)), order.roots);
      }
      RetireWatchesRest(e, s2, order.watches, order.objects);
    }
  }

  // ---------------------------------------------------------------- every run

  ghost predicate FailsAt(e: Env, actions: seq<Action>, i: nat, r: WatchKey)
    requires i < |actions|
  {
    Fails(e, Run(e, actions[..i]), actions[i], r)
  }

  ghost predicate SettlesAt(e: Env, actions: seq<Action>, i: nat, r: WatchKey)
    requires i < |actions|
  {
    Settles(e, Run(e, actions[..i]), actions[i], r)
  }

  /** Action `i` failed for `r`, and since then none failed again or settled it. */
  ghost predicate FailedSince(e: Env, actions: seq<Action>, i: nat, r: WatchKey) {
    i < |actions| && FailsAt(e, actions, i, r) && forall j: nat :: i < j < |actions| ==> !FailsAt(e, actions, j, r) && !SettlesAt(e, actions, j, r)
  }

  lemma FailedEarlier(e: Env, past: seq<Action>, a: Action, r: WatchKey)
    ensures forall i: nat :: i < |past| ==>
              (FailsAt(e, past + [a], i, r) <==> FailsAt(e, past, i, r)) && (SettlesAt(e, past + [a], i, r) <==> SettlesAt(e, past, i, r))
    ensures FailsAt(e, past + [a], |past|, r) <==> Fails(e, Run(e, past), a, r)
    ensures SettlesAt(e, past + [a], |past|, r) <==> Settles(e, Run(e, past), a, r)
  {
    hide Fails, Settles, Run;
    var all := past + [a];
    assert all[..|past|] == past;
    forall i: nat | i < |past|
      ensures (FailsAt(e, all, i, r) <==> FailsAt(e, past, i, r)) && (SettlesAt(e, all, i, r) <==> SettlesAt(e, past, i, r))
    {
      assert all[..i] == past[..i] && all[i] == past[i];
    }
  }

  lemma {:induction false} FailureStandsOver(e: Env, actions: seq<Action>, r: WatchKey)
    ensures var s := Run(e, actions).s;
            && (r in s.watchFailures <==> exists i: nat :: FailedSince(e, actions, i, r))
            && (forall i: nat :: FailedSince(e, actions, i, r) ==> r in s.watchFailures && s.watchFailures[r] == ActionMapping(actions[i]))
    decreases |actions|
  {
    if actions != [] {
      var past, a := actions[..|actions| - 1], actions[|actions| - 1];
      FailureStandsOver(e, past, r);
      assert actions == past + [a];
      FailedEarlier(e, past, a, r);
      var sys := Run(e, past);
      if Enabled(e, sys, a) {
        OpenWatchesWereRequested(e, past);
        RunKeepsCache(e, past);
        NextFailures(e, sys, a, r);
      } else {
        assert !Fails(e, sys, a, r) && !Settles(e, sys, a, r);
      }
      hide Fails, Settles, FailsAt, SettlesAt, Next, Enabled, NamespacedIn, CacheInv, OpenWatches;
      FailedNow(e, past, a, r);
    }
  }

  /** How the standing of failures moves with one more action. */
  lemma FailedNow(e: Env, past: seq<Action>, a: Action, r: WatchKey)
    ensures forall i: nat :: i < |past| ==>
              (FailedSince(e, past + [a], i, r) <==> FailedSince(e, past, i, r) && !FailsAt(e, past + [a], |past|, r) && !SettlesAt(e, past + [a], |past|, r))
    ensures FailedSince(e, past + [a], |past|, r) <==> FailsAt(e, past + [a], |past|, r)
    ensures forall i: nat :: i > |past| ==> !FailedSince(e, past + [a], i, r)
    ensures forall i: nat :: i < |past| ==> (past + [a])[i] == past[i]
    ensures forall i: nat :: i >= |past| ==> !FailedSince(e, past, i, r)
  {
    FailedEarlier(e, past, a, r);
    hide FailsAt, SettlesAt;
  }

  /** In every reachable state a failure is recorded and published, with the error of its mapping, exactly when some request for it
      failed in scope, none that serves it was mapped since, and its namespace did not leave the scope since. */
  lemma FailuresAreCurrent(e: Env, actions: seq<Action>, r: WatchKey)
    ensures var s := Run(e, actions).s;
            && (r in s.watchFailures <==> exists i: nat :: FailedSince(e, actions, i, r))
            && (r in s.pubs.sourceFailures <==> exists i: nat :: FailedSince(e, actions, i, r))
            && (forall i: nat :: FailedSince(e, actions, i, r) ==>
                  && Get(s.watchFailures, r) == Some(ActionMapping(actions[i]))
                  && Get(s.pubs.sourceFailures, r) == Some(FailureReason(ActionMapping(actions[i]))))
  {
    FailureStandsOver(e, actions, r);
    HealthMirrorsWatches(e, actions);
    hide Run, FailedSince, FailureReason, HealthPublished, DefinitionsPublished;
  }
}
