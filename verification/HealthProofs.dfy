/** Published source health mirrors the watches, and readiness means healthy sources. */
module HealthProofs {
  import opened Basics
  import opened ControllerModel
  import opened ControllerSystem
  import opened CacheProofs
  import opened SourceProofs
  import opened VersionProofs

  /** The watch a source's published health speaks for: the pending replacement, else the active watch. */
  function Speaker(c: Cache, key: WatchKey): Watch
    requires key in c.watches
  {
    if key in c.replacements then c.replacements[key] else c.watches[key]
  }

  ghost predicate Mirrored(c: Cache, health: map<WatchKey, Health>) {
    && health.Keys == c.watches.Keys
    && (forall k :: k in c.watches ==> health[k] == HealthMirror(Speaker(c, k)))
  }

  ghost predicate HealthPublished(s: State) { Mirrored(s.cache, s.pubs.health) }

  /** Each failed watch request, and nothing else, is published as a discovery failure with its reason. */
  ghost predicate FailuresPublished(s: State) {
    s.pubs.sourceFailures == map r | r in s.watchFailures :: FailureReason(s.watchFailures[r])
  }

  function DefinitionMirror(d: Definitions): Health { Health(d.err == {}, FailureReason(d.err)) }

  /** The definition source is published as its last read left it, or as not synced while it was never read. */
  ghost predicate DefinitionsPublished(e: Env, s: State) {
    if !e.clusterDefinitions then s.pubs.definitionHealth == None
    else
      || s.pubs.definitionHealth == Some(DefinitionMirror(s.defs))
      || (s.pubs.definitionHealth == Some(Health(false, NoReason)) && s.defs == InitialState(e).defs)
  }

  ghost predicate HealthInv(e: Env, s: State) {
    HealthPublished(s) && FailuresPublished(s) && DefinitionsPublished(e, s)
  }

  // ---------------------------------------------------------------- preservation

  /** What updateWatchHealth publishes. */
  function UpdatedHealth(c: Cache, w: Handle, err: Failure, health: map<WatchKey, Health>): map<WatchKey, Health> {
    if !IsTracked(c, w) then health
    else if w.key !in c.replacements || IsReplacement(c, w) then health[w.key := HealthMirror(WatchOf(c, w).(err := err))]
    else health
  }

  lemma UpdateEffect(e: Env, s: State, w: Handle, err: Failure)
    ensures UpdateWatchHealth(e, s, w, err).pubs.health == UpdatedHealth(s.cache, w, err, s.pubs.health)
  {
    hide FailureReason, RootJobs, SourceMirror, HealthMirror;
  }

  lemma UpdateKeepsHealth(e: Env, s: State, w: Handle, err: Failure)
    requires HealthPublished(s) && ReplacementsOk(s.cache)
    ensures HealthPublished(UpdateWatchHealth(e, s, w, err))
  {
    UpdateEffect(e, s, w, err);
    HealthEffect(e, s, w, err);
    hide UpdateWatchHealth, HealthMirror;
    if IsTracked(s.cache, w) {
      assert w.key in s.cache.watches;
    }
  }

  /** Health published for every source but one. */
  ghost predicate MirroredExcept(c: Cache, health: map<WatchKey, Health>, key: WatchKey) {
    && health.Keys == c.watches.Keys
    && (forall k :: k in c.watches && k != key ==> health[k] == HealthMirror(Speaker(c, k)))
  }

  lemma UpdatePublishes(e: Env, s: State, w: Handle, err: Failure)
    requires MirroredExcept(s.cache, s.pubs.health, w.key) && IsActive(s.cache, w)
    requires w.key in s.cache.replacements ==> s.pubs.health[w.key] == HealthMirror(s.cache.replacements[w.key])
                                               && s.cache.replacements[w.key].id != w.id
    ensures HealthPublished(UpdateWatchHealth(e, s, w, err))
  {
    UpdateEffect(e, s, w, err);
    HealthEffect(e, s, w, err);
    hide UpdateWatchHealth, HealthMirror;
  }

  lemma SnapshotKeepsHealth(e: Env, s: State, w: Handle, objects: map<ObjectKey, Object>, drop: seq<ObjectKey>, put: seq<ObjectKey>)
    requires HealthPublished(s) && ReplacementsOk(s.cache) && Genuine(s.cache, w) && IsTracked(s.cache, w)
    requires forall k :: k in put ==> k in objects
    ensures HealthPublished(Replace(e, s, w, objects, drop, put))
  {
    hide PutObject, DropObject, PutObjects, DropObjects, UpdateWatchHealth;
    var s1 := s.(cache := Promote(s.cache, w));
    DropObjectsEffect(e, s1, drop);
    var s2 := DropObjects(e, s1, drop);
    PutObjectsEffect(e, s2, w.key, objects, put);
    var s3 := PutObjects(e, s2, w.key, objects, put);
    var s4 := s3.(cache := MarkReady(s3.cache, w.key, objects.Keys));
    UpdatePublishes(e, s4, w, {});
  }

  lemma EventKeepsHealth(e: Env, s: State, w: Handle, o: Object, deleted: bool)
    requires HealthPublished(s)
    ensures HealthPublished(ApplyWatchEvent(e, s, w, o, deleted))
  {
    EventEffect(e, s, w, o, deleted);
    hide ApplyWatchEvent;
  }

  predicate Creates(e: Env, c: Cache, scopes: set<Name>, r: Request) {
    var key := ServingKey(e, r.gvk, r.namespace);
    && (key.namespace == 0 || key.namespace in scopes)
    && !(key in c.watches && (r.metadataOnly || c.watches[key].full || key in c.replacements))
  }

  lemma RequestHealth(e: Env, s: State, r: Request, mapping: Failure, id: nat)
    ensures var t := ServeRequest(e, s, Some(r), mapping, id);
            t.pubs.health == if mapping == {} && Creates(e, s.cache, s.scopes, r)
                             then s.pubs.health[ServingKey(e, r.gvk, r.namespace) := Health(false, NoReason)] else s.pubs.health
  {
    hide ServingKey, FailureReason;
  }

  lemma RequestKeepsHealth(e: Env, s: State, r: Option<Request>, mapping: Failure, id: nat)
    requires HealthPublished(s) && ReplacementsOk(s.cache)
    ensures HealthPublished(ServeRequest(e, s, r, mapping, id))
  {
    if r.Some? {
      RequestHealth(e, s, r.value, mapping, id);
      EnsureEffect(e, s, r.value.gvk, r.value.namespace, r.value.metadataOnly, mapping, id);
      ReplacedAreWatched(s.cache);
      var key, w := ServingKey(e, r.value.gvk, r.value.namespace), Watch(id, !r.value.metadataOnly, false, {}, {});
      CreatedMirror(s.cache, s.pubs.health, key, w);
      assert HealthMirror(w) == Health(false, NoReason);
      hide ServingKey, Ensure, ReplacementsOk, Mirrored, HealthMirror;
    }
  }

  lemma CreatedMirror(c: Cache, health: map<WatchKey, Health>, key: WatchKey, w: Watch)
    requires Mirrored(c, health) && c.replacements.Keys <= c.watches.Keys
    ensures key !in c.watches ==>
              Mirrored(c.(watches := c.watches[key := w], sources := c.sources[key := SourceMirror(w)]), health[key := HealthMirror(w)])
    ensures key in c.watches ==> Mirrored(c.(replacements := c.replacements[key := w]), health[key := HealthMirror(w)])
  {
    hide HealthMirror, SourceMirror;
  }

  lemma ReplacedAreWatched(c: Cache)
    requires ReplacementsOk(c)
    ensures c.replacements.Keys <= c.watches.Keys
  {
  }

  lemma RequestKeepsFailures(e: Env, s: State, r: Option<Request>, mapping: Failure, id: nat)
    requires FailuresPublished(s)
    ensures FailuresPublished(ServeRequest(e, s, r, mapping, id))
  {
    if r.Some? {
      var request := r.value;
      var key := ServingKey(e, request.gvk, request.namespace);
      var settled := set r | r in s.watchFailures && r.gvk == request.gvk && (key.namespace == 0 || r.namespace == key.namespace);
      ForgetKeepsFailures(s, settled);
      hide ServingKey, FailureReason, ForgetFailures;
    }
  }

  lemma SyncKeepsHealth(e: Env, s: State, offered: map<GroupKind, Selection>, err: Failure, order: SyncOrder)
    requires HealthInv(e, s)
    ensures HealthInv(e, PrepareWatchRequests(e, s, offered, err, order))
  {
    var t := PrepareWatchRequests(e, s, offered, err, order);
    var gone, lost := SyncShape(e, s, offered, err, order);
    RetiredMirror(s.cache, t.cache, s.pubs.health, gone);
    RefreshPublishes(e, s, offered, err);
    hide PrepareWatchRequests, RefreshDefinitions, FailureReason, Mirrored;
  }

  lemma RetiredMirror(c: Cache, c': Cache, health: map<WatchKey, Health>, gone: set<WatchKey>)
    requires Mirrored(c, health)
    requires c'.watches == c.watches - gone && c'.replacements == c.replacements - gone
    ensures Mirrored(c', health - gone)
  {
    hide HealthMirror;
  }

  lemma ForgetKeepsFailures(s: State, requests: set<WatchKey>)
    requires FailuresPublished(s)
    ensures FailuresPublished(ForgetFailures(s, requests))
  {
    hide FailureReason;
  }

  lemma RefreshPublishes(e: Env, s: State, offered: map<GroupKind, Selection>, err: Failure)
    requires DefinitionsPublished(e, s)
    ensures DefinitionsPublished(e, RefreshDefinitions(e, s, offered, err))
  {
    RefreshStamps(e, s, offered, err);
    hide KindPods, KindObjects, AffectedPods, AffectedWork, ChangedKinds, MergedDefinitions;
  }

  lemma NextKeepsHealth(e: Env, sys: System, a: Action)
    requires Enabled(e, sys, a) && HealthInv(e, sys.s) && ReplacementsOk(sys.s.cache)
    ensures HealthInv(e, Next(e, sys, a).s)
  {
    hide ApplyWatchEvent, Replace, UpdateWatchHealth, PrepareWatchRequests, Ensure, StepPodProgram, StepRootProgram, StepSelected, HealthPublished, ReplacementsOk;
    var s := sys.s;
    if ActionRequest(sys, a).Some? {
      RequestNext(e, sys, a);
      RequestKeepsHealth(e, s, ActionRequest(sys, a), ActionMapping(a), sys.nextWatch);
      RequestKeepsFailures(e, s, ActionRequest(sys, a), ActionMapping(a), sys.nextWatch);
      RequestRest(e, s, ActionRequest(sys, a), ActionMapping(a), sys.nextWatch);
      hide Next, Enabled;
    } else {
      match a
      case WatchEvent(w, o, deleted) =>
        EventEffect(e, s, w, o, deleted);
        EventKeepsHealth(e, s, w, o, deleted);
      case WatchSnapshot(w, objects, drop, put) =>
        SnapshotRest(e, s, w, objects, drop, put);
        if IsTracked(s.cache, w) {
          SnapshotKeepsHealth(e, s, w, objects, drop, put);
        } else {
          UntrackedSnapshot(e, s, w, objects, drop, put);
        }
      case WatchStatus(w, err) =>
        HealthRest(e, s, w, err);
        UpdateKeepsHealth(e, s, w, err);
      case SyncSources(offered, err, order) => SyncKeepsHealth(e, s, offered, err, order);
      case StartWatch(gvk, namespace, metadataOnly, mapping) => assert false;
      case Selected(op) =>
        SelectedStepTracks(e, s, op);
        SameHealth(s, StepSelected(e, s, op));
      case StepPod(k, input) =>
        PodStepCache(e, s, k, sys.pods[k], input, sys.nextWatch);
        SameHealth(s, StepPodProgram(e, s, k, sys.pods[k], input, sys.nextWatch).0);
      case StepRoot(uid, input) =>
        RootStepCache(e, s, uid, sys.roots[uid], input, sys.nextWatch);
        SameHealth(s, StepRootProgram(e, s, uid, sys.roots[uid], input, sys.nextWatch).0);
      case _ => SameHealth(s, Next(e, sys, a).s);
    }
  }

  lemma SameHealth(s: State, t: State)
    requires HealthPublished(s) && t.cache == s.cache && t.pubs.health == s.pubs.health
    ensures HealthPublished(t)
  {
  }

  /** In every reachable state the published health mirrors the watches. */
  lemma {:induction false} HealthMirrorsWatches(e: Env, actions: seq<Action>)
    ensures HealthInv(e, Run(e, actions).s)
    decreases |actions|
  {
    if actions == [] {
      assert FailuresPublished(InitialState(e));
    } else {
      var past := actions[..|actions| - 1];
      HealthMirrorsWatches(e, past);
      RunKeepsCache(e, past);
      if Enabled(e, Run(e, past), actions[|actions| - 1]) {
        NextKeepsHealth(e, Run(e, past), actions[|actions| - 1]);
      }
    }
  }

  /** The run has read the definitions. */
  ghost predicate Refreshed(e: Env, actions: seq<Action>)
    decreases |actions|
  {
    actions != [] &&
      (Refreshed(e, actions[..|actions| - 1])
       || (actions[|actions| - 1].SyncSources? && Enabled(e, Run(e, actions[..|actions| - 1]), actions[|actions| - 1])))
  }

  /** Only the sources worker publishes the definition source. */
  lemma NextDefinitionHealth(e: Env, sys: System, a: Action)
    requires Enabled(e, sys, a)
    ensures var s, t := sys.s, Next(e, sys, a).s;
            && (!e.clusterDefinitions || !a.SyncSources? ==> t.pubs.definitionHealth == s.pubs.definitionHealth)
            && (e.clusterDefinitions && a.SyncSources? ==> t.pubs.definitionHealth == Some(DefinitionMirror(t.defs)))
  {
    hide ApplyWatchEvent, Replace, UpdateWatchHealth, PrepareWatchRequests, Ensure, StepPodProgram, StepRootProgram, StepSelected, FailureReason;
    var s := sys.s;
    if ActionRequest(sys, a).Some? {
      RequestNext(e, sys, a);
      RequestRest(e, s, ActionRequest(sys, a), ActionMapping(a), sys.nextWatch);
    } else {
      match a
      case WatchEvent(w, o, deleted) => EventEffect(e, s, w, o, deleted);
      case WatchSnapshot(w, objects, drop, put) => SnapshotRest(e, s, w, objects, drop, put);
      case WatchStatus(w, err) => HealthRest(e, s, w, err);
      case SyncSources(offered, err, order) =>
        var gone, lost := SyncShape(e, s, offered, err, order);
        hide KindPods, KindObjects, AffectedPods, AffectedWork, ChangedKinds, MergedDefinitions;
      case StartWatch(gvk, namespace, metadataOnly, mapping) => assert false;
      case Selected(op) => SelectedStepTracks(e, s, op);
      case StepPod(k, input) => PodStepCache(e, s, k, sys.pods[k], input, sys.nextWatch);
      case StepRoot(uid, input) => RootStepCache(e, s, uid, sys.roots[uid], input, sys.nextWatch);
      case _ =>
    }
  }

  /** In every reachable state the definition source is published with the exact reason of its last read, once there
      was one; before that as not synced and without reason; and not at all without cluster definitions. */
  lemma {:induction false} DefinitionHealthIsExact(e: Env, actions: seq<Action>)
    ensures Run(e, actions).s.pubs.definitionHealth
         == if !e.clusterDefinitions then None
            else if Refreshed(e, actions) then Some(DefinitionMirror(Run(e, actions).s.defs))
            else Some(Health(false, NoReason))
    decreases |actions|
  {
    if actions != [] {
      var past := actions[..|actions| - 1];
      var a := actions[|actions| - 1];
      DefinitionHealthIsExact(e, past);
      if Enabled(e, Run(e, past), a) {
        NextDefinitionHealth(e, Run(e, past), a);
        NextDefinitions(e, Run(e, past), a);
      }
      hide Next, Enabled, DefinitionMirror;
    }
  }

  // ---------------------------------------------------------------- consequences

  /** A source is never published as synced while a replacement is pending. */
  lemma NotSyncedWhileReplaced(e: Env, actions: seq<Action>, key: WatchKey)
    requires key in Run(e, actions).s.cache.replacements
    ensures var s := Run(e, actions).s; key in s.pubs.health && !s.pubs.health[key].synced
  {
    HealthMirrorsWatches(e, actions);
    RunKeepsCache(e, actions);
  }

  lemma NoFailureNoReason()
    ensures FailureReason({}) == NoReason
  {
  }

  /** The exporter is ready exactly when its published health says so: definitions, every source of a required kind, and one source of each
      required kind in every admitted namespace, and no required source that failed to start. */
  lemma ReadyIsPublished(e: Env, actions: seq<Action>)
    ensures var s := Run(e, actions).s;
            Ready(e, s) <==>
              && (if e.clusterDefinitions then s.pubs.definitionHealth == Some(Health(true, NoReason)) else s.defs.err == {})
              && s.pubs.health != map[]
              && (forall r :: r in s.pubs.sourceFailures ==> !RequiredWatch(e, r.gvk))
              && (forall k :: k in s.pubs.health && RequiredWatch(e, k.gvk) ==> s.pubs.health[k] == Health(true, NoReason))
              && (if e.scoped then
                    && NAMESPACE_WATCH in s.pubs.health && NAMESPACE_WATCH in s.cache.watches
                    && forall gvk, namespace :: gvk in e.requiredKinds + {POD_GVK} && namespace in AdmittedNamespaces(e, s.cache) ==>
                         WatchKey(gvk, 0) in s.pubs.health || WatchKey(gvk, namespace) in s.pubs.health
                  else forall gvk :: gvk in e.requiredKinds + {POD_GVK} ==> WatchKey(gvk, 0) in s.pubs.health)
  {
    hide Run, FailureReason, ContentInv, HealthPublished, FailuresPublished, AdmittedNamespaces, SourcesMirror, WatchesOk, ReplacementsOk;
    HealthMirrorsWatches(e, actions);
    DefinitionHealthIsExact(e, actions);
    RunKeepsCache(e, actions);
    NoFailureNoReason();
    var s := Run(e, actions).s;
    WatchesPublished(s);
    if e.scoped && NAMESPACE_WATCH in s.cache.watches {
      AdmittedHaveWatches(e, s.cache);
    }
  }

  /** What published health says of the watches. */
  lemma WatchesPublished(s: State)
    requires HealthPublished(s) && FailuresPublished(s) && ReplacementsOk(s.cache)
    ensures s.pubs.health.Keys == s.cache.watches.Keys && s.pubs.sourceFailures.Keys == s.watchFailures.Keys
    ensures s.pubs.health == map[] <==> s.cache.watches == map[]
    ensures forall k :: k in s.cache.watches ==>
              (s.pubs.health[k] == Health(true, NoReason) <==> s.cache.watches[k].ready && s.cache.watches[k].err == {} && k !in s.cache.replacements)
  {
    hide FailureReason;
    if s.cache.watches == map[] { assert s.pubs.health.Keys == {}; }
    if s.pubs.health == map[] { assert s.cache.watches.Keys == {}; }
  }

  lemma AdmittedHaveWatches(e: Env, c: Cache)
    requires NAMESPACE_WATCH in c.watches
    ensures (forall k | k in c.watches[NAMESPACE_WATCH].objects :: k in c.objects && e.admits(c.objects[k].obj.labels)
               ==> HasRequiredWatches(e, c, c.objects[k].obj.name))
            <==> forall gvk, namespace :: gvk in e.requiredKinds + {POD_GVK} && namespace in AdmittedNamespaces(e, c) ==>
                   WatchKey(gvk, 0) in c.watches || WatchKey(gvk, namespace) in c.watches
  {
    forall k | k in c.watches[NAMESPACE_WATCH].objects && k in c.objects && e.admits(c.objects[k].obj.labels)
      ensures c.objects[k].obj.name in AdmittedNamespaces(e, c) {
    }
  }

  predicate PublishedSynced(s: State, gvk: Gvk, namespace: Name) {
    || (WatchKey(gvk, 0) in s.pubs.health && s.pubs.health[WatchKey(gvk, 0)] == Health(true, NoReason))
    || (WatchKey(gvk, namespace) in s.pubs.health && s.pubs.health[WatchKey(gvk, namespace)] == Health(true, NoReason))
  }

  /** Readiness: every source the exporter must have is published synced and without error,
      in every admitted namespace, and so is the definition source. */
  lemma ReadyMeansHealthy(e: Env, actions: seq<Action>)
    requires Ready(e, Run(e, actions).s)
    ensures var s := Run(e, actions).s;
            && (forall k :: k in s.pubs.health && RequiredWatch(e, k.gvk) ==> s.pubs.health[k] == Health(true, NoReason))
            && (!e.scoped ==> forall gvk :: gvk in e.requiredKinds + {POD_GVK} ==> PublishedSynced(s, gvk, 0))
            && (e.scoped ==> PublishedSynced(s, NAMESPACE_GVK, 0)
                             && forall gvk, namespace :: gvk in e.requiredKinds + {POD_GVK} && namespace in AdmittedNamespaces(e, s.cache)
                                  ==> PublishedSynced(s, gvk, namespace))
            && (e.clusterDefinitions ==> s.pubs.definitionHealth == Some(Health(true, NoReason)))
            && (forall r :: r in s.pubs.sourceFailures ==> !RequiredWatch(e, r.gvk))
  {
    hide Run, FailureReason;
    HealthMirrorsWatches(e, actions);
    RunKeepsCache(e, actions);
    var s := Run(e, actions).s;
    NoFailureNoReason();
    forall k | k in s.pubs.health && RequiredWatch(e, k.gvk) ensures s.pubs.health[k] == Health(true, NoReason) {
      assert k in s.cache.watches && k !in s.cache.replacements;
    }
    if e.scoped {
      forall gvk, namespace | gvk in e.requiredKinds + {POD_GVK} && namespace in AdmittedNamespaces(e, s.cache)
        ensures PublishedSynced(s, gvk, namespace)
      {
        assert HasRequiredWatches(e, s.cache, namespace);
        assert RequiredWatch(e, gvk);
      }
    } else {
      forall gvk | gvk in e.requiredKinds + {POD_GVK} ensures PublishedSynced(s, gvk, 0) {
        assert RequiredWatch(e, gvk);
      }
    }
  }
}
