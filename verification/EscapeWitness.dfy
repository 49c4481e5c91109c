/** A run in which the exporter leaves its namespaces: a Pod controlled by its node, which a machine controls. */
module EscapeWitness {
  import opened Basics
  import opened Discovery
  import opened ControllerModel
  import opened ControllerSystem
  import opened CacheProofs
  import opened SourceProofs

  const NODE_GVK := Gvk(GroupKind(0, 4), 1)
  const MACHINE_GVK := Gvk(GroupKind(2, 5), 1)

  const NAMESPACE_OBJECT := Object(NAMESPACE_GVK, 0, 1, 1, 1, [], 0, None)
  const NODE_OBJECT := Object(NODE_GVK, 0, 3, 3, 1, [OwnerRef(true, true, MACHINE_GVK, 4, 4)], 0, None)
  const POD_OBJECT := Object(POD_GVK, 1, 2, 2, 1, [OwnerRef(true, true, NODE_GVK, 3, 3)], 0, None)

  function ObjectOf(uid: Uid): Object {
    if uid == 1 then NAMESPACE_OBJECT else if uid == 2 then POD_OBJECT else NODE_OBJECT
  }

  /** A namespace selector that admits every namespace, and Pod and object selectors that take everything. */
  const CLUSTER := Env(
    true, labels => true, labels => true, labels => true, {}, {}, false, gvk => true,
    kind => kind == NAMESPACE_GVK.groupKind || kind == NODE_GVK.groupKind,
    (gvk, uid: Uid, version) => ObjectOf(uid),
    (uid: Uid) => Identity(ObjectOf(uid).gvk.groupKind, ObjectOf(uid).namespace, ObjectOf(uid).name),
    (definition, pod, root) => None, (pod, root) => None, (definition, root) => (None, {}), root => None, root => 0)

  // ---------------------------------------------------------------- listing one collection after another

  function Mirrors(watches: map<WatchKey, Watch>): map<WatchKey, CacheSource> {
    map k | k in watches :: SourceMirror(watches[k])
  }

  /** Nothing has happened but listing: these watches, these objects. */
  ghost predicate Listing(sys: System, scopes: set<Name>, objects: map<ObjectKey, CachedObject>, watches: map<WatchKey, Watch>) {
    && sys.s.scopes == scopes && sys.s.watchFailures == map[]
    && sys.s.cache == Cache(objects, Mirrors(watches), watches, map[])
    && sys.s.members.roots == map[] && sys.s.defs == Definitions(map[], {}, 0)
    && sys.pods == map[]
  }

  lemma NoNewFailure(e: Env, s: State, key: WatchKey, metadataOnly: bool, id: nat)
    ensures Ensure(e, s, key.gvk, key.namespace, metadataOnly, {}, id).0.watchFailures.Keys <= s.watchFailures.Keys
  {
  }

  lemma MirrorsMore(watches: map<WatchKey, Watch>, key: WatchKey, w: Watch)
    ensures Mirrors(watches[key := w]) == Mirrors(watches)[key := SourceMirror(w)]
  {
  }

  lemma Started(e: Env, sys: System, scopes: set<Name>, objects: map<ObjectKey, CachedObject>, watches: map<WatchKey, Watch>,
                key: WatchKey, metadataOnly: bool)
    requires Listing(sys, scopes, objects, watches)
    requires key == ServingKey(e, key.gvk, key.namespace) && key !in watches && (key.namespace == 0 || key.namespace in scopes)
    ensures var start := StartWatch(key.gvk, key.namespace, metadataOnly, {});
            && Enabled(e, sys, start)
            && Listing(Next(e, sys, start), scopes, objects, watches[key := Watch(sys.nextWatch, !metadataOnly, false, {}, {})])
            && Next(e, sys, start).nextWatch == sys.nextWatch + 1 && Next(e, sys, start).s.queues == sys.s.queues
  {
    hide Ensure, Mirrors, SourceMirror;
    var start := StartWatch(key.gvk, key.namespace, metadataOnly, {});
    var t := Next(e, sys, start);
    var w := Watch(sys.nextWatch, !metadataOnly, false, {}, {});
    EnsureEffect(e, sys.s, key.gvk, key.namespace, metadataOnly, {}, sys.nextWatch);
    EnsureRest(e, sys.s, key.gvk, key.namespace, metadataOnly, {}, sys.nextWatch);
    NoNewFailure(e, sys.s, key, metadataOnly, sys.nextWatch);
    hide ServingKey;
    MirrorsMore(watches, key, w);
    assert t.s.cache.sources == Mirrors(watches[key := w]);
    assert t.s.watchFailures.Keys <= {};
  }

  lemma Filled(e: Env, sys: System, scopes: set<Name>, objects: map<ObjectKey, CachedObject>, watches: map<WatchKey, Watch>,
               w: Handle, o: Object)
    requires Listing(sys, scopes, objects, watches)
    requires w.key in watches && watches[w.key] == Watch(w.id, w.full, false, {}, {})
    requires Deliverable(e, w, o) && ObjectKeyOf(o) !in objects
    ensures var at := ObjectKeyOf(o);
            var fill := WatchSnapshot(w, map[at := o], [], [at]);
            && Enabled(e, sys, fill)
            && Listing(Next(e, sys, fill), scopes, objects[at := CachedObject(o, w.key)], watches[w.key := Watch(w.id, w.full, true, {}, {at})])
            && Next(e, sys, fill).nextWatch == sys.nextWatch
            && sys.s.queues.pods + PodAlert(e, sys.s, Some(o)) <= Next(e, sys, fill).s.queues.pods
  {
    hide Deliverable, Replace, AcceptedCache, PodAlert;
    var at := ObjectKeyOf(o);
    var listed := map[at := o];
    FilledCache(sys.s.cache, objects, watches, w, o);
    SnapshotRest(e, sys.s, w, listed, [], [at]);
    SnapshotEffect(e, sys.s, w, listed, [], [at]);
    FillQueues(e, sys.s, w, o);
    hide Vanished, IsTracked, Mirrors;
  }

  lemma FilledCache(c: Cache, objects: map<ObjectKey, CachedObject>, watches: map<WatchKey, Watch>, w: Handle, o: Object)
    requires c == Cache(objects, Mirrors(watches), watches, map[])
    requires w.key in watches && watches[w.key] == Watch(w.id, w.full, false, {}, {}) && ObjectKeyOf(o) !in objects
    ensures var at := ObjectKeyOf(o);
            var filled := watches[w.key := Watch(w.id, w.full, true, {}, {at})];
            && IsTracked(c, w) && Genuine(c, w) && Ordering([at], (map[at := o]).Keys) && Ordering([], Vanished(c, w, map[at := o]))
            && AcceptedCache(c, w, map[at := o]) == Cache(objects[at := CachedObject(o, w.key)], Mirrors(filled), filled, map[])
  {
    var at := ObjectKeyOf(o);
    var listed := map[at := o];
    assert IsActive(c, w);
    AcceptedShape(c, w, listed);
    hide AcceptedCache, SnapshotCache;
    var c' := AcceptedCache(c, w, listed);
    assert listed.Keys == {at};
    assert c'.sources == Mirrors(c'.watches);
    assert c'.objects == objects[at := CachedObject(o, w.key)];
  }

  lemma FillQueues(e: Env, s: State, w: Handle, o: Object)
    requires IsActive(s.cache, w) && ObjectKeyOf(o) !in s.cache.objects
    ensures var at := ObjectKeyOf(o);
            s.queues.pods + PodAlert(e, s, Some(o)) <= Replace(e, s, w, map[at := o], [], [at]).queues.pods
  {
    hide UpdateWatchHealth, PodAlert, IsAncestor, OwnershipChanged, ChangedWork, QueueObjectChange;
    var at := ObjectKeyOf(o);
    var listed := map[at := o];
    var s2 := s.(cache := s.cache.(objects := s.cache.objects[at := CachedObject(o, w.key)]));
    var s3 := PutObjects(e, s, w.key, listed, [at]);
    var put := PutObject(e, s, at, CachedObject(o, w.key));
    assert [at][1..] == [] && PutObjects(e, put, w.key, listed, []) == put;
    assert s3 == put;
    assert s3 == QueueObjectChange(e, s2, None, Some(o));
    assert s.queues.pods + PodAlert(e, s, Some(o)) <= s3.queues.pods by { ChangeAlerts(e, s, s2, o); }
    var s4 := s3.(cache := MarkReady(s3.cache, w.key, listed.Keys));
    HealthRest(e, s4, w, {});
  }

  lemma ChangeAlerts(e: Env, s: State, t: State, o: Object)
    requires t == s.(cache := t.cache)
    ensures s.queues.pods + PodAlert(e, s, Some(o)) <= QueueObjectChange(e, t, None, Some(o)).queues.pods
  {
  }

  // ---------------------------------------------------------------- the run

  const NAMESPACE_KEY := ObjectKeyOf(NAMESPACE_OBJECT)
  const NODE_KEY := ObjectKeyOf(NODE_OBJECT)
  const POD_KEY := ObjectKeyOf(POD_OBJECT)

  const NODE_WATCH := WatchKey(NODE_GVK, 0)
  const POD_WATCH := WatchKey(POD_GVK, 1)

  const POD_JOB := JobFor(RefOf(POD_OBJECT))

  function NamespaceObjects(): map<ObjectKey, CachedObject> { map[NAMESPACE_KEY := CachedObject(NAMESPACE_OBJECT, NAMESPACE_WATCH)] }

  function NamespaceWatches(): map<WatchKey, Watch> { map[NAMESPACE_WATCH := Watch(0, true, true, {}, {NAMESPACE_KEY})] }

  function PodObjects(): map<ObjectKey, CachedObject> { NamespaceObjects()[POD_KEY := CachedObject(POD_OBJECT, POD_WATCH)] }

  function PodWatches(): map<WatchKey, Watch> { NamespaceWatches()[POD_WATCH := Watch(1, true, true, {}, {POD_KEY})] }

  function NodeObjects(): map<ObjectKey, CachedObject> { PodObjects()[NODE_KEY := CachedObject(NODE_OBJECT, NODE_WATCH)] }

  function NodeWatches(): map<WatchKey, Watch> { PodWatches()[NODE_WATCH := Watch(2, false, true, {}, {NODE_KEY})] }

  function Pass(): Action { SyncSources(map[], {}, SyncOrder([], [], map[])) }

  /** One pass of the sources worker admits the namespace. */
  lemma Admits(sys: System)
    requires Listing(sys, {}, NamespaceObjects(), NamespaceWatches())
    ensures Enabled(CLUSTER, sys, Pass())
    ensures Listing(Next(CLUSTER, sys, Pass()), {1}, NamespaceObjects(), NamespaceWatches())
    ensures Next(CLUSTER, sys, Pass()).nextWatch == sys.nextWatch
  {
    var s := sys.s;
    assert RefreshDefinitions(CLUSTER, s, map[], {}) == s by {
      assert ChangedKinds(s.defs, map[]) == {};
      assert MergedDefinitions(s.defs, map[]) == map[];
    }
    hide RefreshDefinitions;
    assert AdmittedNamespaces(CLUSTER, s.cache) == {1} by {
      assert NAMESPACE_KEY in s.cache.watches[NAMESPACE_WATCH].objects && CLUSTER.admits(NAMESPACE_OBJECT.labels);
    }
    var s1 := s.(scopes := {1});
    assert OutOfScopeRoots(CLUSTER, s1) == {} && OutOfScopeWatches(s1) == {} && OutOfScopeFailures(s1) == {};
    assert ShrinkScope(CLUSTER, s, []) == s1;
    assert RetireWatches(CLUSTER, s1, [], map[]) == s1;
    assert ForgetFailures(s1, {}).watchFailures == map[];
  }

  /** The start of a run: the namespaces, the Pods of the admitted namespace and the nodes are listed. */
  function Lists(): seq<Action> {
    [StartWatch(NAMESPACE_GVK, 0, false, {})]
    + [WatchSnapshot(Handle(0, NAMESPACE_WATCH, true), map[NAMESPACE_KEY := NAMESPACE_OBJECT], [], [NAMESPACE_KEY])]
    + [Pass()]
    + [StartWatch(POD_GVK, 1, false, {})]
    + [WatchSnapshot(Handle(1, POD_WATCH, true), map[POD_KEY := POD_OBJECT], [], [POD_KEY])]
    + [StartWatch(NODE_GVK, 0, true, {})]
    + [WatchSnapshot(Handle(2, NODE_WATCH, false), map[NODE_KEY := NODE_OBJECT], [], [NODE_KEY])]
  }

  lemma ListsStep(n: nat)
    requires n < |Lists()|
    ensures Run(CLUSTER, Lists()[..n + 1])
         == var sys := Run(CLUSTER, Lists()[..n]); if Enabled(CLUSTER, sys, Lists()[n]) then Next(CLUSTER, sys, Lists()[n]) else sys
  {
    hide Run, Enabled, Next;
    assert Lists()[..n + 1] == Lists()[..n] + [Lists()[n]];
    RunOneMore(CLUSTER, Lists()[..n], Lists()[n]);
  }

  lemma ListsNamespaces()
    ensures var sys := Run(CLUSTER, Lists()[..3]); Listing(sys, {1}, NamespaceObjects(), NamespaceWatches()) && sys.nextWatch == 1
  {
    hide Enabled, Next;
    var sys := Run(CLUSTER, Lists()[..0]);
    assert Listing(sys, {}, map[], map[]) by { assert sys == Initial(CLUSTER); }
    hide Run;
    ListsStep(0);
    ListsStep(1);
    ListsStep(2);
    Started(CLUSTER, sys, {}, map[], map[], NAMESPACE_WATCH, false);
    var w := map[NAMESPACE_WATCH := Watch(0, true, false, {}, {})];
    assert map[][NAMESPACE_WATCH := Watch(0, true, false, {}, {})] == w;
    Filled(CLUSTER, Run(CLUSTER, Lists()[..1]), {}, map[], w, Handle(0, NAMESPACE_WATCH, true), NAMESPACE_OBJECT);
    assert map[][NAMESPACE_KEY := CachedObject(NAMESPACE_OBJECT, NAMESPACE_WATCH)] == NamespaceObjects();
    assert w[NAMESPACE_WATCH := Watch(0, true, true, {}, {NAMESPACE_KEY})] == NamespaceWatches();
    Admits(Run(CLUSTER, Lists()[..2]));
  }

  lemma ListsPods()
    ensures var sys := Run(CLUSTER, Lists()[..5]);
            Listing(sys, {1}, PodObjects(), PodWatches()) && sys.nextWatch == 2 && POD_JOB in sys.s.queues.pods
  {
    hide Run, Enabled, Next;
    ListsNamespaces();
    ListsStep(3);
    ListsStep(4);
    var sys := Run(CLUSTER, Lists()[..3]);
    Started(CLUSTER, sys, {1}, NamespaceObjects(), NamespaceWatches(), POD_WATCH, false);
    var w := NamespaceWatches()[POD_WATCH := Watch(1, true, false, {}, {})];
    Filled(CLUSTER, Run(CLUSTER, Lists()[..4]), {1}, NamespaceObjects(), w, Handle(1, POD_WATCH, true), POD_OBJECT);
    assert w[POD_WATCH := Watch(1, true, true, {}, {POD_KEY})] == PodWatches();
    assert POD_JOB in PodAlert(CLUSTER, Run(CLUSTER, Lists()[..4]).s, Some(POD_OBJECT)) by { assert CLUSTER.podSelector(POD_OBJECT.labels); }
  }

  lemma ListsNodes()
    ensures var sys := Run(CLUSTER, Lists());
            Listing(sys, {1}, NodeObjects(), NodeWatches()) && POD_JOB in sys.s.queues.pods
  {
    hide Run, Enabled, Next;
    ListsPods();
    ListsStep(5);
    ListsStep(6);
    var sys := Run(CLUSTER, Lists()[..5]);
    Started(CLUSTER, sys, {1}, PodObjects(), PodWatches(), NODE_WATCH, true);
    var w := PodWatches()[NODE_WATCH := Watch(2, false, false, {}, {})];
    Filled(CLUSTER, Run(CLUSTER, Lists()[..6]), {1}, PodObjects(), w, Handle(2, NODE_WATCH, false), NODE_OBJECT);
    assert w[NODE_WATCH := Watch(2, false, true, {}, {NODE_KEY})] == NodeWatches();
    assert Lists()[..7] == Lists();
  }

  // ---------------------------------------------------------------- the Pod's job

  const STEP := StepPod(POD_JOB, Input({}, {}))

  function OwnerOfPod(): ObjectRef { ObjectRef(NODE_GVK, 1, 3, 3, 0) }

  /** The lists, and the Pod's job as far as its node. */
  function ToTheNode(): seq<Action> { Lists() + [TakePod(POD_JOB)] + [STEP] + [STEP] + [STEP] }

  lemma JobClimbs(s: State)
    requires s.scopes == {1} && s.cache == Cache(NodeObjects(), Mirrors(NodeWatches()), NodeWatches(), map[])
    ensures forall id: nat ::
              && StepPodProgram(CLUSTER, s, POD_JOB, PodStart, Input({}, {}), id) == (s, PodLoad)
              && StepPodProgram(CLUSTER, s, POD_JOB, PodLoad, Input({}, {}), id) == (s, PodClimb(POD_OBJECT, [], RefOf(POD_OBJECT)))
              && StepPodProgram(CLUSTER, s, POD_JOB, PodClimb(POD_OBJECT, [], RefOf(POD_OBJECT)), Input({}, {}), id)
                 == (s, PodClimb(POD_OBJECT, [RefOf(POD_OBJECT)], OwnerOfPod()))
    ensures var path := [RefOf(POD_OBJECT)];
            && MayVisit(path, OwnerOfPod()) && Lookup(s.cache, OwnerOfPod(), false) == Found(NODE_OBJECT)
            && var visit := VisitObject({}, path, OwnerOfPod(), NODE_OBJECT);
               && visit.VisitOwner? && visit.ref.gvk == MACHINE_GVK && MayVisit(visit.path, visit.ref)
               && Lookup(s.cache, visit.ref, false).Missing?
  {
    assert POD_KEY in NodeObjects() && NODE_KEY in NodeObjects();
    assert Controllers(POD_OBJECT.owners) == POD_OBJECT.owners by { assert POD_OBJECT.owners[1..] == []; }
    assert Controllers(NODE_OBJECT.owners) == NODE_OBJECT.owners by { assert NODE_OBJECT.owners[1..] == []; }
    assert CLUSTER.podSelector(POD_OBJECT.labels);
    assert [] + [RefOf(POD_OBJECT)] == [RefOf(POD_OBJECT)];
  }

  lemma Stepped(actions: seq<Action>, pc: PodPc)
    requires var sys := Run(CLUSTER, actions);
             && POD_JOB in sys.pods && !sys.pods[POD_JOB].PodReturn?
             && StepPodProgram(CLUSTER, sys.s, POD_JOB, sys.pods[POD_JOB], Input({}, {}), sys.nextWatch) == (sys.s, pc)
    ensures var sys := Run(CLUSTER, actions + [STEP]);
            sys.s == Run(CLUSTER, actions).s && POD_JOB in sys.pods && sys.pods[POD_JOB] == pc
  {
    RunOneMore(CLUSTER, actions, STEP);
    hide Run, StepPodProgram;
  }

  lemma ReachesTheNode()
    ensures var sys := Run(CLUSTER, ToTheNode());
            && sys.s.scopes == {1} && sys.s.cache == Cache(NodeObjects(), Mirrors(NodeWatches()), NodeWatches(), map[])
            && POD_JOB in sys.pods && sys.pods[POD_JOB] == PodClimb(POD_OBJECT, [RefOf(POD_OBJECT)], OwnerOfPod())
  {
    ListsNodes();
    RunOneMore(CLUSTER, Lists(), TakePod(POD_JOB));
    hide Run, StepPodProgram, NodeObjects, NodeWatches, Mirrors, Lists;
    var taken := Lists() + [TakePod(POD_JOB)];
    JobClimbs(Run(CLUSTER, taken).s);
    hide Next, Enabled, Lookup, VisitObject, MayVisit;
    Stepped(taken, PodLoad);
    Stepped(taken + [STEP], PodClimb(POD_OBJECT, [], RefOf(POD_OBJECT)));
    Stepped(taken + [STEP] + [STEP], PodClimb(POD_OBJECT, [RefOf(POD_OBJECT)], OwnerOfPod()));
  }

  /** A contained run after which the Pod's job is about to escape, and the run that escaped. */
  lemma EscapeIsReached()
    ensures SourcesContained(CLUSTER, Run(CLUSTER, ToTheNode()).s)
    ensures AboutToEscape(CLUSTER, Run(CLUSTER, ToTheNode()), POD_JOB, POD_OBJECT, [RefOf(POD_OBJECT)], OwnerOfPod(), NODE_OBJECT)
    ensures !SourcesContained(CLUSTER, Run(CLUSTER, ToTheNode() + [STEP] + [STEP] + [STEP]).s)
  {
    ReachesTheNode();
    hide Run, ToTheNode;
    JobClimbs(Run(CLUSTER, ToTheNode()).s);
    OpenWatchesWereRequested(CLUSTER, ToTheNode());
    RunKeepsCache(CLUSTER, ToTheNode());
    NothingOpen(Run(CLUSTER, ToTheNode()).s);
    hide StepPodProgram, Lookup, VisitObject, MayVisit, NodeObjects, NodeWatches, Mirrors, SourcesContained, NamespacedIn, CacheInv;
    OwnerWalkEscapes(CLUSTER, ToTheNode(), POD_JOB, POD_OBJECT, [RefOf(POD_OBJECT)], OwnerOfPod(), NODE_OBJECT);
  }

  lemma NothingOpen(s: State)
    requires s.cache == Cache(NodeObjects(), Mirrors(NodeWatches()), NodeWatches(), map[]) && NamespacedIn(CLUSTER, s)
    ensures SourcesContained(CLUSTER, s)
  {
    ContainedMeansClosed(CLUSTER, s);
    hide SourcesContained, NamespacedIn;
    assert NodeWatches().Keys == {NAMESPACE_WATCH, POD_WATCH, NODE_WATCH};
  }
}
