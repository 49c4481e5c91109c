/** The controller's state and its lock sections, as functions from state to state.
    Each function is one critical section of stateMu, or a helper one runs inside. */
module ControllerModel {
  import opened Basics
  import opened Discovery

  const POD_GVK := Gvk(GroupKind(0, 1), 1)
  const NAMESPACE_GVK := Gvk(GroupKind(0, 2), 1)
  const KARTA_GVK := Gvk(GroupKind(1, 3), 2)

  // ---------------------------------------------------------------- data

  datatype JobKey = JobKey(obj: ObjectKey, uid: Uid, rescan: bool)
  datatype WorkJob = RootJob(uid: Uid) | SelectedJob(key: JobKey)

  /** A watched collection. REST mapping is one to one, so the kind names the resource. */
  datatype WatchKey = WatchKey(gvk: Gvk, namespace: Name)

  /** A resourceWatch. The number is the identity of the Go object. */
  datatype Watch = Watch(id: nat, full: bool, ready: bool, err: Failure, objects: set<ObjectKey>)

  /** What a reflector goroutine holds: the watch it belongs to. */
  datatype Handle = Handle(id: nat, key: WatchKey, full: bool)

  datatype CacheSource = CacheSource(full: bool, synced: bool, err: Failure)
  datatype CachedObject = CachedObject(obj: Object, source: WatchKey)

  datatype Cache = Cache(objects: map<ObjectKey, CachedObject>, sources: map<WatchKey, CacheSource>,
                         watches: map<WatchKey, Watch>, replacements: map<WatchKey, Watch>)

  datatype Root = Root(ref: ObjectRef, pods: map<Uid, JobKey>, selected: set<JobKey>)

  datatype Exclusion = Exclusion(path: seq<ObjectRef>, root: ObjectRef, selection: Stamped, rootSelection: Stamped)
  datatype Outcome = Outcome(root: Uid, exclusion: Option<Exclusion>)

  const NO_OUTCOME := Outcome(NO_UID, None)

  datatype Members = Members(roots: map<Uid, Root>, podRoots: map<Uid, Uid>,
                             selected: map<JobKey, Outcome>, ancestors: set<Uid>)

  datatype Definition = Definition(spec: nat, metadata: nat)
  datatype Origin = Origin(cluster: bool, name: Name, uid: Uid, version: Version)
  datatype Selection = Selection(definition: Option<Definition>, gvk: Gvk, origin: Origin, err: Failure)

  const NO_SELECTION := Selection(None, NO_GVK, Origin(false, 0, 0, 0), {})

  /** A selection as lookupDefinition returns it, with the version it was read at. */
  datatype Stamped = Stamped(selection: Selection, version: nat)

  datatype Definitions = Definitions(selected: map<GroupKind, Selection>, err: Failure, version: nat)

  datatype Component = Component(name: nat, instance: nat, group: nat)

  const UNKNOWN_COMPONENT := Component(0, 0, 0)

  datatype PodRecord = PodRecord(uid: Uid, name: Name, namespace: Name, workload: ObjectRef, resolution: Option<Resolution>,
                                 karta: Name, cluster: bool, component: Component, labels: nat)
  datatype PodResult = PodResult(record: PodRecord, input: ObjectRef, hasValue: bool, error: Reason)

  datatype WorkloadRecord = WorkloadRecord(uid: Uid, ref: ObjectRef, karta: Name, cluster: bool, resolution: Option<Resolution>,
                                           hasStatus: bool, phases: seq<nat>, created: nat, statusLabels: nat)
  datatype WorkloadResult = WorkloadResult(record: WorkloadRecord, hasValue: bool, error: Reason, statusError: Reason)

  datatype Health = Health(synced: bool, error: Reason)

  datatype DiscoveryFailure = DiscoveryFailure(input: ObjectRef, error: Reason)

  datatype Publications = Publications(pods: map<Uid, PodResult>, workloads: map<Uid, WorkloadResult>,
                                       health: map<WatchKey, Health>, definitionHealth: Option<Health>,
                                       failures: map<Uid, DiscoveryFailure>, sourceFailures: map<WatchKey, Reason>)

  /** The parts of the queues a lock section can touch: it only ever adds. */
  datatype Queues = Queues(pods: set<JobKey>, work: set<WorkJob>, sync: bool)

  datatype State = State(cache: Cache, members: Members, defs: Definitions, pubs: Publications, queues: Queues,
                         scopes: set<Name>, watchFailures: map<WatchKey, Failure>)

  /** Configuration, the API server's scoping rules, and the evaluation the exporter delegates. */
  datatype Env = Env(
    scoped: bool, admits: Labels -> bool, podSelector: Labels -> bool, objectSelector: Labels -> bool,
    ignored: set<Gvk>, requiredKinds: set<Gvk>, clusterDefinitions: bool, resourceSelected: Gvk -> bool,
    clusterScoped: GroupKind -> bool,
    content: (Gvk, Uid, Version) -> Object, identity: Uid -> Identity,
    component: (Definition, Object, Object) -> Option<Component>,
    podLabels: (Object, Object) -> Option<(nat, bool)>,
    status: (Definition, Object) -> (Option<seq<nat>>, Failure),
    statusLabels: Object -> Option<nat>,
    created: Object -> nat)

  datatype Identity = Identity(groupKind: GroupKind, namespace: Name, name: Name)

  function JobFor(ref: ObjectRef): JobKey { JobKey(KeyOf(ref), ref.uid, false) }

  function JobRef(key: JobKey): ObjectRef {
    ObjectRef(key.obj.gvk, key.obj.namespace, key.obj.name, key.uid, NO_VERSION)
  }

  function Rescan(namespace: Name): JobKey { JobKey(ObjectKey(NO_GVK, namespace, 0), NO_UID, true) }

  // ---------------------------------------------------------------- reading

  function SourceFor(c: Cache, gvk: Gvk, namespace: Name): Option<WatchKey> {
    if WatchKey(gvk, 0) in c.sources then Some(WatchKey(gvk, 0))
    else if WatchKey(gvk, namespace) in c.sources then Some(WatchKey(gvk, namespace))
    else None
  }

  function Find(objects: map<ObjectKey, CachedObject>, key: ObjectKey): Option<CachedObject> {
    if key in objects then Some(objects[key])
    else Get(objects, key.(namespace := 0))
  }

  const NO_SOURCE := CacheSource(false, false, {})

  function SourceOf(c: Cache, key: WatchKey): CacheSource {
    if key in c.sources then c.sources[key] else NO_SOURCE
  }

  function Lookup(c: Cache, ref: ObjectRef, full: bool): ReadResult {
    var entry := Find(c.objects, KeyOf(ref));
    var source := if entry.Some? then Some(entry.value.source) else SourceFor(c, ref.gvk, ref.namespace);
    if source.None? then Missing({Pending})
    else
      var health := SourceOf(c, source.value);
      if health.err != {} then Missing(health.err)
      else if !health.synced || (full && !health.full) then Missing({Pending})
      else if entry.None? || (ref.uid != 0 && entry.value.obj.uid != ref.uid) then Missing({NotFound})
      else if ref.version != 0 && entry.value.obj.version != ref.version then Missing({Stale})
      else Found(entry.value.obj)
  }

  predicate IsPathCurrent(c: Cache, path: seq<ObjectRef>) {
    forall i :: 0 <= i < |path| ==> Lookup(c, path[i], false).Found?
  }

  function SelectionFor(d: Definitions, kind: GroupKind): Selection {
    if kind in d.selected then d.selected[kind] else NO_SELECTION
  }

  function LookupDefinition(d: Definitions, gvk: Gvk): (Stamped, Failure) {
    var selection := SelectionFor(d, gvk.groupKind);
    (Stamped(selection, d.version), if d.err != {} then d.err else selection.err)
  }

  predicate IsDefinitionCurrent(d: Definitions, ref: ObjectRef, stamped: Stamped) {
    var current := SelectionFor(d, ref.gvk.groupKind);
    && d.version == stamped.version
    && current.gvk == stamped.selection.gvk
    && current.origin == stamped.selection.origin
  }

  predicate IsTopOwner(e: Env, o: Object) {
    match ControllerOwner(o.owners)
    case Malformed => false
    case NoOwner => true
    case Owner(owner) => owner.gvk in e.ignored
  }

  /** The object a source's own cache entry holds for `ref`, if it is the referenced one. */
  function SourceView(c: Cache, key: WatchKey, ref: ObjectRef): Option<Object> {
    var at := ObjectKey(key.gvk, ref.namespace, ref.name);
    if at in c.objects && c.objects[at].source == key && c.objects[at].obj.uid == ref.uid then Some(c.objects[at].obj)
    else None
  }

  predicate HasRootOwnership(e: Env, c: Cache, d: Definitions, ref: ObjectRef) {
    var selected := SelectionFor(d, ref.gvk.groupKind);
    var at := ObjectKey(selected.gvk, ref.namespace, ref.name);
    if selected.definition.Some? && selected.err == {} && at in c.objects && c.objects[at].obj.uid == ref.uid
       && (var source := SourceOf(c, c.objects[at].source); source.full && source.synced && source.err == {}) then
      IsTopOwner(e, c.objects[at].obj)
    else
      forall key | key in c.sources ::
        c.sources[key].synced && c.sources[key].err == {} && key.gvk.groupKind == ref.gvk.groupKind
        ==> var view := SourceView(c, key, ref); view.Some? ==> IsTopOwner(e, view.value)
  }

  predicate IsNamespaceInScope(e: Env, scopes: set<Name>, namespace: Name) {
    !e.scoped || namespace == 0 || namespace in scopes
  }

  // ---------------------------------------------------------------- queues

  function AddPods(s: State, keys: set<JobKey>): State {
    s.(queues := s.queues.(pods := s.queues.pods + keys))
  }

  function AddWork(s: State, jobs: set<WorkJob>): State {
    s.(queues := s.queues.(work := s.queues.work + jobs))
  }

  function SelectedJobs(keys: set<JobKey>): set<WorkJob> { set k | k in keys :: SelectedJob(k) }

  function EnqueueMembers(s: State, root: Root): State {
    AddWork(AddPods(s, root.pods.Values), SelectedJobs(root.selected))
  }

  predicate HasSelectedDefinition(d: Definitions, gvk: Gvk) {
    var selection := SelectionFor(d, gvk.groupKind);
    selection.definition.Some? && selection.gvk == gvk
  }

  predicate ShouldDiscover(d: Definitions, gvk: Gvk) {
    gvk != NAMESPACE_GVK && gvk != KARTA_GVK && (gvk != POD_GVK || HasSelectedDefinition(d, gvk))
  }

  /** enqueuePod: the key a Pod's change queues, if its change matters. */
  function PodAlert(e: Env, s: State, o: Option<Object>): set<JobKey> {
    if o.Some? && o.value.gvk == POD_GVK
       && (e.podSelector(o.value.labels) || o.value.uid in s.members.podRoots || o.value.uid in s.pubs.pods)
    then {JobFor(RefOf(o.value))} else {}
  }

  predicate Replaced(was: Option<Object>, current: Option<Object>) {
    was.Some? && (current.None? || was.value.uid != current.value.uid)
  }

  predicate OwnershipChanged(was: Option<Object>, current: Option<Object>) {
    || was.None? || current.None? || was.value.uid != current.value.uid
    || ControllerOwner(was.value.owners) != ControllerOwner(current.value.owners)
  }

  predicate IsAncestor(ancestors: set<Uid>, was: Option<Object>, obj: Object) {
    || obj.gvk != POD_GVK
    || obj.uid in ancestors
    || (was.Some? && was.value.uid in ancestors)
  }

  predicate SelectorChanged(e: Env, was: Option<Object>, current: Option<Object>) {
    was.Some? && current.Some? && e.objectSelector(was.value.labels) != e.objectSelector(current.value.labels)
  }

  function RootPods(s: State, uid: Uid): set<JobKey> {
    if uid in s.members.roots then s.members.roots[uid].pods.Values else {}
  }

  /** The Pod keys queueObjectChange queues. */
  function ChangedPods(e: Env, s: State, was: Option<Object>, current: Option<Object>): set<JobKey>
    requires was.Some? || current.Some?
  {
    var obj := if current.Some? then current.value else was.value;
    PodAlert(e, s, was) + PodAlert(e, s, current)
    + (if Replaced(was, current) then RootPods(s, was.value.uid) else {})
    + (if current.Some? then RootPods(s, current.value.uid) else {})
    + (if (OwnershipChanged(was, current) && IsAncestor(s.members.ancestors, was, obj)) || SelectorChanged(e, was, current)
       then {Rescan(obj.namespace)} else {})
  }

  function RootWork(s: State, uid: Uid): set<WorkJob> {
    if uid in s.members.roots then {RootJob(uid)} else {}
  }

  /** The workload keys queueObjectChange queues. */
  function ChangedWork(e: Env, s: State, was: Option<Object>, current: Option<Object>): set<WorkJob>
    requires was.Some? || current.Some?
  {
    (if Replaced(was, current) then
       (if JobFor(RefOf(was.value)) in s.members.selected then {SelectedJob(JobFor(RefOf(was.value)))} else {})
       + RootWork(s, was.value.uid)
       + (if was.value.uid in s.members.roots then SelectedJobs(s.members.roots[was.value.uid].selected) else {})
     else {})
    + (if current.Some? then
         (var key := JobFor(RefOf(current.value));
          if (key !in s.members.selected || OwnershipChanged(was, current)) && ShouldDiscover(s.defs, current.value.gvk)
          then {SelectedJob(key)} else {})
         + RootWork(s, current.value.uid)
       else {})
  }

  function QueueObjectChange(e: Env, s: State, was: Option<Object>, current: Option<Object>): State
    requires was.Some? || current.Some?
  {
    var obj := if current.Some? then current.value else was.value;
    s.(queues := Queues(s.queues.pods + ChangedPods(e, s, was, current),
                        s.queues.work + ChangedWork(e, s, was, current),
                        s.queues.sync || (obj.gvk == NAMESPACE_GVK && e.scoped)),
       members := s.members.(ancestors := if Replaced(was, current) then s.members.ancestors - {was.value.uid}
                                          else s.members.ancestors))
  }

  function CachedAt(s: State, key: ObjectKey): Option<Object> {
    if key in s.cache.objects then Some(s.cache.objects[key].obj) else None
  }

  /** Accept an object into the cache, or drop one, and queue what that affects. */
  function PutObject(e: Env, s: State, key: ObjectKey, o: CachedObject): State {
    QueueObjectChange(e, s.(cache := s.cache.(objects := s.cache.objects[key := o])), CachedAt(s, key), Some(o.obj))
  }

  function DropObject(e: Env, s: State, key: ObjectKey): State {
    if key !in s.cache.objects then s
    else QueueObjectChange(e, s.(cache := s.cache.(objects := s.cache.objects - {key})), CachedAt(s, key), None)
  }

  function DropObjects(e: Env, s: State, keys: seq<ObjectKey>): State
    decreases |keys|
  {
    if keys == [] then s else DropObjects(e, DropObject(e, s, keys[0]), keys[1..])
  }

  function PutObjects(e: Env, s: State, source: WatchKey, objects: map<ObjectKey, Object>, keys: seq<ObjectKey>): State
    requires forall k :: k in keys ==> k in objects
    decreases |keys|
  {
    if keys == [] then s
    else PutObjects(e, PutObject(e, s, keys[0], CachedObject(objects[keys[0]], source)), source, objects, keys[1..])
  }

  // ---------------------------------------------------------------- watches (sources.go)

  predicate IsActive(c: Cache, w: Handle) { w.key in c.watches && c.watches[w.key].id == w.id }

  predicate IsReplacement(c: Cache, w: Handle) { w.key in c.replacements && c.replacements[w.key].id == w.id }

  predicate IsTracked(c: Cache, w: Handle) { IsActive(c, w) || IsReplacement(c, w) }

  function WatchOf(c: Cache, w: Handle): Watch
    requires IsTracked(c, w)
  {
    if IsActive(c, w) then c.watches[w.key] else c.replacements[w.key]
  }

  function SourceMirror(w: Watch): CacheSource { CacheSource(w.full, w.ready, w.err) }

  function HealthMirror(w: Watch): Health { Health(w.ready, FailureReason(w.err)) }

  function RootJobs(roots: map<Uid, Root>): set<WorkJob> { set uid | uid in roots :: RootJob(uid) }

  function SetHealth(s: State, key: WatchKey, health: Health): State {
    s.(pubs := s.pubs.(health := s.pubs.health[key := health]))
  }

  function UpdateWatchHealth(e: Env, s: State, w: Handle, err: Failure): State {
    if !IsTracked(s.cache, w) then s
    else
      var was := WatchOf(s.cache, w);
      var next := was.(err := err);
      var c := if IsActive(s.cache, w)
               then s.cache.(watches := s.cache.watches[w.key := next], sources := s.cache.sources[w.key := SourceMirror(next)])
               else s.cache.(replacements := s.cache.replacements[w.key := next]);
      var s1 := s.(cache := c);
      var s2 := if w.key !in c.replacements || IsReplacement(c, w) then SetHealth(s1, w.key, HealthMirror(next)) else s1;
      var s3 := if was.err != {} && err == {} then AddWork(AddPods(s2, {Rescan(w.key.namespace)}), RootJobs(s2.members.roots)) else s2;
      if w.key.gvk == NAMESPACE_GVK then s3.(queues := s3.queues.(sync := true)) else s3
  }

  function ApplyWatchEvent(e: Env, s: State, w: Handle, o: Object, deleted: bool): State {
    var key := ObjectKeyOf(o);
    if !IsActive(s.cache, w) then s
    else if deleted then
      if key !in s.cache.objects || s.cache.objects[key].obj.uid != o.uid then s
      else ForgetKey(DropObject(e, s, key), w.key, key)
    else RememberKey(PutObject(e, s, key, CachedObject(o, w.key)), w.key, key)
  }

  function ForgetKey(s: State, watch: WatchKey, key: ObjectKey): State
  {
    if watch !in s.cache.watches then s
    else var w := s.cache.watches[watch];
         s.(cache := s.cache.(watches := s.cache.watches[watch := w.(objects := w.objects - {key})]))
  }

  function RememberKey(s: State, watch: WatchKey, key: ObjectKey): State
  {
    if watch !in s.cache.watches then s
    else var w := s.cache.watches[watch];
         s.(cache := s.cache.(watches := s.cache.watches[watch := w.(objects := w.objects + {key})]))
  }

  /** A replacement takes over the predecessor's keys before its snapshot is applied. */
  function Promote(c: Cache, w: Handle): Cache
    requires IsTracked(c, w)
  {
    if IsActive(c, w) then c
    else
      var kept := if w.key in c.watches then c.watches[w.key].objects else {};
      c.(watches := c.watches[w.key := c.replacements[w.key].(objects := kept)], replacements := c.replacements - {w.key})
  }

  function MarkReady(c: Cache, key: WatchKey, keys: set<ObjectKey>): Cache {
    if key !in c.watches then c
    else c.(watches := c.watches[key := c.watches[key].(objects := keys, ready := true)])
  }

  /** The keys a snapshot no longer has. */
  function Vanished(c: Cache, w: Handle, objects: map<ObjectKey, Object>): set<ObjectKey>
    requires IsTracked(c, w)
  {
    (if w.key in c.watches then c.watches[w.key].objects else {}) - objects.Keys
  }

  function Replace(e: Env, s: State, w: Handle, objects: map<ObjectKey, Object>, drop: seq<ObjectKey>, put: seq<ObjectKey>): State
    requires forall k :: k in put ==> k in objects
  {
    if !IsTracked(s.cache, w) then s
    else
      var s1 := s.(cache := Promote(s.cache, w));
      var s2 := DropObjects(e, s1, drop);
      var s3 := PutObjects(e, s2, w.key, objects, put);
      var s4 := s3.(cache := MarkReady(s3.cache, w.key, objects.Keys));
      AddPods(UpdateWatchHealth(e, s4, w, {}), {Rescan(w.key.namespace)})
  }

  function DropSourced(e: Env, s: State, source: WatchKey, keys: seq<ObjectKey>): State
    decreases |keys|
  {
    if keys == [] then s
    else
      var key := keys[0];
      var next := if key in s.cache.objects && s.cache.objects[key].source == source then DropObject(e, s, key) else s;
      DropSourced(e, next, source, keys[1..])
  }

  /** retireWatch, together with the removal of its pending replacement. */
  function RetireWatch(e: Env, s: State, key: WatchKey, order: seq<ObjectKey>): State {
    var s1 := s.(cache := s.cache.(watches := s.cache.watches - {key}));
    var s2 := DropSourced(e, s1, key, order);
    s2.(cache := s2.cache.(sources := s2.cache.sources - {key}, replacements := s2.cache.replacements - {key}),
        pubs := s2.pubs.(health := s2.pubs.health - {key}))
  }

  function RecordWatchFailure(e: Env, s: State, request: WatchKey, err: Failure): State {
    if e.scoped && request.namespace != 0 && request.namespace !in s.scopes then s
    else s.(watchFailures := s.watchFailures[request := err],
            pubs := s.pubs.(sourceFailures := s.pubs.sourceFailures[request := FailureReason(err)]))
  }

  function ForgetFailures(s: State, requests: set<WatchKey>): State {
    s.(watchFailures := s.watchFailures - requests,
       pubs := s.pubs.(sourceFailures := s.pubs.sourceFailures - requests))
  }

  /** The collection that serves a kind in a namespace. */
  function ServingKey(e: Env, gvk: Gvk, namespace: Name): WatchKey {
    WatchKey(gvk, if e.clusterScoped(gvk.groupKind) || !e.scoped then 0 else namespace)
  }

  /** ensureWatch after the REST mapping succeeded; `id` is the new watch's identity. */
  function EnsureWatch(e: Env, s: State, gvk: Gvk, namespace: Name, metadataOnly: bool, id: nat): (State, Failure) {
    var key := ServingKey(e, gvk, namespace);
    var settled := set r | r in s.watchFailures && r.gvk == gvk && (key.namespace == 0 || r.namespace == key.namespace);
    var s1 := ForgetFailures(s, settled);
    if key.namespace != 0 && key.namespace !in s.scopes then (s1, {Pending})
    else if key in s.cache.watches && (metadataOnly || s.cache.watches[key].full || key in s.cache.replacements) then (s1, {})
    else
      var w := Watch(id, !metadataOnly, false, {}, {});
      var c := if key in s.cache.watches then s1.cache.(replacements := s1.cache.replacements[key := w])
               else s1.cache.(watches := s1.cache.watches[key := w], sources := s1.cache.sources[key := SourceMirror(w)]);
      (SetHealth(s1.(cache := c), key, Health(false, NoReason)), {})
  }

  // ---------------------------------------------------------------- membership (state.go)

  function RemoveRoot(s: State, uid: Uid): State {
    if uid !in s.members.roots then s.(pubs := s.pubs.(workloads := s.pubs.workloads - {uid}))
    else
      var root := s.members.roots[uid];
      var s1 := EnqueueMembers(s, root);
      s1.(members := s1.members.(
            roots := s1.members.roots - {uid},
            podRoots := s1.members.podRoots - root.pods.Keys,
            selected := s1.members.selected + map k | k in root.selected :: NO_OUTCOME),
          pubs := s1.pubs.(workloads := s1.pubs.workloads - {uid}))
  }

  function AncestorPods(path: seq<ObjectRef>): set<Uid> {
    set i | 1 <= i < |path| && path[i].gvk == POD_GVK :: path[i].uid
  }

  /** The reference ensureRoot leaves in the root, given the one it found or created. */
  function SettleRootRef(s: State, found: ObjectRef, wanted: ObjectRef): ObjectRef {
    var selection := SelectionFor(s.defs, wanted.gvk.groupKind);
    if selection.definition.Some? then found.(gvk := selection.gvk)
    else if found.gvk != wanted.gvk && Lookup(s.cache, found.(version := 0), false).Missing? then wanted
    else found
  }

  function EnsureRoot(s: State, workload: Workload): State {
    var wanted := workload.root;
    var found := if wanted.uid in s.members.roots then s.members.roots[wanted.uid] else Root(wanted, map[], {});
    var ref := SettleRootRef(s, found.ref, wanted);
    var s1 := s.(members := s.members.(
                   roots := s.members.roots[wanted.uid := found.(ref := ref)],
                   ancestors := s.members.ancestors + AncestorPods(workload.path)));
    if SelectionFor(s.defs, wanted.gvk.groupKind).definition.None? && found.ref.gvk != wanted.gvk && ref == wanted
    then AddWork(s1, {RootJob(wanted.uid)}) else s1
  }

  function WithoutPod(roots: map<Uid, Root>, root: Uid, pod: Uid): map<Uid, Root> {
    if root in roots then roots[root := roots[root].(pods := roots[root].pods - {pod})] else roots
  }

  function WithoutSelected(roots: map<Uid, Root>, root: Uid, key: JobKey): map<Uid, Root> {
    if root in roots then roots[root := roots[root].(selected := roots[root].selected - {key})] else roots
  }

  function PodRootOf(m: Members, pod: Uid): Uid { if pod in m.podRoots then m.podRoots[pod] else NO_UID }

  function SelectedRootOf(m: Members, key: JobKey): Uid { if key in m.selected then m.selected[key].root else NO_UID }

  function UnregisterPod(s: State, key: JobKey): State {
    var root := PodRootOf(s.members, key.uid);
    var s1 := if root in s.members.roots then AddWork(s, {RootJob(root)}) else s;
    s1.(members := s1.members.(roots := WithoutPod(s1.members.roots, root, key.uid), podRoots := s1.members.podRoots - {key.uid}),
        pubs := s1.pubs.(pods := s1.pubs.pods - {key.uid}))
  }

  /** Move a Pod's membership to an existing root. */
  function AttachPod(s: State, key: JobKey, root: Uid): State
    requires root in s.members.roots
  {
    var previous := PodRootOf(s.members, key.uid);
    if previous == root then s
    else
      var s1 := if previous in s.members.roots then AddWork(s, {RootJob(previous)}) else s;
      var left := WithoutPod(s1.members.roots, previous, key.uid);
      AddWork(s1.(members := s1.members.(
                    roots := left[root := left[root].(pods := left[root].pods[key.uid := key])],
                    podRoots := s1.members.podRoots[key.uid := root])),
              {RootJob(root)})
  }

  function RegisterPodRoot(e: Env, s: State, key: JobKey, workload: Workload): (State, Failure) {
    if !IsNamespaceInScope(e, s.scopes, key.obj.namespace) || !IsNamespaceInScope(e, s.scopes, workload.root.namespace)
       || !IsPathCurrent(s.cache, workload.path) then (s, {Stale})
    else if !HasRootOwnership(e, s.cache, s.defs, workload.root) then (s, {Unresolved})
    else (AttachPod(EnsureRoot(s, workload), key, workload.root.uid), {})
  }

  function RemoveSelectedMembership(s: State, key: JobKey): State {
    var root := SelectedRootOf(s.members, key);
    var s1 := if root in s.members.roots then AddWork(s, {RootJob(root)}) else s;
    s1.(members := s1.members.(roots := WithoutSelected(s1.members.roots, root, key), selected := s1.members.selected - {key}),
        pubs := s1.pubs.(failures := s1.pubs.failures - {key.uid}))
  }

  function TrackSelected(s: State, key: JobKey): State {
    s.(members := s.members.(selected := s.members.selected[key := Outcome(SelectedRootOf(s.members, key), None)]))
  }

  function ReplaceSelectedTracking(s: State, key: JobKey, obj: Option<Object>, selection: Stamped): (State, Failure) {
    if !IsDefinitionCurrent(s.defs, JobRef(key), selection) then (s, {Stale})
    else if obj.None? then (RemoveSelectedMembership(s, key), {})
    else
      var replacement := JobFor(RefOf(obj.value));
      var s1 := AddWork(s, {SelectedJob(replacement)});
      var outcome := if replacement in s.members.selected then s.members.selected[replacement] else NO_OUTCOME;
      if outcome.root == NO_UID && outcome.exclusion.None? then (s1, {Pending})
      else if outcome.root == NO_UID
              && (!IsPathCurrent(s.cache, outcome.exclusion.value.path)
                  || !IsDefinitionCurrent(s.defs, JobRef(replacement), outcome.exclusion.value.selection)
                  || !IsDefinitionCurrent(s.defs, outcome.exclusion.value.root, outcome.exclusion.value.rootSelection))
      then (s1, {Stale})
      else (RemoveSelectedMembership(s1, key), {})
  }

  function AttachSelected(s: State, key: JobKey, root: Uid): State
    requires root in s.members.roots
  {
    var previous := SelectedRootOf(s.members, key);
    var s1 := if previous != root && previous in s.members.roots then AddWork(s, {RootJob(previous)}) else s;
    var left := if previous != root then WithoutSelected(s1.members.roots, previous, key) else s1.members.roots;
    AddWork(s1.(members := s1.members.(
                  roots := left[root := left[root].(selected := left[root].selected + {key})],
                  selected := s1.members.selected[key := Outcome(root, None)]),
                pubs := s1.pubs.(failures := s1.pubs.failures - {key.uid})),
            {RootJob(root)})
  }

  function RegisterSelectedRoot(e: Env, s: State, key: JobKey, workload: Workload, selection: Stamped, rootSelection: Stamped): (State, Failure) {
    if !IsNamespaceInScope(e, s.scopes, key.obj.namespace) || !IsNamespaceInScope(e, s.scopes, workload.root.namespace)
    then (s, {Stale})
    else if !IsPathCurrent(s.cache, workload.path) || !IsDefinitionCurrent(s.defs, JobRef(key), selection)
            || !IsDefinitionCurrent(s.defs, workload.root, rootSelection) then (s, {Stale})
    else (AttachSelected(EnsureRoot(s, workload), key, workload.root.uid), {})
  }

  function ExcludeSelected(s: State, key: JobKey, workload: Workload, selection: Stamped, rootSelection: Stamped): (State, Failure) {
    if !IsPathCurrent(s.cache, workload.path) || !IsDefinitionCurrent(s.defs, JobRef(key), selection)
       || !IsDefinitionCurrent(s.defs, workload.root, rootSelection) then (s, {Stale})
    else
      var s1 := RemoveSelectedMembership(s, key);
      (s1.(members := s1.members.(selected := s1.members.selected[key :=
         Outcome(NO_UID, Some(Exclusion(workload.path, workload.root, selection, rootSelection)))])), {})
  }

  // ---------------------------------------------------------------- publication (state.go)

  function NoRecord(uid: Uid, workload: ObjectRef): PodRecord {
    PodRecord(uid, 0, 0, workload, None, 0, false, UNKNOWN_COMPONENT, 0)
  }

  function PublishPodFailure(s: State, key: JobKey, cause: Failure, root: Option<ObjectRef>): (State, Failure) {
    var blank := PodResult(NoRecord(key.uid, if root.Some? then root.value else NO_REF), JobRef(key), false, NoReason);
    var kept := if key.uid in s.pubs.pods && (s.pubs.pods[key.uid].hasValue || root.None?) then s.pubs.pods[key.uid] else blank;
    var stored := kept.(error := FailureReason(cause));
    (s.(pubs := s.pubs.(pods := s.pubs.pods[stored.record.uid := stored])),
     if Evaluation in cause || BadDefinition in cause then {} else cause)
  }

  function FailPodEvaluation(e: Env, s: State, key: JobKey, path: seq<ObjectRef>, cause: Failure, root: ObjectRef, selection: Stamped): (State, Failure) {
    if !IsDefinitionCurrent(s.defs, root, selection) || !IsPathCurrent(s.cache, path) then (s, {Stale})
    else if Lookup(s.cache, root, false).Missing? || !HasRootOwnership(e, s.cache, s.defs, root) then (s, {Stale})
    else PublishPodFailure(s, key, cause, Some(root))
  }

  function PublishPod(e: Env, s: State, path: seq<ObjectRef>, root: ObjectRef, selection: Stamped, next: PodResult, labelFailed: bool): (State, Failure) {
    if !IsPathCurrent(s.cache, path) || !HasRootOwnership(e, s.cache, s.defs, root) || !IsDefinitionCurrent(s.defs, root, selection)
    then (s, {Stale})
    else
      var current := Lookup(s.cache, root, false);
      if current.Missing? || current.obj.version != root.version then (s, {Stale})
      else
        var uid := next.record.uid;
        var record :=
          if labelFailed && uid in s.pubs.pods && s.pubs.pods[uid].hasValue
             && !(selection.selection.definition.None? && s.pubs.pods[uid].record.karta != 0)
          then s.pubs.pods[uid].record else next.record;
        var stored := next.(record := record, error := if labelFailed then EvaluationFailed else next.error);
        (s.(pubs := s.pubs.(pods := s.pubs.pods[stored.record.uid := stored])), {})
  }

  function FailWorkload(s: State, uid: Uid, ref: ObjectRef, cause: Failure): (State, Failure) {
    if uid !in s.members.roots then (s, {})
    else
      var blank := WorkloadResult(WorkloadRecord(uid, ref, 0, false, None, false, [], 0, 0), false, NoReason, NoReason);
      var kept := if uid in s.pubs.workloads then s.pubs.workloads[uid] else blank;
      var stored := kept.(error := FailureReason(cause));
      (s.(pubs := s.pubs.(workloads := s.pubs.workloads[stored.record.uid := stored])), cause)
  }

  function PublishWorkload(e: Env, s: State, uid: Uid, ref: ObjectRef, selection: Stamped, next: WorkloadResult): (State, Failure) {
    if uid !in s.members.roots || !IsNamespaceInScope(e, s.scopes, ref.namespace) then (s, {Stale})
    else if !IsPathCurrent(s.cache, [ref]) || !HasRootOwnership(e, s.cache, s.defs, ref) then (s, {Stale})
    else if !IsDefinitionCurrent(s.defs, ref, selection) then (s, {Stale})
    else
      var record :=
        if next.statusError != NoReason && uid in s.pubs.workloads && s.pubs.workloads[uid].hasValue
           && !(selection.selection.definition.None? && next.record.hasStatus && s.pubs.workloads[uid].record.karta != 0)
        then s.pubs.workloads[uid].record else next.record;
      var stored := next.(record := record);
      (s.(members := s.members.(roots := s.members.roots[uid := s.members.roots[uid].(ref := ref)]),
          pubs := s.pubs.(workloads := s.pubs.workloads[stored.record.uid := stored])), {})
  }

  function HideWorkload(s: State, uid: Uid): State {
    s.(pubs := s.pubs.(workloads := s.pubs.workloads - {uid}))
  }

  function RecordDiscoveryFailure(s: State, key: JobKey, err: Failure): State {
    s.(pubs := s.pubs.(failures := s.pubs.failures[key.uid := DiscoveryFailure(JobRef(key), FailureReason(err))]))
  }

  /** requeueScope: every cached object of the namespace, and every tracked selected object. */
  function RescannedPods(e: Env, s: State, namespace: Name): set<JobKey> {
    set k, j | k in s.cache.objects && (namespace == 0 || s.cache.objects[k].obj.namespace == namespace)
               && j in PodAlert(e, s, Some(s.cache.objects[k].obj)) :: j
  }

  function RescannedWork(s: State, namespace: Name): set<WorkJob> {
    (set k | k in s.cache.objects && (namespace == 0 || s.cache.objects[k].obj.namespace == namespace)
             && ShouldDiscover(s.defs, s.cache.objects[k].obj.gvk) :: SelectedJob(JobFor(RefOf(s.cache.objects[k].obj))))
    + (set j | j in s.members.selected && (namespace == 0 || j.obj.namespace == namespace) :: SelectedJob(j))
  }

  function RequeueScope(e: Env, s: State, namespace: Name): State {
    AddWork(AddPods(s, RescannedPods(e, s, namespace)), RescannedWork(s, namespace))
  }

  // ---------------------------------------------------------------- definitions (runtime.go)

  /** isSameDefinition: differences that no evaluation can see are ignored. */
  predicate IsSameDefinition(previous: Selection, next: Selection) {
    && previous.gvk == next.gvk
    && previous.origin.cluster == next.origin.cluster
    && previous.origin.name == next.origin.name
    && previous.origin.uid == next.origin.uid
    && FailureReason(previous.err) == FailureReason(next.err)
    && (if previous.definition.None? || next.definition.None?
        then previous.definition.None? && next.definition.None?
        else previous.definition.value.spec == next.definition.value.spec)
  }

  predicate KeepsDefinition(d: Definitions, kind: GroupKind, next: Selection) {
    kind in d.selected && IsSameDefinition(d.selected[kind], next)
  }

  function MergedDefinitions(d: Definitions, next: map<GroupKind, Selection>): map<GroupKind, Selection> {
    map kind | kind in next :: if KeepsDefinition(d, kind, next[kind]) then d.selected[kind] else next[kind]
  }

  function ChangedKinds(d: Definitions, next: map<GroupKind, Selection>): set<GroupKind> {
    (set kind | kind in next && !KeepsDefinition(d, kind, next[kind])) + (d.selected.Keys - next.Keys)
  }

  /** The jobs a change of the given kinds' definitions queues. */
  function KindPods(e: Env, s: State, kinds: set<GroupKind>): set<JobKey> {
    set k, j | k in s.cache.objects && j in PodAlert(e, s, Some(s.cache.objects[k].obj))
               && (s.cache.objects[k].obj.gvk.groupKind in kinds
                   || var root := PodRootOf(s.members, s.cache.objects[k].obj.uid);
                      root !in s.members.roots || s.members.roots[root].ref.gvk.groupKind in kinds) :: j
  }

  function KindObjects(s: State, kinds: set<GroupKind>): set<WorkJob> {
    set k | k in s.cache.objects && s.cache.objects[k].obj.gvk.groupKind in kinds && ShouldDiscover(s.defs, s.cache.objects[k].obj.gvk)
      :: SelectedJob(JobFor(RefOf(s.cache.objects[k].obj)))
  }

  predicate Affected(root: Root, everything: bool, kinds: set<GroupKind>) {
    everything || root.ref.gvk.groupKind in kinds
  }

  function AffectedPods(s: State, everything: bool, kinds: set<GroupKind>): set<JobKey> {
    set r, j | r in s.members.roots && Affected(s.members.roots[r], everything, kinds) && j in s.members.roots[r].pods.Values :: j
  }

  function AffectedWork(s: State, everything: bool, kinds: set<GroupKind>): set<WorkJob> {
    (set r | r in s.members.roots && Affected(s.members.roots[r], everything, kinds) :: RootJob(r))
    + (set r, j | r in s.members.roots && Affected(s.members.roots[r], everything, kinds) && j in s.members.roots[r].selected
       :: SelectedJob(j))
    + (set j | j in s.members.selected && j.obj.gvk.groupKind in kinds :: SelectedJob(j))
  }

  function RefreshDefinitions(e: Env, s: State, offered: map<GroupKind, Selection>, err: Failure): State {
    var next := if err != {} then s.defs.selected else offered;
    var healthChanged := FailureReason(s.defs.err) != FailureReason(err);
    var kinds := ChangedKinds(s.defs, next);
    var d := s.defs.(selected := MergedDefinitions(s.defs, next), err := err);
    var p := if e.clusterDefinitions then s.pubs.(definitionHealth := Some(Health(err == {}, FailureReason(err)))) else s.pubs;
    if !healthChanged && kinds == {} then s.(defs := d, pubs := p)
    else
      var s1 := s.(defs := d.(version := d.version + 1), pubs := p);
      var pods := if healthChanged then {Rescan(0)} else KindPods(e, s1, kinds);
      var objects := if healthChanged then {} else KindObjects(s1, kinds);
      AddWork(AddPods(s1, pods + AffectedPods(s1, healthChanged, kinds)), objects + AffectedWork(s1, healthChanged, kinds))
  }

  // ---------------------------------------------------------------- sources worker

  const NAMESPACE_WATCH := WatchKey(NAMESPACE_GVK, 0)

  predicate NamespaceWatchReady(c: Cache) {
    NAMESPACE_WATCH in c.watches && c.watches[NAMESPACE_WATCH].ready && c.watches[NAMESPACE_WATCH].err == {}
  }

  function AdmittedNamespaces(e: Env, c: Cache): set<Name>
    requires NAMESPACE_WATCH in c.watches
  {
    set k | k in c.watches[NAMESPACE_WATCH].objects && k in c.objects && e.admits(c.objects[k].obj.labels) :: c.objects[k].obj.name
  }

  function RemoveRoots(s: State, uids: seq<Uid>): State
    decreases |uids|
  {
    if uids == [] then s else RemoveRoots(RemoveRoot(s, uids[0]), uids[1..])
  }

  function RetireWatches(e: Env, s: State, keys: seq<WatchKey>, order: map<WatchKey, seq<ObjectKey>>): State
    decreases |keys|
  {
    if keys == [] then s
    else RetireWatches(e, RetireWatch(e, s, keys[0], if keys[0] in order then order[keys[0]] else []), keys[1..], order)
  }

  /** The orders the loops of one prepareWatchRequests call happen to use. */
  datatype SyncOrder = SyncOrder(roots: seq<Uid>, watches: seq<WatchKey>, objects: map<WatchKey, seq<ObjectKey>>)

  function OutOfScopeRoots(e: Env, s: State): set<Uid> {
    set uid | uid in s.members.roots && !IsNamespaceInScope(e, s.scopes, s.members.roots[uid].ref.namespace)
  }

  function OutOfScopeWatches(s: State): set<WatchKey> {
    set k | k in s.cache.watches && k.namespace != 0 && k.namespace !in s.scopes
  }

  function OutOfScopeFailures(s: State): set<WatchKey> {
    set r | r in s.watchFailures && r.namespace != 0 && r.namespace !in s.scopes
  }

  /** The scope of this pass, and the roots that leave it. */
  function ShrinkScope(e: Env, s: State, roots: seq<Uid>): State
    requires e.scoped ==> NamespaceWatchReady(s.cache)
  {
    if e.scoped then RemoveRoots(s.(scopes := AdmittedNamespaces(e, s.cache)), roots) else s
  }

  function PrepareWatchRequests(e: Env, s: State, offered: map<GroupKind, Selection>, err: Failure, order: SyncOrder): State {
    var s1 := RefreshDefinitions(e, s, offered, err);
    if e.scoped && !NamespaceWatchReady(s1.cache) then s1
    else
      var s2 := ShrinkScope(e, s1, order.roots);
      var s3 := RetireWatches(e, s2, order.watches, order.objects);
      ForgetFailures(s3, OutOfScopeFailures(s3))
  }

  /** The kinds a pass asks for: Pods, what the selected definitions apply to, and the required ones. */
  function WatchKinds(e: Env, d: Definitions): set<Gvk> {
    {POD_GVK} + e.requiredKinds
    + set kind | kind in d.selected && d.selected[kind].gvk.version != 0 && d.selected[kind].gvk.groupKind.kind != 0 :: d.selected[kind].gvk
  }

  /** What a pass asks for: each kind in each namespace of the scope. */
  function WatchRequests(e: Env, s: State): set<WatchKey> {
    set gvk, namespace | gvk in WatchKinds(e, s.defs) && namespace in s.scopes :: WatchKey(gvk, namespace)
  }

  /** `order` visits exactly what the loops of this pass visit. */
  ghost predicate IsSyncOrder(e: Env, s: State, offered: map<GroupKind, Selection>, err: Failure, order: SyncOrder) {
    var s1 := RefreshDefinitions(e, s, offered, err);
    (e.scoped ==> NamespaceWatchReady(s1.cache)) ==>
      && (e.scoped ==> Ordering(order.roots, OutOfScopeRoots(e, s1.(scopes := AdmittedNamespaces(e, s1.cache)))))
      && (var s2 := ShrinkScope(e, s1, order.roots);
          && Ordering(order.watches, OutOfScopeWatches(s2))
          && (forall k :: k in order.watches ==>
                (k in order.objects && k in s2.cache.watches && Ordering(order.objects[k], s2.cache.watches[k].objects))))
  }

  // ---------------------------------------------------------------- readiness

  predicate RequiredWatch(e: Env, gvk: Gvk) {
    gvk == POD_GVK || (gvk == NAMESPACE_GVK && e.scoped) || gvk in e.requiredKinds
  }

  predicate HasRequiredWatches(e: Env, c: Cache, namespace: Name) {
    forall gvk | gvk in e.requiredKinds + {POD_GVK} :: WatchKey(gvk, 0) in c.watches || WatchKey(gvk, namespace) in c.watches
  }

  predicate Ready(e: Env, s: State) {
    && s.defs.err == {}
    && s.cache.watches != map[]
    && (forall r | r in s.watchFailures :: !RequiredWatch(e, r.gvk))
    && (forall k | k in s.cache.watches && RequiredWatch(e, k.gvk) ::
          s.cache.watches[k].ready && s.cache.watches[k].err == {} && k !in s.cache.replacements)
    && (if e.scoped then
          && NAMESPACE_WATCH in s.cache.watches
          && (forall k | k in s.cache.watches[NAMESPACE_WATCH].objects ::
                k in s.cache.objects && e.admits(s.cache.objects[k].obj.labels)
                ==> HasRequiredWatches(e, s.cache, s.cache.objects[k].obj.name))
        else HasRequiredWatches(e, s.cache, 0))
  }
}
