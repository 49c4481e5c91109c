/** Pod attribution is linearizable: what is published without error is what one uninterrupted reconciliation
    of the shared state would compute, although the inputs were read at different instants. */
module AtomicProofs {
  import opened Basics
  import opened Discovery
  import opened ControllerModel
  import opened ControllerSystem
  import opened CacheProofs
  import opened JobProofs
  import opened MemberProofs
  import opened StampProofs
  import opened WorkloadProofs
  import opened PodProofs

  // ---------------------------------------------------------------- one atomic reconciliation

  /** Unread: some object cannot be read, or the owner walk fails. Undefined: no usable definition.
      Unselected: a selector or resource rule rejects the Pod or its root. */
  datatype Verdict = Unread(err: Failure) | Undefined | Unselected | Unevaluated | Attributed(record: PodRecord, labelFailed: bool)

  function Reader(c: Cache): ObjectRef -> ReadResult { ref => Lookup(c, ref, false) }

  /** Read the Pod, walk its owners, look up the definition, read the root and evaluate, all at once. */
  function ReconcileNow(e: Env, s: State, key: JobKey): Verdict {
    match Lookup(s.cache, JobRef(key), false)
    case Missing(err) => Unread(err)
    case Found(pod) =>
      match Walk(Reader(s.cache), e.ignored, [], RefOf(pod))
      case WalkFailed(err) => Unread(err)
      case Walked(workload) => JudgeNow(e, s, pod, workload)
  }

  function JudgeNow(e: Env, s: State, pod: Object, workload: Workload): Verdict {
    var (selection, err) := LookupDefinition(s.defs, workload.root.gvk);
    match Lookup(s.cache, RootBodyRef(workload.root, selection.selection), false)
    case Missing(missing) => Unread(missing)
    case Found(root) =>
      var podBody, rootBody := Content(e, RefOf(pod)), Content(e, RefOf(root));
      if !Accepts(e, podBody, rootBody) then Unselected
      else if err != {} then Undefined
      else match EvaluatePod(e, selection.selection, podBody, rootBody, workload.resolution)
           case PodEvaluationFailed => Unevaluated
           case PodEvaluated(record, labelFailed) => Attributed(record, labelFailed)
  }

  // ---------------------------------------------------------------- reading a linked path

  /** The source that serves a cached object is synced and without error. */
  predicate Readable(c: Cache, at: ObjectKey) {
    at in c.objects && var source := SourceOf(c, c.objects[at].source); source.err == {} && source.synced
  }

  /** A reference that names a cached object, perhaps in the namespace of an object it owns. */
  predicate Names(ref: ObjectRef, target: ObjectRef) {
    && ref.gvk == target.gvk && ref.name == target.name && ref.uid == target.uid
    && (ref.namespace == target.namespace || target.namespace == 0)
  }

  /** No namespaced object shadows a cluster-scoped owner, so the fallback finds it. */
  lemma LookupNamed(e: Env, c: Cache, ref: ObjectRef, target: ObjectRef, next: nat)
    requires CacheInv(e, c, next) && KnownRef(e, target) && Names(ref, target) && ref.version == 0
    requires KeyOf(target) in c.objects && c.objects[KeyOf(target)].obj.uid == target.uid
    ensures var read := Lookup(c, ref, false);
            && (read.Found? ==> read.obj == c.objects[KeyOf(target)].obj)
            && (Readable(c, KeyOf(target)) ==> read.Found?)
  {
    NoShadow(e, c, ref, target, next);
    hide CacheInv, KnownRef;
  }

  /** A cluster-scoped object and a namespaced one of its kind cannot both exist. */
  lemma NoShadow(e: Env, c: Cache, ref: ObjectRef, target: ObjectRef, next: nat)
    requires CacheInv(e, c, next) && KnownRef(e, target) && Names(ref, target)
    ensures ref.namespace != target.namespace ==> KeyOf(ref) !in c.objects
  {
    assert forall k :: k in c.objects ==> ObjectKeyOf(c.objects[k].obj) == k && Conforms(e, c.objects[k].obj);
  }

  /** Equal but for the resource version. */
  predicate SameObject(a: ObjectRef, b: ObjectRef) { a.(version := 0) == b.(version := 0) }

  predicate SamePath(done: seq<ObjectRef>, path: seq<ObjectRef>) {
    |done| <= |path| && forall i :: 0 <= i < |done| ==> SameObject(done[i], path[i])
  }

  /** What one visit of the walk does on a linked path: it reaches the next element, or ends at the root. */
  lemma VisitLinked(e: Env, c: Cache, workload: Workload, done: seq<ObjectRef>, ref: ObjectRef, o: Object)
    requires ChainEnds(e, workload) && SamePath(done, workload.path) && |done| < |workload.path|
    requires var target := workload.path[|done|];
             && Names(ref, target) && (done == [] ==> ref == target) && (done != [] ==> ref.version == 0)
             && Conforms(e, o) && ObjectKeyOf(o) == KeyOf(target) && o.uid == target.uid && (done == [] ==> o.version == target.version)
             && ControllerOwner(o.owners) == ControllerOwner(Content(e, target).owners)
    ensures var visit := VisitObject(e.ignored, done, ref, o);
            if |done| == |workload.path| - 1 then
              visit.VisitRoot? && SameObject(visit.workload.root, workload.root) && visit.workload.resolution == workload.resolution
            else
              && visit.VisitOwner? && |visit.path| == |done| + 1 && SamePath(visit.path, workload.path)
              && visit.ref.version == 0 && Names(visit.ref, workload.path[|done| + 1])
  {
    var i := |done|;
    assert KnownRef(e, workload.path[i]);
    if i < |workload.path| - 1 {
      assert LinksTo(e, workload.path[i], workload.path[i + 1]);
    }
    hide ControllerOwner, KnownRef, ChainLinks, Content, IsFull;
    assert ref.namespace == o.namespace || (|done| > 0 && o.namespace == 0);
  }

  lemma PathVisits(workload: Workload, e: Env, done: seq<ObjectRef>, ref: ObjectRef)
    requires ChainEnds(e, workload) && SamePath(done, workload.path) && |done| < |workload.path|
    requires ref.uid == workload.path[|done|].uid
    ensures MayVisit(done, ref)
  {
    forall i | 0 <= i < |done| ensures done[i].uid != ref.uid {
      assert SameObject(done[i], workload.path[i]);
    }
  }

  /** On a path whose links hold, the walk ends where it ended before, or cannot read something. */
  lemma {:induction false} WalkLinked(e: Env, c: Cache, ancestors: set<Uid>, workload: Workload, done: seq<ObjectRef>, ref: ObjectRef, next: nat)
    requires CacheInv(e, c, next) && ChainEnds(e, workload)
    requires ExactlyCached(c.objects, workload.path[0]) && Linked(e, c.objects, ancestors, workload.path)
    requires SamePath(done, workload.path) && |done| < |workload.path|
    requires Names(ref, workload.path[|done|]) && (done == [] ==> ref == workload.path[0]) && (done != [] ==> ref.version == 0)
    ensures var walk := Walk(Reader(c), e.ignored, done, ref);
            && (walk.Walked? ==> SameObject(walk.workload.root, workload.root) && walk.workload.resolution == workload.resolution)
            && ((forall i :: |done| <= i < |workload.path| ==> Readable(c, KeyOf(workload.path[i]))) ==> walk.Walked?)
    decreases |workload.path| - |done|
  {
    var i := |done|;
    var target := workload.path[i];
    PathVisits(workload, e, done, ref);
    assert KnownRef(e, target) && LinkHolds(e, c.objects, target) by {
      if i == 0 { ExactLink(e, c, target, next); }
      hide LinkHolds;
    }
    LookupLinked(e, c, ref, target, next);
    var read := Lookup(c, ref, false);
    if read.Found? {
      VisitLinked(e, c, workload, done, ref, read.obj);
      var visit := VisitObject(e.ignored, done, ref, read.obj);
      hide VisitObject, CacheInv, Linked, ChainEnds, Lookup, Readable, MayVisit, KnownRef, LinkHolds, Conforms;
      if i < |workload.path| - 1 {
        WalkLinked(e, c, ancestors, workload, visit.path, visit.ref, next);
      }
    }
    hide Lookup, CacheInv, ChainEnds, Linked, VisitObject, LinkHolds, KnownRef, MayVisit;
    assert Readable(c, KeyOf(target)) ==> read.Found?;
  }

  lemma ExactLink(e: Env, c: Cache, ref: ObjectRef, next: nat)
    requires CacheInv(e, c, next) && ExactlyCached(c.objects, ref)
    ensures LinkHolds(e, c.objects, ref)
  {
    var o := c.objects[KeyOf(ref)].obj;
    assert Conforms(e, o);
    ConformingContent(e, o);
    hide CacheInv, ControllerOwner, Conforms;
  }

  lemma LookupLinked(e: Env, c: Cache, ref: ObjectRef, target: ObjectRef, next: nat)
    requires CacheInv(e, c, next) && KnownRef(e, target) && Names(ref, target) && LinkHolds(e, c.objects, target)
    requires ref.version == 0 || (ref == target && ExactlyCached(c.objects, target))
    ensures var read := Lookup(c, ref, false);
            && (read.Found? ==> Conforms(e, read.obj) && ObjectKeyOf(read.obj) == KeyOf(target) && read.obj.uid == target.uid
                                && (ref == target && ref.version != 0 ==> read.obj.version == target.version)
                                && ControllerOwner(read.obj.owners) == ControllerOwner(Content(e, target).owners))
            && (Readable(c, KeyOf(target)) ==> read.Found?)
  {
    var o := c.objects[KeyOf(target)].obj;
    assert Conforms(e, o) && ObjectKeyOf(o) == KeyOf(target);
    if ref.version == 0 {
      LookupNamed(e, c, ref, target, next);
    }
    hide CacheInv, ControllerOwner, Conforms, KnownRef;
  }

  // ---------------------------------------------------------------- what a record rests on decides the verdict

  /** Every object the attribution reads is served by a healthy source. */
  predicate AllReadable(c: Cache, workload: Workload, record: PodRecord) {
    (forall i :: 0 <= i < |workload.path| ==> Readable(c, KeyOf(workload.path[i]))) && Readable(c, KeyOf(record.workload))
  }

  lemma BodyRef(e: Env, workload: Workload, found: Workload, record: PodRecord, selection: Selection)
    requires KnownRef(e, workload.root) && KnownRef(e, record.workload) && record.workload.uid == workload.root.uid
    requires SameObject(found.root, workload.root) && record.workload.gvk == RootGvk(workload.root.gvk, selection)
    ensures RootBodyRef(found.root, selection) == record.workload.(version := 0)
    ensures Names(RootBodyRef(found.root, selection), record.workload)
  {
  }

  lemma JudgeRests(e: Env, s: State, workload: Workload, found: Workload, pod: Object, record: PodRecord, next: nat)
    requires CacheInv(e, s.cache, next) && ChainEnds(e, workload) && RestsOn(e, s.cache.objects, s.defs, workload, record)
    requires SameObject(found.root, workload.root) && found.resolution == workload.resolution && RefOf(pod) == workload.path[0]
    ensures var verdict := JudgeNow(e, s, pod, found);
            && (verdict.Unread? || verdict == Attributed(record, false))
            && (Readable(s.cache, KeyOf(record.workload)) ==> verdict == Attributed(record, false))
  {
    var selection := LookupDefinition(s.defs, workload.root.gvk).0.selection;
    assert KnownRef(e, workload.root);
    BodyRef(e, workload, found, record, selection);
    LookupNamed(e, s.cache, RootBodyRef(found.root, selection), record.workload, next);
    assert LookupDefinition(s.defs, found.root.gvk) == LookupDefinition(s.defs, workload.root.gvk);
    hide Lookup, CacheInv, ChainEnds, KnownRef, EvaluatePod, Accepts, Content, Readable, RootBodyRef;
  }

  lemma StandsNow(e: Env, s: State, key: JobKey, workload: Workload, record: PodRecord, next: nat)
    requires CacheInv(e, s.cache, next) && PathOk(e, key, workload.path) && ChainEnds(e, workload)
    requires ExactlyCached(s.cache.objects, workload.path[0]) && Linked(e, s.cache.objects, s.members.ancestors, workload.path)
    requires RestsOn(e, s.cache.objects, s.defs, workload, record)
    ensures var verdict := ReconcileNow(e, s, key);
            && (verdict.Unread? || verdict == Attributed(record, false))
            && (AllReadable(s.cache, workload, record) ==> verdict == Attributed(record, false))
  {
    var first := workload.path[0];
    assert KnownRef(e, first);
    assert JobRef(key) == first.(version := 0);
    LookupNamed(e, s.cache, JobRef(key), first, next);
    WalkLinked(e, s.cache, s.members.ancestors, workload, [], first, next);
    if Lookup(s.cache, JobRef(key), false).Found? {
      var pod := Lookup(s.cache, JobRef(key), false).obj;
      assert RefOf(pod) == first;
      var walk := Walk(Reader(s.cache), e.ignored, [], first);
      if walk.Walked? {
        JudgeRests(e, s, workload, walk.workload, pod, record, next);
      }
    }
    hide Lookup, CacheInv, ChainEnds, PathOk, Linked, KnownRef, RestsOn, JudgeNow, Walk, Readable, Reader;
  }

  // ---------------------------------------------------------------- the theorems

  lemma CurrentIsReadable(e: Env, c: Cache, path: seq<ObjectRef>, i: nat, next: nat)
    requires CacheInv(e, c, next) && IsPathCurrent(c, path) && i < |path| && KnownRef(e, path[i])
    ensures Readable(c, KeyOf(path[i]))
  {
    PathIsExact(e, c, path, i, next);
    assert Lookup(c, path[i], false).Found?;
    hide CacheInv, KnownRef, LinkHolds;
  }

  lemma PublicationIsJudged(e: Env, s: State, key: JobKey, pc: PodPc, next: nat)
    requires pc.PodPublish? && PodFacts(e, key, pc) && PodStamp(s.defs, pc) && CacheInv(e, s.cache, next) && !pc.labelFailed
    requires PublishPod(e, s, pc.workload.path, RefOf(pc.root), pc.selection, PodResult(pc.record, RefOf(pc.pod), true, NoReason), pc.labelFailed).1 == {}
    ensures ReconcileNow(e, s, key) == Attributed(pc.record, false)
  {
    PublishRests(e, s, key, pc, next);
    PublishedBodies(e, key, pc);
    hide PublishPod, PodFacts, PodStamp;
    var path := pc.workload.path;
    var s' := s.(members := s.members.(ancestors := s.members.ancestors + AncestorPods(path)));
    assert ChainLinks(e, path);
    PathIsLinked(e, s.cache, s'.members.ancestors, path, next);
    forall i | 0 <= i < |path| ensures ExactlyCached(s.cache.objects, path[i]) && Readable(s.cache, KeyOf(path[i])) {
      assert KnownRef(e, path[i]) by { hide KnownRef, LinksTo; }
      PathIsExact(e, s.cache, path, i, next);
      CurrentIsReadable(e, s.cache, path, i, next);
    }
    CurrentIsReadable(e, s.cache, [RefOf(pc.root)], 0, next);
    hide CacheInv, ChainEnds, Linked, RestsOn, ReconcileNow, IsPathCurrent, Readable, KnownRef, ExactlyCached;
    assert pc.record.workload == RefOf(pc.root);
    StandsNow(e, s', key, pc.workload, pc.record, next);
    assert ReconcileNow(e, s', key) == ReconcileNow(e, s, key) by { SameVerdict(e, s, s', key); }
  }

  lemma SameVerdict(e: Env, s: State, t: State, key: JobKey)
    requires t.cache == s.cache && t.defs == s.defs
    ensures ReconcileNow(e, t, key) == ReconcileNow(e, s, key)
  {
    hide Walk, Lookup, EvaluatePod, Accepts;
  }

  lemma StepIsJudged(e: Env, s: State, key: JobKey, pc: PodPc, input: Input, next: nat)
    requires pc.PodPublish? && PodFacts(e, key, pc) && PodStamp(s.defs, pc) && CacheInv(e, s.cache, next) && PodsFiled(s)
    requires var (t, pc') := StepPodProgram(e, s, key, pc, input, next);
             pc' == PodReturn({}) && key.uid in t.pubs.pods && CleanPod(t.pubs.pods[key.uid])
    ensures ReconcileNow(e, s, key) == Attributed(StepPodProgram(e, s, key, pc, input, next).0.pubs.pods[key.uid].record, false)
  {
    PublishedBodies(e, key, pc);
    hide PodFacts, PodStamp, CacheInv, PodsFiled, PublishPod, StepPodProgram, ReconcileNow, ChainEnds, EvaluatePod, Accepts, KnownRef, ChainLinks;
    OwnStepResult(e, s, key, pc, input, next);
    PublicationIsJudged(e, s, key, pc, next);
  }

  /** Whatever happened between a job's reads, a result it publishes without error is what one atomic
      reconciliation of the state at the moment of publication gives. */
  lemma PublicationIsAtomic(e: Env, actions: seq<Action>, key: JobKey, input: Input)
    requires var sys := Run(e, actions);
             && key in sys.pods && sys.pods[key].PodPublish?
             && var t := Next(e, sys, StepPod(key, input));
                t.pods[key] == PodReturn({}) && key.uid in t.s.pubs.pods && CleanPod(t.s.pubs.pods[key.uid])
    ensures var sys := Run(e, actions);
            var record := Next(e, sys, StepPod(key, input)).s.pubs.pods[key.uid].record;
            ReconcileNow(e, sys.s, key) == Attributed(record, false)
  {
    RunKeepsPods(e, actions);
    RunKeepsJobs(e, actions);
    RunKeepsStamps(e, actions);
    RunKeepsCache(e, actions);
    var sys := Run(e, actions);
    hide Run, PodFacts, PodStamp, CacheInv, StepPodProgram, ReconcileNow, PodsFiled, Registered, RootFacts, RootStamp, Stands, PodSettled;
    StepIsJudged(e, sys.s, key, sys.pods[key], input, sys.nextWatch);
  }

  /** A result never goes stale in silence: when nothing is pending for a Pod with a clean result, reconciling it
      now gives that very record, unless some object cannot be read; and it gives it for sure when every source is healthy. */
  lemma SettledPodsAreFresh(e: Env, actions: seq<Action>, p: Uid)
    requires var sys := Run(e, actions);
             var key := PodKey(e, p);
             && p in sys.s.pubs.pods && CleanPod(sys.s.pubs.pods[p])
             && key !in sys.s.queues.pods && key !in BusyPods(sys)
             && !RescanPending(sys.s.queues.pods, Started(sys.pods), key.obj.namespace)
    ensures var s := Run(e, actions).s;
            var verdict := ReconcileNow(e, s, PodKey(e, p));
            && (verdict.Unread? || verdict == Attributed(s.pubs.pods[p].record, false))
            && ((forall k :: k in s.cache.sources ==> s.cache.sources[k].synced && s.cache.sources[k].err == {})
                ==> verdict == Attributed(s.pubs.pods[p].record, false))
  {
    RunKeepsPods(e, actions);
    RunKeepsCache(e, actions);
    var sys := Run(e, actions);
    hide Run;
    var key, s := PodKey(e, p), sys.s;
    assert PodSettled(e, sys, p);
    var workload :| Stands(e, s, Started(sys.pods), key, workload, Some(s.pubs.pods[p].record));
    var record := s.pubs.pods[p].record;
    assert PathOk(e, key, workload.path) && ChainEnds(e, workload) && Held(s, key, workload.path)
           && Linked(e, s.cache.objects, s.members.ancestors, workload.path) && RestsOn(e, s.cache.objects, s.defs, workload, record);
    hide PodsInv, Stands, ReconcileNow, RestsOn, ChainEnds, PathOk, Linked, LinkHolds, PodSettled;
    StandsNow(e, s, key, workload, record, sys.nextWatch);
    if forall k :: k in s.cache.sources ==> s.cache.sources[k].synced && s.cache.sources[k].err == {} {
      HealthyIsReadable(e, s, workload, record, sys.nextWatch);
    }
  }

  lemma HealthyIsReadable(e: Env, s: State, workload: Workload, record: PodRecord, next: nat)
    requires CacheInv(e, s.cache, next) && workload.path != [] && ExactlyCached(s.cache.objects, workload.path[0])
    requires Linked(e, s.cache.objects, s.members.ancestors, workload.path) && RestsOn(e, s.cache.objects, s.defs, workload, record)
    requires forall k :: k in s.cache.sources ==> s.cache.sources[k].synced && s.cache.sources[k].err == {}
    ensures AllReadable(s.cache, workload, record)
  {
    forall at | at in s.cache.objects ensures Readable(s.cache, at) {
      assert s.cache.objects[at].source in s.cache.sources;
    }
    hide Readable, CacheInv, KnownRef, EvaluatePod, Accepts;
    forall i | 0 <= i < |workload.path| ensures KeyOf(workload.path[i]) in s.cache.objects {
      if i > 0 { assert LinkHolds(e, s.cache.objects, workload.path[i]); }
    }
  }
}
