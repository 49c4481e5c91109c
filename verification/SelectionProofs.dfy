/** The root a watched object is attributed to, or excluded for, is the one its owners lead to now. */
module SelectionProofs {
  import opened Basics
  import opened Discovery
  import opened ControllerModel
  import opened ControllerSystem
  import opened CacheProofs
  import opened JobProofs
  import opened MemberProofs
  import opened StampProofs
  import opened WorkloadProofs
  import opened PodProofs
  import opened AtomicProofs
  import opened ObjectSystem
  import opened TrackingProofs

  /** A chain that is current is walked again, to the same root. */
  lemma CurrentIsWalked(e: Env, c: Cache, workload: Workload, next: nat)
    requires CacheInv(e, c, next) && ChainEnds(e, workload) && IsPathCurrent(c, workload.path)
    ensures ExactlyCached(c.objects, workload.path[0])
    ensures var walk := Walk(Reader(c), e.ignored, [], workload.path[0]);
            walk.Walked? && SameObject(walk.workload.root, workload.root) && walk.workload.resolution == workload.resolution
  {
    var path := workload.path;
    var ancestors := AncestorPods(path);
    forall i | 0 <= i < |path| ensures KnownRef(e, path[i]) && Readable(c, KeyOf(path[i])) && ExactlyCached(c.objects, path[i]) {
      assert KnownRef(e, path[i]) by { hide KnownRef, LinksTo; }
      PathIsExact(e, c, path, i, next);
      CurrentIsReadable(e, c, path, i, next);
    }
    PathIsLinked(e, c, ancestors, path, next);
    hide CacheInv, IsPathCurrent, KnownRef, Linked, Readable, ExactlyCached, ChainEnds, Walk, Reader;
    assert SamePath([], path);
    WalkLinked(e, c, ancestors, workload, [], path[0], next);
  }

  /** What a step that settles an object's root finds in the state it settles it in. */
  lemma SettlingIsCurrent(e: Env, s: State, key: JobKey, pc: ObjectPc, input: Input, id: nat)
    requires (pc.ObjectRegister? || pc.ObjectExclude?) && ObjectStamp(s.defs, key, pc)
    requires StepObjectProgram(e, s, key, pc, input, id).1 == ObjectReturn({})
    ensures IsPathCurrent(s.cache, pc.workload.path)
    ensures pc.selection.selection == SelectionFor(s.defs, key.obj.gvk.groupKind)
    ensures pc.rootSelection.selection == SelectionFor(s.defs, pc.workload.root.gvk.groupKind)
    ensures pc.ObjectRegister? ==> IsNamespaceInScope(e, s.scopes, key.obj.namespace) && IsNamespaceInScope(e, s.scopes, pc.workload.root.namespace)
  {
    hide IsPathCurrent, EnsureRoot, AttachSelected, RemoveSelectedMembership, SelectionFor;
  }

  /** Whenever an object's job attributes it to a root, or excludes it, without error: its own version is the cached one, its owners
      lead to that root now, and resource rules take or reject the root's selected kind now; and the outcome is recorded in both indexes. */
  lemma SelectionIsAtomic(e: Env, actions: seq<WholeAction>, key: JobKey, input: Input)
    requires var w := WholeRun(e, actions);
             && key in w.objects && (w.objects[key].ObjectRegister? || w.objects[key].ObjectExclude?)
             && WholeNext(e, w, StepObject(key, input)).objects[key] == ObjectReturn({})
    ensures var w := WholeRun(e, actions);
            var s, t, pc := w.sys.s, WholeNext(e, w, StepObject(key, input)).sys.s, w.objects[key];
            var workload := pc.workload;
            var rootDefinition := SelectionFor(s.defs, workload.root.gvk.groupKind);
            && workload.path != []
            && var walk := Walk(Reader(s.cache), e.ignored, [], workload.path[0]);
            && ExactlyCached(s.cache.objects, workload.path[0]) && (key.uid != 0 ==> workload.path[0].uid == key.uid)
            && walk.Walked? && SameObject(walk.workload.root, workload.root)
            && (pc.ObjectRegister? <==> e.resourceSelected(if rootDefinition.definition.Some? then rootDefinition.gvk else workload.root.gvk))
            && key in t.members.selected
            && (if pc.ObjectRegister? then
                  var uid := walk.workload.root.uid;
                  t.members.selected[key] == Outcome(uid, None) && uid in t.members.roots && key in t.members.roots[uid].selected
                else t.members.selected[key].root == NO_UID && t.members.selected[key].exclusion.Some?)
  {
    WholeRunTracks(e, actions);
    WholeInvariants(e, actions);
    var w := WholeRun(e, actions);
    hide WholeRun, Tracking, MembersInv, CacheInv;
    var s, pc := w.sys.s, w.objects[key];
    assert ObjectFacts(e, key, pc) && ObjectStamp(s.defs, key, pc);
    SettlingIsCurrent(e, s, key, pc, input, w.sys.nextWatch);
    CurrentIsWalked(e, s.cache, pc.workload, w.sys.nextWatch);
    Recorded(e, s, key, pc, input, w.sys.nextWatch);
    hide StepObjectProgram, ObjectStamp, Walk, Reader, ChainLinks, IsPathCurrent, IsNamespaceInScope, ControllerOwner, Content, KnownRef;
  }

  lemma Recorded(e: Env, s: State, key: JobKey, pc: ObjectPc, input: Input, id: nat)
    requires (pc.ObjectRegister? || pc.ObjectExclude?) && StepObjectProgram(e, s, key, pc, input, id).1 == ObjectReturn({})
    ensures var t := StepObjectProgram(e, s, key, pc, input, id).0;
            && key in t.members.selected
            && (if pc.ObjectRegister? then
                  var uid := pc.workload.root.uid;
                  t.members.selected[key] == Outcome(uid, None) && uid in t.members.roots && key in t.members.roots[uid].selected
                else t.members.selected[key].root == NO_UID && t.members.selected[key].exclusion.Some?)
  {
    EnsureRootTracks(s, pc.workload);
    hide IsPathCurrent, IsDefinitionCurrent, EnsureRoot, RemoveSelectedMembership, WithoutSelected;
    if pc.ObjectRegister? {
      AttachedIs(EnsureRoot(s, pc.workload), key, pc.workload.root.uid);
    }
  }

  lemma AttachedIs(s: State, key: JobKey, root: Uid)
    requires root in s.members.roots
    ensures var t := AttachSelected(s, key, root);
            key in t.members.selected && t.members.selected[key] == Outcome(root, None) && root in t.members.roots && key in t.members.roots[root].selected
  {
    hide WithoutSelected;
  }
}
