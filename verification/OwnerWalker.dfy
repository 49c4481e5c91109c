/** The memoising owner walker: caches, failures included, never change what a walk answers. */
module OwnerWalker {
  import opened Basics

  // ---------------------------------------------------------------- the cluster

  datatype WalkError = Forbidden(id: nat) | Undiscovered(id: nat) | Unmapped(id: nat) | Unparsed(id: nat) | ChainTooLong

  datatype OwnerObject = OwnerObject(name: Name, uid: Uid, refs: seq<OwnerRef>)

  datatype ListKey = ListKey(resource: Name, namespace: Name)

  /** One page of a list, or the error its request ends with. */
  datatype Page = Page(items: seq<OwnerObject>) | PageFailed(err: WalkError)

  datatype Fetched = Fetched(owner: OwnerObject) | Gone | FetchFailed(err: WalkError)

  datatype Mapping = Mapped(resource: Name, namespaced: bool) | NoMatch | MappingFailed(id: nat)

  /** An unchanging cluster. A list is the pages a reader would be given, one request after another. */
  datatype World = World(mapVersion: Gvk -> Mapping, mapKind: GroupKind -> Mapping,
                         pages: ListKey -> seq<Page>, fetch: (ListKey, Name) -> Fetched)

  // ---------------------------------------------------------------- without caches

  datatype Lookup = Lookup(owner: Option<OwnerObject>, err: Option<WalkError>)

  datatype Listing = Listing(byName: map<Name, OwnerObject>, err: Option<WalkError>)

  function IndexItems(index: map<Name, OwnerObject>, items: seq<OwnerObject>): map<Name, OwnerObject>
    decreases |items|
  {
    if items == [] then index
    else IndexItems(index, items[..|items| - 1])[items[|items| - 1].name := items[|items| - 1]]
  }

  /** listOwners: every page, or nothing but the first error. */
  function ListOwners(pages: seq<Page>): Listing { ListFrom(map[], pages) }

  function ListFrom(index: map<Name, OwnerObject>, pages: seq<Page>): Listing
    decreases |pages|
  {
    if pages == [] then Listing(index, None)
    else match pages[0]
         case PageFailed(err) => Listing(map[], Some(err))
         case Page(items) => ListFrom(IndexItems(index, items), pages[1..])
  }

  function Named(f: Fetched): Lookup {
    match f
    case Fetched(owner) => Lookup(Some(owner), None)
    case Gone => Lookup(None, None)
    case FetchFailed(err) => Lookup(None, Some(err))
  }

  function Listed(l: Listing, name: Name): Lookup { Lookup(Get(l.byName, name), l.err) }

  predicate IsForbidden(err: Option<WalkError>) { err.Some? && err.value.Forbidden? }

  /** A version the kind no longer serves is read at any it does. */
  function RestMapping(w: World, ref: OwnerRef): Mapping {
    var at := w.mapVersion(ref.gvk);
    if at.NoMatch? then w.mapKind(ref.gvk.groupKind) else at
  }

  function MappingError(ref: OwnerRef, mapping: Mapping): Option<WalkError> {
    if !ref.parsed then Some(Unparsed(ref.gvk.groupKind.kind))
    else match mapping
         case Mapped(_, _) => None
         case NoMatch => Some(Unmapped(ref.gvk.groupKind.kind))
         case MappingFailed(id) => Some(Undiscovered(id))
  }

  /** What the list and, where it is forbidden, the read by name say about an owner. */
  function Resolve(listed: Lookup, named: Lookup): Lookup {
    if !IsForbidden(listed.err) then listed
    else if IsForbidden(named.err) then Lookup(named.owner, listed.err)
    else named
  }

  function Matching(found: Lookup, uid: Uid): Lookup {
    if found.owner.None? || found.owner.value.uid != uid then Lookup(None, found.err) else Lookup(found.owner, None)
  }

  /** get, reading the cluster afresh. */
  function GetOwner(w: World, ref: OwnerRef, namespace: Name): Lookup {
    var mapping := RestMapping(w, ref);
    var err := MappingError(ref, mapping);
    if err.Some? then Lookup(None, err)
    else
      var key := ListKey(mapping.resource, if mapping.namespaced then namespace else 0);
      Matching(Resolve(Listed(ListOwners(w.pages(key)), ref.name), Named(w.fetch(key, ref.name))), ref.uid)
  }

  // ---------------------------------------------------------------- what a read finds

  function FirstError(pages: seq<Page>): Option<WalkError> {
    if pages == [] then None else if pages[0].PageFailed? then Some(pages[0].err) else FirstError(pages[1..])
  }

  function AllItems(pages: seq<Page>): seq<OwnerObject> {
    if pages == [] then [] else (if pages[0].Page? then pages[0].items else []) + AllItems(pages[1..])
  }

  /** The last item of a name. */
  function LastNamed(items: seq<OwnerObject>, name: Name): Option<OwnerObject>
    decreases |items|
  {
    if items == [] then None
    else if items[|items| - 1].name == name then Some(items[|items| - 1])
    else LastNamed(items[..|items| - 1], name)
  }

  lemma {:induction false} LastOfBoth(a: seq<OwnerObject>, b: seq<OwnerObject>, name: Name)
    ensures LastNamed(a + b, name) == if LastNamed(b, name).Some? then LastNamed(b, name) else LastNamed(a, name)
    decreases |b|
  {
    if b == [] {
      assert a + b == a;
    } else {
      assert (a + b)[..|a + b| - 1] == a + b[..|b| - 1];
      LastOfBoth(a, b[..|b| - 1], name);
    }
  }

  lemma {:induction false} IndexIsLast(index: map<Name, OwnerObject>, items: seq<OwnerObject>, name: Name)
    ensures Get(IndexItems(index, items), name) == if LastNamed(items, name).Some? then LastNamed(items, name) else Get(index, name)
    decreases |items|
  {
    if items != [] {
      IndexIsLast(index, items[..|items| - 1], name);
    }
  }

  lemma {:induction false} ListIs(index: map<Name, OwnerObject>, pages: seq<Page>, name: Name)
    ensures ListFrom(index, pages).err == FirstError(pages)
    ensures Get(ListFrom(index, pages).byName, name)
         == if FirstError(pages).Some? then None
            else if LastNamed(AllItems(pages), name).Some? then LastNamed(AllItems(pages), name) else Get(index, name)
    decreases |pages|
  {
    if pages != [] && pages[0].Page? {
      IndexIsLast(index, pages[0].items, name);
      ListIs(IndexItems(index, pages[0].items), pages[1..], name);
      LastOfBoth(pages[0].items, AllItems(pages[1..]), name);
      hide IndexItems, LastNamed;
    }
  }

  /** What a reference names in a namespace: an object of the reference's UID, from the list of its kind at its own version or at any the
      kind still serves; from a read by name where the list is forbidden; or nothing, with the error that stood in the way. */
  lemma OwnerIs(w: World, ref: OwnerRef, namespace: Name, resource: Name, namespaced: bool)
    requires ref.parsed
    requires w.mapVersion(ref.gvk) == Mapped(resource, namespaced)
             || (w.mapVersion(ref.gvk).NoMatch? && w.mapKind(ref.gvk.groupKind) == Mapped(resource, namespaced))
    ensures var key := ListKey(resource, if namespaced then namespace else 0);
            var pages, found := w.pages(key), GetOwner(w, ref, namespace);
            && (FirstError(pages).None? ==>
                  var listed := LastNamed(AllItems(pages), ref.name);
                  found == if listed.Some? && listed.value.uid == ref.uid then Lookup(listed, None) else Lookup(None, None))
            && (FirstError(pages).Some? && !FirstError(pages).value.Forbidden? ==> found == Lookup(None, FirstError(pages)))
            && (FirstError(pages).Some? && FirstError(pages).value.Forbidden? ==>
                  match w.fetch(key, ref.name)
                  case Fetched(owner) => found == if owner.uid == ref.uid then Lookup(Some(owner), None) else Lookup(None, None)
                  case Gone => found == Lookup(None, None)
                  case FetchFailed(err) => found == Lookup(None, if err.Forbidden? then FirstError(pages) else Some(err)))
  {
    var key := ListKey(resource, if namespaced then namespace else 0);
    ListIs(map[], w.pages(key), ref.name);
    hide ListFrom, LastNamed, AllItems, FirstError;
  }

  /** An owner that cannot be mapped: unparsed, of an unknown kind, or undiscovered. */
  lemma UnmappedOwner(w: World, ref: OwnerRef, namespace: Name)
    ensures !ref.parsed ==> GetOwner(w, ref, namespace) == Lookup(None, Some(Unparsed(ref.gvk.groupKind.kind)))
    ensures ref.parsed && w.mapVersion(ref.gvk).NoMatch? && w.mapKind(ref.gvk.groupKind).NoMatch? ==>
              GetOwner(w, ref, namespace) == Lookup(None, Some(Unmapped(ref.gvk.groupKind.kind)))
    ensures forall id :: ref.parsed && w.mapVersion(ref.gvk) == MappingFailed(id) ==>
              GetOwner(w, ref, namespace) == Lookup(None, Some(Undiscovered(id)))
  {
  }

  /** The first reference with Controller set. */
  function ControllerRef(refs: seq<OwnerRef>): Option<OwnerRef> {
    if refs == [] then None else if refs[0].controller then Some(refs[0]) else ControllerRef(refs[1..])
  }

  const MAX_OWNER_DEPTH := 6

  /** climb from the given depth, reading the cluster afresh. */
  function ClimbFrom(w: World, refs: seq<OwnerRef>, namespace: Name, accepts: seq<OwnerRef> -> bool, depth: nat): (bool, Option<WalkError>)
    requires depth <= MAX_OWNER_DEPTH
    decreases MAX_OWNER_DEPTH - depth
  {
    if accepts(refs) then (true, None)
    else
      var controller := ControllerRef(refs);
      if controller.None? then (false, None)
      else if depth == MAX_OWNER_DEPTH then (false, Some(ChainTooLong))
      else
        var found := GetOwner(w, controller.value, namespace);
        if found.err.Some? || found.owner.None? then (false, found.err)
        else ClimbFrom(w, found.owner.value.refs, namespace, accepts, depth + 1)
  }

  // ---------------------------------------------------------------- the walk, said without a loop

  /** The reference list `n` links up the controller chain, if the chain reaches that far. */
  function RefsAt(w: World, refs: seq<OwnerRef>, namespace: Name, n: nat): Option<seq<OwnerRef>> {
    if n == 0 then Some(refs)
    else
      var below := RefsAt(w, refs, namespace, n - 1);
      if below.None? || ControllerRef(below.value).None? then None
      else
        var found := GetOwner(w, ControllerRef(below.value).value, namespace);
        if found.err.Some? || found.owner.None? then None else Some(found.owner.value.refs)
  }

  /** Some level below `limit` is reached and accepted. */
  ghost predicate AcceptedBelow(w: World, refs: seq<OwnerRef>, namespace: Name, accepts: seq<OwnerRef> -> bool, limit: nat) {
    exists n: nat :: n < limit && RefsAt(w, refs, namespace, n).Some? && accepts(RefsAt(w, refs, namespace, n).value)
  }

  lemma {:induction false} ReachedBelow(w: World, refs: seq<OwnerRef>, namespace: Name, n: nat, m: nat)
    requires n <= m && RefsAt(w, refs, namespace, m).Some?
    ensures RefsAt(w, refs, namespace, n).Some?
    decreases m - n
  {
    if n < m {
      ReachedBelow(w, refs, namespace, n, m - 1);
    }
  }

  /** Climbing on from a level that was reached without a match accepts exactly what the whole walk does. */
  lemma {:induction false} ClimbLevels(w: World, refs: seq<OwnerRef>, namespace: Name, accepts: seq<OwnerRef> -> bool, depth: nat)
    requires depth <= MAX_OWNER_DEPTH && RefsAt(w, refs, namespace, depth).Some?
    requires !AcceptedBelow(w, refs, namespace, accepts, depth)
    ensures var answer := ClimbFrom(w, RefsAt(w, refs, namespace, depth).value, namespace, accepts, depth);
            && (answer.0 <==> AcceptedBelow(w, refs, namespace, accepts, MAX_OWNER_DEPTH + 1))
            && (answer.0 ==> answer.1.None?)
            && (!answer.0 && RefsAt(w, refs, namespace, MAX_OWNER_DEPTH).Some? ==>
                  answer.1 == if ControllerRef(RefsAt(w, refs, namespace, MAX_OWNER_DEPTH).value).Some? then Some(ChainTooLong) else None)
    decreases MAX_OWNER_DEPTH - depth
  {
    hide GetOwner;
    var here := RefsAt(w, refs, namespace, depth).value;
    if !accepts(here) {
      if depth == MAX_OWNER_DEPTH || RefsAt(w, refs, namespace, depth + 1).None? {
        forall n: nat | depth < n <= MAX_OWNER_DEPTH ensures RefsAt(w, refs, namespace, n).None? {
          if RefsAt(w, refs, namespace, n).Some? {
            ReachedBelow(w, refs, namespace, depth + 1, n);
          }
        }
      } else {
        ClimbLevels(w, refs, namespace, accepts, depth + 1);
      }
    }
  }

  /** A walk accepts exactly when one of the first seven reference lists of the controller chain is accepted,
      before the chain ends or fails. */
  lemma ClimbAccepts(w: World, refs: seq<OwnerRef>, namespace: Name, accepts: seq<OwnerRef> -> bool)
    ensures ClimbFrom(w, refs, namespace, accepts, 0).0 <==> AcceptedBelow(w, refs, namespace, accepts, 7)
    ensures var answer := ClimbFrom(w, refs, namespace, accepts, 0);
            && (answer.0 ==> answer.1.None?)
            && (!answer.0 && RefsAt(w, refs, namespace, MAX_OWNER_DEPTH).Some? ==>
                  answer.1 == if ControllerRef(RefsAt(w, refs, namespace, MAX_OWNER_DEPTH).value).Some? then Some(ChainTooLong) else None)
  {
    ClimbLevels(w, refs, namespace, accepts, 0);
  }

  /** A walk that neither accepts nor fails has seen the end of the chain. */
  lemma {:induction false} RejectedMeansEnded(w: World, refs: seq<OwnerRef>, namespace: Name, accepts: seq<OwnerRef> -> bool, depth: nat)
    requires depth <= MAX_OWNER_DEPTH && RefsAt(w, refs, namespace, depth).Some?
    requires ClimbFrom(w, RefsAt(w, refs, namespace, depth).value, namespace, accepts, depth) == (false, None)
    ensures exists n: nat :: depth <= n <= MAX_OWNER_DEPTH && RefsAt(w, refs, namespace, n).Some?
                             && Ends(w, RefsAt(w, refs, namespace, n).value, namespace)
    decreases MAX_OWNER_DEPTH - depth
  {
    hide GetOwner;
    var here := RefsAt(w, refs, namespace, depth).value;
    if ControllerRef(here).None? || GetOwner(w, ControllerRef(here).value, namespace).owner.None? {
      assert Ends(w, here, namespace);
    } else {
      RejectedMeansEnded(w, refs, namespace, accepts, depth + 1);
    }
  }

  /** No controller, or a controller that is gone or was replaced. */
  predicate Ends(w: World, refs: seq<OwnerRef>, namespace: Name) {
    ControllerRef(refs).None? || GetOwner(w, ControllerRef(refs).value, namespace) == Lookup(None, None)
  }

  // ---------------------------------------------------------------- the walker

  class OwnerWalker {
    const world: World
    var lists: map<ListKey, Listing>
    var named: map<(ListKey, Name), Lookup>

    /** Every read of the cluster so far, in order. */
    ghost var listReads: seq<ListKey>
    ghost var namedReads: seq<(ListKey, Name)>

    /** What is cached is what the cluster would answer, failures included, and was read exactly once. */
    ghost predicate Valid() reads this {
      && (forall key :: key in lists ==> lists[key] == ListOwners(world.pages(key)))
      && (forall key :: key in named ==> named[key] == Named(world.fetch(key.0, key.1)))
      && Ordering(listReads, lists.Keys) && Ordering(namedReads, named.Keys)
    }

    constructor (world: World)
      ensures Valid() && this.world == world && listReads == [] && namedReads == []
    {
      this.world := world;
      lists, named, listReads, namedReads := map[], map[], [], [];
    }

    /** listOwners. */
    method ReadList(key: ListKey) returns (owners: Listing)
      ensures owners == ListOwners(world.pages(key))
    {
      var pages := world.pages(key);
      var byName: map<Name, OwnerObject> := map[];
      for i := 0 to |pages|
        invariant ListFrom(byName, pages[i..]) == ListFrom(map[], pages)
      {
        assert pages[i..][0] == pages[i] && pages[i..][1..] == pages[i + 1..];
        if pages[i].PageFailed? {
          return Listing(map[], Some(pages[i].err));
        }
        byName := AddItems(byName, pages[i].items);
      }
      return Listing(byName, None);
    }

    method AddItems(index: map<Name, OwnerObject>, items: seq<OwnerObject>) returns (all: map<Name, OwnerObject>)
      ensures all == IndexItems(index, items)
    {
      all := index;
      for i := 0 to |items|
        invariant all == IndexItems(index, items[..i])
      {
        assert items[..i + 1][..i] == items[..i];
        all := all[items[i].name := items[i]];
      }
      assert items[..|items|] == items;
    }

    /** listed: the list is read once per key. */
    method ListedOwner(key: ListKey, name: Name) returns (found: Lookup)
      requires Valid()
      modifies this`lists, this`listReads
      ensures Valid() && found == Listed(ListOwners(world.pages(key)), name)
      ensures listReads == old(listReads) + if key in old(listReads) then [] else [key]
    {
      if key !in lists {
        var owners := ReadList(key);
        OrderingExtends(listReads, lists.Keys, key);
        lists, listReads := lists[key := owners], listReads + [key];
      }
      found := Listed(lists[key], name);
    }

    /** getNamed: the read is made once per owner, failures included. */
    method NamedOwner(key: ListKey, name: Name) returns (found: Lookup)
      requires Valid()
      modifies this`named, this`namedReads
      ensures Valid() && found == Named(world.fetch(key, name))
      ensures namedReads == old(namedReads) + if (key, name) in old(namedReads) then [] else [(key, name)]
    {
      if (key, name) !in named {
        OrderingExtends(namedReads, named.Keys, (key, name));
        named, namedReads := named[(key, name) := Named(world.fetch(key, name))], namedReads + [(key, name)];
      }
      found := named[(key, name)];
    }

    /** get: whatever is cached, the answer is the cluster's. */
    method ReadOwner(ref: OwnerRef, namespace: Name) returns (found: Lookup)
      requires Valid()
      modifies this
      ensures Valid() && found == GetOwner(world, ref, namespace)
    {
      hide ListOwners, Named;
      var mapping := RestMapping(world, ref);
      var err := MappingError(ref, mapping);
      if err.Some? {
        return Lookup(None, err);
      }
      var key := ListKey(mapping.resource, if mapping.namespaced then namespace else 0);
      found := ListedOwner(key, ref.name);
      if IsForbidden(found.err) {
        var listErr := found.err;
        found := NamedOwner(key, ref.name);
        if IsForbidden(found.err) {
          found := found.(err := listErr);
        }
      }
      if found.owner.None? || found.owner.value.uid != ref.uid {
        return Lookup(None, found.err);
      }
      return Lookup(found.owner, None);
    }

    /** climb: after any earlier walks, the same answer and error as a walker with empty caches gives. */
    method Climb(start: seq<OwnerRef>, namespace: Name, accepts: seq<OwnerRef> -> bool) returns (accepted: bool, err: Option<WalkError>)
      requires Valid()
      modifies this
      ensures Valid() && (accepted, err) == ClimbFrom(world, start, namespace, accepts, 0)
      ensures accepted <==> AcceptedBelow(world, start, namespace, accepts, 7)
    {
      ClimbAccepts(world, start, namespace, accepts);
      hide GetOwner, AcceptedBelow;
      var refs, depth := start, 0;
      while true
        invariant Valid() && depth <= MAX_OWNER_DEPTH
        invariant ClimbFrom(world, refs, namespace, accepts, depth) == ClimbFrom(world, start, namespace, accepts, 0)
        decreases MAX_OWNER_DEPTH - depth
      {
        if accepts(refs) {
          return true, None;
        }
        var controller := ControllerRef(refs);
        if controller.None? {
          return false, None;
        }
        if depth == MAX_OWNER_DEPTH {
          return false, Some(ChainTooLong);
        }
        var found := ReadOwner(controller.value, namespace);
        if found.err.Some? || found.owner.None? {
          return false, found.err;
        }
        refs := found.owner.value.refs;
        depth := depth + 1;
      }
    }

    /** TopLevel: no object in the chain is of a covered kind. The answer means something only without an error. */
    method TopLevel(refs: seq<OwnerRef>, namespace: Name, covered: GroupKind -> bool) returns (top: bool, err: Option<WalkError>)
      requires Valid()
      modifies this
      ensures Valid()
      ensures var accepts := (r: seq<OwnerRef>) => ControllerRef(r).Some? && covered(ControllerRef(r).value.gvk.groupKind);
              (!top, err) == ClimbFrom(world, refs, namespace, accepts, 0)
    {
      var accepts := (r: seq<OwnerRef>) => ControllerRef(r).Some? && covered(ControllerRef(r).value.gvk.groupKind);
      var nested, failed := Climb(refs, namespace, accepts);
      return !nested, failed;
    }
  }
}
