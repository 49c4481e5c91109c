/** The definition inventory: when a relist may clear a failure, and which definition wins a group and kind. */
module Inventory {
  import opened Basics

  // ---------------------------------------------------------------- entries

  /** A decoded definition. `root` is the kind it applies to; names compare as their text does. */
  datatype Karta = Karta(name: Name, created: int, root: Gvk, uid: Uid, version: Version, spec: nat)

  /** No definition means decoding failed. */
  datatype Entry = Entry(definition: Option<Karta>, err: Failure)

  const NO_ENTRY := Entry(None, {})

  /** A cluster object as it arrives: its name, and what decoding and validating it gives. */
  datatype Arrival = Arrival(name: Name, decoded: Option<Karta>, valid: bool)

  datatype Filter = Filter(enabled: bool, included: set<Name>, excluded: set<Name>)

  datatype Problem = Forbidden | OtherProblem

  datatype State = State(cluster: map<Name, Entry>, synced: bool, stopped: bool, failure: Option<Problem>, failures: nat, listedFrom: nat)

  const NEW_STATE := State(map[], false, false, None, 0, 0)

  predicate Matches(f: Filter, name: Name) {
    f.enabled && (f.included == {} || name in f.included) && name !in f.excluded
  }

  function Decode(a: Arrival): Entry {
    if a.decoded.None? then Entry(None, {Unavailable})
    else Entry(a.decoded, if a.valid then {} else {BadDefinition})
  }

  /** A decoded definition carries the object's name. */
  predicate Named(a: Arrival) { a.decoded.Some? ==> a.decoded.value.name == a.name }

  // ---------------------------------------------------------------- the sections

  predicate Decoded(cluster: map<Name, Entry>) {
    forall n | n in cluster :: cluster[n].definition.Some?
  }

  /** ready: the error a read fails with, if any. */
  function ReadyError(f: Filter, s: State): Failure {
    if !f.enabled then {}
    else if s.stopped then {Unavailable}
    else if s.failure == Some(Forbidden) then {Denied}
    else if s.failure.Some? then {Unavailable}
    else if !s.synced then {Pending}
    else if !Decoded(s.cluster) then {Unavailable}
    else {}
  }

  function BeginList(s: State): State { s.(listedFrom := s.failures) }

  function Fail(s: State, problem: Problem): State { s.(failure := Some(problem), failures := s.failures + 1) }

  function Put(f: Filter, s: State, a: Arrival): State {
    if Matches(f, a.name) then s.(cluster := s.cluster[a.name := Decode(a)]) else s
  }

  function Remove(s: State, name: Name): State { s.(cluster := s.cluster - {name}) }

  /** The filtered contents of a list; a later item of the same name wins. */
  function ListedCluster(f: Filter, items: seq<Arrival>): map<Name, Entry> {
    if items == [] then map[]
    else
      var last := items[|items| - 1];
      var before := ListedCluster(f, items[..|items| - 1]);
      if Matches(f, last.name) then before[last.name := Decode(last)] else before
  }

  function Apply(f: Filter, s: State, items: seq<Arrival>): State {
    s.(cluster := ListedCluster(f, items), failure := if s.failures == s.listedFrom then None else s.failure, synced := true)
  }

  // ---------------------------------------------------------------- the reflector protocol

  /** What reaches the inventory. `ListApplied` names the event at which its list began. */
  datatype Event =
    | ListBegan
    | StreamBegan
    | WatchResumed
    | Failed(problem: Problem)
    | Added(a: Arrival)
    | Deleted(name: Name)
    | ListApplied(items: seq<Arrival>, began: nat)
    | Stopped

  predicate Begins(event: Event) { event.ListBegan? || event.StreamBegan? }

  /** A list is applied after it began, and the reflector only ever applies the one it began last. */
  predicate ValidTrace(trace: seq<Event>) {
    forall j :: 0 <= j < |trace| && trace[j].ListApplied? ==>
      && trace[j].began < j && Begins(trace[trace[j].began])
      && (forall b :: trace[j].began < b < j ==> !Begins(trace[b]))
  }

  function Step(f: Filter, s: State, event: Event): State {
    match event
    case ListBegan => BeginList(s)
    case StreamBegan => BeginList(s)
    case WatchResumed => s
    case Failed(problem) => Fail(s, problem)
    case Added(a) => Put(f, s, a)
    case Deleted(name) => Remove(s, name)
    case ListApplied(items, _) => Apply(f, s, items)
    case Stopped => s.(stopped := true)
  }

  function After(f: Filter, trace: seq<Event>): State
    decreases |trace|
  {
    if trace == [] then NEW_STATE else Step(f, After(f, trace[..|trace| - 1]), trace[|trace| - 1])
  }

  /** A recorded failure that no list begun after it has answered. */
  predicate Unanswered(trace: seq<Event>, i: nat) {
    && i < |trace| && trace[i].Failed?
    && forall j :: i < j < |trace| && trace[j].ListApplied? ==> trace[j].began < i
  }

  /** Some list began after the last failure. */
  predicate FreshList(trace: seq<Event>) {
    exists b :: 0 <= b < |trace| && Begins(trace[b]) && forall i :: b < i < |trace| ==> !trace[i].Failed?
  }

  lemma {:induction false} ListedFromIsFresh(f: Filter, trace: seq<Event>)
    ensures var s := After(f, trace);
            && s.listedFrom <= s.failures
            && (s.failures == 0 <==> forall i :: 0 <= i < |trace| ==> !trace[i].Failed?)
            && (s.listedFrom == s.failures <==> FreshList(trace) || forall i :: 0 <= i < |trace| ==> !trace[i].Failed?)
    decreases |trace|
  {
    if trace != [] {
      var most := trace[..|trace| - 1];
      var last := trace[|trace| - 1];
      ListedFromIsFresh(f, most);
      assert trace == most + [last];
      if Begins(last) {
        assert FreshList(trace) by { assert trace[|trace| - 1] == last; }
      } else if last.Failed? {
        assert trace[|trace| - 1] == last;
      } else {
        if FreshList(most) {
          var b :| 0 <= b < |most| && Begins(most[b]) && forall i :: b < i < |most| ==> !most[i].Failed?;
          assert Begins(trace[b]) && forall i :: b < i < |trace| ==> !trace[i].Failed?;
        }
        if FreshList(trace) {
          var b :| 0 <= b < |trace| && Begins(trace[b]) && forall i :: b < i < |trace| ==> !trace[i].Failed?;
          assert b < |most| && Begins(most[b]) && forall i :: b < i < |most| ==> !most[i].Failed?;
        }
        assert forall i :: 0 <= i < |most| ==> most[i] == trace[i];
      }
    }
  }

  /** A failure is pending exactly when some failure was recorded that no applied list began after. */
  lemma {:induction false} FailuresNeedAFreshList(f: Filter, trace: seq<Event>)
    requires ValidTrace(trace)
    ensures After(f, trace).failure.Some? <==> exists i: nat :: Unanswered(trace, i)
    decreases |trace|
  {
    hide FreshList, Unanswered, ValidTrace, ListedCluster, Decode, Matches;
    if trace == [] {
      NothingUnanswered();
    } else {
      var most := trace[..|trace| - 1];
      var last := trace[|trace| - 1];
      assert trace == most + [last];
      ValidPrefix(most, last);
      FailuresNeedAFreshList(f, most);
      if last.Failed? {
        FailureIsUnanswered(most, last);
      } else {
        UnansweredStays(most, last);
        if last.ListApplied? {
          ListedFromIsFresh(f, most);
          AppliedAnswers(most, last);
        }
      }
    }
  }

  lemma NothingUnanswered()
    ensures forall i: nat :: !Unanswered([], i)
  {
  }

  lemma ValidPrefix(most: seq<Event>, last: Event)
    requires ValidTrace(most + [last])
    ensures ValidTrace(most)
  {
    var trace := most + [last];
    assert forall j :: 0 <= j < |most| ==> trace[j] == most[j];
  }

  lemma FailureIsUnanswered(most: seq<Event>, last: Event)
    requires last.Failed?
    ensures Unanswered(most + [last], |most|)
  {
  }

  lemma UnansweredStays(most: seq<Event>, last: Event)
    requires !last.Failed?
    ensures forall i: nat :: Unanswered(most + [last], i) <==> Unanswered(most, i) && (last.ListApplied? ==> last.began < i)
  {
    var trace := most + [last];
    forall i: nat ensures Unanswered(trace, i) <==> Unanswered(most, i) && (last.ListApplied? ==> last.began < i) {
      assert trace[|most|] == last;
      if Unanswered(trace, i) {
        assert forall j :: i < j < |most| ==> trace[j] == most[j];
      }
      if Unanswered(most, i) && (last.ListApplied? ==> last.began < i) {
        forall j | i < j < |trace| && trace[j].ListApplied? ensures trace[j].began < i {
          if j < |most| { assert trace[j] == most[j]; }
        }
      }
    }
  }

  /** A list that began after the last failure answers every failure, and an older one does not answer the last. */
  lemma AppliedAnswers(most: seq<Event>, last: Event)
    requires last.ListApplied? && ValidTrace(most + [last])
    ensures FreshList(most) || (forall i :: 0 <= i < |most| ==> !most[i].Failed?) ==>
              forall i: nat :: Unanswered(most, i) ==> i < last.began
    ensures !FreshList(most) && (exists i :: 0 <= i < |most| && most[i].Failed?) ==>
              exists i: nat :: Unanswered(most, i) && last.began < i
  {
    var trace := most + [last];
    assert trace[|most|] == last && forall k :: 0 <= k < |most| ==> trace[k] == most[k];
    if FreshList(most) {
      var b :| 0 <= b < |most| && Begins(most[b]) && forall i :: b < i < |most| ==> !most[i].Failed?;
      assert Begins(trace[b]);
    }
    if !FreshList(most) && exists i :: 0 <= i < |most| && most[i].Failed? {
      var i := LastFailure(most);
      assert Begins(most[last.began]);
      assert last.began != i;
      BegunAfter(most, i, last.began);
      forall j | i < j < |most| && most[j].ListApplied? ensures most[j].began < i {
        assert trace[j] == most[j];
        assert Begins(most[most[j].began]);
        BegunAfter(most, i, most[j].began);
      }
      assert Unanswered(most, i);
    }
  }

  lemma BegunAfter(trace: seq<Event>, i: nat, b: nat)
    requires b < |trace| && Begins(trace[b]) && forall j :: i < j < |trace| ==> !trace[j].Failed?
    ensures i < b ==> FreshList(trace)
  {
  }

  lemma LastFailure(trace: seq<Event>) returns (i: nat)
    requires exists k :: 0 <= k < |trace| && trace[k].Failed?
    ensures i < |trace| && trace[i].Failed? && forall j :: i < j < |trace| ==> !trace[j].Failed?
    decreases |trace|
  {
    i := |trace| - 1;
    if !trace[i].Failed? {
      var most := trace[..i];
      var k :| 0 <= k < |trace| && trace[k].Failed?;
      assert most[k].Failed?;
      i := LastFailure(most);
      assert trace[i] == most[i];
    }
  }

  /** Between a failure and the first list begun after it, every read fails and no watch may resume. */
  lemma UnreadyUntilRelisted(f: Filter, trace: seq<Event>, i: nat)
    requires ValidTrace(trace) && f.enabled && Unanswered(trace, i)
    ensures ReadyError(f, After(f, trace)) != {} && After(f, trace).failure.Some?
  {
    FailuresNeedAFreshList(f, trace);
  }

  // ---------------------------------------------------------------- the cluster's contents

  /** What the trace last said about a name. */
  function LastWord(f: Filter, trace: seq<Event>, name: Name): Option<Entry>
    decreases |trace|
  {
    if trace == [] then None
    else
      var last := trace[|trace| - 1];
      var before := LastWord(f, trace[..|trace| - 1], name);
      match last
      case Added(a) => if a.name == name && Matches(f, name) then Some(Decode(a)) else before
      case Deleted(n) => if n == name then None else before
      case ListApplied(items, _) => Get(ListedCluster(f, items), name)
      case _ => before
  }

  /** Whatever the order of events, the cluster's definitions are what was last said about each name. */
  lemma {:induction false} ClusterIsLastWord(f: Filter, trace: seq<Event>, name: Name)
    ensures Get(After(f, trace).cluster, name) == LastWord(f, trace, name)
    decreases |trace|
  {
    if trace != [] {
      ClusterIsLastWord(f, trace[..|trace| - 1], name);
    }
  }

  // ---------------------------------------------------------------- readiness from the history

  predicate WasStopped(trace: seq<Event>) { exists i :: 0 <= i < |trace| && trace[i].Stopped? }

  predicate WasListed(trace: seq<Event>) { exists i :: 0 <= i < |trace| && trace[i].ListApplied? }

  /** The problem recorded last. */
  function LastProblem(trace: seq<Event>): Option<Problem>
    decreases |trace|
  {
    if trace == [] then None
    else match trace[|trace| - 1]
         case Failed(problem) => Some(problem)
         case _ => LastProblem(trace[..|trace| - 1])
  }

  lemma {:induction false} StateTellsHistory(f: Filter, trace: seq<Event>)
    ensures var s := After(f, trace);
            && (s.stopped <==> WasStopped(trace)) && (s.synced <==> WasListed(trace))
            && (s.failure.Some? ==> s.failure == LastProblem(trace))
    decreases |trace|
  {
    hide ListedCluster, Decode, Matches;
    if trace != [] {
      var most, last := trace[..|trace| - 1], trace[|trace| - 1];
      StateTellsHistory(f, most);
      assert trace[|trace| - 1] == last && forall i :: 0 <= i < |most| ==> most[i] == trace[i];
    }
  }

  /** Reads of an enabled inventory succeed exactly when it was not stopped, every recorded failure is answered, some list was
      applied, and what was last said of every name decodes; otherwise they fail with the first of these that does not hold. */
  lemma ReadErrorIs(f: Filter, trace: seq<Event>)
    requires ValidTrace(trace) && f.enabled
    ensures var undecoded := exists name, entry :: LastWord(f, trace, name) == Some(entry) && entry.definition.None?;
            ReadyError(f, After(f, trace))
            == if WasStopped(trace) then {Unavailable}
               else if exists i: nat :: Unanswered(trace, i) then if LastProblem(trace) == Some(Forbidden) then {Denied} else {Unavailable}
               else if !WasListed(trace) then {Pending}
               else if undecoded then {Unavailable}
               else {}
  {
    FailuresNeedAFreshList(f, trace);
    StateTellsHistory(f, trace);
    var cluster := After(f, trace).cluster;
    forall name ensures Get(cluster, name) == LastWord(f, trace, name) { ClusterIsLastWord(f, trace, name); }
    assert forall name :: name in cluster <==> LastWord(f, trace, name).Some?;
    assert forall name :: name in cluster ==> LastWord(f, trace, name) == Some(cluster[name]);
    hide After, Unanswered, LastWord, WasStopped, WasListed, LastProblem;
    if !Decoded(cluster) {
      var name :| name in cluster && cluster[name].definition.None?;
      assert LastWord(f, trace, name) == Some(cluster[name]);
    }
    if name, entry :| LastWord(f, trace, name) == Some(entry) && entry.definition.None? {
      assert name in cluster && cluster[name] == entry;
    }
  }

  // ---------------------------------------------------------------- election

  /** A definition whose root names a version and a kind. */
  predicate Keyed(k: Karta) { k.root.version != 0 && k.root.groupKind.kind != 0 }

  predicate Candidate(cluster: map<Name, Entry>, kind: GroupKind, name: Name) {
    && name in cluster && cluster[name].definition.Some?
    && cluster[name].definition.value.root.groupKind == kind && Keyed(cluster[name].definition.value)
  }

  /** Older first, then by name. */
  predicate Precedes(a: Karta, b: Karta) {
    a.created < b.created || (a.created == b.created && a.name < b.name)
  }

  datatype Election = Election(entry: Entry, cluster: bool)

  /** The oldest, then smallest-named candidate wins; without candidates the catalog's entry does. */
  ghost predicate Elected(cluster: map<Name, Entry>, catalog: map<GroupKind, Entry>, kind: GroupKind, e: Election) {
    if e.cluster then
      exists n :: Candidate(cluster, kind, n) && cluster[n] == e.entry
                  && forall m :: Candidate(cluster, kind, m) && m != n ==>
                       Precedes(cluster[n].definition.value, cluster[m].definition.value)
    else
      && (forall n :: !Candidate(cluster, kind, n))
      && e.entry == if kind in catalog then catalog[kind] else NO_ENTRY
  }

  /** Every entry is filed under its definition's name. */
  ghost predicate Filed(cluster: map<Name, Entry>) {
    forall n :: n in cluster && cluster[n].definition.Some? ==> cluster[n].definition.value.name == n
  }

  lemma ElectionIsUnique(cluster: map<Name, Entry>, catalog: map<GroupKind, Entry>, kind: GroupKind, a: Election, b: Election)
    requires Elected(cluster, catalog, kind, a) && Elected(cluster, catalog, kind, b)
    ensures a == b
  {
    if a.cluster && b.cluster {
      var n :| Candidate(cluster, kind, n) && cluster[n] == a.entry
               && forall m :: Candidate(cluster, kind, m) && m != n ==> Precedes(cluster[n].definition.value, cluster[m].definition.value);
      var m :| Candidate(cluster, kind, m) && cluster[m] == b.entry
               && forall o :: Candidate(cluster, kind, o) && o != m ==> Precedes(cluster[m].definition.value, cluster[o].definition.value);
      assert n == m;
    }
  }

  predicate NamedEvent(event: Event) {
    match event
    case Added(a) => Named(a)
    case ListApplied(items, _) => forall i :: 0 <= i < |items| ==> Named(items[i])
    case _ => true
  }

  lemma {:induction false} ListedIsFiled(f: Filter, items: seq<Arrival>)
    requires forall i :: 0 <= i < |items| ==> Named(items[i])
    ensures Filed(ListedCluster(f, items))
    decreases |items|
  {
    if items != [] {
      ListedIsFiled(f, items[..|items| - 1]);
    }
  }

  lemma {:induction false} ClusterIsFiled(f: Filter, trace: seq<Event>)
    requires forall i :: 0 <= i < |trace| ==> NamedEvent(trace[i])
    ensures Filed(After(f, trace).cluster)
    decreases |trace|
  {
    if trace != [] {
      ClusterIsFiled(f, trace[..|trace| - 1]);
      var last := trace[|trace| - 1];
      if last.ListApplied? {
        ListedIsFiled(f, last.items);
      }
    }
  }

  /** Two histories that last said the same of every name elect the same winner, whatever else happened. */
  lemma HistoryDoesNotMatter(f: Filter, catalog: map<GroupKind, Entry>, kind: GroupKind, one: seq<Event>, other: seq<Event>, a: Election, b: Election)
    requires forall n :: LastWord(f, one, n) == LastWord(f, other, n)
    requires Elected(After(f, one).cluster, catalog, kind, a) && Elected(After(f, other).cluster, catalog, kind, b)
    ensures a == b
  {
    var left, right := After(f, one).cluster, After(f, other).cluster;
    forall n ensures Get(left, n) == Get(right, n) {
      ClusterIsLastWord(f, one, n);
      ClusterIsLastWord(f, other, n);
    }
    assert forall n :: n in left <==> Get(left, n).Some?;
    assert forall n :: n in right <==> Get(right, n).Some?;
    assert forall n :: n in left ==> Get(left, n).value == left[n];
    assert left == right;
    hide After, LastWord;
    ElectionIsUnique(left, catalog, kind, a, b);
  }

  // ---------------------------------------------------------------- the inventory itself

  /** The group and kinds that have a winner. */
  function ElectableKinds(cluster: map<Name, Entry>, catalog: map<GroupKind, Entry>): set<GroupKind> {
    catalog.Keys + set n | n in cluster && cluster[n].definition.Some? && Keyed(cluster[n].definition.value)
                     :: cluster[n].definition.value.root.groupKind
  }

  predicate WholeCatalog(catalog: map<GroupKind, Entry>) {
    forall kind | kind in catalog :: catalog[kind].definition.Some? && catalog[kind].definition.value.root.groupKind == kind
  }

  lemma ElectableHasWinner(cluster: map<Name, Entry>, catalog: map<GroupKind, Entry>, kind: GroupKind, e: Election)
    requires WholeCatalog(catalog) && Elected(cluster, catalog, kind, e)
    ensures kind in ElectableKinds(cluster, catalog) <==> e.entry.definition.Some?
    ensures e.entry.definition.Some? ==> e.entry.definition.value.root.groupKind == kind
  {
    if kind in ElectableKinds(cluster, catalog) && kind !in catalog {
      var n :| n in cluster && cluster[n].definition.Some? && Keyed(cluster[n].definition.value)
               && cluster[n].definition.value.root.groupKind == kind;
      assert Candidate(cluster, kind, n);
    }
    if e.cluster {
      var n :| Candidate(cluster, kind, n) && cluster[n] == e.entry
               && forall m :: Candidate(cluster, kind, m) && m != n ==> Precedes(cluster[n].definition.value, cluster[m].definition.value);
    }
  }

  datatype Listing = Listing(kind: GroupKind, election: Election)

  function Kinds(listings: seq<Listing>): (r: seq<GroupKind>)
    ensures |r| == |listings| && forall i :: 0 <= i < |listings| ==> r[i] == listings[i].kind
  {
    seq(|listings|, i requires 0 <= i < |listings| => listings[i].kind)
  }

  function GvkOf(l: Listing): Gvk {
    if l.election.entry.definition.Some? then l.election.entry.definition.value.root else NO_GVK
  }

  /** By the text of the winners' kinds, whose place among all texts `text` gives. */
  predicate TextOrdered(text: Gvk -> nat, listings: seq<Listing>) {
    forall i, j :: 0 <= i < j < |listings| ==> text(GvkOf(listings[i])) <= text(GvkOf(listings[j]))
  }

  lemma OrderingInserts<T(!new)>(order: seq<T>, items: set<T>, x: T, i: nat)
    requires Ordering(order, items) && x !in items && i <= |order|
    ensures Ordering(order[..i] + [x] + order[i..], items + {x})
  {
    var longer := order[..i] + [x] + order[i..];
    assert order == order[..i] + order[i..];
    forall j, k | 0 <= j < k < |longer| ensures longer[j] != longer[k] {
      assert j != i ==> longer[j] == order[if j < i then j else j - 1];
      assert k != i ==> longer[k] == order[if k < i then k else k - 1];
    }
  }

  lemma TextInserts(text: Gvk -> nat, listings: seq<Listing>, l: Listing, i: nat)
    requires TextOrdered(text, listings) && i <= |listings|
    requires forall j :: 0 <= j < i ==> text(GvkOf(listings[j])) <= text(GvkOf(l))
    requires i < |listings| ==> text(GvkOf(l)) <= text(GvkOf(listings[i]))
    ensures TextOrdered(text, listings[..i] + [l] + listings[i..])
  {
    hide GvkOf;
  }

  class Inventory {
    const catalog: map<GroupKind, Entry>
    const filter: Filter
    const text: Gvk -> nat
    var cluster: map<Name, Entry>
    var synced: bool
    var stopped: bool
    var failure: Option<Problem>
    var failures: nat
    var listedFrom: nat
    var changed: bool

    ghost function Snapshot(): State reads this { State(cluster, synced, stopped, failure, failures, listedFrom) }

    ghost predicate Valid() reads this {
      WholeCatalog(catalog) && Filed(cluster) && (!filter.enabled ==> cluster == map[])
    }

    constructor (catalog: map<GroupKind, Entry>, filter: Filter, text: Gvk -> nat)
      requires WholeCatalog(catalog)
      ensures Valid() && this.catalog == catalog && this.filter == filter && this.text == text
      ensures Snapshot() == NEW_STATE.(synced := !filter.enabled) && changed
    {
      this.catalog, this.filter, this.text := catalog, filter, text;
      cluster, synced, stopped, failure, failures, listedFrom := map[], !filter.enabled, false, None, 0, 0;
      changed := true;
    }

    /** A fresh list can only answer the failures before it. */
    method BeginList()
      requires Valid()
      modifies this`listedFrom
      ensures Valid() && Snapshot() == Step(filter, old(Snapshot()), ListBegan)
    {
      listedFrom := failures;
    }

    /** Whether a failure is pending; the caller refuses to resume a watch then. */
    method BeginWatch(streaming: bool) returns (failed: bool)
      requires Valid()
      modifies this`listedFrom
      ensures Valid() && Snapshot() == Step(filter, old(Snapshot()), if streaming then StreamBegan else WatchResumed)
      ensures failed <==> Snapshot().failure.Some?
    {
      if streaming {
        listedFrom := failures;
      }
      failed := failure.Some?;
    }

    method RecordFailure(problem: Problem)
      requires Valid()
      modifies this
      ensures Valid() && Snapshot() == Step(filter, old(Snapshot()), Failed(problem)) && changed
    {
      failure := Some(problem);
      failures := failures + 1;
      changed := true;
    }

    method Add(a: Arrival)
      requires Valid() && Named(a)
      modifies this
      ensures Valid() && Snapshot() == Step(filter, old(Snapshot()), Added(a))
      ensures changed <==> old(changed) || Matches(filter, a.name)
    {
      if !Matches(filter, a.name) {
        return;
      }
      cluster := cluster[a.name := Decode(a)];
      changed := true;
    }

    method Delete(name: Name)
      requires Valid()
      modifies this
      ensures Valid() && Snapshot() == Step(filter, old(Snapshot()), Deleted(name))
      ensures changed <==> old(changed) || name in old(cluster)
    {
      if name !in cluster {
        assert cluster - {name} == cluster;
        return;
      }
      cluster := cluster - {name};
      changed := true;
    }

    /** Apply a complete list; `began` only names the event the list began at. */
    method Replace(items: seq<Arrival>, ghost began: nat)
      requires Valid() && forall i :: 0 <= i < |items| ==> Named(items[i])
      modifies this
      ensures Valid() && Snapshot() == Step(filter, old(Snapshot()), ListApplied(items, began)) && changed
    {
      var listed: map<Name, Entry> := map[];
      for i := 0 to |items|
        invariant listed == ListedCluster(filter, items[..i])
        invariant !filter.enabled ==> listed == map[]
      {
        assert items[..i + 1][..i] == items[..i];
        if Matches(filter, items[i].name) {
          listed := listed[items[i].name := Decode(items[i])];
        }
      }
      assert items[..|items|] == items;
      ListedIsFiled(filter, items);
      cluster := listed;
      if failures == listedFrom {
        failure := None;
      }
      synced := true;
      changed := true;
    }

    method Stop()
      requires Valid()
      modifies this
      ensures Valid() && Snapshot() == Step(filter, old(Snapshot()), Stopped) && changed
    {
      stopped := true;
      changed := true;
    }

    method Ready() returns (err: Failure)
      ensures err == ReadyError(filter, Snapshot())
    {
      if !filter.enabled {
        return {};
      }
      if stopped {
        return {Unavailable};
      }
      if failure == Some(Forbidden) {
        return {Denied};
      }
      if failure.Some? {
        return {Unavailable};
      }
      if !synced {
        return {Pending};
      }
      var left := cluster.Keys;
      while left != {}
        invariant left <= cluster.Keys
        invariant forall n | n in cluster && n !in left :: cluster[n].definition.Some?
      {
        var n :| n in left;
        left := left - {n};
        if cluster[n].definition.None? {
          return {Unavailable};
        }
      }
      return {};
    }

    /** electLocked: whatever the order of the cluster's entries, the same one wins. Callers check readiness first,
        so no entry met here is undecoded. */
    method Elect(kind: GroupKind) returns (winner: Election)
      requires Valid() && Decoded(cluster)
      ensures Elected(cluster, catalog, kind, winner)
    {
      var best: Option<Name> := None;
      var left := cluster.Keys;
      while left != {}
        invariant left <= cluster.Keys
        invariant best.None? ==> forall n :: Candidate(cluster, kind, n) ==> n in left
        invariant best.Some? ==>
          && Candidate(cluster, kind, best.value)
          && forall n :: Candidate(cluster, kind, n) && n !in left && n != best.value ==>
               Precedes(cluster[best.value].definition.value, cluster[n].definition.value)
      {
        var n :| n in left;
        left := left - {n};
        var k := cluster[n].definition.value;
        if k.root.groupKind == kind && Keyed(k) {
          if best.None? || Precedes(k, cluster[best.value].definition.value) {
            best := Some(n);
          }
        }
      }
      if best.None? {
        return Election(if kind in catalog then catalog[kind] else NO_ENTRY, false);
      }
      return Election(cluster[best.value], true);
    }

    /** Lookup never falls back while a source fails. */
    method Lookup(gvk: Gvk) returns (definition: Option<Karta>, fromCluster: bool, err: Failure)
      requires Valid()
      ensures var failed := ReadyError(filter, Snapshot());
              if failed != {} then err == failed && definition == None
              else exists e :: Elected(cluster, catalog, gvk.groupKind, e)
                     && err == e.entry.err && fromCluster == e.cluster
                     && definition == if e.entry.err == {} then e.entry.definition else None
    {
      err := Ready();
      if err != {} {
        return None, false, err;
      }
      DecodedWhenReady(filter, Snapshot());
      var winner := Elect(gvk.groupKind);
      if winner.entry.err != {} {
        return None, winner.cluster, winner.entry.err;
      }
      return winner.entry.definition, winner.cluster, {};
    }

    /** Every group and kind with a winner exactly once, each with the election Lookup makes, in the order of their texts. */
    method List() returns (listings: seq<Listing>, err: Failure)
      requires Valid()
      ensures err == ReadyError(filter, Snapshot()) && (err != {} ==> listings == [])
      ensures err == {} ==> Ordering(Kinds(listings), ElectableKinds(cluster, catalog))
      ensures forall l :: l in listings ==> Elected(cluster, catalog, l.kind, l.election) && l.election.entry.definition.Some?
      ensures TextOrdered(text, listings)
    {
      listings := [];
      err := Ready();
      if err != {} {
        return;
      }
      DecodedWhenReady(filter, Snapshot());
      var kinds := ElectableKinds(cluster, catalog);
      var left := kinds;
      while left != {}
        invariant left <= kinds && Ordering(Kinds(listings), kinds - left) && TextOrdered(text, listings)
        invariant forall l :: l in listings ==> Elected(cluster, catalog, l.kind, l.election) && l.election.entry.definition.Some?
      {
        hide Elected, GvkOf, Ordering, TextOrdered;
        var kind :| kind in left;
        var winner := Elect(kind);
        ElectableHasWinner(cluster, catalog, kind, winner);
        left := left - {kind};
        listings := Place(listings, Listing(kind, winner), kinds - left - {kind});
      }
    }

    /** The listing goes behind all whose text is not greater. */
    method Place(listings: seq<Listing>, l: Listing, ghost kinds: set<GroupKind>) returns (placed: seq<Listing>)
      requires TextOrdered(text, listings) && Ordering(Kinds(listings), kinds) && l.kind !in kinds
      ensures TextOrdered(text, placed) && Ordering(Kinds(placed), kinds + {l.kind})
      ensures forall x :: x in placed ==> x in listings || x == l
    {
      var i := 0;
      while i < |listings| && text(GvkOf(listings[i])) <= text(GvkOf(l))
        invariant i <= |listings|
        invariant forall j :: 0 <= j < i ==> text(GvkOf(listings[j])) <= text(GvkOf(l))
      {
        i := i + 1;
      }
      placed := listings[..i] + [l] + listings[i..];
      OrderingInserts(Kinds(listings), kinds, l.kind, i);
      TextInserts(text, listings, l, i);
      hide Ordering, TextOrdered, GvkOf;
      assert Kinds(placed) == Kinds(listings)[..i] + [l.kind] + Kinds(listings)[i..];
    }
  }

  lemma DecodedWhenReady(f: Filter, s: State)
    requires ReadyError(f, s) == {} && (!f.enabled ==> s.cluster == map[])
    ensures Decoded(s.cluster)
  {
  }
}
