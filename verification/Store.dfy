/** The publication store: independent results the exporter serves, and the view a scrape captures. */
module PublicationStore {
  import opened Basics
  import opened ControllerModel

  /** A collection the exporter lists and watches, or the definition inventory. */
  datatype SourceKey = DefinitionSource | Collection(key: WatchKey)

  /** What a discovery failure is about: an object, or a source that could not be started. */
  datatype FailureInput = OfObject(ref: ObjectRef) | OfSource(request: WatchKey)

  /** What a discovery failure is filed under: the object's UID, or the one made up for the source. */
  datatype FailureKey = UidOf(uid: Uid) | SourceUid(request: WatchKey)

  /** A failure of the view, of an object or of a source. */
  datatype CapturedFailure = CapturedFailure(input: FailureInput, error: Reason)

  datatype CapturedView = CapturedView(pods: seq<PodResult>, workloads: seq<WorkloadResult>,
                                       health: map<WatchKey, Health>, definitionHealth: Option<Health>, failures: seq<CapturedFailure>)
  {
    function SourceHealth(key: SourceKey): Option<Health> {
      match key
      case DefinitionSource => definitionHealth
      case Collection(k) => Get(health, k)
    }
  }

  predicate Healthy(health: Option<Health>) { health.Some? && health.value.synced && health.value.error == NoReason }

  predicate DeniedSource(health: Option<Health>) { health.Some? && health.value.error == PermissionDenied }

  /** Whether a saved outcome may be served: its own reason first, then the health of what it depended on.
      The order in which its sources were recorded makes no difference. */
  method Valid(view: CapturedView, sources: seq<SourceKey>, reason: Reason) returns (ok: bool, why: Reason)
    ensures ok <==> reason == NoReason && forall key :: key in sources ==> Healthy(view.SourceHealth(key))
    ensures why == if reason != NoReason then reason
                   else if exists key :: key in sources && DeniedSource(view.SourceHealth(key)) then PermissionDenied
                   else if exists key :: key in sources && !Healthy(view.SourceHealth(key)) then ApiUnavailable
                   else NoReason
  {
    if reason != NoReason {
      return false, reason;
    }
    why := NoReason;
    for i := 0 to |sources|
      invariant why == NoReason <==> forall key :: key in sources[..i] ==> Healthy(view.SourceHealth(key))
      invariant why == NoReason || why == ApiUnavailable
      invariant forall key :: key in sources[..i] ==> !DeniedSource(view.SourceHealth(key))
    {
      var health := view.SourceHealth(sources[i]);
      if DeniedSource(health) {
        return false, PermissionDenied;
      }
      if !Healthy(health) {
        why := ApiUnavailable;
      }
      assert sources[..i + 1] == sources[..i] + [sources[i]];
    }
    assert sources[..|sources|] == sources;
    ok := why == NoReason;
  }

  /** The values of a map in the given order of its keys. */
  function ValuesIn<K, V>(m: map<K, V>, order: seq<K>): (r: seq<V>)
    requires forall k :: k in order ==> k in m
    ensures |r| == |order| && forall i :: 0 <= i < |order| ==> r[i] == m[order[i]]
  {
    seq(|order|, i requires 0 <= i < |order| => m[order[i]])
  }

  method Collect<K(!new, ==), V>(m: map<K, V>) returns (values: seq<V>, ghost order: seq<K>)
    ensures Ordering(order, m.Keys) && values == ValuesIn(m, order)
  {
    values, order := [], [];
    var left := m.Keys;
    while left != {}
      invariant left <= m.Keys
      invariant Ordering(order, m.Keys - left)
      invariant values == ValuesIn(m, order)
    {
      var k :| k in left;
      left := left - {k};
      values, order := values + [m[k]], order + [k];
    }
  }

  function ObjectFailures(failures: map<Uid, DiscoveryFailure>): map<FailureKey, CapturedFailure> {
    map key: FailureKey | key in (set uid | uid in failures :: UidOf(uid)) ::
      CapturedFailure(OfObject(failures[key.uid].input), failures[key.uid].error)
  }

  function SourceFailures(failures: map<WatchKey, Reason>): map<FailureKey, CapturedFailure> {
    map key: FailureKey | key in (set r | r in failures :: SourceUid(r)) :: CapturedFailure(OfSource(key.request), failures[key.request])
  }

  function FiledFailures(failures: map<Uid, DiscoveryFailure>, sourceFailures: map<WatchKey, Reason>): map<FailureKey, CapturedFailure> {
    ObjectFailures(failures) + SourceFailures(sourceFailures)
  }

  class Store {
    var pods: map<Uid, PodResult>
    var workloads: map<Uid, WorkloadResult>
    var health: map<WatchKey, Health>
    var definitionHealth: Option<Health>
    var failures: map<Uid, DiscoveryFailure>
    var sourceFailures: map<WatchKey, Reason>

    ghost function View(): Publications reads this {
      Publications(pods, workloads, health, definitionHealth, failures, sourceFailures)
    }

    constructor ()
      ensures View() == Publications(map[], map[], map[], None, map[], map[])
    {
      pods, workloads, health, definitionHealth, failures, sourceFailures := map[], map[], map[], None, map[], map[];
    }

    method UpsertPod(result: PodResult)
      modifies this`pods
      ensures pods == old(pods)[result.record.uid := result]
    {
      pods := pods[result.record.uid := result];
    }

    method Pod(uid: Uid) returns (result: Option<PodResult>)
      ensures result == Get(pods, uid)
    {
      result := if uid in pods then Some(pods[uid]) else None;
    }

    method RemovePod(uid: Uid)
      modifies this`pods
      ensures pods == old(pods) - {uid}
    {
      pods := pods - {uid};
    }

    method UpsertWorkload(result: WorkloadResult)
      modifies this`workloads
      ensures workloads == old(workloads)[result.record.uid := result]
    {
      workloads := workloads[result.record.uid := result];
    }

    method Workload(uid: Uid) returns (result: Option<WorkloadResult>)
      ensures result == Get(workloads, uid)
    {
      result := if uid in workloads then Some(workloads[uid]) else None;
    }

    method RemoveWorkload(uid: Uid)
      modifies this`workloads
      ensures workloads == old(workloads) - {uid}
    {
      workloads := workloads - {uid};
    }

    method SetSourceHealth(key: SourceKey, next: Health)
      modifies this`health, this`definitionHealth
      ensures health == if key.Collection? then old(health)[key.key := next] else old(health)
      ensures definitionHealth == if key.DefinitionSource? then Some(next) else old(definitionHealth)
    {
      match key
      case DefinitionSource => definitionHealth := Some(next);
      case Collection(k) => health := health[k := next];
    }

    method RemoveSourceHealth(key: WatchKey)
      modifies this`health
      ensures health == old(health) - {key}
    {
      health := health - {key};
    }

    /** One map in the program; the two kinds of keys never meet in it. */
    ghost function Failures(): map<FailureKey, CapturedFailure> reads this { FiledFailures(failures, sourceFailures) }

    method SetDiscoveryFailure(input: FailureInput, reason: Reason)
      modifies this`failures, this`sourceFailures
      ensures failures == if input.OfObject? then old(failures)[input.ref.uid := DiscoveryFailure(input.ref, reason)] else old(failures)
      ensures sourceFailures == if input.OfSource? then old(sourceFailures)[input.request := reason] else old(sourceFailures)
    {
      match input
      case OfObject(ref) => failures := failures[ref.uid := DiscoveryFailure(ref, reason)];
      case OfSource(request) => sourceFailures := sourceFailures[request := reason];
    }

    method RemoveDiscoveryFailure(key: FailureKey)
      modifies this`failures, this`sourceFailures
      ensures failures == if key.UidOf? then old(failures) - {key.uid} else old(failures)
      ensures sourceFailures == if key.SourceUid? then old(sourceFailures) - {key.request} else old(sourceFailures)
    {
      match key
      case UidOf(uid) => failures := failures - {uid};
      case SourceUid(request) => sourceFailures := sourceFailures - {request};
    }

    /** Every result exactly once, in no promised order, with the health of every source at that moment. */
    method Capture() returns (view: CapturedView, ghost podOrder: seq<Uid>, ghost workloadOrder: seq<Uid>, ghost failureOrder: seq<FailureKey>)
      ensures Ordering(podOrder, pods.Keys) && view.pods == ValuesIn(pods, podOrder)
      ensures Ordering(workloadOrder, workloads.Keys) && view.workloads == ValuesIn(workloads, workloadOrder)
      ensures Ordering(failureOrder, Failures().Keys) && view.failures == ValuesIn(Failures(), failureOrder)
      ensures view.health == health && view.definitionHealth == definitionHealth
    {
      var podResults, order1 := Collect(pods);
      var workloadResults, order2 := Collect(workloads);
      var failed, order3 := Collect(FiledFailures(failures, sourceFailures));
      podOrder, workloadOrder, failureOrder := order1, order2, order3;
      view := CapturedView(podResults, workloadResults, health, definitionHealth, failed);
    }
  }
}
