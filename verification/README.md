# Workload map: a verified model

This project models the parts of the workload map repository whose correctness rests on protocols and arithmetic rather than
on plumbing, and proves properties of them.

**The exporter's controller** (`Basics`, `Discovery`, `ControllerModel`, `ControllerSystem`, `Controller`, `Store`).
Watch streams, a sources worker that also refreshes definitions, and two worker pools share one state under one lock; discovery and evaluation run
outside it. `ControllerModel` gives every lock section as a function from state to state. `Controller.ControllerState` is the
same state as an object whose methods are the lock sections, loops included, and each method is proved to do exactly what the
function says. `ControllerSystem` puts the sections together: `reconcilePod` and `reconcileWorkload` are programs that advance
one lock section at a time, jobs are taken from deduplicating queues, retried after errors and never run twice at once, and
`Run` is the state after any sequence of watch events, lists, status changes, source passes, watch starts, selected-object
calls and worker steps. `ObjectSystem` adds the jobs that discover the roots of watched objects (`resolveSelectedObjectRoot`) and the
passes of the sources worker (`syncWatches`) as programs too; its runs are runs of `ControllerSystem` (`WholeIsRun`). Maps are visited in any order: an order is an argument of the functions and the
theorems hold for all of them.

**The proofs about every run** are in `CacheProofs` (the cache and its watches), `VersionProofs`, `SourceProofs` (namespace
scope), `FeedProofs` (one logical collection per source), `HealthProofs`, `JobProofs` (what a job knows), `MemberProofs`,
`StampProofs`, `WorkloadProofs`, `PodProofs`, `AtomicProofs`, `SoloProofs` (the uninterrupted Pod job), `RecordProofs` (what is published, field
by field), `LawProofs`, `PodLawProofs` and `TrackingProofs` (no work is lost), `SelectionProofs`, `ScopeProofs`, `SourceLawProofs`,
`FailureProofs` and `EscapeWitness`.

**The definition inventory** (`Inventory`): the failure epochs that decide when a relist may clear an error, and the election.

**Self-contained algorithms**: the owner walk of the exporter (`Discovery`, `DiscoveryProofs`), version precedence and release
selection (`SemVer`, `Releases`), the resource roll-up and its breakdown (`Describe`, `DescribeBuild`), the gang scale in 32-bit
arithmetic (`GangScale`) and the memoising owner walker of the command line (`OwnerWalker`).

## Assumptions

- A kind, UID and resource version determine an object's content, and a UID its group, kind, namespace and name; exactly the
  objects of cluster-scoped kinds have no namespace. Watches
  deliver such objects only, each watch those of its own collection, whole or stripped to metadata as it asked.
- Names, namespaces, UIDs and resource versions are numbers with 0 for the empty string: the program only compares them.
- Definition, label and status evaluation, selectors and resource rules are uninterpreted functions of their inputs.
- A UID of the API server is not empty, and selected definitions are filed under their own group and kind.
- The inventory's reflector applies only the list it began last.

## What the proofs found

- Namespace containment is not unconditional. `ensureWatch` (`dsx-workload-exporter/pkg/controller/sources.go:130-151`) treats an empty
  namespace as inside every scope. With a namespace selector, a request for a namespaced kind in no namespace opens a watch over
  all namespaces, and the owner walk makes such a request when a cluster-scoped object names a controller of a namespaced
  kind (`OwnerWalkEscapes`); `EscapeIsReached` is a run in which it does. This is the only way out, and there is no way back:
  `ContainmentIsExact` says of every run that it is contained if and only if it served no such request, which the guard could
  test. Roots never leave the scope, in any run (`RootsStayInScope`).
- While no two live watches overlap, a source's objects are one logical collection (`CacheIsLogicalFeed`); an escaped watch beside
  one in a namespace overlaps it.
- `publishPod` rechecks the metadata of the root, not that its source is still full. Version equality is enough: what is
  committed is what one atomic evaluation gives (`PublicationIsAtomic`).
- A source whose own error is a NotFound, as after its kind is removed, makes jobs treat cached objects as gone: a Pod is withdrawn and an
  object no longer tracked although both are still cached. The rescan that follows recovery finds them again, so `NoLostPods` and
  `NoLostDiscovery` speak of sources without error.
- The boolean of the owner walker's `TopLevel` is true when the walk failed; callers must look at the error first, as its
  contract says.
- The resource breakdown conserves the total even when counters wrap, because skipped and dropped components contribute
  nothing (`RowsSumToTotal`, `ViewTotalIsClaim`); exactness needs inputs that fit (`ViewIsExact`).

## Model

| member | source | states |
|---|---|---|
| `WorkloadProofs.NoLostWorkloadUpdates` | dsx-workload-exporter/pkg/controller/root.go:101-177 | In every reachable state a registered root whose published workload is clean was evaluated from exactly the object version cached at its recorded reference and the definition selected now, with no definition error, or its job is queued, waiting for a retry, or running and not yet done. |
| `WorkloadProofs.RunKeepsWorkloads` | dsx-workload-exporter/pkg/controller/state.go:357-382 | The same for every root at once, and every stored workload result belongs to a registered root and is filed under its UID, after every run. |
| `AtomicProofs.PublicationIsAtomic` | dsx-workload-exporter/pkg/controller/leaf.go:34-125 | Whenever a Pod job commits a record without error, the atomic verdict on the state at the commit (read, owner walk, definition, root body, selectors, evaluation) gives that very record, although the job read its inputs at different instants. Namespace admission, root ownership and full sources are no part of the verdict; SoloProofs adds them. |
| `SoloProofs.PublicationIsSolo` | dsx-workload-exporter/pkg/controller/leaf.go:34-125 | And so does the program: run at the commit from its first lock section to its last with nothing in between, the job itself publishes that record, where Pod and root are in scope and in full sources and the root's watch did not fail to start. |
| `SoloProofs.SoloAttributes` | dsx-workload-exporter/pkg/controller/leaf.go:34-125 | In any state the verdict attributes a record exactly as the uninterrupted program does: under root ownership, scope and full sources, the job ends successfully with that record stored. |
| `AtomicProofs.SettledPodsAreFresh` | dsx-workload-exporter/pkg/controller/state.go:213-234 | A clean Pod record with nothing pending for it never goes stale: the same verdict on the state now gives the same record, or some object cannot be read; with all sources healthy it gives the record for sure. |
| `AtomicProofs.WalkLinked` | dsx-workload-exporter/pkg/discovery/resolve.go:42-99 | The owner walk over the current cache, along a path whose links still hold, ends at the same root with the same resolution or cannot read something, and succeeds when every element is readable. |
| `PodProofs.PodsAreNeverOrphaned` | dsx-workload-exporter/pkg/controller/leaf.go:34-125 | In every reachable state a Pod with a clean published result is a member, in both indexes, of the root its record names, or its job is queued, waiting for a retry, or running and not yet done. |
| `PodProofs.RunKeepsPods` | dsx-workload-exporter/pkg/controller/state.go:182-204 | The invariant behind it, kept by every action: a settled Pod holds its membership, its whole owner chain is cached and linked, and its record rests on the cached Pod, root and definition; a running job that registered still holds its place. |
| `PodProofs.PublishRests` | dsx-workload-exporter/pkg/controller/state.go:213-234 | A successful publishPod commits a record whose Pod, path and root are exactly what the cache holds and whose definition is the one selected at that moment. |
| `MemberProofs.MembershipIsTwoWay` | dsx-workload-exporter/pkg/controller/state.go:471-506 | In every reachable state podRoots and the roots' Pod maps are inverse, so are the selected-object outcomes and the roots' selected sets, each root is filed under its reference's UID, and no outcome has both a root and an exclusion. |
| `MemberProofs.RunKeepsJobs` | dsx-workload-exporter/pkg/controller/state.go:407-419 | Every run keeps membership, the identity of every queued and delayed key, and the facts each running Pod or root job carries between its lock sections. |
| `JobProofs.PodFactsStep` | dsx-workload-exporter/pkg/controller/leaf.go:34-125 | Each step of reconcilePod keeps what the job knows: the Pod it read is its key's and full, the path climbed is a chain of controllers with distinct UIDs, the root body is the root's, and the record is the evaluation of those. |
| `JobProofs.RootFactsStep` | dsx-workload-exporter/pkg/controller/root.go:101-177 | Each step of reconcileWorkload keeps what the job knows: the reference is the root's, the body read is full, and the result is the evaluation of that body. |
| `StampProofs.RunKeepsStamps` | dsx-workload-exporter/pkg/controller/state.go:103-112 | In every reachable state a selection a running job holds is no newer than the definitions, and while their version is unchanged it is exactly the one selected now. |
| `VersionProofs.VersionStampIsFaithful` | dsx-workload-exporter/pkg/controller/runtime.go:286-344 | Of any two states of a run the later has no smaller definition version, and equal versions mean equal selected definitions and equal source health reasons. |
| `VersionProofs.RefreshStamps` | dsx-workload-exporter/pkg/controller/runtime.go:286-359 | A refresh keeps the version if and only if the health reason is unchanged and no kind was added, removed or changed apart from metadata; a failed refresh keeps every selection. |
| `HealthProofs.HealthMirrorsWatches` | dsx-workload-exporter/pkg/controller/sources.go:207-228 | In every reachable state the published health of a source mirrors its pending replacement if it has one and its active watch otherwise, nothing else is published, and exactly the recorded watch failures are published, with their reasons. |
| `HealthProofs.DefinitionHealthIsExact` | dsx-workload-exporter/pkg/controller/runtime.go:286-344 | In every reachable state the definition source is published with the exact health and reason of its last read, before the first read as not synced without reason, and without cluster definitions not at all. |
| `HealthProofs.NotSyncedWhileReplaced` | dsx-workload-exporter/pkg/controller/sources.go:166-174 | A source with a pending replacement is published as not synced. |
| `HealthProofs.ReadyMeansHealthy` | dsx-workload-exporter/pkg/controller/runtime.go:186-235 | When the exporter is ready, every required source that exists is published synced and without error, every required kind has one in every admitted namespace, the definition source is healthy, and no required source failed to start. |
| `SourceProofs.RootsStayInScope` | dsx-workload-exporter/pkg/controller/state.go:182-190 | In every reachable state, with a namespace selector set, every root lies in an admitted namespace or in none. |
| `SourceProofs.ContainmentIsExact` | dsx-workload-exporter/pkg/controller/sources.go:62-151 | After any run, every watch, replacement and watch failure is in an admitted namespace or cluster-scoped if and only if no request the run served asked for a namespaced kind in no namespace; requests that were refused or could not be mapped do not count. |
| `SourceProofs.OpenWatchesWereRequested` | dsx-workload-exporter/pkg/controller/sources.go:62-151 | After any run, the watches over all namespaces of namespaced kinds are exactly those the run asked for: no action closes one, no other opens one; watches in namespaces and watch failures never leave the scope. |
| `SourceProofs.RequestOpens` | dsx-workload-exporter/pkg/controller/sources.go:130-195 | Serving one request opens a watch over all namespaces exactly when it is mapped and asks for a namespaced kind in no namespace, and keeps everything else in scope. |
| `SourceProofs.PassAsksInScope` | dsx-workload-exporter/pkg/controller/sources.go:62-128 | In every reachable state, everything the sources worker asks for is in an admitted namespace, so it never opens such a watch. |
| `SourceProofs.OwnerWalkEscapes` | dsx-workload-exporter/pkg/controller/leaf.go:34-125 | The owner walk does: a Pod job whose walk stands at a cluster-scoped object controlled by an uncached object of a namespaced kind opens, with its next three steps, a watch over all namespaces. |
| `EscapeWitness.EscapeIsReached` | dsx-workload-exporter/pkg/controller/leaf.go:34-125 | A concrete run, from the first watch on, that is contained and about to do so, and is not contained three steps later: a Pod controlled by its node, which a machine controls. |
| `FeedProofs.ContainedIsDisjoint` | dsx-workload-exporter/pkg/controller/sources.go:130-151 | While sources are contained no two live watches cover the same object. |
| `FeedProofs.CacheIsLogicalFeed` | dsx-workload-exporter/pkg/controller/sources.go:392-478 | Over every run in which no two live watches cover the same object, a source's cached objects are exactly one logical collection: fed by the active watch's events and lists, replaced by the replacement's first list, then fed by the replacement; and a watch's keys are cached under that watch. |
| `FeedProofs.ScopedRunIsDisjoint` | dsx-workload-exporter/pkg/controller/sources.go:130-151 | Every run whose served requests are scoped is such a run. |
| `FeedProofs.OneSourceServes` | dsx-workload-exporter/pkg/controller/state.go:579-613 | Without overlapping watches at most one source serves a kind in a namespace, so the order in which sources are visited makes no difference to a lookup. |
| `FeedProofs.UntrackedIsSilent` | dsx-workload-exporter/pkg/controller/sources.go:202-204 | Events of any watch but the active one, a waiting replacement included, leave the whole state as it is; so do lists and status of a watch that is not tracked. |
| `FeedProofs.RetiredStaysSilent` | dsx-workload-exporter/pkg/controller/sources.go:202-243 | Once a watch was retired or superseded, whatever it sends at any later point of any continuation of the run changes nothing: no action brings it back. |
| `CacheProofs.RunKeepsCache` | dsx-workload-exporter/pkg/controller/sources.go:130-243 | In every reachable state sources mirror the active watches, every replacement is full, not yet ready and has a live metadata-only predecessor of another identity, every watch serves the right scope for its kind, and every cached object is genuine, filed under its own key and belongs to a live source. |
| `CacheProofs.SnapshotEffect` | dsx-workload-exporter/pkg/controller/sources.go:392-429 | In whatever order the loops of Replace visit the objects, the cache ends as if the list had been applied at once. |
| `CacheProofs.RetireEffect` | dsx-workload-exporter/pkg/controller/sources.go:231-243 | In whatever order, retiring a watch leaves exactly the objects of other sources and no trace of the watch. |
| `RecordProofs.CommittedRecordSays` | dsx-workload-exporter/pkg/controller/leaf.go:34-148 | Every record a Pod job commits without error, field by field: identity from the Pod, owner from the root, resolution from the walk, component and definition from evaluating the selected definition on the cached Pod and root, unknown without one, labels from the label evaluation; nothing rejected it and no definition error was left. |
| `RecordProofs.SettledRecordSays` | dsx-workload-exporter/pkg/controller/state.go:213-234 | The same of every clean record with nothing pending, against the objects and definitions of now, where every source is healthy. |
| `RecordProofs.VerdictSays` | dsx-workload-exporter/pkg/controller/leaf.go:34-148 | The atomic verdict attributes a record if and only if the objects can be read, nothing rejects them, the definition has no error and the record says just that. |
| `RecordProofs.SoloOutcome` | dsx-workload-exporter/pkg/controller/leaf.go:34-148 | Every outcome of the uninterrupted job: dropped when a rule or selector rejects the root; the definition error; an evaluation error when component or labels cannot be evaluated, with the last value kept or the root alone; a published record; and after a label failure the previous record unless its definition is gone. |
| `RecordProofs.CommittedRootIsTop` | dsx-workload-exporter/pkg/controller/state.go:552-576 | The root a committed record names is cached at that version and has no controller, or an ignored one. |
| `RecordProofs.CleanWorkloadSays` | dsx-workload-exporter/pkg/controller/root.go:101-196 | A clean workload whose job has nothing to do says, field by field, what the definition selected now and the exact cached version of its root give: phases, status labels, creation, owner and definition; and status and labels evaluated without error. |
| `RecordProofs.CommittedWorkloadSays` | dsx-workload-exporter/pkg/controller/root.go:101-196 | Every result a root job commits, field by field, with the reason of a failed definition lookup, status or label evaluation if and only if one failed; after a failure a previous record stays unless its definition is gone. |
| `LawProofs.NoLostRoots` | dsx-workload-exporter/pkg/controller/root.go:101-177 | In every reachable state, where no selector and no rule rejects roots, every registered root is published or its job is queued, waiting for a retry, or running and not yet done. |
| `PodLawProofs.NoLostPods` | dsx-workload-exporter/pkg/controller/leaf.go:34-125 | In every reachable state, where no selector and no rule rejects roots, every cached Pod the Pod selector takes, from a source without error and not from a watch wider than its scope, is published or its job is on the way, or a rescan that covers it. |
| `TrackingProofs.NoLostDiscovery` | dsx-workload-exporter/pkg/controller/root.go:35-97 | In every reachable state, every cached object that must be discovered, from a source without error and not from a watch wider than its scope, is attributed to a root in both indexes, or excluded, or its job is queued, waiting for a retry, or running and not yet done, or a rescan covers it. Which kinds must be is written out: neither namespaces nor definitions, Pods only at a selected version, none at a version another one was selected over. |
| `TrackingProofs.RefreshQueues` | dsx-workload-exporter/pkg/controller/runtime.go:286-344 | A change of a kind's selection queues the discovery of every cached object of the kind that must be discovered, or a rescan of everything. |
| `TrackingProofs.RescanTracks` | dsx-workload-exporter/pkg/controller/state.go:236-251 | A rescan queues the discovery of every cached object of its namespace that must be discovered. |
| `SelectionProofs.SelectionIsAtomic` | dsx-workload-exporter/pkg/controller/state.go:286-324 | Whenever an object's job attributes it to a root or excludes it without error, its cached version leads to that root in one walk of the cache now, resource rules take or reject the root's selected kind now, and the outcome is recorded in both indexes. |
| `ObjectSystem.ObjectFactsStep` | dsx-workload-exporter/pkg/controller/root.go:35-97 | Each step of a watched object's job keeps what it knows: its chain of controllers, a finished chain, and whether rules take its root. |
| `ObjectSystem.WholeIsRun` | dsx-workload-exporter/pkg/controller/root.go:26-97 | The controller with these jobs and the sources worker as programs only ever does what ControllerSystem allows, so every theorem about its runs holds of the whole. |
| `ScopeProofs.ScopeIsFresh` | dsx-workload-exporter/pkg/controller/sources.go:38-128 | In every reachable state with a ready namespace watch, the scope is exactly the namespaces the selector admits now, or a pass of the sources worker is queued, about to look, failed or waiting for a retry. |
| `SourceLawProofs.NoLostSources` | dsx-workload-exporter/pkg/controller/sources.go:38-195 | In every reachable state in which the sources worker has nothing to do, every kind to watch, Pods, required kinds and the kinds selected definitions apply to, is watched in full or about to be in every namespace of the scope. |
| `RecordProofs.FailedRootIsShown` | dsx-workload-exporter/pkg/controller/state.go:157-180 | A root job that fails shows the reason on the root, over its last value if it has one, and is retried. |
| `RecordProofs.FailedPodIsShown` | dsx-workload-exporter/pkg/controller/state.go:508-530 | A Pod job that fails shows the reason on the Pod, over its last value if it has one, and is retried unless an evaluation or a definition failed. |
| `RecordProofs.RegisteredRootIsReadable` | dsx-workload-exporter/pkg/controller/state.go:471-497 | Registering a Pod leaves its root's reference at the selected version, or at the walked or another version that can be read. |
| `DiscoveryProofs.WalkKeepsReason` | dsx-workload-exporter/pkg/discovery/resolve.go:118-131 | Wrapping a read error in the walk loses no cause and changes no published reason. |
| `FailureProofs.FailuresAreCurrent` | dsx-workload-exporter/pkg/controller/sources.go:130-151 | After any run a watch failure is recorded and published, with the error of its mapping, if and only if a request for it failed in scope, no request that serves it was mapped since, and its namespace did not leave the scope since. |
| `FailureProofs.MappedForgets` | dsx-workload-exporter/pkg/controller/sources.go:130-151 | A request that maps removes every failure of its kind where it serves, recorded and published, and no other. |
| `FailureProofs.UnmappedRecords` | dsx-workload-exporter/pkg/controller/sources.go:543-552 | A request that cannot be mapped is recorded with its error unless its namespace is out of scope, which is reported as pending. |
| `HealthProofs.ReadyIsPublished` | dsx-workload-exporter/pkg/controller/runtime.go:186-235 | In every reachable state the exporter is ready if and only if its published health says so: definitions, every source of a required kind, one for each required kind in every admitted namespace, and no required one that failed to start. |
| `Inventory.ReadErrorIs` | dsx-workload-exporter/pkg/kartadefinitioninventory/inventory.go:575-595 | After every valid history reads succeed if and only if the inventory was not stopped, every recorded failure is answered, some list was applied and every last word decodes; otherwise they fail with the first of these, a forbidden last failure as denied. |
| `Releases.StableIsEligible` | hack/operator-updates/main.go:177-209 | A plain version with the operator's prefix counts in every channel unless it is excluded. |
| `Releases.AlphaIsEligible` | hack/operator-updates/main.go:177-209 | In the alpha channel a promoted alpha counts unless excluded; its candidates only where prereleases are asked for. |
| `Describe.InstancesGetTheirPods` | cli/pkg/workload/describe.go:208-255 | A pod-bearing component with instances has one row per instance, in order, each with exactly the Pods of its type that match the instance. |
| `Describe.ChargedReplicas` | cli/pkg/workload/describe.go:498-509 | A replica count is charged before a minimum, and one replica without either. |
| `GangScale.EffectiveIs` | karta/sdk/pkg/instructions/gang_scheduling.go:216-226 | A positive minimum counts before any replica count; nothing exactly when neither is positive. |
| `OwnerWalker.OwnerIs` | cli/pkg/workload/owners.go:123-222 | What a read finds: an object of the reference's UID from the list of its kind, at its own version or any still served, from a read by name where the list is forbidden, or nothing with the error in the way. |
| `OwnerWalker.UnmappedOwner` | cli/pkg/workload/owners.go:158-174 | The errors of a reference that does not parse, is of an unknown kind, or cannot be discovered. |
| `Controller.ControllerState.constructor` | dsx-workload-exporter/pkg/controller/runtime.go:88-141 | A new controller knows nothing, has one source pass queued, and publishes the definition source as not synced when cluster definitions are enabled. |
| `Controller.ControllerState.LookupObject` | dsx-workload-exporter/pkg/controller/state.go:579-613 | The cached object, with the cluster-scoped fallback, or the cause it cannot be read for, in the order the source decides them. |
| `Controller.ControllerState.PathCurrent` | dsx-workload-exporter/pkg/controller/state.go:533-540 | True exactly when every reference of the path can be read at its recorded version. |
| `Controller.ControllerState.DefinitionCurrent` | dsx-workload-exporter/pkg/controller/state.go:543-549 | True exactly when the version stamp, kind version and origin of the selection are still the current ones. |
| `Controller.ControllerState.ReadDefinition` | dsx-workload-exporter/pkg/controller/state.go:103-112 | The selection of a kind stamped with the version it was read at; the source's error outranks the selection's. |
| `Controller.ControllerState.RootOwnership` | dsx-workload-exporter/pkg/controller/state.go:552-576 | A healthy full view of the selected version decides alone; otherwise no healthy view of any version may show an owner that is not ignored, whatever order the sources are visited in. |
| `Controller.ControllerState.UnregisterPod` | dsx-workload-exporter/pkg/controller/state.go:120-129 | The Pod leaves its root, its index entry and its publication go, and the root's job is queued. |
| `Controller.ControllerState.EnqueueMembers` | dsx-workload-exporter/pkg/controller/state.go:462-469 | Exactly the member Pods and selected objects of a root are queued besides what was. |
| `Controller.ControllerState.RemoveRoot` | dsx-workload-exporter/pkg/controller/state.go:407-419 | Members are queued and detached in both directions, the root and its publication go. |
| `Controller.ControllerState.EnsureRoot` | dsx-workload-exporter/pkg/controller/state.go:471-497 | The root exists with the reference version the selected definition or the readable view dictates; ancestors of Pod kind are recorded. |
| `Controller.ControllerState.RegisterPodRoot` | dsx-workload-exporter/pkg/controller/state.go:182-204 | Registration is refused as stale or unresolved without any change; otherwise the membership moves and both roots' jobs are queued. |
| `Controller.ControllerState.AttachPod` | dsx-workload-exporter/pkg/controller/state.go:193-203 | Moving a membership changes exactly the two roots and the index entry. |
| `Controller.ControllerState.RemoveSelectedObjectMembership` | dsx-workload-exporter/pkg/controller/state.go:499-506 | The outcome, the root's entry and the discovery failure go; the root's job is queued. |
| `Controller.ControllerState.ReplaceSelectedObjectTracking` | dsx-workload-exporter/pkg/controller/state.go:261-284 | Old tracking goes only when the definition is current and the replacement's outcome is a root or a still current exclusion. |
| `Controller.ControllerState.RegisterSelectedObjectRoot` | dsx-workload-exporter/pkg/controller/state.go:286-308 | As for Pods, with both definitions rechecked; the exclusion is replaced by the root. |
| `Controller.ControllerState.AttachSelectedObject` | dsx-workload-exporter/pkg/controller/state.go:295-307 | Moving a selected object changes exactly the two roots, the outcome and the failure. |
| `Controller.ControllerState.ExcludeSelectedObject` | dsx-workload-exporter/pkg/controller/state.go:310-324 | Membership is removed and the exclusion is recorded with the path and selections it rests on. |
| `Controller.ControllerState.PublishPodFailure` | dsx-workload-exporter/pkg/controller/state.go:508-530 | A previous value survives with the new error; without one a blank result names the root; evaluation errors are not retried. |
| `Controller.ControllerState.FailPodEvaluation` | dsx-workload-exporter/pkg/controller/state.go:138-149 | An evaluation failure is published only when definition, path and root ownership still hold. |
| `Controller.ControllerState.PublishPod` | dsx-workload-exporter/pkg/controller/state.go:213-234 | A record is committed only if path, ownership, definition and root version are unchanged; after a label failure the previous record stays unless it was made with a definition that no longer exists. |
| `Controller.ControllerState.FailWorkload` | dsx-workload-exporter/pkg/controller/state.go:157-180 | Only a registered root gets the error, and its previous value survives. |
| `Controller.ControllerState.PublishWorkload` | dsx-workload-exporter/pkg/controller/state.go:357-382 | A result is committed only if root, scope, path, ownership and definition still hold; the root's reference becomes the published one. |
| `Controller.ControllerState.EnqueuePod` | dsx-workload-exporter/pkg/controller/state.go:432-442 | A Pod's key is queued exactly if the selector takes it or it is known. |
| `Controller.ControllerState.QueueObjectChange` | dsx-workload-exporter/pkg/controller/sources.go:482-530 | The exact sets of Pod, root and selected-object jobs and rescans an object change queues, and the ancestor it forgets. |
| `Controller.ControllerState.ApplyWatchEvent` | dsx-workload-exporter/pkg/controller/sources.go:450-478 | Only the active watch's events count, and a deletion only for the same UID; the cache, the watch's keys and the queues change as specified. |
| `Controller.ControllerState.UpdateWatchHealth` | dsx-workload-exporter/pkg/controller/sources.go:207-228 | Source mirror, published health, and on recovery a rescan and every root's job. |
| `Controller.ControllerState.Replace` | dsx-workload-exporter/pkg/controller/sources.go:392-429 | A replacement is promoted, vanished objects are dropped, listed ones stored, health and readiness set, in some order of each loop. |
| `Controller.ControllerState.RetireWatch` | dsx-workload-exporter/pkg/controller/sources.go:231-243 | The watch, its replacement, source, health and own objects go. |
| `Controller.ControllerState.RecordWatchFailure` | dsx-workload-exporter/pkg/controller/sources.go:543-552 | A failure outside the scope is not recorded and reported as pending. |
| `Controller.ControllerState.EnsureWatch` | dsx-workload-exporter/pkg/controller/sources.go:130-195 | Settled failures are forgotten; a watch starts only in scope and only if none serves; a full request beside a metadata-only watch starts a replacement. |
| `Controller.ControllerState.RefreshDefinitions` | dsx-workload-exporter/pkg/controller/runtime.go:286-344 | Selections are merged, the version moves only on a visible change, and exactly the affected objects, Pods and roots are queued. |
| `Controller.ControllerState.CompareDefinitions` | dsx-workload-exporter/pkg/controller/runtime.go:286-359 | The merged selections and exactly the kinds that changed, whatever order the maps are visited in. |
| `Controller.ControllerState.AdmitNamespaces` | dsx-workload-exporter/pkg/controller/sources.go:68-83 | The names of the cached namespaces the selector admits. |
| `Controller.ControllerState.PrepareWatchRequests` | dsx-workload-exporter/pkg/controller/sources.go:62-128 | One pass of the sources worker: refresh, then scope, roots, watches and failures that leave it, each loop in an order that visits what it must; every kind is asked for in every namespace of the scope, once, with the definition source's error, or nothing and pending without a ready namespace watch. |
| `Controller.ControllerState.RequeueScope` | dsx-workload-exporter/pkg/controller/state.go:236-251 | Every cached object and tracked selected object of a namespace is queued as a change of it would. |
| `Controller.ControllerState.Ready` | dsx-workload-exporter/pkg/controller/runtime.go:186-218 | True exactly when definitions, required watches and the required kinds of every admitted namespace are ready. |
| `PublicationStore.Store.Capture` | dsx-workload-exporter/pkg/store/store.go:224-243 | Every stored result and every discovery failure, with what it is about, exactly once, with all source health of the same moment. |
| `PublicationStore.Valid` | dsx-workload-exporter/pkg/store/store.go:246-261 | A result is served if and only if it has no reason and every source is synced without error; otherwise its own reason, then a denied source, then an unavailable one, whatever the order of the sources. |
| `Discovery.FindController` | dsx-workload-exporter/pkg/discovery/resolve.go:103-116 | The single well-formed controller reference; a second or a malformed one is an error, none is no owner. |
| `Discovery.GetWorkload` | dsx-workload-exporter/pkg/discovery/resolve.go:42-99 | The loop with its seen set is the recursive walk, and terminates. |
| `DiscoveryProofs.GetIsTheChain` | dsx-workload-exporter/pkg/discovery/resolve.go:42-99 | On a fixed snapshot the walk returns a workload if and only if its path is the chain of controllers from the start to an object without controller or with an ignored one, all present, with distinct UIDs, at most 1024 long. |
| `DiscoveryProofs.WalkSound` | dsx-workload-exporter/pkg/discovery/resolve.go:42-99 | Whatever the walk returns is such a chain and extends the path it was given. |
| `DiscoveryProofs.WalkComplete` | dsx-workload-exporter/pkg/discovery/resolve.go:42-99 | From any element of such a chain the walk returns the rest of it. |
| `DiscoveryProofs.GetFromWithin` | dsx-workload-exporter/pkg/discovery/resolve.go:42-99 | Get from any element of a returned path returns the corresponding suffix with the same root and resolution. |
| `Inventory.FailuresNeedAFreshList` | dsx-workload-exporter/pkg/kartadefinitioninventory/inventory.go:425-462 | After every valid history a failure is pending if and only if some failure was recorded that no applied list began after. |
| `Inventory.UnreadyUntilRelisted` | dsx-workload-exporter/pkg/kartadefinitioninventory/inventory.go:574-595 | While a failure is unanswered every read fails and the failure is pending. |
| `Inventory.ClusterIsLastWord` | dsx-workload-exporter/pkg/kartadefinitioninventory/inventory.go:464-530 | After every history the inventory holds of each name exactly what was last said about it. |
| `Inventory.ElectionIsUnique` | dsx-workload-exporter/pkg/kartadefinitioninventory/inventory.go:627-646 | At most one election satisfies the specification: oldest, then smallest name, else the catalog's. |
| `Inventory.HistoryDoesNotMatter` | dsx-workload-exporter/pkg/kartadefinitioninventory/inventory.go:464-530 | Two histories that last said the same of every name elect the same winner. |
| `Inventory.ElectableHasWinner` | dsx-workload-exporter/pkg/kartadefinitioninventory/inventory.go:291-313 | A kind has a winner if and only if it is in the catalog or some keyed cluster definition is for it, and the winner is for that kind. |
| `Inventory.Inventory.constructor` | dsx-workload-exporter/pkg/kartadefinitioninventory/inventory.go:157-209 | A new inventory is empty, and synced only when cluster definitions are disabled. |
| `Inventory.Inventory.BeginList` | dsx-workload-exporter/pkg/kartadefinitioninventory/inventory.go:426-430 | The list remembers how many failures preceded it. |
| `Inventory.Inventory.BeginWatch` | dsx-workload-exporter/pkg/kartadefinitioninventory/inventory.go:433-440 | A streaming watch begins a list; the result says whether a failure is pending, in which case startWatch refuses to resume. |
| `Inventory.Inventory.RecordFailure` | dsx-workload-exporter/pkg/kartadefinitioninventory/inventory.go:458-462 | The failure becomes the pending one and is counted. |
| `Inventory.Inventory.Add` | dsx-workload-exporter/pkg/kartadefinitioninventory/inventory.go:465-481 | A matching object is decoded and stored; failures are untouched. |
| `Inventory.Inventory.Delete` | dsx-workload-exporter/pkg/kartadefinitioninventory/inventory.go:485-500 | The entry goes; failures are untouched. |
| `Inventory.Inventory.Replace` | dsx-workload-exporter/pkg/kartadefinitioninventory/inventory.go:502-530 | The filtered list replaces the contents, a later item of a name wins, and the failure is cleared only if none was recorded since the list began. |
| `Inventory.Inventory.Ready` | dsx-workload-exporter/pkg/kartadefinitioninventory/inventory.go:575-595 | The error reads fail with, in the source's order of causes. |
| `Inventory.Inventory.Elect` | dsx-workload-exporter/pkg/kartadefinitioninventory/inventory.go:628-646 | Whatever order the map is visited in, the winner is the specified one; no undecoded entry is met. |
| `Inventory.Inventory.Lookup` | dsx-workload-exporter/pkg/kartadefinitioninventory/inventory.go:265-274 | No answer while a source fails; otherwise the elected definition or its error. |
| `Inventory.Inventory.List` | dsx-workload-exporter/pkg/kartadefinitioninventory/inventory.go:279-313 | Exactly one entry per group and kind that has a winner, each with the election Lookup makes, in the order of the winners' texts. |
| `SemVer.CompareIsTotalOrder` | hack/operator-updates/version.go:53-80 | Comparison is total, antisymmetric and transitive, and is 0 only for equal core and prerelease. |
| `SemVer.CompareIsPrecedence` | hack/operator-updates/version.go:53-80 | Comparison is the precedence of section 11 of Semantic Versioning 2.0.0. |
| `SemVer.NumericIsInteger` | hack/operator-updates/version.go:82-88 | On canonical decimal strings of any length it is the comparison of the integers they denote. |
| `SemVer.IdentifierIsStandard` | hack/operator-updates/version.go:53-97 | Prerelease identifiers compare as item 11.4 says. |
| `SemVer.RenderParses` | hack/operator-updates/version.go:25-51 | Every version written in the standard's form parses back to itself, build metadata ignored. |
| `SemVer.ParsesOnlyRendered` | hack/operator-updates/version.go:25-51 | Nothing else parses: an accepted text is a well-formed version in that form. |
| `Releases.SelectLatestRelease` | hack/operator-updates/main.go:177-209 | The selected tag is the eligible maximum by version and then text, newer counts exactly the eligible tags above the pin, and the status is NEW, AHEAD or CURRENT exactly when the maximum is above, below or equal to the pin; no selection exactly when nothing is eligible. |
| `Releases.NewerMeansLatest` | hack/operator-updates/main.go:177-209 | Some eligible tag is above the pin if and only if the latest is. |
| `Releases.TagOrderDoesNotMatter` | hack/operator-updates/main.go:177-209 | Any two orders of the same tags give the same latest tag and the same count. |
| `Releases.EligibleIsVersion` | hack/operator-updates/main.go:177-209 | Every eligible tag is a well-formed version, and is not empty. |
| `Releases.GroveOrder` | hack/operator-updates/version.go:25-51 | Grove's alpha.N-rcM parses and sorts below alpha.N, which parses and sorts below every tag of a later alpha. |
| `Describe.RowsSumToTotal` | cli/pkg/generator/describe.go:352-388 | For every tree of components, built or not, the rows sum to the components' total, modulo the width of the counters. |
| `Describe.ViewTotalIsClaim` | cli/pkg/workload/describe.go:108-163 | Whatever the Pods and their matching, the printed total and the sum of the rows are what the definition alone claims, modulo the width of the counters. |
| `Describe.ViewIsExact` | cli/pkg/generator/describe.go:352-388 | With non-negative inputs and a claim that fits, no partial sum wraps: rows and total are exactly the claim and every row is non-negative. |
| `Describe.PlainFine` | cli/pkg/workload/describe.go:258-322 | A built component's row is exactly its own instances' requests times replicas, and its total its subtree's claim. |
| `Describe.ComponentFine` | cli/pkg/workload/describe.go:208-255 | The same of a component built one row per instance, which charges nothing itself. |
| `Describe.OwnRequestIsClaim` | cli/pkg/generator/describe.go:380-388 | Subtracting the children from a built component's total gives its own claim, modulo the counters' width, even after wrapping. |
| `DescribeBuild.ResolveDescribe` | cli/pkg/workload/describe.go:108-163 | The loops build the specified view, and the accumulated total is the definition's claim. |
| `DescribeBuild.BuildOne` | cli/pkg/workload/describe.go:208-255 | The instance loop with its parent accumulator builds the specified component, or fails when matching does. |
| `DescribeBuild.BuildFlat` | cli/pkg/workload/describe.go:258-322 | The instance loops of both builders build the specified component. |
| `Describe.AttachedPods` | cli/pkg/workload/describe.go:326-351 | A component's Pods are the matched ones, once each and ordered by name; its counts are how many there are and are ready, its nodes those they run on. |
| `DescribeBuild.AttachPods` | cli/pkg/workload/describe.go:326-351 | The loop attaches the Pods as specified. |
| `DescribeBuild.RowsOf` | cli/pkg/generator/describe.go:354-363 | The recursive loop returns the specified rows, which sum to the total. |
| `DescribeBuild.OnlyRepeats` | cli/pkg/generator/describe.go:367-376 | True exactly for a component with children, without Pods, that adds neither requests nor replicas to them. |
| `DescribeBuild.ChargedRequest` | cli/pkg/generator/describe.go:380-388 | The loop subtracts exactly the children. |
| `GangScale.ExactIffFits` | karta/sdk/pkg/instructions/gang_scheduling.go:103-166 | On acyclic ownership the 32-bit recursion returns the closed form over unbounded integers if and only if the closed form fits in 32 bits. |
| `GangScale.FitsIsExact` | karta/sdk/pkg/instructions/gang_scheduling.go:103-166 | If the final value fits, so did the own sum and the children's sum: nothing overflowed on the way. |
| `GangScale.SameFailures` | karta/sdk/pkg/instructions/gang_scheduling.go:103-166 | The recursion fails exactly when the closed form has no value. |
| `GangScale.ScaleGrows` | karta/sdk/pkg/instructions/gang_scheduling.go:103-166 | The scale is monotone in every effective replica count. |
| `GangScale.SubtreeScale` | karta/sdk/pkg/instructions/gang_scheduling.go:103-166 | The recursive program computes the 32-bit scale, hence the closed form when it fits. |
| `GangScale.SumEffective` | karta/sdk/pkg/instructions/gang_scheduling.go:216-226 | Whatever order the instances are visited in, the sum is that of their effective replicas, wrapped. |
| `OwnerWalker.ClimbAccepts` | cli/pkg/workload/owners.go:87-108 | A walk accepts if and only if one of the first seven reference lists of the controller chain is accepted before the chain ends or fails; a chain that goes on is an error. |
| `OwnerWalker.RejectedMeansEnded` | cli/pkg/workload/owners.go:87-108 | A walk that neither accepts nor fails has seen the end of the chain. |
| `OwnerWalker.OwnerWalker.constructor` | cli/pkg/workload/owners.go:64-69 | A new walker has empty caches. |
| `OwnerWalker.OwnerWalker.Climb` | cli/pkg/workload/owners.go:87-108 | On an unchanging cluster, after any sequence of earlier walks, the answer and the error are those of a walker with empty caches. |
| `OwnerWalker.OwnerWalker.TopLevel` | cli/pkg/workload/owners.go:73-83 | The negated answer of a walk for covered kinds, with its error; the answer means something only without an error. |
| `OwnerWalker.OwnerWalker.ReadOwner` | cli/pkg/workload/owners.go:123-155 | List, then read by name where the list is forbidden, then the UID check; the caches never change the answer. |
| `OwnerWalker.OwnerWalker.ListedOwner` | cli/pkg/workload/owners.go:178-187 | The answer is the list's, and the list is read now only if it never was: no list is ever read twice, failures included. |
| `OwnerWalker.OwnerWalker.NamedOwner` | cli/pkg/workload/owners.go:191-203 | The answer is the read's, and it is made now only if it never was: no owner is ever read twice, failures included. |
| `OwnerWalker.OwnerWalker.ReadList` | cli/pkg/workload/owners.go:206-222 | All pages, or nothing but the first error. |

## Left out

- Controller.ControllerState.LookupObject: takes the collection-wide source where a collection-wide and a namespaced source both serve a missing object; the program takes whichever its map yields first. Without overlapping watches there is only one (`OneSourceServes`).
- Controller.ControllerState.EnsureWatch: takes the outcome of REST mapping as an argument and keys watches by kind, because mapping is one to one; starting and cancelling the reflector goroutine is not modelled.
- FeedProofs.CacheIsLogicalFeed: is about runs without overlapping live watches, because overlapping ones overwrite each other's objects.
- AtomicProofs.PublicationIsAtomic: the verdict it speaks of leaves out namespace admission, root ownership and full sources; `SoloProofs.PublicationIsSolo` speaks of the program itself.
- SoloProofs.PublicationIsSolo: asks for full sources, an admitted namespace and no failed start of the root's watch at the commit, because `publishPod` rechecks none of them.
- AtomicProofs.SettledPodsAreFresh: speaks of a Pod for which no job and no rescan of its namespace is pending, and allows an unreadable object unless every source is healthy.
- GangScale.ExactIffFits: is stated for acyclic ownership; the recursion does not end on a cycle. Negative replica counts count as undeclared, as in the program.
- Inventory.FailuresNeedAFreshList: assumes the reflector applies only the list it began last.
- Inventory.Inventory.List: orders by a given place of each kind's text, and leaves the order of equal texts open, as the program does.
- Inventory.Inventory.constructor: takes a loaded catalog; choosing and decoding the built-in one is not modelled.
- DescribeBuild.AttachPods: keeps Pods of equal name in their order, which the program's sort does not promise.
- Describe.ViewIsExact: takes one replica's request as given; summing a Pod's containers and rounding quantities is not modelled.
- The resource watches and root states are values in the controller's maps; the identity of a watch is its number, and aliasing between goroutines is not captured beyond that.
- The definition version and the inventory's failure counter are unbounded; wrap-around of 64-bit counters is not modelled.
- The list of sources recorded with each published result, and the creation time source of a workload.
- Reflectors, list and watch requests, object validation and mapper resets: only the store calls and health callbacks they make, in any order.
- Shutdown, contexts and cancellation: runs end before the shutdown boundary.
- LawProofs.NoLostRoots: is about configurations that reject no root, because a rejected one is hidden by design; so is `PodLawProofs.NoLostPods`.
- In `ControllerSystem` selected-object calls and watch starts may come at any time with any arguments discovery can produce, which allows more runs than the program has; `ObjectSystem` has them as programs.
- Retry delays and the order of the queues: any queued job may be next, any delayed job may return at any time.
- A watch on the definition kind itself, which would share the key of the definition source.
- The inventory's choice of the built-in catalog by cluster version, its diagnostics report, waiting for the first load, and the forwarding of watch streams, whose failures are events here.
- Whether the root carries Pods itself, and extracting instances from a live object: the describe view starts from the root's instances and the component tree.
- The order of nodes in the describe view, instance labels, and rendering.
- The gang scale by leaves and the sorting of gang candidates.
- The owner walker's error texts, collected warnings, and the page tokens of lists.
- The regular expression engine behind version parsing (its two patterns are written out as a parser), tag retrieval and the report.
- Evaluation of definitions, label evaluators, metrics, command line, operator webhooks, front end and catalog data.
