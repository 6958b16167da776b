# Scaling advisor: a verified model

The scaling advisor simulates what a cluster's scheduler would do if nodes were added, and turns
the result into a scale-out plan. This project models the parts of it whose correctness is hard to
see from one function at a time, and proves what they guarantee. `dafny verify dfyconfig.toml`
checks everything.

- **Overlay views** (`ApiObjects`, `OverlaySpec`, `OverlayContents`, `OverlayFlat`, `OverlayWorld`,
  `OverlayRuns`, `OverlayTheorems`, `OverlayEffects`, `OverlayListing`, `OverlayCriteria`, `ResourceStore`,
  `Views`, `ViewTree`). A sandbox
  view is a copy-on-write layer over a delegate, which may be a sandbox itself. `ResourceStore` and
  `Views` are the stores and views as classes that update their fields, proved against the functions of
  `OverlaySpec`; `OverlayWorld` is the tree of all views over one base and its runs; `OverlayRuns`
  and `OverlayTheorems` relate every run to one plain map per view; `ViewTree` holds the view objects
  of one tree and proves that every call on them is a step of `OverlayWorld`.
- **Shared objects** (`SharedObjects`, `ObjectSharing`). A sandbox whose cache holds references to
  objects that its delegates may hold too. `SharedObjects` proves that the calls on references are the
  calls on values while nothing is shared; `ObjectSharing` says exactly when something is, and which
  calls then reach the delegates.
- **Run tracking** (`RunTracker`, `RunRounds`, `RunEvents`, `SimulationRun`). The state of one simulation run, fed
  by scheduler events: `RunRounds` is a whole run as a function of its rounds, with pod conservation,
  the bound on empty polls and the reasons a run ends; `SimulationRun` is the loop that performs it.
- **Planner loops** (`PlannerViews`, `PlannerSpec`, `PlannerPasses`, `PlannerTheorems`, `PlannerOvershoot`,
  `PlannerLateWins`, `PlannerLoops`). Passes within cycles within priority groups, over views that are
  cached per simulation name. The scheduler is any function from runs to what a run does.
- **The planner on the views** (`PlannerRefinement`, `PlannerWorld`, `PlannerWorldRuns`,
  `PlannerWorldPlans`, `RunFeeds`, `BehaviourRounds`, `PlannerRealisation`, `PlannerWorldTheorems`,
  `PlannerPriorities`). The
  same passes, cycles and plans with simulations that have trackers and run on sandboxes of the overlay,
  fed with scheduler writes and events round by round. Every plan on the views is a plan of the model,
  and every plan of the model is made on the views by some rounds, so the bounds and the
  counterexamples of the model are about the views.
- **Snapshot obfuscation** (`Decimal`, `ObfuscationSpec`, `ObfuscationCollect`, `ObfuscationLoops`,
  `ObfuscationRewrite`, `ObfuscationOutcome`, `ObfuscationNames`, `SchedulingSemantics`, `SchedulingMeaning`,
  `ObfuscationTheorems`, `ObfuscationNamespaces`, `ObfuscationPreserves`, `ObfuscationVerdicts`). In-place
  renaming of keys and names, what is left afterwards, and the scheduling verdicts it preserves.
- **Scoring and selection** (`ScoringSpec`, `ScoringTheorems`, `SelectionSpec`, `NodeScorers`,
  `ScoringMeaning`), **plan assembly** (`PlanAssembly`, `PlanContents`) and **grouping** (`SimGroups`,
  `SimContents`).
- **Snapshot variants** (`SnapshotVariants`), **volume binding** (`VolumeSpec`, `VolumeTheorems`,
  `VolumeBinding`, `VolumeSharing`, `VolumeContents`) and **watch merging** (`WatchMerge`).

Randomness, map iteration order, the scheduler, the interleaving of goroutines, volume matching and
the pricing and weight tables are parameters or arbitrary choices, so every result holds for all of
them.

Where the code and its comments disagree, the model follows the code:

- The comment on `Track` (planner/simulation/scaleout/runstate.go:113-114) says every batch
  that is not empty resets the idle count. A batch that holds only other events neither raises nor
  resets it.
- The comment on `FinalizeStaticBindingsForSelectedClaimsInWFFC` (common/volutil/volutil.go:246-258)
  says a claim is bound only if its volume name is empty. The code does not test that
  (`VolumeTheorems.BoundClaimKeptIff`).
- `Init` (planner/simulation/scaleout/runstate.go:68-82) does not clear what an earlier run filed, so
  pod conservation needs a state that was reset (`RunTracker.InitAccountsIffNothingFiled`). A pass
  without winner does not reset the group, and no reset empties the event sink of a losing simulation's
  view, so a later run can be scored for a pod that an earlier run bound
  (`PlannerSpec.WinLowersViewIff`, `PlannerWorldTheorems.LateWin`).
- The comment on `NewSandbox` (minkapi/view/sandbox.go:51-52) calls a sandbox's changes private. A
  patch of a delegate's object changes that object itself (`ObjectSharing.PatchIsolationIff`).
- A sandbox passes its tombstones to the delegate in place of the caller's excluded names
  (minkapi/view/sandbox.go:231), so these are excluded in its own store only
  (`OverlayListing.ListIsExactIffNothingLeaks`).
- `FindExistingOrCreateSimulatedBindableVolume` takes volumes to exclude, but no caller ever fills
  them (`VolumeTheorems.ImmediateClaimsCanShare`).

## Model

| member | source | states |
|---|---|---|
| `OverlayTheorems.RunRefinesPlainMaps` | minkapi/view/sandbox.go:135-369 | For every tree of views over one base and every sequence of create, update, delete, bulk-delete, bind, status-patch, open and reset calls through any of them, each call answers as it would on a machine that keeps one plain map per view, and every view shows what that map holds: local live entry wins, tombstone means absent, otherwise the delegate's answer |
| `OverlayRuns.StepRefines` | minkapi/view/sandbox.go:135-219 | One call through one view is one step of the plain-map machine, on all views at once |
| `OverlayRuns.ActRefines` | minkapi/view/sandbox.go:135-219 | A write through view v replaces v's map and refreshes exactly those keys of its sandboxes that they have not touched themselves |
| `OverlayRuns.OpenRefines` | minkapi/view/sandbox.go:53-70 | A new sandbox shows its delegate's map and changes no other view |
| `OverlayRuns.ResetRefines` | minkapi/view/sandbox.go:72-79 | A reset view shows its delegate's map again |
| `OverlayRuns.ActionTouches` | minkapi/view/sandbox.go:153-173 | The names a sandbox call adds to its own cache, tombstones included, are exactly the ones it writes |
| `OverlayWorld.StepKeepsLinked` | minkapi/view/access.go:59-79 | No call makes the delegate relation cyclic: every delegate is older than its sandbox |
| `OverlayFlat.LookupReadsFlat` | minkapi/view/sandbox.go:141-151 | GetObject through any depth of delegates answers as the flattened map: the object if it is there, a not-found error if it is not |
| `OverlayFlat.CreateIsMapUpdate` | minkapi/view/base.go:291-324 | Create writes the object into the flattened map, over a live entry or a tombstone, and an object without name and base name is refused and changes nothing |
| `OverlayFlat.UpdateIsMapUpdate` | minkapi/view/sandbox.go:153-173 | Update replaces the entry wherever it lives; of an absent or deleted name it fails with not-found and the flattened map is unchanged |
| `OverlayFlat.DeleteIsMapRemoval` | minkapi/view/sandbox.go:319-352 | Delete removes the entry whether it is local or a delegate's; of an absent name it fails with not-found and changes nothing visible |
| `OverlayFlat.BindIsMapUpdate` | minkapi/view/sandbox.go:175-211 | Binding sets the node of an unbound pod, is refused for a bound pod, a missing pod or an empty name, and then leaves the flattened map as it was apart from the version of a copied pod |
| `OverlayFlat.PatchStatusIsMapUpdate` | minkapi/view/base.go:410-432 | A status patch changes the status of the visible object and nothing else; if the object is absent or the patch fails, the map is unchanged |
| `OverlayFlat.DeleteAllIsMapRemoval` | minkapi/view/sandbox.go:356-369 | Bulk deletion through a sandbox removes exactly the listed names from the flattened map |
| `OverlayEffects.LookupErrors` | minkapi/view/sandbox.go:141-151 | Reading answers not-found exactly if no layer ever held the name, and object-deleted exactly if the nearest layer that holds it holds a tombstone |
| `OverlayEffects.UpdateError` | minkapi/view/sandbox.go:153-173 | An update of a name that is not visible answers just that error and leaves everything as it was |
| `OverlayEffects.DeleteError` | minkapi/view/sandbox.go:319-352 | So does a deletion |
| `OverlayEffects.BindError` | minkapi/view/base.go:164-178 | So does a binding, except that a base view refuses an empty name first |
| `OverlayEffects.PatchStatusError` | minkapi/view/base.go:410-432 | So does a status patch |
| `OverlayEffects.CreateCounts` | minkapi/view/base.go:291-324 | A creation is one change and takes one version; it enters just the object, and a nameless object gets a name that is the start of its generateName followed by the five random characters, at most 253 long |
| `OverlayEffects.UpdateCounts` | minkapi/view/sandbox.go:153-173 | An update is one change and one version, two if the delegate's object is copied in first; it enters just the object |
| `OverlayEffects.DeleteCounts` | minkapi/view/sandbox.go:319-352 | A deletion through a sandbox leaves the object, own or copied, as a tombstone with a deletion stamp; in a base view the entry is gone; one change, and one more and a version for a copy |
| `OverlayEffects.BindCounts` | minkapi/view/sandbox.go:175-211 | A binding is one change and one version, one more of each if the pod is copied in first, and the copy counts even if the binding is then refused |
| `OverlayEffects.PatchStatusCounts` | minkapi/view/base.go:410-432 | A status patch is one change and one version, two if the object is the delegate's, none if the patch fails |
| `OverlayTheorems.UnwrittenViewIsUnchanged` | minkapi/view/sandbox.go:135-219 | Over every run, a view that no call writes through keeps its objects, its tombstones and its change count |
| `OverlayTheorems.UnwrittenChainShowsTheSame` | minkapi/view/sandbox.go:310-369 | Over every run, a view shows the same objects if no call writes through it or one of its delegates: writes through sandboxes are invisible below |
| `OverlayTheorems.StepKeepsVersions` | minkapi/view/store/store.go:81-143 | One call, reset included, never rolls the shared counter back, and each entry it writes carries a version above all earlier ones |
| `OverlayTheorems.DeleteAllKeepsVersions` | minkapi/view/sandbox.go:356-369 | A bulk delete hands out only versions above all earlier ones and keeps those of live entries distinct |
| `OverlayTheorems.RunKeepsVersions` | minkapi/view/store/store.go:598-605 | Over every run, all versions lie below the counter and no two live entries of any views share one |
| `OverlayTheorems.BindKeepsBound` | minkapi/view/sandbox.go:175-211 | One binding call through any view leaves the node of every pod already bound, in every view, as it was |
| `OverlayTheorems.BoundPodIsNeverRebound` | minkapi/view/base.go:339-364 | Over every sequence of binding calls through any views, a bound pod keeps its node in every view |
| `ViewTree.Tree.Do` | minkapi/view/sandbox.go:135-369 | On a heap of view objects that share one counter and have pairwise different stores, any call through any view is exactly one step of the tree of plain layers: the frame of every other view is proved of the objects |
| `ViewTree.Tree.DoAll` | minkapi/view/sandbox.go:135-369 | Any sequence of calls on the objects is a run, so isolation, versions and the plain-map refinement hold of them; their state stays valid, with all versions at most the counter |
| `ViewTree.Tree.DeleteMatching` | minkapi/view/sandbox.go:356-369 | Bulk deletion by criteria is the step that deletes the names its listing gave, and those are the names of the specified list |
| `ViewTree.Tree.List` | minkapi/view/sandbox.go:221-239 | A list through any view enumerates the specified list; its version is at least every item's and at most the shared counter |
| `ViewTree.Tree.CachesAreChain` | minkapi/view/sandbox.go:141-151 | Every view object is read through the chain of layers that the tree has for it |
| `SharedObjects.CallsOnValues` | minkapi/view/sandbox.go:135-219 | While a sandbox shares no object with its delegates, every call but PatchObject does to referenced objects what it does to values, leaves the delegates' objects alone and goes on sharing nothing |
| `SharedObjects.EditSeenIff` | minkapi/view/store/store.go:112-143 | Editing an object in place changes what the delegates show if and only if one of them holds that object and the edit makes it different |
| `ObjectSharing.PatchIsolationIff` | minkapi/view/base.go:366-408 | A successful PatchObject through a sandbox leaves the delegates unchanged if and only if the sandbox has its own entry for the name and does not share its object with a delegate |
| `ObjectSharing.TouchesIffReaches` | minkapi/view/sandbox.go:153-219 | For every call and every outcome: the delegates change if and only if the call is a patch that edits an object of theirs and leaves it different, or a delete that newly stamps one |
| `ObjectSharing.PatchTouchesIffReaches` | minkapi/view/base.go:366-408 | The same for a patch that succeeds, fails, or is refused because it renames the object |
| `ObjectSharing.RunIsolationIff` | minkapi/view/sandbox.go:135-352 | Over every sequence of calls, the delegates stay as they were throughout if and only if no call reaches them |
| `ObjectSharing.OnlyPatchesShare` | minkapi/view/base.go:402-406 | An object comes to be shared exactly by a successful PatchObject of its name while the sandbox has no entry for it; no other call shares one |
| `ObjectSharing.UnpatchedIsNotShared` | minkapi/view/sandbox.go:153-173 | Over every sequence of calls, a name that is never patched does not come to be shared |
| `ObjectSharing.WithoutPatchesIsolated` | minkapi/view/sandbox.go:135-352 | Over every sequence of calls without PatchObject, a sandbox that shares nothing leaves its delegates as they were |
| `ObjectSharing.SecondPatchReachesToo` | minkapi/view/base.go:402-406 | After a first patch of a delegate's object the sandbox has an entry, yet a second patch of the name changes the delegate again, and a delete stamps its object |
| `ObjectSharing.RefusedRenameReaches` | minkapi/view/base.go:381-390 | A patch that renames a delegate's object is refused after the edit: the delegate then files the object under a name it does not carry |
| `ObjectSharing.Sandbox.PatchObject` | minkapi/view/base.go:366-408 | Performs the specified patch: it edits the object that was read, checks the name, and on success files that very object |
| `ObjectSharing.Sandbox.GetObject` | minkapi/view/sandbox.go:141-151 | Answers the reference itself, not a copy, from the nearest layer with an entry |
| `ObjectSharing.Sandbox.UpdateStored` | minkapi/view/store/store.go:112-143 | Stamps the referenced object with the next version and files it, if the name is live here |
| `OverlayListing.ListedFromFirstMatch` | minkapi/view/sandbox.go:221-239 | A listed object comes from the nearest layer that has a live match for it, under the criteria that reach that layer |
| `OverlayListing.VisibleFromFirstHolder` | minkapi/view/sandbox.go:141-151 | A visible object comes from the nearest layer that has any entry for it |
| `OverlayListing.ListIsExactIffNothingLeaks` | minkapi/view/base.go:544-557 | On any chain, for any criteria, the list equals the matching part of the flattened map if and only if no entry leaks: no delegate lists a live copy that a nearer entry hides, or whose name the caller excludes |
| `OverlayListing.ListByNameIsExactIffNoneExcluded` | minkapi/view/sandbox.go:221-239 | Without tombstones, listing by namespace and names is exact on every chain if and only if no delegate holds an otherwise matching object whose name the caller excludes |
| `OverlayListing.ListByNameIsExactOverBaseIff` | minkapi/view/store/store.go:339-354 | For a cluster-scoped kind in a sandbox directly over a base view, with tombstones: exact if and only if the base shows no otherwise matching object whose name the caller excludes |
| `OverlayListing.DeletedNamespacedObjectStaysListed` | minkapi/view/store/store.go:402-430 | A namespaced object deleted through a sandbox is still listed: the tombstone's `ns/name` is compared with bare names |
| `OverlayCriteria.ListedIff` | api/minkapi/types.go:269-283 | On any chain an object is listed if and only if some layer holds it live, in the namespace if one is given, with one of the names if any are given, with labels that the selector takes if there is one, and with a name not left out there: not excluded by the caller in the first layer, not the text of a tombstone of the layer right above in the others |
| `OverlayCriteria.ListedMeetsCriteria` | minkapi/view/sandbox.go:221-239 | Whatever a view lists is a live object of some layer, in the namespace, with a name and with labels that were asked for |
| `OverlayCriteria.BaseListsExactly` | minkapi/view/store/store.go:304-335 | A base view lists exactly its live objects in the namespace, with such a name and labels and a name that is not excluded |
| `OverlayCriteria.DeletedIffListed` | minkapi/view/sandbox.go:356-369 | After a bulk deletion by criteria exactly the visible objects that were not listed are visible, unchanged |
| `OverlayCriteria.DeletionSparesOthers` | minkapi/view/sandbox.go:356-369 | Objects outside the namespace, or with a name that was not asked for, stay visible as they were |
| `OverlayCriteria.TextsDiffer` | minkapi/view/store/store.go:339-354 | Two keys have the same text only if they are the same |
| `ResourceStore.VersionCounter.Next` | minkapi/view/store/store.go:603-605 | Hands out a version one above the last |
| `ResourceStore.Store.Add` | minkapi/view/store/store.go:81-107 | Stores the object under its key with the next version, over anything that was there |
| `ResourceStore.Store.Update` | minkapi/view/store/store.go:112-143 | Replaces a live entry with the next version; absent or tombstoned keys are refused and nothing changes |
| `ResourceStore.Store.GetByKey` | minkapi/view/store/store.go:196-223 | Three outcomes: the live object, an object-deleted error for a tombstone, not-found otherwise |
| `ResourceStore.Store.DeleteByKey` | minkapi/view/store/store.go:149-173 | Removes a live entry; anything else is an error and changes nothing |
| `ResourceStore.Store.MarkDeleted` | minkapi/view/store/store.go:402-430 | Replaces a live entry by a tombstone; anything else is an error and changes nothing |
| `ResourceStore.Store.ListMetaObjects` | minkapi/view/store/store.go:304-335 | Lists each once exactly the live objects in the namespace, with a name that is asked for and not excluded and with labels that the selector takes; the version is the largest among them |
| `ResourceStore.Store.ListTombstonedKeys` | minkapi/view/store/store.go:339-354 | Exactly the texts of the tombstoned keys |
| `ResourceStore.Store.Reset` | minkapi/view/store/store.go:70-75 | Empties the cache and leaves the counter |
| `ResourceStore.CombinePrimarySecondary` | minkapi/view/base.go:544-557 | Those of the secondary list whose key is not in the primary, followed by the primary list |
| `ResourceStore.CombinedEnumerates` | minkapi/view/base.go:544-557 | Two lists that enumerate maps combine into a list that enumerates the overlay of the first over the second, each key once |
| `ResourceStore.EnumeratesOnce` | minkapi/view/base.go:544-557 | A list that enumerates a map holds exactly the map's objects, and no key twice |
| `ResourceStore.EnumeratesAll` | minkapi/view/base.go:544-557 | A list that enumerates a map is as long as the map is large |
| `Views.View.Base` | minkapi/view/base.go:59-74 | A base view shows nothing |
| `Views.View.Sandbox` | minkapi/view/sandbox.go:53-70 | A new sandbox shares its delegate's version counter and shows what the delegate shows |
| `Views.View.Reset` | minkapi/view/sandbox.go:72-79 | Empties the local store, zeroes the change count and leaves the delegates |
| `Views.View.GetObject` | minkapi/view/sandbox.go:141-151 | Answers the lookup along the chain of delegates |
| `Views.View.CreateObject` | minkapi/view/base.go:291-324 | Performs the specified creation on its own store and nothing else, keeping the view valid |
| `Views.View.UpdateObject` | minkapi/view/sandbox.go:153-173 | Performs the specified update: a delegate's object is copied in first, then overwritten |
| `Views.View.DeleteObject` | minkapi/view/sandbox.go:319-352 | Performs the specified deletion: a delegate's object is copied in first, then entombed |
| `Views.View.UpdatePodNodeBinding` | minkapi/view/sandbox.go:175-211 | Performs the specified binding; a delegate's pod is copied in first |
| `Views.View.PatchObjectStatus` | minkapi/view/base.go:410-432 | Performs the specified status patch on a copy |
| `Views.View.ListMetaObjects` | minkapi/view/sandbox.go:221-239 | Enumerates the specified list; every item is in the namespace, has a name that was asked for and labels that the selector takes; the version is the largest among the matches in any layer (`OverlayCriteria.ListVersion`) and at most the shared counter |
| `Views.View.DeleteObjects` | minkapi/view/sandbox.go:356-369 | Deletes, one by one, exactly the names that the listing showed, so exactly these leave the flattened map, and all of them are in the namespace and have a name that was asked for |
| `ViewTree.ViewAccess.GetSandboxViewOverDelegate` | minkapi/view/access.go:59-79 | One view per name: a known name answers the cached view, whatever delegate is asked for, and changes nothing; a new name is one step of the tree, which opens a sandbox over that delegate, and no two names share a view |
| `RunTracker.TrackKeepsAccount` | planner/simulation/scaleout/runstate.go:117-164 | If the events regard initially unscheduled pods only, leftover and filed pods go on partitioning the initial ones |
| `RunEvents.OtherEventsPassedOver` | planner/simulation/scaleout/runstate.go:150-157 | An event whose action is not Binding and whose reason is not Scheduled, such as FailedScheduling, is counted and changes nothing else |
| `RunEvents.BindingEventFiles` | planner/simulation/scaleout/runstate.go:263-280 | An event with either one files the pod it regards under the node that the view shows for it, and zeroes the idle count; if the view does not show the pod, or shows it without a node, nothing is filed and the poll fails with that error |
| `RunEvents.BatchFilesReported` | planner/simulation/scaleout/runstate.go:141-161 | A batch fails if and only if one of its events reports a binding that the view does not bear out; otherwise it files exactly the reported pods, each under its node, and counts every event |
| `RunEvents.PollByEvents` | planner/simulation/scaleout/runstate.go:117-164 | A poll counts itself and its events, fails exactly so, and is stable exactly if it finds no event and with it more than max polls in a row did |
| `RunEvents.SimulationAnswers` | planner/simulation/scaleout/scaleout.go:78-125 | A simulation has a result if and only if its view showed a pod to schedule and its run ended stable or with nothing left; the result says which pods are left over and whether one is filed under a node of its own |
| `RunTracker.TrackKeepsTracks` | planner/simulation/scaleout/runstate.go:117-164 | A poll, whatever its events regard, keeps this: the leftover pods are the initial ones that are not filed, and each filed pod's node is its node in the view |
| `RunTracker.AccountsIffNoStrays` | planner/simulation/scaleout/runstate.go:282-302 | Leftover and filed pods partition the initial ones if and only if, besides, nothing else is filed |
| `RunTracker.NoPodOnTwoNodes` | planner/simulation/scaleout/runstate.go:282-302 | Under the account no pod is filed under two nodes |
| `RunTracker.BindingsKeepAccount` | planner/simulation/scaleout/runstate.go:263-280 | Bindings by the scheduler between polls keep the account, as bound pods are never rebound |
| `RunTracker.TrackEventsResets` | planner/simulation/scaleout/runstate.go:117-164 | A batch without error files one pod per binding event; it sets the idle count to zero if it files any and leaves it alone otherwise: other events neither raise nor reset it |
| `RunTracker.InitAccountsIffNothingFiled` | planner/simulation/scaleout/runstate.go:68-82 | Init sets the leftover pods only; the account holds at the start of a run if and only if nothing is filed from an earlier one |
| `RunTracker.InitTracks` | planner/simulation/scaleout/runstate.go:68-82 | From any state whose filings hold in the view, Init starts a run with leftover pods that are exactly the initial pods not filed |
| `RunTracker.RunLowersUnscheduled` | planner/simulation/scaleout/runstate.go:263-302 | However a run went, the pods unscheduled in the view afterwards are among the leftover ones, and these are fewer than at the start if and only if one of the initial pods was filed |
| `SimulationRun.RunState.Init` | planner/simulation/scaleout/runstate.go:68-82 | The leftover pods become the listed pods without a node; with none it fails; nothing else of the state is reset |
| `SimulationRun.RunState.AddScheduledPod` | planner/simulation/scaleout/runstate.go:282-302 | Performs the specified filing |
| `SimulationRun.RunState.HandleScheduledPodEvent` | planner/simulation/scaleout/runstate.go:263-280 | Reads the pod through the view; an unreadable or unbound pod is an error and files nothing |
| `SimulationRun.RunState.HandleEvents` | planner/simulation/scaleout/runstate.go:117-164 | Handles a batch in order, stopping at the first error |
| `SimulationRun.RunState.Track` | planner/simulation/scaleout/runstate.go:117-164 | One poll is the specified one (`RunEvents` says of which events): it drains the sink, counts an empty batch, files binding events |
| `SimulationRun.RunState.WorkAndPoll` | planner/simulation/scaleout/scaleout.go:141-147 | One round of volume work, scheduler writes and a poll, which also finds the events that were already in the sink |
| `SimulationRun.RunState.WorkAndTrackUntilStabilized` | planner/simulation/scaleout/scaleout.go:132-154 | The loop performs exactly the run its rounds amount to: tracker, view, number of polls and the way it ends are those of the function `RunRounds.RunOf` |
| `SimulationRun.RunState.Simulate` | planner/simulation/scaleout/scaleout.go:78-125 | A whole run: Init, which fails without unscheduled pods, the new nodes, the loop, and the result with the pods left over and whether a pod is filed on one of the simulation's nodes |
| `SimulationRun.SchedulerWrites` | minkapi/view/sandbox.go:175-219 | However the scheduler binds pods and patches their status, the view ends up as the sequence of specified writes makes it |
| `RunRounds.StabilisationBound` | planner/simulation/scaleout/scaleout.go:132-154 | Over every run, from any state of the tracker: among the polled rounds, at most max * (b + w + 1) + 1 find no event, for b pods filed and w rounds of volume work |
| `RunRounds.HowRunsEnd` | planner/simulation/scaleout/scaleout.go:127-154 | A run counts as stable if and only if its last poll found nothing and more than max polls found nothing since the last reset; the other ends are that nothing is left over, that work or poll fail in the last round, or cancellation |
| `RunRounds.PollCountsIdle` | planner/simulation/scaleout/runstate.go:117-164 | The idle count after a poll is that before it, or zero if volume work or a binding event reset it, plus one for an empty poll |
| `RunRounds.RunCounts` | planner/simulation/scaleout/scaleout.go:127-154 | Over every run, every poll is counted, and unless a poll fails the idle count at the end is the number of empty polls since the last reset; volume work in a round that then fails resets it too |
| `RunRounds.RunTracks` | planner/simulation/scaleout/scaleout.go:132-154 | Over every run, whatever the scheduler writes and reports: the pods left over are the initial ones not filed, every filed pod has the node it is filed under, no visible binding is undone, no pod appears or vanishes |
| `RunRounds.RunKeepsAccount` | planner/simulation/scaleout/scaleout.go:132-154 | Over every run whose events regard initial pods only, leftover and filed pods partition the initial ones |
| `RunRounds.WritesKeepBound` | minkapi/view/base.go:339-364 | Any sequence of bindings and status patches through a sandbox keeps every visible binding and makes no pod appear or vanish |
| `PlannerRefinement.RunRefinesRunSim` | planner/simulation/scaleout/scaleout.go:78-125 | From every state of a view and a tracker whose filings hold - fresh, reset, or left by a pass without winner - a run of the tracker on the view is the planner's run: same records, own pods, filed pods, leftover and score; and everything asked of the state before the run holds again after it |
| `PlannerRefinement.UnscheduledIsUnbound` | minkapi/view/sandbox.go:141-151 | What the planner records as unscheduled in a view is what that view of the tree shows without a node, a delegate's later bindings included except for pods the view holds itself |
| `PlannerRefinement.RecordWritten` | minkapi/view/sandbox.go:175-219 | The record of a view after a run follows from the pods it bound and the pods it copied in |
| `PlannerRefinement.SimulationRuns` | planner/simulation/scaleout/scaleout.go:78-125 | One run keeps every filing true, undoes no binding, leaves over what it did not file, which includes all that stays unscheduled in the view, and is scored if and only if a filed pod is on a node of the simulation |
| `PlannerRefinement.OpenIsRecorded` | minkapi/view/access.go:59-79 | Opening a sandbox in the tree is opening a record |
| `PlannerRefinement.OtherViewsKeepBound` | minkapi/view/sandbox.go:175-219 | A run through one view undoes no binding that another view shows, so the filings of other simulations keep holding |
| `PlannerRefinement.ResetIsRecorded` | planner/simulator/scaleout/singlenode/singlenode.go:239-243 | After the reset of a winning pass a simulation has no own nodes and nothing filed, which is a state a run may start from |
| `PlannerWorld.RunRefines` | planner/simulation/scaleout/scaleout.go:78-125 | A run of one of many simulations, each with its tracker and its view in one tree, is a run of the planner's model on the whole state: no other simulation's view, nodes or filings are affected, if pods are bound only to nodes that the view can show |
| `PlannerWorld.RunKeepsGood` | planner/simulation/scaleout/scaleout.go:78-125 | A run keeps the state good: pods are still all there, views and simulations still match, and every simulation's filings hold in its view |
| `PlannerWorld.OtherViewsMove` | minkapi/view/sandbox.go:175-219 | In every other view, a run makes no pod appear or vanish, undoes no binding, and binds pods only to the nodes that it bound them to in its own; older views show exactly what they showed |
| `PlannerWorldRuns.PassRefines` | planner/simulator/scaleout/singlenode/singlenode.go:219-247 | A pass of a group on the views has the winner, the next view and the state of the model's pass |
| `PlannerWorldRuns.CycleRefines` | planner/simulator/scaleout/singlenode/singlenode.go:174-213 | A cycle on the views terminates with the winners, leftover pods and state of the model's cycle |
| `PlannerWorldPlans.PlanRefines` | planner/simulator/scaleout/singlenode/singlenode.go:120-167 | Whatever a fair environment creates, writes and reports round by round, the plan made on the views terminates and is the model's plan |
| `PlannerWorldPlans.SmallGroupsBounded` | planner/simulator/scaleout/singlenode/singlenode.go:120-167 | On the views, with at most one simulation per group, no more nodes are asked for than the base view shows pods without a node |
| `RunFeeds.AssignAndTouchDo` | minkapi/view/sandbox.go:175-219 | Bindings of different unbound pods to two nodes and idle status patches do just that: these pods are on these nodes, nothing else moves, and the view holds copies of exactly the pods written |
| `RunFeeds.DoesAndRests` | planner/simulation/scaleout/scaleout.go:132-154 | A round of writes and reports on bound pods, and quiet rounds after it, end well with exactly these pods filed, for every configured number of empty polls |
| `RunFeeds.DoesAndFails` | planner/simulation/scaleout/runstate.go:263-280 | With a report on a pod that is not there at the end, the run files the others and fails |
| `PlannerRealisation.PlanRealised` | planner/simulator/scaleout/singlenode/singlenode.go:120-167 | Every plan of the model, whatever its scheduler binds, copies, files and fails, is made on the views by some fair environment, round by round |
| `PlannerRealisation.RealisingMirrors` | planner/simulation/scaleout/scaleout.go:78-125 | In that environment each run on the views, in any good state, is the model's next run |
| `PlannerWorldTheorems.NeverOvershootsIffSmallGroups` | planner/simulator/scaleout/singlenode/singlenode.go:120-167 | On the views, for every snapshot, fair environment and choice of winner: never more nodes than unscheduled pods, if and only if no group has two simulations |
| `PlannerWorldTheorems.LateWin` | planner/simulator/scaleout/singlenode/singlenode.go:219-247 | From a snapshot of three pods with one simulation, by the rounds that realise `PlannerLateWins.Late`: a cycle has a winner and leaves pods over, and the next pass wins although the winner's view shows the same unscheduled pods as before it |
| `PlannerLateWins.LateWin` | planner/simulator/scaleout/singlenode/singlenode.go:219-247 | The same in the model: the planner reaches a state in which a winning pass does not lower its winner's view |
| `PlannerViews.WriteLowersUnscheduled` | minkapi/view/sandbox.go:175-211 | Writes through a view take exactly the bound pods from what it shows as unscheduled; other views lose bound pods at most and none that they hold themselves, and no view gains any |
| `PlannerSpec.RunLowersOwnView` | planner/simulation/scaleout/scaleout.go:78-125 | A run takes exactly the pods it binds from its own view and raises no other; what it reports left over lies between what the view showed before and after |
| `PlannerSpec.ScoredRunHasPod` | planner/simulation/scaleout/runstate.go:305-319 | A scored run filed a pod that was unscheduled in its view, or on the simulation's own nodes, before it, and that is not unscheduled after it |
| `PlannerSpec.WinLowersViewIff` | planner/simulator/scaleout/singlenode/singlenode.go:182-247 | Being scored means strictly fewer unscheduled pods in the view, for every scheduler, if and only if all pods on the simulation's own nodes are unscheduled there, as after a reset; else an event left over from an earlier run can score without a new binding, which the planner does reach (`PlannerLateWins.LateWin`) |
| `PlannerSpec.PassLowersWinner` | planner/simulator/scaleout/singlenode/singlenode.go:219-247 | A winning pass strictly lowers the pods its winner can still win (unscheduled in its cached view, or on its own nodes), raises none, and hands that view to the next pass; a pass without winner keeps the view |
| `PlannerSpec.PassLowersTotal` | planner/simulator/scaleout/singlenode/singlenode.go:219-247 | A winning pass strictly lowers the total of pods that simulations can still win, from any state, reset or not |
| `PlannerSpec.CycleWinnersBounded` | planner/simulator/scaleout/singlenode/singlenode.go:174-213 | Every winner of a cycle uses up one unit of the total; a cycle without winner hands on the view it was given |
| `PlannerSpec.PlanWinnersBounded` | planner/simulator/scaleout/singlenode/singlenode.go:120-167 | All winners of a plan together use up at most that total: for n simulations, n times the unscheduled pods |
| `PlannerPasses.PassHasWinnerIffScored` | planner/simulator/scaleout/singlenode/singlenode.go:249-272 | A pass succeeds if and only if all runs of its group do; then it has a winner if and only if one of their results is scored, the winner is such a result and the next pass runs over its view; without a winner nothing changes and the view stays |
| `PlannerPasses.EveryScoredCanWin` | planner/simulator/scaleout/singlenode/singlenode.go:252-272 | Every scored result is the winner for some choice of the scorer |
| `PlannerPasses.PickedWins` | planner/simulator/scaleout/singlenode/singlenode.go:252-272 | The winner is the scored result that the scorer picks |
| `PlannerPasses.RunsIgnorePick` | planner/simulator/scaleout/singlenode/singlenode.go:219-230 | What the runs of a group do and answer does not depend on whom the scorer picks |
| `PlannerPasses.WinResetsGroup` | planner/simulator/scaleout/singlenode/singlenode.go:239-243 | A winning pass forgets what every simulation of the group bound to its own nodes and filed, and changes no view and no other simulation |
| `PlannerPasses.RunsLeaveOthers` | planner/simulator/scaleout/group.go:53-84 | The runs of a group leave the records and the view of every other simulation alone |
| `PlannerPasses.CycleEndsWithLast` | planner/simulator/scaleout/singlenode/singlenode.go:174-213 | A cycle leaves over what its last winner leaves over, nothing if there is none; no earlier winner leaves nothing over; if nothing is left the next view is the last winner's |
| `PlannerTheorems.SmallGroupsNeverOvershoot` | planner/simulator/scaleout/singlenode/singlenode.go:120-167 | With at most one simulation per group, from any point on, winners and the pods left in the last view together are at most the pods that could then be won |
| `PlannerTheorems.PlanOfSinglesIsBounded` | planner/simulator/scaleout/singlenode/singlenode.go:120-167 | With at most one simulation per group, the winners never exceed the snapshot's unscheduled pods |
| `PlannerOvershoot.NeverOvershootsIffSmallGroups` | planner/simulator/scaleout/singlenode/singlenode.go:120-167 | For groups of different simulations: winners never exceed the unscheduled pods, for every set of pods, scheduler and choice of winner, if and only if no group has two simulations |
| `PlannerOvershoot.BigGroupOvershoots` | minkapi/view/access.go:59-79 | Whatever the sizes of the groups, the first one with two or more simulations gets three winners out of two pods from some scheduler, because views are cached per simulation |
| `PlannerPriorities.GroupsAreDistinct` | planner/simulator/scaleout/group.go:100-120 | The groups made from simulations with different names have no name in common and none twice, as the results about plans ask for |
| `PlannerPriorities.SmallIffPrioritiesDiffer` | planner/simulator/scaleout/group.go:100-120 | No group has two simulations if and only if no two simulations have the same pool and template priorities |
| `PlannerPriorities.NeverOvershootsIffPrioritiesDiffer` | planner/simulator/scaleout/singlenode/singlenode.go:88-167 | From pools to plans: whatever scheduler and scorer do on the views, a plan never asks for more nodes than there are unscheduled pods, if and only if no two simulations have the same pool and template priorities |
| `PlannerLoops.Simulator.RunGroup` | planner/simulator/scaleout/group.go:53-84 | Runs the simulations of a group on their cached views, stopping at the first error |
| `PlannerLoops.Simulator.RunPassForGroup` | planner/simulator/scaleout/singlenode/singlenode.go:219-247 | Performs the specified pass: it runs the group on cached views, picks a scored result if there is one (`PlannerPasses.PassHasWinnerIffScored`), and resets the group after a win only |
| `PlannerLoops.Simulator.RunStabilizationCycleForGroup` | planner/simulator/scaleout/singlenode/singlenode.go:174-213 | The pass loop terminates and computes the specified cycle |
| `PlannerLoops.Simulator.RunStabilizationCyclesForAllGroups` | planner/simulator/scaleout/singlenode/singlenode.go:120-167 | The group loop terminates for every scheduler behaviour and computes the specified plan; with no winner at all it is an error |
| `ObfuscationPreserves.NodeSelectorPreserved` | tools/cmd/scadctl/cmd/genscenario/obfuscate.go:41-111 | Every pod's node selector matches a node after obfuscation if and only if it did before |
| `ObfuscationPreserves.NodeAffinityPreserved` | tools/cmd/scadctl/cmd/genscenario/obfuscate.go:258-290 | Required and preferred node affinity give the same verdict for every pod and node, term by term and for all operators, if the MatchFields of each term take the node by its old name as by its new one |
| `ObfuscationPreserves.RequiredNodeAffinityPreserved` | tools/cmd/scadctl/cmd/genscenario/obfuscate.go:258-290 | A pod may go to a node by its required node affinity after obfuscation if and only if it might before; a pod without required terms may go anywhere |
| `ObfuscationPreserves.RequiredNodeAffinityPreservedOnAll` | tools/cmd/scadctl/cmd/genscenario/obfuscate.go:258-290 | The same for all nodes of the snapshot at once, if the MatchFields of each term take the same nodes by old names as by new ones |
| `ObfuscationPreserves.NodeTermsKeptIff` | tools/cmd/scadctl/cmd/genscenario/obfuscate.go:258-290 | For given MatchFields, whose values are not rewritten: every node term with them keeps its verdict on every node if and only if they take the same nodes by old names as by new ones |
| `ObfuscationPreserves.TolerancePreserved` | tools/cmd/scadctl/cmd/genscenario/obfuscate.go:338-352 | A toleration tolerates a taint after obfuscation if and only if it did before |
| `ObfuscationPreserves.DomainPreserved` | tools/cmd/scadctl/cmd/genscenario/obfuscate.go:324-336 | A pod lies in a topology domain after obfuscation if and only if it did before |
| `ObfuscationPreserves.SpreadPreserved` | tools/cmd/scadctl/cmd/genscenario/obfuscate.go:324-336 | Every spread constraint counts the same pods in every domain |
| `ObfuscationPreserves.PodAffinityPreserved` | tools/cmd/scadctl/cmd/genscenario/obfuscate.go:292-322 | Every pod affinity and anti-affinity term selects the same pods in the topology domain of every node, in the namespaces it lists or selects, or its pod's own; namespace labels are not rewritten, so those of namespaces that it does not list must say the same of each key of its namespace selector as of the new key |
| `ObfuscationPreserves.PodAffinityKeptIff` | tools/cmd/scadctl/cmd/genscenario/obfuscate.go:292-322 | Exactly when all pod-affinity terms over the scheduling keys find the same pods for every node: if and only if the namespace of each pod that such a term can find has, for every scheduling key, both the key and its new name with one value, or neither |
| `ObfuscationNamespaces.SelectorsKeptIff` | tools/cmd/scadctl/cmd/genscenario/obfuscate.go:298-298 | For any set of scheduling keys: all namespace selectors over them keep their verdict on a namespace if and only if it has, for each of the keys, both the key and its new name with one value, or neither |
| `ObfuscationNamespaces.AlikeSelectorKept` | tools/cmd/scadctl/cmd/genscenario/obfuscate.go:298-298 | One selector keeps its verdict on every namespace that says the same of its keys and their new names |
| `ObfuscationNamespaces.UnlikeIsLost` | tools/cmd/scadctl/cmd/genscenario/obfuscate.go:298-298 | On every other namespace some selector loses its verdict: the old key alone, the new key alone, or both with different values |
| `ObfuscationVerdicts.TidyKeepsVerdicts` | tools/cmd/scadctl/cmd/genscenario/obfuscate.go:41-111 | End to end: for a snapshot with distinct node names, whose pods name a node of it or none and in which no key starts with `sched-key-`, and for whatever numbering, all verdicts on the result are those on the snapshot: node selectors, tolerations, spreads, node affinity and pod affinity, the last two under their stated conditions |
| `ObfuscationVerdicts.TidyIsObfuscable` | tools/cmd/scadctl/cmd/genscenario/obfuscate.go:41-111 | Such a snapshot meets what each of the preservation results asks for |
| `ObfuscationVerdicts.OneNodeIsTidy` | tools/cmd/scadctl/cmd/genscenario/obfuscate.go:41-111 | A pod on a node, or on none, is a tidy snapshot whatever its labels, taints and constraints, if no key starts like a new one |
| `ObfuscationOutcome.NodeAnnotationsAfterwards` | tools/cmd/scadctl/cmd/genscenario/obfuscate.go:76-76 | A key is in a node's annotations afterwards if and only if it was before and starts with none of the prefixes to remove; its value is kept |
| `ObfuscationOutcome.PodAnnotationsAfterwards` | tools/cmd/scadctl/cmd/genscenario/obfuscate.go:98-98 | The same of a pod's annotations |
| `ObfuscationOutcome.NodeLabelsAfterwards` | tools/cmd/scadctl/cmd/genscenario/obfuscate.go:232-256 | A node's label with such a prefix is there under its numbered name if a constraint mentions the key and is gone if none does; every other label stays, with its value unless its key is a new name |
| `ObfuscationOutcome.PodLabelsAfterwards` | tools/cmd/scadctl/cmd/genscenario/obfuscate.go:232-256 | The same of a pod's labels |
| `ObfuscationOutcome.CollectedIff` | tools/cmd/scadctl/cmd/genscenario/obfuscate.go:120-208 | A key is collected from a pod if and only if its node selector, a toleration, a term of its node affinity, pod affinity or pod anti-affinity, required or preferred, or a spread constraint mentions it; an empty toleration or topology key is not |
| `ObfuscationOutcome.ConstraintsMentionNewNames` | tools/cmd/scadctl/cmd/genscenario/obfuscate.go:258-344 | The constraints of a pod mention afterwards exactly the keys they mentioned, those with such a prefix by their new names: none that starts with one is left anywhere in them |
| `ObfuscationOutcome.TaintKeyAfterwards` | tools/cmd/scadctl/cmd/genscenario/obfuscate.go:346-352 | A taint keeps value and effect, and a key with such a prefix that no constraint mentions; one that a constraint mentions is renamed |
| `ObfuscationNames.NodeNameAfterwards` | tools/cmd/scadctl/cmd/genscenario/obfuscate.go:49-53 | A node is called after its place in the snapshot; of several nodes with one name, all after the last |
| `ObfuscationNames.PodNamesTellApart` | tools/cmd/scadctl/cmd/genscenario/obfuscate.go:82-87 | A pod's name tells its place, and by its suffix whether its first owner is a daemon set, and nothing else; so no two pods have the same |
| `ObfuscationNames.OwnerNumberCountsEarlier` | tools/cmd/scadctl/cmd/genscenario/obfuscate.go:55-66 | An owner is numbered by the different owners before its first appearance |
| `ObfuscationNames.OwnersAfterwards` | tools/cmd/scadctl/cmd/genscenario/obfuscate.go:92-96 | Owner references keep their kinds; two have the same name afterwards if and only if they had before, and every name is a number below the count of different owners |
| `ObfuscationPreserves.UnprefixedHasKeysUnused` | tools/cmd/scadctl/cmd/genscenario/obfuscate.go:210-220 | If no key starts with `sched-key-`, no new key is in use, whatever the numbering |
| `ObfuscationTheorems.MapReadsSameIff` | tools/cmd/scadctl/cmd/genscenario/obfuscate.go:232-256 | Reading a rewritten map at the renamed key answers as before for every scheduling key, if and only if new keys do not clash with keys of the map |
| `ObfuscationTheorems.NewKeyInUseClashes` | tools/cmd/scadctl/cmd/genscenario/obfuscate.go:232-256 | A map that already has a new key, and not the old one, seems to have the old one afterwards |
| `ObfuscationTheorems.RenamedMapIdempotent` | tools/cmd/scadctl/cmd/genscenario/obfuscate.go:232-256 | Obfuscating a map twice is obfuscating it once |
| `ObfuscationTheorems.MapMatchesPreserved` | tools/cmd/scadctl/cmd/genscenario/obfuscate.go:232-256 | Label equality requirements match the same maps after both are rewritten |
| `ObfuscationTheorems.SelectorPreserved` | tools/cmd/scadctl/cmd/genscenario/obfuscate.go:312-322 | Label selectors match the same label maps after both are rewritten |
| `ObfuscationTheorems.TolerationPreserved` | tools/cmd/scadctl/cmd/genscenario/obfuscate.go:338-352 | "Tolerates" is preserved in both directions |
| `ObfuscationTheorems.TermsPreserved` | tools/cmd/scadctl/cmd/genscenario/obfuscate.go:284-290 | A list of node terms matches the same nodes after both are rewritten |
| `ObfuscationTheorems.FieldPreservedIff` | tools/cmd/scadctl/cmd/genscenario/obfuscate.go:258-282 | A MatchFields requirement, whose values are not rewritten, keeps its verdict on every node of the snapshot if and only if it does not read the node name, or its values name the same nodes by their old names as by `node-<i>` |
| `ObfuscationTheorems.FieldWithoutNewNamesIff` | tools/cmd/scadctl/cmd/genscenario/obfuscate.go:258-282 | If none of its values is the new name of a node, that is the case if and only if no value names a node of the snapshot |
| `ObfuscationTheorems.SameNamesTakeSame` | tools/cmd/scadctl/cmd/genscenario/obfuscate.go:258-282 | MatchFields whose values each name the same nodes by old and by new names take the same nodes |
| `ObfuscationTheorems.PlacementPreservedIff` | tools/cmd/scadctl/cmd/genscenario/obfuscate.go:49-53 | With distinct node names, a pod's rewritten node name picks the same nodes if and only if it names a snapshot node or equals no generated name |
| `ObfuscationTheorems.NewKeysStay` | tools/cmd/scadctl/cmd/genscenario/obfuscate.go:210-220 | New keys are never removable, never old scheduling keys and never empty |
| `ObfuscationLoops.BuildSchedulingKeyMap` | tools/cmd/scadctl/cmd/genscenario/obfuscate.go:210-220 | In every visiting order, each removable key gets its own numbered name and no other key gets one; the numbers are those below the count of these keys |
| `ObfuscationLoops.ObfuscateStringMap` | tools/cmd/scadctl/cmd/genscenario/obfuscate.go:232-256 | In every iteration order the two-phase loop equals one map comprehension: mapped keys renamed, other removable keys dropped, the rest kept |
| `ObfuscationCollect.CollectSchedulingRelevantKeys` | tools/cmd/scadctl/cmd/genscenario/obfuscate.go:120-139 | Collects exactly the keys that some pod's constraints mention |
| `ObfuscationCollect.CollectAffinityKeys` | tools/cmd/scadctl/cmd/genscenario/obfuscate.go:141-165 | Adds exactly the keys of the affinity rules |
| `ObfuscationCollect.CollectPodAffinityTermKeys` | tools/cmd/scadctl/cmd/genscenario/obfuscate.go:173-191 | Adds exactly the topology and selector keys of the terms |
| `ObfuscationRewrite.ObfuscateLabelSelector` | tools/cmd/scadctl/cmd/genscenario/obfuscate.go:312-322 | Rewrites match labels and match expressions of a selector, if there is one |
| `ObfuscationRewrite.ObfuscateAffinityRules` | tools/cmd/scadctl/cmd/genscenario/obfuscate.go:258-310 | Rewrites every key of the affinity rules and nothing else |
| `ObfuscationRewrite.ObfuscateSpreads` | tools/cmd/scadctl/cmd/genscenario/obfuscate.go:324-336 | Rewrites topology keys, selectors and match label keys of the constraints |
| `ObfuscationRewrite.ObfuscateTolerations` | tools/cmd/scadctl/cmd/genscenario/obfuscate.go:338-344 | Rewrites the keys of tolerations in place |
| `ObfuscationRewrite.ObfuscateTaints` | tools/cmd/scadctl/cmd/genscenario/obfuscate.go:346-352 | Rewrites the keys of taints in place |
| `ObfuscationRewrite.BuildOwnerNameMap` | tools/cmd/scadctl/cmd/genscenario/obfuscate.go:55-66 | Numbers owner names in the order of first appearance |
| `ObfuscationRewrite.ClusterSnapshot.ObfuscateMetadata` | tools/cmd/scadctl/cmd/genscenario/obfuscate.go:41-111 | The snapshot becomes the specified one for some numbering of the removable keys that its constraints mention, with numbers below their count; a tidy one meets the hypotheses of all preservation results. `ObfuscationOutcome` and `ObfuscationNames` say what is in it: annotations, labels, constraints, names |
| `ScoringTheorems.ValuesInClosedForm` | planner/scorer/scorer.go:52-86 | Aggregating resources and weighing once is weighing each pod and adding up; waste takes from the node's units only what pods request of resources the node offers |
| `ScoringTheorems.ScoresDependOnMultiset` | planner/scorer/scorer.go:278-293 | Both scores depend only on the multiset of scheduled pods and the node's allocatable: reordering, or moving pods between assignments, changes nothing |
| `ScoringTheorems.EmptyAssignmentsAddNoPod` | planner/simulation/scaleout/runstate.go:321-343 | Zero-valued assignments contribute no pod |
| `ScoringTheorems.ExtraPodIsMonotone` | planner/scorer/scorer.go:179-214 | With non-negative weights and requests and a positive price, one more pod never lowers the cost score and never raises the waste score |
| `ScoringMeaning.UnitsOfOne` | planner/scorer/scorer.go:264-274 | The units of a single quantity are its weight times the quantity, and nothing if the resource has no weight |
| `ScoringMeaning.UnitsByResource` | planner/scorer/scorer.go:264-274 | The units of any resources are those of one of them, its weight times its quantity, and of the rest; of nothing they are zero |
| `ScoringMeaning.RoundIsNearest` | planner/scorer/scorer.go:82-82 | Rounding is to the nearest integer, from halfway away from zero |
| `ScoringMeaning.TruncateIsTowardZero` | planner/scorer/scorer.go:209-209 | The conversion cuts off the fraction, toward zero |
| `ScoringMeaning.ScheduledInParts` | planner/scorer/scorer.go:278-293 | The pods that count are those of the first new node and then those of every other assignment, one after the other |
| `ScoringMeaning.ScoreOfOutcome` | planner/simulator/scaleout/singlenode/singlenode.go:252-260 | The score of an outcome carries its name, its placement, its leftover pods and what its first new node can allocate; its value is 100 times the units of all scheduled pods by the price, rounded, -1 for a zero price, or 100 times the node's units less those of the pods' requests that it offers, cut off; without weights or price the error names the instance type |
| `SelectionSpec.WinnersAreOptima` | planner/scorer/scorer.go:93-143 | The possible winners over all random choices are exactly the lexicographic optima: value then weighted allocatable maximal for least-cost, value then price minimal for least-waste |
| `SelectionSpec.SelectIgnoresOrder` | planner/scorer/scorer.go:219-261 | Reordering the scores changes neither whether selection answers nor who can win |
| `SelectionSpec.SelectAnswersIff` | planner/scorer/scorer.go:93-143 | Selection fails exactly on an empty list, and on two or more scores of which a best-valued one has no weights (least-cost) or no price (least-waste) |
| `ScoringMeaning.LeastCostWinner` | planner/scorer/scorer.go:93-143 | Least cost: no score has a higher value than the winner, and among those of its value none a node with more weighted units to allocate |
| `ScoringMeaning.LeastWasteWinner` | planner/scorer/scorer.go:219-261 | Least waste: no score has a lower value than the winner, and among those of its value none a lower price |
| `ScoringMeaning.ChoiceError` | planner/scorer/scorer.go:107-120 | A failed choice had no scores, or names the instance type of a best-valued score without weights (least cost) or without price (least waste) |
| `NodeScorers.NormalizedAggregate` | planner/scorer/scorer.go:264-274 | In every iteration order, the weighted sum of the quantities that have a weight (`ScoringMeaning.UnitsByResource`) |
| `NodeScorers.AddPodRequests` | planner/scorer/scorer.go:296-305 | Adds resource by resource |
| `NodeScorers.AggregatedScheduledPodsResources` | planner/scorer/scorer.go:278-293 | The sum of the requests of all scheduled pods |
| `NodeScorers.ComputeLeastCost` | planner/scorer/scorer.go:52-86 | The rounded units per price, -1 for a zero price; missing weights are reported before a missing price |
| `NodeScorers.ComputeLeastWaste` | planner/scorer/scorer.go:179-214 | The units left on the node, cut off toward zero |
| `NodeScorers.SortStable` | planner/scorer/scorer.go:102-105 | Sorts in place, keeping the order of scores of equal value |
| `NodeScorers.SelectLeastCost` | planner/scorer/scorer.go:93-143 | Sorts its argument in place and stably, and answers the specified choice of the original order |
| `NodeScorers.SelectLeastWaste` | planner/scorer/scorer.go:219-261 | Sorts its argument in place and stably, and answers the specified choice of the original order |
| `NodeScorers.ProcessResults` | planner/simulator/scaleout/singlenode/singlenode.go:249-286 | Answers the first error in scoring, else the choice among the scores of the outcomes that placed a pod on their new node; the winner's view is always found, and with distinct names it is the view that produced the winning score |
| `NodeScorers.PassHasWinnerIff` | planner/simulator/scaleout/singlenode/singlenode.go:249-286 | There is a winner if and only if some outcome placed a pod on its new node, all those can be scored, and the scores can be chosen from; nobody wins, without error, exactly when no outcome placed one |
| `NodeScorers.WinnerIsBest` | planner/simulator/scaleout/singlenode/singlenode.go:249-286 | The winner is at least as good as the score of every outcome that placed a pod on its new node |
| `PlanAssembly.GetNodeCountByPlacement` | api/planner/types.go:154-164 | Counts the nodes of each placement; fails exactly when a node lacks a required label |
| `PlanContents.LabelledIff` | api/planner/types.go:249-253 | A node can be counted if and only if it has the seven required labels |
| `PlanContents.PlacementIff` | api/planner/types.go:249-262 | A node's placement is its instance type with the pool, template, region and zone on its labels |
| `PlanAssembly.GroupByPlacement` | planner/simulator/scaleout/scaleout.go:263-269 | Files each score under its placement, in order |
| `PlanContents.FiledInOrder` | planner/simulator/scaleout/scaleout.go:263-269 | Under its placement a score stands after those of the same placement that came before it |
| `PlanAssembly.CreateScaleOutPlan` | planner/simulator/scaleout/scaleout.go:244-260 | In every visiting order: one item per placement that won, its delta the wins there, its current replicas the count there |
| `PlanAssembly.SendPlanResult` | planner/simulator/scaleout/scaleout.go:144-176 | The plan for all winners of the given cycles with the last cycle's leftover pods; fails exactly when the nodes cannot be counted |
| `PlanContents.PlanTells` | planner/simulator/scaleout/scaleout.go:144-176 | An item is in the plan if and only if its placement won, its delta is the number of winners with that placement in all cycles and its current replicas the number of nodes with it; the plan names the pods that the last cycle left over, in order, each as namespace, slash and name |
| `PlanContents.WinnersInOrder` | planner/simulator/scaleout/scaleout.go:162-168 | The winners are those of the cycles one after the other |
| `PlanAssembly.DeltasSumToWinners` | planner/simulator/scaleout/scaleout.go:244-260 | The deltas of a plan add up to the number of winners |
| `PlanAssembly.AllAtOnceIsSumOfIncremental` | planner/simulator/scaleout/singlenode/singlenode.go:136-166 | For the same cycles, the all-at-once delta of each placement is the sum of the incremental ones, current replicas agree, and the final unsatisfied pods are the same |
| `SimGroups.CreateAllNodeTemplates` | planner/simulator/scaleout/scaleout.go:180-190 | Every combination of a pool with one of its templates and one of its zones, exactly once, in nested order |
| `SimContents.TemplatesCoverPools` | planner/simulator/scaleout/scaleout.go:212-234 | Every template is for a pool, one of its node templates and one of its zones, with their names, instance type, region and priorities; and for each of these there is one |
| `SimGroups.SimNamesDistinct` | planner/simulator/scaleout/singlenode/singlenode.go:94-94 | Simulation names with different numbers differ, whatever pools, templates and zones are called |
| `SimGroups.SimGroup.AddSimulation` | planner/simulator/scaleout/group.go:49-51 | Appends the simulation |
| `SimGroups.CreateScaleOutSimGroups` | planner/simulator/scaleout/group.go:100-120 | Groups come out strictly decreasing by key whatever the map order; each holds exactly the simulations with its key, in order |
| `SimGroups.GroupsPartition` | planner/simulator/scaleout/group.go:100-120 | The groups hold every simulation exactly once |
| `SimContents.GroupsByPriority` | api/common/types/types.go:245-250 | Two simulations are in one group if and only if pool and template priorities are the same; otherwise the one with the higher pool priority, or the same and the higher template priority, is in the earlier group |
| `SimContents.EverySimIsGrouped` | planner/simulator/scaleout/group.go:100-120 | Every simulation is in some group |
| `SimContents.GroupKeepsOrder` | planner/simulator/scaleout/group.go:100-120 | In a group the simulations stand in their old order |
| `SimGroups.GroupingIsUnique` | api/common/types/types.go:245-250 | Only one list of keys is strictly decreasing and holds the keys that occur, so the result does not depend on the map order |
| `SimGroups.CreateAndGroupSimulations` | planner/simulator/scaleout/singlenode/singlenode.go:88-111 | One simulation per combination, called by its number, pool, template and zone, all with different names, partitioned into groups by decreasing priority |
| `SnapshotVariants.Unbound` | tools/cmd/scadctl/cmd/genscenario/gardener.go:524-540 | A pod is unbound afterwards exactly when its node is among the first n or it already was; other pods are unchanged |
| `SnapshotVariants.RemoveNodes` | tools/cmd/scadctl/cmd/genscenario/gardener.go:524-540 | Edits the shared pods in place and drops the first nodes |
| `SnapshotVariants.GenSnapshotVariants` | tools/cmd/scadctl/cmd/genscenario/gardener.go:499-522 | Each variant shows the shared pods unbound for the highest count so far; for counts that never go down every variant equals the one from a fresh copy; the shared pods end up unbound for the highest count |
| `SnapshotVariants.RanIff` | tools/cmd/scadctl/cmd/genscenario/gardener.go:508-516 | A variant is made exactly for the counts, cut down to the number of nodes, that have no file yet, and for each once |
| `SnapshotVariants.RanInOrder` | tools/cmd/scadctl/cmd/genscenario/gardener.go:508-516 | In the order of the list |
| `SnapshotVariants.VariantIsFreshIff` | tools/cmd/scadctl/cmd/genscenario/gardener.go:508-518 | For any counts, a variant equals the fresh one if and only if no pod was on a node that an earlier, higher count removed and this one keeps |
| `SnapshotVariants.RemovalCountsAreFresh` | tools/cmd/scadctl/cmd/genscenario/gardener.go:507-518 | With the counts 1, 5, 10 and 20, every variant that is written equals the one from a fresh copy, whichever of them already exist |
| `SnapshotVariants.AlwaysFreshIffNonDecreasing` | tools/cmd/scadctl/cmd/genscenario/gardener.go:507-518 | Of all lists of counts, exactly those that never go down give the fresh variants for every set of pods |
| `VolumeTheorems.ProvisionIsIdempotent` | common/volutil/volutil.go:210-244 | After a successful provisioning call a second one finds nothing to do, in whatever order it lists claims |
| `VolumeTheorems.ProvisionedSettles` | common/volutil/volutil.go:210-244 | Every selected claim is bound afterwards and no claim that was not pending changes: a claim is bound at most once |
| `VolumeContents.ProvisionedClaim` | common/volutil/volutil.go:210-244 | Exactly the pending claims with a selected node become bound, each to the volume called after it and with both annotations set; what they ask for and every other claim stay |
| `VolumeContents.ProvisionedVolume` | common/volutil/volutil.go:405-467 | Such a claim, if no other provisioned claim has its simulated name, is bound to a volume as large as it asks for, of its class and in the zone of its node, or to the volume that had the name before, otherwise unchanged |
| `VolumeContents.OtherVolumesStay` | common/volutil/volutil.go:210-244 | Volumes that are not called after a provisioned claim stay as they are |
| `VolumeTheorems.FinalizeIsIdempotent` | common/volutil/volutil.go:259-307 | A second finalising call binds nothing, whether or not every claim reference resolves |
| `VolumeContents.FinishedFields` | common/volutil/volutil.go:259-307 | Exactly the volumes that refer to a claim in the view and are not bound become bound, and exactly the claims they refer to, each to one of them; nothing else about either changes |
| `VolumeContents.LastGivenWins` | common/volutil/volutil.go:274-302 | Of several such volumes of one claim, the claim names the last listed |
| `VolumeTheorems.BoundClaimKeptIff` | common/volutil/volutil.go:259-307 | A claim already bound both ways keeps its volume if and only if no unfinished volume refers to it: the code does not test the claim's volume name |
| `VolumeTheorems.BoundClaimCanMove` | common/volutil/volutil.go:259-307 | It does lose it: a claim bound to one volume is moved to another, available one that still refers to it |
| `VolumeTheorems.FinishedLinkedIff` | common/volutil/volutil.go:259-307 | A finalised volume is linked both ways if and only if it is the last listed of those that refer to its claim |
| `VolumeTheorems.WorkSettles` | planner/simulation/scaleout/scaleout.go:159-184 | After one round of volume work another round has none |
| `VolumeTheorems.AllLinkedIffVolumesDistinct` | common/volutil/volutil.go:369-402 | All claims bound by a call are linked both ways if and only if the volumes worked out for them before the call are different |
| `VolumeSharing.AllLinkedIffNoClash` | common/volutil/volutil.go:138-203 | After an immediate-mode call every claim it bound is linked both ways, if and only if no two of them clash: the same listed volume matches both, or a volume that matches one is called like the other's simulated one, or neither is matched and their simulated names are the same |
| `VolumeContents.ClassIsFirstMeant` | common/volutil/volutil.go:173-188 | A claim's class is the first one with the name it gives, or the first default one if it gives none, and it has none only if there is none |
| `VolumeContents.ImmediateClaim` | common/volutil/volutil.go:138-203 | Exactly the pending claims of a known class that does not wait are bound: to the listed volume that matches or else the one called after the claim, with the class filled in |
| `VolumeContents.VolumeIsChosenIff` | common/volutil/volutil.go:312-344 | Exactly when which volume is chosen: the listed one that matches, or, if none does and the class has a zone, the one called after the claim, there already or made as the claim asks, if it matches too |
| `VolumeContents.VolumesAfterTheChoice` | common/volutil/volutil.go:325-344 | The volume called after the claim is created whenever no listed one matched and the class has a zone, even if it is then refused; nothing else comes, goes or changes |
| `VolumeSharing.SameTargetIffCollide` | common/volutil/volutil.go:312-344 | Two claims are given one volume exactly in these cases |
| `VolumeTheorems.LinkHoldsIffLast` | common/volutil/volutil.go:369-402 | A bound pair is linked both ways if and only if no later claim takes its volume |
| `VolumeTheorems.LastForIsLinked` | common/volutil/volutil.go:138-203 | For each volume used, the claim it ended up with is linked to it both ways |
| `VolumeTheorems.ImmediateClaimsCanShare` | common/volutil/volutil.go:171-197 | Two claims whose best match is the same listed volume both get it: nothing excludes a volume already taken |
| `VolumeTheorems.SimulatedNamesClash` | common/volutil/volutil.go:410-410 | Two claims of different namespaces can have the same simulated volume name |
| `VolumeTheorems.SimulatedNamesClashIff` | common/volutil/volutil.go:410-410 | Two claims have the same simulated volume name if and only if one's namespace is the other's followed by `-` and some s, and the other's name is s and `-` followed by the one's |
| `VolumeBinding.VolumeView.BindClaimAndVolume` | common/volutil/volutil.go:369-402 | Binds the claim, then the volume; fails exactly when one of them is not in the view |
| `VolumeBinding.VolumeView.CreateSimulatedVolume` | common/volutil/volutil.go:405-467 | Answers the volume with the claim's simulated name, creating it only if it is not there |
| `VolumeBinding.VolumeView.FindOrCreateVolume` | common/volutil/volutil.go:312-344 | Answers the listed volume the matcher chooses, else the simulated one if the class has a zone and the matcher accepts it, and nothing exactly in the remaining cases; the simulated volume is created even if it is then refused |
| `VolumeBinding.VolumeView.BindClaimsForImmediateMode` | common/volutil/volutil.go:138-203 | It succeeds if and only if a volume can be chosen, in turn, for every pending claim of a known, immediate class; then exactly those are bound, each to the volume worked out for it, the pairs returned have different volumes and are linked both ways; on failure the claims before the failing one are bound |
| `VolumeBinding.VolumeView.ProvisionAndBindVolumes` | common/volutil/volutil.go:210-244 | Binds exactly the selected claims to their simulated volumes and answers these; it succeeds if and only if every selected claim's node has a known zone, and otherwise stops at the first claim whose node has none, with those before it bound |
| `VolumeBinding.VolumeView.FinalizeStaticBindings` | common/volutil/volutil.go:259-307 | Binds exactly the unfinished volumes whose claim is there, repoints those claims, and counts them |
| `WatchMerge.OutputMergesSources` | common/watchutil/watchutil.go:17-64 | In every interleaving the output is an order-preserving merge of a prefix of each source; if both close and nobody quits it merges both in full |
| `WatchMerge.EveryMergeHappens` | common/watchutil/watchutil.go:26-58 | Conversely, every merge of a prefix of one source with a prefix of the other, each in order, is the output under some interleaving |
| `WatchMerge.QuitEnds` | common/watchutil/watchutil.go:26-58 | Until it has finished it can be told to quit, and then nothing more is sent |
| `WatchMerge.InterleavingCounts` | common/watchutil/watchutil.go:17-64 | A merge holds each event exactly as often as its sources do |
| `WatchMerge.StepsRunOut` | common/watchutil/watchutil.go:26-58 | Every step that fires lowers a count of steps left, and with both sources closing the loop is never blocked before it is finished |
| `WatchMerge.CombineTwoWatchers` | common/watchutil/watchutil.go:17-64 | The loop performs the specified steps, and its output merges a prefix of each source |

## Left out

- Object kinds: a view here has one store. Kinds do not interact except through volume binding, which
  has its own model.
- Objects are values outside `SharedObjects` and `ObjectSharing`. There one sandbox is followed whose
  cache may hold a delegate's object; calls through the delegate while it shares one, and callers that
  go on editing an object they passed in or were given, are not modelled. A base view, which has no
  delegate, shares nothing.
- The patch of PatchObject is an arbitrary function of the object, and so is whether it fails half way.
- Names and namespaces are taken to be free of `/`, as the API server requires; creation timestamps,
  UIDs and object-kind validation are not modelled.
- Watch completeness: broadcasts and watcher registration are not atomic in the source, and deletions
  keep the old version, so they may be missed on resume.
- Interleavings inside one view operation: each is one step, as is listing and resetting the event sink.
- HTTP routes, kubeconfigs, clients, logging, tracing and files.
- The scheduler, strategic and merge patches and volume matching are arbitrary functions.
- Creation of simulation nodes and CSI nodes, and assembling a run's result from its assignments.
- The planner's own choice of winner is an arbitrary choice in `PlannerSpec`; `NodeScorers.ProcessResults`
  models the choice by score.
- Context cancellation in the planner loops: a cancelled run is one that ends with an error.
- The simulations of a group run concurrently in the source and one after the other here: their views
  have the same delegate, so no run reads what another writes; only version numbers interleave.
- `PlannerRefinement` and `PlannerWorld` are about views of pods in which nothing is deleted, as in a
  simulation. An environment is fair if new nodes have names that no pod of the view is on yet (the run
  number is part of the name, planner/simulation/scaleout/runstate.go:227-228) and if pods are not bound
  to nodes that other simulations created in later views, which the scheduler's own view does not show.
- Values of MatchFields and pod-affinity MatchLabelKeys are not rewritten by the source;
  `ObfuscationPreserves.NodeTermsKeptIff` says when the former matters, the latter are not modelled.
- Namespace objects: their labels are an arbitrary function, the same before and after obfuscation.
- Labels and annotations of priority classes: the same map rewriting again.
- Floating-point rounding (reals are used) and overflow of 32- and 64-bit integers.
- Group names, plan labels and the time a plan took.
- `GroupScaleOutNodeTemplatesByPriority`: it has no caller.
- The storage class written into a claim object that immediate-mode binding then fails on.
- NodeScorers.SortStable: stands for the library's stable sort; only its result, not its algorithm, is the source's.
