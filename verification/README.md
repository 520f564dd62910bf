# BerryKeep: a verified model

BerryKeep keeps folders on phones and desktops in sync through a rendezvous service. This
project models the parts of it whose correctness is hard to see from any one function, and
proves what they promise for all inputs, all interleavings and all histories. Use
`dafny verify dfyconfig.toml` to verify the whole project.

**Folder-sync lifecycle** (Android app). `FolderSyncModel` is a transition system: any number
of `start_profile`, `stop_profile` and `stop_all` calls, each with a program counter per lock
acquisition, join and spawn, together with the worker threads they spawn, the manager (`runs`,
`stopping_profiles`, a registry of operation locks held by weak references) and the status
store. A statement that takes the manager or the status mutex is one atomic step.
`FolderSyncExclusion`, `FolderSyncCustody` and `FolderSyncStatus` prove the three layers of one
inductive invariant; `FolderSyncTheorems`, `FolderSyncSummary`, `FolderSyncProgress` and
`FolderSyncOutcomes` draw the conclusions. `SyncManager` and `ServiceStatus` hold the state updated in place, as classes
proved against the functions the transition system uses.

**Connection diagnostics** (`Diagnostics`, over the stable sort of `StableSort`). The loops of
the summariser are proved against "the last maximal source"; retention is proved optimal and
idempotent.

**SAF backend** (`SafPaths`, `SafCache`, `SafSubscriptions`, `SafWriter`). The tree cache, the
callback registry and the transactional output stream. The promise that a lookup answers as an
uncached one would is false for paths in two spellings: `SecondSpellingGoesStale` is the
counterexample, `ForgetSufficesIff` and `ChangeSafeIff` give the exact condition.

**Release publication** (`Publication`, `ReleaseArchive`). Resumable publication over an
append-only asset store, and the package/verify round trip. The local checksum file is compared
as text but published and signed as bytes, so a retry needs the same bytes (`RetryPassesIff`).

**Managed identities** (`ManagedIdentities`, `IdentityRestart`). Which identities a pass renews,
which services depend on them, and which are restarted.

**Smaller parts.** `RendezvousConfig` (startup configuration), `Display` (raster rotation) and
`Touch` (swipes).

A worker's agent reports through its status callback from several threads: its own, a heartbeat
thread and a remote-refresh thread (crates/sync-agent-core/src/folder_agent_runtime.rs, lines
1203-1241 and 2769-2800). The model lets any number of these reports be between their write and
their refresh. A normal return has joined the helper threads; the error exits at lines 1249,
1301, 1443 and 1490 of that file leave the remote-refresh thread running until it ends by
itself, because its flag is cleared by the next start or stop or by its own failed send. The
model includes such helpers: exclusion, custody, termination, the summary and the order of the
list hold in spite of them, and the claims about visible errors and absent or stale statuses
are stated with the exact condition, that no helper of the profile runs at the time.

Assumptions: locks are not poisoned; a worker that has been told to stop returns in the end;
digests do not collide and a signature is valid for one text only (`Publication.Ideal`); encoded
build metadata decodes to itself (`ReleaseArchive.DecodesWhatItEncodes`); publication runs do
not overlap; the download client gives up at the first error of its writer
(`SafWriter.RunClient`). Time, processes, files, the network, the Java bridge and cryptographic
tools are parameters.

## Model

| member | source | states |
|---|---|---|
| `FolderSyncTheorems.RunInv` | apps/android-app/src/lib.rs:1621-1742 | the inductive invariant (gate, lock registry, custody of runs, status) holds in every state of every interleaving of any number of start, stop and stop-all calls with their workers |
| `FolderSyncTheorems.AtMostOneWorker` | apps/android-app/src/lib.rs:1621-1742 | in every reachable state a profile has at most one live worker |
| `FolderSyncTheorems.ExactlyOneHolder` | apps/android-app/src/lib.rs:1641-1669 | every live worker is in `runs` or owned by a call, never both, and never by two calls |
| `FolderSyncTheorems.NeverDisplaces` | apps/android-app/src/lib.rs:1866-1879 | a registration always finds the slot free, so the displaced-run branch is never taken |
| `FolderSyncTheorems.LiveProfilesAreActive` | apps/android-app/src/lib.rs:1641-1669 | a live worker's profile is in `runs` or `stopping_profiles` with no gap during replacement, so `has_active_profiles` is true |
| `FolderSyncTheorems.QuiescentMeansUnmarked` | apps/android-app/src/lib.rs:1691-1697 | when no call is in flight `stopping_profiles` is empty |
| `FolderSyncTheorems.StopAllStopsAll` | apps/android-app/src/lib.rs:1708-1742 | when a stop-all leaves the gate, nothing is registered, marked or alive |
| `FolderSyncTheorems.SignalsBeforeJoins` | apps/android-app/src/lib.rs:1722-1727 | a call that waits for runs has already cleared the flag of every run it took, whether or not any has ended |
| `FolderSyncTheorems.OneLockPerProfile` | apps/android-app/src/lib.rs:1583-1598 | two calls in flight hold the same operation lock exactly when they concern the same profile, despite pruning of dead weak references and handles dropped outside the manager lock |
| `FolderSyncTheorems.CriticalSectionsExclude` | apps/android-app/src/lib.rs:1629-1640 | critical sections of one profile exclude each other, and stop-all excludes every call past the gate |
| `FolderSyncTheorems.NoStaleWriter` | apps/android-app/src/lib.rs:1646-1655 | once a start publishes, a worker of an earlier run of that profile takes a later step only through a helper thread of its agent that still runs at that moment |
| `FolderSyncTheorems.StoppedStaysAbsent` | apps/android-app/src/lib.rs:1698-1704 | after a stop (or stop-all) the profile stays out of the status list until its next start publishes, over every continuation, if no helper thread of the profile runs when it is cleared |
| `FolderSyncTheorems.HeldStays` | apps/android-app/src/lib.rs:1641-1669 | a run that is registered or owned stays so over every step but the join that disposes of it |
| `FolderSyncTheorems.DisposedByItsCalls` | apps/android-app/src/lib.rs:1646-1648 | only a start or stop of the profile, or a stop of all, disposes of a run |
| `FolderSyncTheorems.ErrorVisibleUntilJoined` | apps/android-app/src/lib.rs:1829-1859 | a worker that ends in error shows state "error" in every state from its end until a start or stop has joined it, if no helper thread of the profile runs meanwhile |
| `FolderSyncOutcomes.FailureIsShown` | apps/android-app/src/lib.rs:1829-1859 | whenever an agent returns an error, then from the end of its worker until a start or stop has joined it the profile shows state "error", if no helper thread of the profile runs meanwhile |
| `FolderSyncOutcomes.FailedReturnStays` | apps/android-app/src/lib.rs:1829-1859 | after an agent returned an error its worker is still alive or has ended as failed, in every later state |
| `FolderSyncOutcomes.CleanReturnEnds` | apps/android-app/src/lib.rs:1829-1859 | after an agent returned without an error its worker has ended, and not as failed |
| `FolderSyncOutcomes.ReportedErrorKept` | apps/android-app/src/lib.rs:1830-1840 | an error the agent has already reported is never overwritten by the worker's own |
| `FolderSyncOutcomes.FallbackShows` | apps/android-app/src/lib.rs:1841-1857 | the worker's own error names the profile, its label and what went wrong |
| `FolderSyncOutcomes.PublishShows` | apps/android-app/src/lib.rs:1773-1788 | a start shows its profile as starting under its label |
| `FolderSyncOutcomes.ReportShows` | apps/android-app/src/lib.rs:1795-1805 | a report shows exactly what was reported |
| `FolderSyncOutcomes.StopHasStopped` | apps/android-app/src/lib.rs:1673-1706 | a stop that has finished has cleared the profile: at that point it was unlisted, unregistered and without a live worker |
| `FolderSyncOutcomes.StartHasStarted` | apps/android-app/src/lib.rs:1621-1671 | a start that has finished has shown the profile as starting, and then failed to spawn or registered a worker of it |
| `FolderSyncOutcomes.SpawnEitherWay` | apps/android-app/src/lib.rs:1812-1862 | spawning may succeed or fail |
| `FolderSyncOutcomes.ReturnEitherWay` | apps/android-app/src/lib.rs:1814-1829 | an agent may return with or without an error, and with one may leave a helper behind |
| `FolderSyncTheorems.ShownErrorStays` | apps/android-app/src/lib.rs:1829-1859 | from any state on, an error on show stays on show until its run is joined, while no helper thread of the profile runs, whatever helpers ran before |
| `FolderSyncTheorems.StragglerReports` | crates/sync-agent-core/src/folder_agent_runtime.rs:1212-1249 | a helper thread that an early exit of the agent left behind can show the profile again as long as it runs, and not as failed |
| `FolderSyncTheorems.ErrorSafeIff` | apps/android-app/src/lib.rs:1829-1859 | no step of any call or worker can hide the shown error of a held run if and only if no helper thread of the profile runs |
| `FolderSyncTheorems.ProfileIdsUnique` | apps/android-app/src/lib.rs:1903-1924 | profile ids are unique in every reachable status list |
| `FolderSyncSummary.SummaryCurrentOrOwed` | apps/android-app/src/lib.rs:1795-1805 | in every state of every run, with any number of reports of one agent overlapping, the summary equals the recomputed one or some thread still owes a refresh |
| `FolderSyncSummary.ListStaysSorted` | apps/android-app/src/lib.rs:1916-1920 | if every start of a profile uses the same label, the list is sorted by label and id in every state of every run |
| `FolderSyncProgress.NoDeadlock` | apps/android-app/src/lib.rs:1629-1669 | while a call is unfinished, some call or cancelled worker has an enabled step; if anyone is past the gate that step does not wait for the gate |
| `FolderSyncProgress.CountedStepsBounded` | crates/sync-agent-core/src/folder_agent_runtime.rs:1506-1526 | without new calls, the steps of calls and of cancelled workers are bounded by a measure of the present state, plus two for each report of a cancelled worker and one for each other report |
| `FolderSyncProgress.OpStepsBounded` | apps/android-app/src/lib.rs:1709-1732 | without new calls, the steps that calls can still take are bounded by the work left in the present state, whatever the workers do; with `NoDeadlock`, every call ends once the workers told to stop return |
| `FolderSyncExclusion.ExclusionStep` | apps/android-app/src/lib.rs:1621-1640 | every step keeps gate, lock registry and mutex ownership consistent |
| `FolderSyncCustody.CustodyStep` | apps/android-app/src/lib.rs:1641-1732 | every step keeps each live run in exactly one place and each mark backed by a call |
| `FolderSyncStatus.StatusStep` | apps/android-app/src/lib.rs:1829-1859 | every step keeps ids unique, and keeps the error of a held run on show, once due, if no helper thread of the profile runs |
| `SyncManager.OperationLockKeepsLive` | apps/android-app/src/lib.rs:1583-1598 | looking up an operation lock keeps every entry whose lock is alive, and hands out the registered lock whenever that one is alive |
| `SyncManager.FolderSyncManager.TakeRunForStop` | apps/android-app/src/lib.rs:1571-1577 | takes the profile's run out and marks the profile exactly if there was one |
| `SyncManager.FolderSyncManager.FinishedStopping` | apps/android-app/src/lib.rs:1579-1581 | the profile is active afterwards only if it has a registered run; every other profile is as active as before |
| `SyncManager.TakeThenFinish` | apps/android-app/src/lib.rs:1571-1581 | taking a run leaves every profile as active as it was; finishing the stop then removes that profile and nothing else |
| `SyncManager.HasActiveIff` | apps/android-app/src/lib.rs:1753-1758 | `has_active_profiles` says whether any profile has a run or a mark |
| `SyncManager.FolderSyncManager.ProfileOperationLock` | apps/android-app/src/lib.rs:1583-1598 | the registry afterwards and the lock returned, for whatever strong counts the pruning pass and the upgrade see |
| `SyncManager.FolderSyncManager.Register` | apps/android-app/src/lib.rs:1866-1879 | stores the run and returns the one it displaces |
| `SyncManager.FolderSyncManager.TakeAll` | apps/android-app/src/lib.rs:1713-1721 | every profile stays exactly as active as it was while its run moves to the caller |
| `ServiceStatus.UpsertLookup` | apps/android-app/src/lib.rs:1903-1924 | an update stores the entry, leaves every other profile as it was and keeps ids unique |
| `ServiceStatus.UpsertSortedIff` | apps/android-app/src/lib.rs:1908-1921 | an update keeps a sorted list sorted if and only if the profile is new or the replacement fits between its neighbours |
| `Text.TextLeqIff` | apps/android-app/src/lib.rs:1916-1920 | the order is decided by the first difference, a prefix coming first |
| `ServiceStatus.RenamingUnsorts` | apps/android-app/src/lib.rs:1908-1913 | a renamed profile can leave the list unsorted |
| `ServiceStatus.RemoveLookup` | apps/android-app/src/lib.rs:1698-1703 | a removal drops that profile and leaves every other as it was |
| `ServiceStatus.RemoveSorted` | apps/android-app/src/lib.rs:1698-1703 | a removal keeps a sorted list sorted |
| `ServiceStatus.ServiceStateMeaning` | apps/android-app/src/lib.rs:2001-2009 | the service state is stopped, error or syncing exactly when the profiles' states say so |
| `ServiceStatus.CountsMean` | apps/android-app/src/lib.rs:1933-1960 | each count is the number of positions of the list with that state; stopped profiles are not active |
| `ServiceStatus.MessageMeans` | apps/android-app/src/lib.rs:2011-2032 | which of the five messages is shown, and the counts it carries |
| `ServiceStatus.ListedMean` | apps/android-app/src/lib.rs:1991-1999 | the summary lists the first three positions that are not stopped, in order, and counts the rest |
| `ServiceStatus.LastSuccessMeans` | apps/android-app/src/lib.rs:1961-1964 | the latest success is the maximum over the profiles that are not stopped |
| `ServiceStatus.ActivityMeans` | apps/android-app/src/lib.rs:1966-1989 | the profile in focus is the first of the most urgent that are not stopped, with its message, else its activity, else its state |
| `ServiceStatus.RankIsUrgency` | apps/android-app/src/lib.rs:1970-1976 | error comes before syncing, starting, running and anything else |
| `ServiceStatus.EmptySummary` | apps/android-app/src/lib.rs:1733-1740 | the state the store is reset to is the summary of an empty list |
| `ServiceStatus.Primary` | apps/android-app/src/lib.rs:1966-1976 | the first profile of the most urgent state |
| `ServiceStatus.LatestSuccess` | apps/android-app/src/lib.rs:1961-1964 | the maximum over the profiles that have a success |
| `ServiceStatus.StatusStore.UpdateProfileStatus` | apps/android-app/src/lib.rs:1903-1924 | the search loop and the in-place update leave the list that the update function describes |
| `ServiceStatus.StatusStore.RemoveProfile` | apps/android-app/src/lib.rs:1698-1703 | the list without the profile, ids still unique |
| `ServiceStatus.StatusStore.Reset` | apps/android-app/src/lib.rs:1733-1740 | no profile is listed and the summary is current |
| `ServiceStatus.StatusStore.Refresh` | apps/android-app/src/lib.rs:1926-1930 | the summary is that of the present list, in every field as the lemmas above state, and the list is unchanged; a current store stays as it is |
| `Diagnostics.RetainedSizes` | apps/android-app/src/lib.rs:1155-1190 | exactly min(8, n) user-facing and min(8, m) background failures are kept |
| `Diagnostics.RetainedOrdered` | apps/android-app/src/lib.rs:1186-1189 | the result is newest first by the times the attempts ended, or began, and holds nothing more often than the input |
| `Diagnostics.RetainedClasses` | apps/android-app/src/lib.rs:1155-1190 | each class comes back from the merged list exactly as it was kept, ties included |
| `Diagnostics.RetainedIdempotent` | apps/android-app/src/lib.rs:1155-1206 | retaining twice is retaining once |
| `Diagnostics.EvictionJustified` | apps/android-app/src/lib.rs:1174-1185 | a dropped failure's class is full, and each kept one of its impact is at least as recent in the same class, or terminal where the dropped one is not |
| `Diagnostics.Partition` | apps/android-app/src/lib.rs:1158-1172 | the loop splits the failures into the three classes in order |
| `Diagnostics.RetainByImpact` | apps/android-app/src/lib.rs:1155-1190 | the in-place sorting and truncating computes the retained list |
| `Diagnostics.LaterIsLatest` | apps/android-app/src/lib.rs:1049-1063 | the running maximum with its tie-break stays the last maximal source |
| `Diagnostics.LatestUnique` | apps/android-app/src/lib.rs:1049-1063 | the last maximal source is unique, so the loops' result is determined |
| `Diagnostics.ScanOwn` | apps/android-app/src/lib.rs:1022-1041 | an endpoint's own record is taken into account with its URL fallbacks |
| `Diagnostics.ScanAttempts` | apps/android-app/src/lib.rs:1043-1064 | the loop over attempts keeps both maxima |
| `Diagnostics.ScanCompleted` | apps/android-app/src/lib.rs:1095-1140 | the completed operation is taken into account last, as a success or as the missing terminal failure |
| `Diagnostics.Summarise` | apps/android-app/src/lib.rs:1003-1153 | both timestamps and URLs are those of the last maximal source over all endpoints, attempts and the completed operation, and the failures are the retained ones |
| `Diagnostics.AllFailuresAre` | apps/android-app/src/lib.rs:1066-1140 | the failures of an event, with multiplicities: one for each failed attempt of each endpoint, terminal exactly if it is the completed operation, and one for the completed operation if it is user-facing and otherwise missing |
| `Diagnostics.FewFailuresAllReported` | apps/android-app/src/lib.rs:1142-1189 | with at most eight failures of each impact, every failed attempt is reported |
| `Diagnostics.SourcesAre` | apps/android-app/src/lib.rs:1021-1117 | what counts as a success, over the endpoints and attempts: an endpoint's own record with its URL fallbacks, a successful user-facing attempt, the completed operation; functional ones are those not to a probe address |
| `Diagnostics.ProbeMeans` | apps/android-app/src/lib.rs:1208-1213 | a probe address ends in the probe's path once its query and trailing slashes are gone |
| `Diagnostics.FunctionalNeverExceedsConnection` | apps/android-app/src/lib.rs:1049-1063 | a functional success is never later than the connection success |
| `Diagnostics.FailedOperationIsReported` | apps/android-app/src/lib.rs:1118-1142 | a failed user-facing operation always leaves its own terminal failure in the summary |
| `SafPaths.UnderIsSubtree` | apps/android-app/src/android_saf_backend.rs:359-360 | the prefix test selects exactly the paths whose segments begin with those of the given path |
| `SafPaths.SplitAtSlash` | apps/android-app/src/android_saf_backend.rs:359-360 | splitting into segments distributes over a slash |
| `SafPaths.JoinSplit` | apps/android-app/src/android_saf_backend.rs:359-360 | joining the segments of a path gives the path back |
| `SafCache.ForgetDropsSubtree` | apps/android-app/src/android_saf_backend.rs:350-361 | forgetting a path drops exactly its subtree and leaves other entries as they were |
| `SafCache.ForgetSufficesIff` | apps/android-app/src/android_saf_backend.rs:518-556 | forgetting before a change keeps the cache right for every change at or below the path, if and only if nothing there is cached under another spelling |
| `SafCache.SecondSpellingGoesStale` | apps/android-app/src/android_saf_backend.rs:482-497 | a path cached with a doubled slash survives the removal of the document |
| `SafCache.ApplyKeepsGood` | apps/android-app/src/android_saf_backend.rs:417-556 | every operation, in any spelling and failed ones included, keeps the cache in agreement with the tree, if changes drop all spellings of what they touch |
| `SafCache.CacheIsTransparent` | apps/android-app/src/android_saf_backend.rs:417-556 | after every sequence of scans, lookups, directory creations, downloads and removals, in any spelling, a lookup answers as an uncached stat would, if no change left another spelling behind and the tree was not changed from outside since the last scan |
| `SafCache.ChangeSafeIff` | apps/android-app/src/android_saf_backend.rs:518-556 | after every such sequence, a change leaves every lookup right whatever it does if and only if it drops every cached spelling of what it may touch |
| `SafCache.NormalisedPathsSuffice` | apps/android-app/src/android_saf_backend.rs:417-556 | callers that pass normalised paths always meet that condition, so for them the cache is transparent outright |
| `SafCache.SafBackend.ForgetCachedPath` | apps/android-app/src/android_saf_backend.rs:350-361 | the subtree is gone, or everything for the root; this is what a change does to the cache in the histories below |
| `SafCache.SafBackend.RememberCachedEntryState` | apps/android-app/src/android_saf_backend.rs:363-367 | a later lookup of that path hits with the entry, every other lookup is as before, and no cache is created |
| `SafCache.SafBackend.ScanLocalTree` | apps/android-app/src/android_saf_backend.rs:426-452 | whatever was cached before, the cache afterwards agrees with the tree the listing was read from, and a failed scan leaves no cached answer |
| `SafCache.SafBackend.LocalEntryState` | apps/android-app/src/android_saf_backend.rs:482-497 | a hit answers from the cache; a miss asks and remembers what exists; this is what a lookup does in the histories below |
| `SafSubscriptions.SubscribeExact` | apps/android-app/src/android_saf_backend.rs:69-80 | a subscription keeps the registry equal to the live subscriptions, under an id never issued before |
| `SafSubscriptions.DropExact` | apps/android-app/src/android_saf_backend.rs:82-94 | dropping one removes it and the tree entry it leaves empty, and nothing else |
| `SafSubscriptions.RegistryExact` | apps/android-app/src/android_saf_backend.rs:54-94 | every sequence of subscribing and dropping keeps the registry equal to the live subscriptions, without empty inner maps and without an id twice |
| `SafSubscriptions.ExactFromStart` | apps/android-app/src/android_saf_backend.rs:54-94 | so after every sequence from the empty registry on |
| `SafSubscriptions.CallbackRegistry.Add` | apps/android-app/src/android_saf_backend.rs:69-80 | exactly one more registered pair, with this callback; all others keep theirs |
| `SafSubscriptions.CallbackRegistry.Drop` | apps/android-app/src/android_saf_backend.rs:82-94 | exactly that pair is gone; all others keep their callbacks |
| `SafSubscriptions.CallbackRegistry.Notify` | apps/android-app/src/android_saf_backend.rs:96-106 | each callback of the tree is called once, and no other |
| `SafWriter.StreamWriter.WriteChunk` | apps/android-app/src/android_saf_backend.rs:861-885 | a round delivers its whole chunk or nothing, and no chunk exceeds the Java buffer |
| `SafWriter.StreamWriter.WriteAll` | apps/android-app/src/android_saf_backend.rs:857-889 | a buffer reaches the stream in order; after an error a prefix of it has |
| `SafWriter.StreamWriter.Finish` | apps/android-app/src/android_saf_backend.rs:826-838 | close follows a successful flush only; a failed flush leaves the writer open to be aborted |
| `SafWriter.StreamWriter.AbortStream` | apps/android-app/src/android_saf_backend.rs:840-853 | aborts once, and never after a terminal call |
| `SafWriter.RunClient` | apps/android-app/src/android_saf_backend.rs:975-977 | what reached the stream is a prefix of what the client sent, all of it if no call failed |
| `SafWriter.Download` | apps/android-app/src/android_saf_backend.rs:965-983 | whichever bridge calls fail, the stream gets exactly one terminal call, a close only if everything sent was delivered and flushed; the download succeeds only if that close did |
| `Publication.Release.Run` | scripts/publish_rendezvous_release.py:54-89 | the loop over the payloads decides the uploads and the release afterwards, for any part of the upload that gets through |
| `Publication.PublishOnlyAdds` | scripts/publish_rendezvous_release.py:87-89 | published bytes never change and nothing but the three assets is added |
| `Publication.PlanIsWhatIsMissing` | scripts/publish_rendezvous_release.py:71-89 | the planned uploads are exactly the missing ones of the three assets, each once |
| `Publication.PublishIsExact` | scripts/publish_rendezvous_release.py:87-89 | after a run there is what was there before and the planned uploads that got through, as they are locally; a rejected run changes nothing |
| `Publication.ReadTextLine` | scripts/publish_rendezvous_release.py:63-63 | a text file is read back line by line with every line ending as a newline |
| `Publication.PublishKeepsBuild` | scripts/publish_rendezvous_release.py:71-86 | a run that passes its checks agrees with everything published, before and after |
| `Publication.AcceptedIff` | scripts/publish_rendezvous_release.py:60-86 | a run passes its checks if and only if its archive and checksum file fit everything published and it can sign for them |
| `Publication.RetryPassesIff` | scripts/publish_rendezvous_release.py:62-86 | a retry with the published archive passes if and only if its checksum file is the published one byte for byte, once a checksum or signature is there, and it can sign for it |
| `Publication.LineEndingBlocksRetry` | scripts/publish_rendezvous_release.py:62-75 | a checksum file with another line ending describes the archive as well, but a release published with it refuses a retry with the usual one |
| `Publication.BuildIsUnique` | scripts/publish_rendezvous_release.py:62-86 | as soon as any of the three assets is published they fit one archive only, and with a checksum or signature one checksum file only |
| `Publication.OneBuildForGood` | scripts/publish_rendezvous_release.py:54-89 | over every sequence of runs, interrupted after any subset of uploads and with any archives, checksum files and keys, published bytes stay, the release belongs to one archive for good, and to one checksum file from the first checksum or signature on |
| `Publication.RetryCompletes` | scripts/publish_rendezvous_release.py:71-89 | an uninterrupted run that passes its checks completes the three assets |
| `Publication.FurtherRunUploadsNothing` | scripts/publish_rendezvous_release.py:71-89 | a further run with that archive, checksum file and key succeeds and uploads nothing |
| `ReleaseArchive.PackageRelease` | scripts/rendezvous_release.py:133-153 | the loop over the members writes the archive, exactly when the source and binary are acceptable |
| `ReleaseArchive.PackageVerify` | scripts/rendezvous_release.py:133-186 | a packaged archive is accepted for a tag and commit if and only if they are its own and its entries fit the bound; without a tag it is never accepted |
| `ReleaseArchive.AcceptedIffRelease` | scripts/rendezvous_release.py:156-186 | an archive is accepted for a tag and commit if and only if it is, up to entry order and the wording of its metadata, one that packaging yields for them |
| `ReleaseArchive.VersionIff` | scripts/rendezvous_release.py:19-19 | a version is three dotted numbers, the first without a leading zero |
| `ReleaseArchive.CommitIff` | scripts/rendezvous_release.py:158-158 | a commit is forty lower-case hexadecimal digits |
| `ReleaseArchive.RevisionIff` | scripts/rendezvous_release.py:30-34 | a build label has 1 to 1024 printable characters without spaces |
| `ReleaseArchive.MetadataPinsBinary` | scripts/rendezvous_release.py:182-184 | two archives accepted with the same metadata carry the same binary |
| `ReleaseArchive.ArchiveNameInjective` | scripts/rendezvous_release.py:127-130 | archive names tell versions apart |
| `ManagedIdentities.Resolve` | apps/config-app/src/main.rs:2057-2074 | a resolved id always names a stored identity |
| `ManagedIdentities.ResolveIff` | apps/config-app/src/main.rs:2057-2074 | an instance resolves to the stored identity its trimmed id names, otherwise to the first whose trimmed file is its own, otherwise to none |
| `ManagedIdentities.DependsOnIff` | apps/config-app/src/main.rs:2101-2141 | the dependents, over the positions of the three lists and under the three kinds' names |
| `ManagedIdentities.SelectIds` | apps/config-app/src/main.rs:1945-2030 | the ids collected are exactly those the selection asks for |
| `ManagedIdentities.DependentServices` | apps/config-app/src/main.rs:2095-2144 | exactly the services with an instance that resolves to the identity, each once, in order |
| `ManagedIdentities.RenewalTargets` | apps/config-app/src/main.rs:1941-2043 | the targets are exactly the distinct identities resolved from the selected services, with their stored record and exactly their dependents |
| `ManagedIdentities.DependentsDisjointIff` | apps/config-app/src/main.rs:2095-2144 | no service depends on two identities if and only if instances with the same kind and id never resolve differently |
| `ManagedIdentities.UniqueIdsSuffice` | apps/config-app/src/main.rs:2095-2144 | unique ids per kind are enough for that |
| `IdentityRestart.WithOutcomeUpdates` | crates/desktop-client-config/src/lib.rs:1112-1133 | the updated report answers for the relaunched service with the new outcome and for every other service as before |
| `IdentityRestart.WithOutcomeIs` | crates/desktop-client-config/src/lib.rs:1127-1131 | the updated report keeps the other services' outcomes in order and holds the new one once, at the end |
| `IdentityRestart.RestartRunningServices` | apps/config-app/src/main.rs:2192-2270 | the loop over the services does what the pass function describes, with the report loaded at most once |
| `IdentityRestart.Reconcile` | apps/config-app/src/main.rs:2146-2190 | the loop over the targets computes the restarts of a whole pass and the report to save |
| `IdentityRestart.RestartEachInv` | apps/config-app/src/main.rs:2216-2267 | a target's loop restarts exactly the services planned as running and not excluded, each once |
| `IdentityRestart.PassIsSafe` | apps/config-app/src/main.rs:2146-2270 | in one pass the services stopped are exactly the running, not excluded dependents of renewed identities, by a report read during the pass, each once and one after the other; each is relaunched exactly if its process was gone or went away when told to; the report is saved exactly when something was relaunched and names the new processes |
| `IdentityRestart.ReconcileInv` | apps/config-app/src/main.rs:2157-2180 | the log of a pass holds exactly the services due under some renewed target when that target was taken up |
| `IdentityRestart.ReconcileSelection` | apps/config-app/src/main.rs:1905-1939 | selection and pass together: the targets are exactly the selected identities, and without conflicting ids the pass does exactly what is due |
| `RendezvousConfig.AssembledIsSound` | apps/rendezvous-service/src/config.rs:102-289 | every assembled configuration is strict if global, and consistent with its failover package if it has one |
| `RendezvousConfig.GateRejectsExactly` | apps/rendezvous-service/src/config.rs:291-320 | the final gate rejects an assembled configuration if and only if it has neither mTLS nor the opt-in; it never rejects a global one |
| `RendezvousConfig.AcceptedIsSound` | apps/rendezvous-service/src/config.rs:102-320 | for every environment: without mTLS there is the opt-in and no failover package; a global configuration has HTTPS URLs, no opt-in and no package; a failover one has an explicit bind address and one public URL, up to normalisation, in environment, envelope and payload |
| `RendezvousConfig.FailoverLoaded` | apps/rendezvous-service/src/failover.rs:81-140 | a loaded package repeats its ids and public URL in envelope and payload |
| `RendezvousConfig.GlobalBuilt` | apps/rendezvous-service/src/config.rs:470-552 | a global mTLS configuration has positive limits, an administrator token, HTTPS URLs, no opt-in and no package |
| `RendezvousConfig.ClusterBuilt` | apps/rendezvous-service/src/config.rs:607-660 | a cluster configuration is built if and only if its parts come from where they may: identity and authority from the package, the authority else from its variable, and without a package all three from theirs |
| `RendezvousConfig.GlobalIff` | apps/rendezvous-service/src/config.rs:470-552 | a global configuration is built if and only if each setting comes from its variable or default and the registry opens |
| `RendezvousConfig.AcceptedIff` | apps/rendezvous-service/src/config.rs:102-320 | an environment is accepted as a given configuration if and only if it describes exactly that configuration, with mTLS or the opt-in |
| `Display.FrameBuffer.DrawIter` | apps/tiny-display-status/src/framebuffer.rs:64-78 | after any draws each position holds the last colour drawn there since clearing |
| `Display.FrameBuffer.ClearBlack` | apps/tiny-display-status/src/framebuffer.rs:31-33 | every position is black again |
| `Display.FrameBuffer.Flush` | apps/tiny-display-status/src/framebuffer.rs:35-45 | 2·W·H bytes; the pair at (x, y) is the last colour drawn at (W-1-x, H-1-y), or black |
| `Touch.Listen` | apps/tiny-display-status/src/touch.rs:27-67 | for every event sequence and initial page the page is congruent to initial + positive − negative swipes modulo the page count, in range exactly from the first swipe on and untouched before; a swipe is read off the positions since the last press or release |
| `Touch.AdvanceKeeps` | apps/tiny-display-status/src/touch.rs:63-67 | one swipe moves any page that is right modulo the page count to the right page in range |

## Left out

- Lock poisoning in the lifecycle: calls then fail early and the invariants are not claimed.
- A panic inside a worker, which would end it without a status; workers end by returning.
- The agent or its helper clearing the running flag: no call reads the flag, and the helper, which does, may end at any time in the model.
- The order in which `stop_all` signals and joins runs: any order is allowed, so the claims cover the source's.
- Fields of a profile status that neither the summary nor the ordering reads, and every `updated_unix_ms`.
- The wording of summary messages: they are kept as the numbers they are built from.
- Diagnostics: the shortening of error texts, the connection name and the passed-through impact.
- The sort routine itself: `slice::sort_by` is modelled by a stable insertion sort on values.
- SafCache: the normalisation of paths in the Kotlin bridge is an arbitrary function; directory timestamps are not compared.
- SafSubscriptions: the subscription counter is unbounded, so its wrap-around after 2^64 ids is not modelled.
- SafWriter: JNI exceptions and buffers, and the staging of resumable downloads; a bridge call succeeds or fails.
- Scan progress reporting and content fingerprints of the SAF backend.
- Publication: repository, fingerprint, archive verification and release creation are one flag that accepts or rejects before anything is uploaded.
- ReleaseArchive: git queries, ELF inspection, running the binary, tar and gzip are parameters; `prepare_source`, toolchain and dispatch validation are not modelled.
- ManagedIdentities: the Windows sync roots of a target, collected by the same kind of loop as its dependents.
- IdentityRestart: the state of all processes is read at one instant when a target's restarts are planned; the renewal of an identity is an answer of the environment; nothing is claimed about the report across request handlers.
- RendezvousConfig: the embedded relay and the admission limits can only reject and are one parameter; URL, address and number parsing and decryption are parameters; peer URLs are carried through unread.
- Display: opening and writing the device; the byte order of a pixel is a parameter.
- Touch.Listen: positions are unbounded, so an overflow of the 32-bit difference of two positions is not modelled.
- The iOS, CLI, tray, desktop and web front ends, JNI and C entry points, and the Android server-node app: interface code, or properties that hold for single calls only.
- The sync agent, client SDK, transport and rendezvous server.
