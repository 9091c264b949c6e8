# Verification of vault-db-injector's credential delivery and tracking

vault-db-injector gives pods database credentials and keeps track of them until they are
revoked. This Dafny project models the parts of it whose correctness does not show in any
single function, and proves properties of them for all inputs, all runs and all
interleavings. `dafny verify dfyconfig.toml` checks everything.

**Delivery.** The webhook writes placeholders into a pod's environment; later the plugin
parses the same annotations, finds the placeholders and substitutes credentials.
`Placeholder`, `Substitution`, `SubstitutionLimits` and `SubstitutionOverlap` are about the
replacement loop and the map order it depends on. `ContainerHook` is the CreateContainer hook.
`Annotations` is the parser both processes run and the UUIDs they agree on. `ClassicDelivery` and
`ClassicRefinement` compare the two-process delivery with the one-process legacy delivery for
any list of classic configurations; `Url` and `UriDelivery` do it for connection URIs;
`Delivery` dispatches on the mode, and `MixedClaims` and `MixedDelivery` take lists of
configurations of both modes the whole way to the running container. `TwoProcesses` joins these
with the webhook's loop and the plugin's fetch. `Strings` holds Go's string functions,
`Sequences` a few facts about sequences.

**The plugin's cache.** `PluginCache` has the lock-protected blocks of the plugin as methods
and a step machine in which callers, single-flight slots and evictors interleave.
`CacheFile` is the cache on disk, `StubLifecycle` the reconnect loop, `BookkeepingCache` the
timed cache of the injector's own token.

**Tokens.** `Connectors`, `Accounts`, `Admission` and `CredentialFetch` account for the tokens
the webhook and the plugin obtain. `VaultRecords` is Vault with requests that may fail before or
after taking effect; `Revoker`, `Renewer` and `SeriesTracking` are the jobs that work on it.
`SafetyNet` is all of them together with the Kubernetes API, in any interleaving, and
`RunningPods` says from which of its states a running pod can be hit. `PassRuns` shows that the
program's pass of the revoker is one of its runs.

A Go map's iteration order is an arbitrary choice everywhere. Clocks, random values, API
answers and Vault's replies are parameters or arbitrary steps.

## What came out false

Where a property does not hold of the code, the code is modelled as it is; a lemma gives the
failing case and, where the property has one, another gives the exact condition.

- Substitution depends on the map order when a value brings in the placeholder prefix
  (`ValueWithPrefixMatters`), when a value completes another placeholder (`UnboundedMatters`;
  exactly when, for one placeholder on a line, `OneOccurrenceExact` and `LineExact`), or when two
  placeholders share underscores (exactly when, `OverlapInLine`). That every placeholder is
  bounded by line ends or foreign characters is sufficient on any line (`OrderIsIrrelevant`).
- Delivery equals legacy delivery exactly when every configuration is the last to read its own
  variables back (`ClassicExact`, `WinnersExact`) and the credentials that go into URIs need no
  percent-encoding, since the plugin puts them in as they are and legacy mode encodes them
  (`MixedExact`). With a shared env key the later configuration's credentials go to both
  (`SharedKeysLose`, `SharedUriKeysLose`).
- A call can return a mapping evicted before the call began (`EvictedIsStillReturned`), exactly
  when it begins between the eviction and the end of the flight that fetched it
  (`EvictedExactly`).
- The revoker can delete the record of a live token (`RevokerCanUntrack`), exactly when that
  token was stored under the key after the revoker's read (`RevokerDeletes`). The comment at
  pkg/vault/handle_token.go:361 speaks of one owner of the entry.
- Without NRI, the safety net can revoke a credential whose pod is just being created
  (`LegacyPassCanHitARunningPod`). A state can lead there exactly when the pod is in the API or
  can still be created, and the token is revoked, or the revoker is working on it, or the pod is
  not in the API while its entry is in KV or in somebody's hands (`HitExactly`). With NRI no
  reachable state is of that kind (`NriIsNeverAtRisk`).
- When deleting an entry's data works and deleting its metadata does not, no later pass
  removes the metadata (`WhenMetadataIsLeft`, `MetadataIsLeftBehind`).
- At admission a connector that logged in and failed authorization is never revoked
  (`RefusedLoginIsNotRevoked`), nor is an orphan token whose credential could not be read
  (`OrphansAreRecorded`). The plugin, logging in for itself, takes nothing back when a fetch
  fails, and neither records its login tokens nor an orphan token whose credential could not be
  read (`OwnLoginAccounts`, `OwnLoginsAreForgotten`).
- Metric series go stale for good after a UUID changes its namespace, or if it is seen only in
  partial listings (`NamespaceChangeGoesStale`, `PartialListingGoesStale`, `StaleForever`).

## Model

| member | source | states |
|---|---|---|
| Placeholder.CheckPlaceholder | pkg/placeholder/placeholder.go:39-57 | the scan accepts exactly the prefix, 64 lower-case hexadecimal digits and the suffix |
| Placeholder.Generate | pkg/placeholder/placeholder.go:24-34 | what is generated has the shape, for any random bytes, and differs when they do |
| Placeholder.OverlapByAtMostTwo | pkg/placeholder/placeholder.go:15-20 | two different occurrences of placeholders in a line share at most two characters |
| Substitution.Substitute | pkg/nri/substitute.go:20-37 | every line is the result of some iteration order, and the simultaneous replacement where placeholders stand apart and values are free of the prefix |
| Substitution.OrderIsIrrelevant | pkg/nri/substitute.go:25-33 | every iteration order gives the one simultaneous replacement, when each placeholder is bounded by line ends or foreign characters and no value has the prefix |
| SubstitutionLimits.ValueWithPrefixMatters | pkg/nri/substitute.go:26-33 | without prefix-free values two orders give different lines |
| SubstitutionLimits.UnboundedMatters | pkg/nri/substitute.go:26-33 | without bounded occurrences a prefix-free value can complete another placeholder, and the orders differ |
| SubstitutionLimits.OneOccurrenceExact | pkg/nri/substitute.go:26-33 | for a placeholder that stands alone on a line and given prefix-free values: the two orders agree if and only if putting the value in does not complete the other placeholder |
| SubstitutionLimits.LineExact | pkg/nri/substitute.go:26-33 | they agree for all prefix-free values if and only if the line before it ends with no beginning of the other placeholder, and the line after it does not start with all of the other but a piece shorter than the prefix |
| SubstitutionOverlap.OverlapInLine | pkg/placeholder/placeholder.go:15-20 | for a line in which two placeholders share one or two underscores, with foreign characters or the line's ends around them, and prefix-free values: the orders agree if and only if the values put the shared underscores back |
| ContainerHook.CreateContainer | pkg/nri/plugin.go:103-217 | fail-closed: a skip exactly when a pod label is configured and the pod does not have it as "true", or no value after a first equals sign has the prefix; a failed fetch and an empty mapping are refused; an adjustment only if the substituted environment is free of the prefix; every other case an error |
| ContainerHook.AdjustmentIsComplete | pkg/nri/plugin.go:165-216 | a returned adjustment lists exactly the changed lines, and merging it by key gives the substituted environment with no prefix anywhere |
| ContainerHook.KeyIsKept | pkg/nri/plugin.go:337-344 | substitution keeps a prefix-free key, for any mapping and order |
| ContainerHook.ChangedCount | pkg/nri/plugin.go:173-194 | the adjustment has one entry for each line that differs |
| Annotations.GetPodDbConfig | pkg/k8s/parse_annotations.go:59-140 | for any iteration order, spelled out in the annotations' own keys: one configuration for each database that some key names before its first dot, strictly sorted by name, each field from its own annotation or its default (the pod-wide role for the role, lower case for the mode), and the engine path or the default one; or an error exactly when there is an annotation of the first version |
| Annotations.ParseIsUnique | pkg/k8s/parse_annotations.go:126-132 | the annotations determine the list |
| Annotations.LessIsLexical | pkg/k8s/parse_annotations.go:130-132 | the order of the names is that of a dictionary, byte by byte |
| Annotations.StampIsInvisible | pkg/k8smutator/k8smutator.go:92-94 | adding the uuid annotation does not change what is parsed |
| Annotations.IndexAgreement | pkg/nri/vault.go:125-182 | the i-th configuration the plugin parses is the i-th the webhook parsed, and its key is the i-th UUID stamped |
| Annotations.KvKeyIs | pkg/nri/vault.go:125-182 | the plugin's i-th key is the i-th part of a non-empty uuid annotation, and the pod's UID where there is none |
| Annotations.KvKeyIsReported | pkg/k8s/pod_utils.go:70-85 | for any annotations every key the plugin writes is among those reported for the pod |
| Annotations.GetAllPodAndNamespace | pkg/k8s/pod_utils.go:52-90 | each pod is reported with its own fields, its UID and exactly the parts of a non-empty uuid annotation; a failed request and a listing without pods are errors |
| ClassicDelivery.ApplyClassic | pkg/k8smutator/k8smutator.go:224-252 | every init and main container gets the same variables appended and keeps its own |
| ClassicDelivery.ExtractPlaceholders | pkg/nri/plugin.go:369-389 | the last line that shows a placeholder under a claimed key decides its field, user keys before password keys |
| ClassicDelivery.SplitCsv | pkg/nri/plugin.go:412-423 | the non-empty trimmed parts, in order |
| Strings.TrimSpaceTrims | pkg/nri/plugin.go:412-423 | trimming takes away all blanks around a text and nothing else |
| ClassicRefinement.ClassicRefinement | pkg/nri/vault.go:287-323 | inject placeholders, extract, merge over all configurations, substitute in any order: each container gets exactly its legacy environment, when every slot wins its own variables |
| ClassicRefinement.ClassicExact | pkg/nri/vault.go:287-291 | for credentials that can be told apart: legacy environments everywhere if and only if every slot wins its own variables |
| ClassicRefinement.DistinctKeysWin | pkg/nri/plugin.go:376-389 | distinct trimmed env keys without '=' are enough |
| ClassicRefinement.SharedKeysLose | pkg/nri/vault.go:287-291 | a later configuration that claims an earlier one's variables takes them over |
| ClassicRefinement.EndToEnd | pkg/nri/plugin.go:103-217 | the hook never skips nor refuses such a container, and what containerd merges is the legacy environment |
| Url.EscapeRoundTrip | pkg/k8smutator/k8smutator.go:268-269 | percent-encoding of userinfo is undone by decoding, for every byte string |
| Url.WhatIsEscaped | pkg/k8smutator/k8smutator.go:268-269 | which characters of userinfo are left as they are, exactly |
| Url.ParsedIsWellFormed | pkg/k8smutator/k8smutator.go:255-258 | a parsed template, with or without scheme and host, whose rest is a path from the root, a query, a fragment or nothing, can be printed and parsed again, and its host and rest end the template |
| Url.PrintParse | pkg/nri/plugin.go:397-403 | printing a well-formed URL with any user and password and parsing it gives it back |
| UriDelivery.ApplyUri | pkg/k8smutator/k8smutator.go:254-282 | a template that parses is rendered once into every container; one that does not is an error and leaves the pod alone |
| UriDelivery.DsnText | pkg/k8smutator/k8smutator.go:268-269 | the rendered URI, piece by piece: scheme, escaped user name, escaped password, host and rest |
| UriDelivery.ExtractFromUris | pkg/nri/plugin.go:390-407 | the placeholders in the userinfo of all lines under the URI keys, later lines deciding |
| UriDelivery.RenderedUriRecovers | pkg/nri/plugin.go:390-407 | for every template that parses, with or without scheme and host, to a path from the root, a query, a fragment or nothing: parsing the rendered URI recovers exactly the two placeholders |
| UriDelivery.RawIsLegacy | pkg/k8smutator/k8smutator.go:268-269 | on one line: credentials put in as they are equal the legacy rendering if and only if no character needs escaping |
| UriDelivery.UnreservedNeedsNoEscape | pkg/k8smutator/k8smutator.go:268-269 | credentials of unreserved characters (section 2.3 of RFC 3986) meet that condition |
| Delivery.ApplyEnv | pkg/k8smutator/k8smutator.go:212-222 | by the mode's text, in any letter case: for none or "classic" every container keeps its variables and gains the user keys with the user name, then the password keys with the password; for "uri" it gains the URI keys with the rendered URI exactly if the template parses; any other mode, and a template that does not parse, is an error without a change |
| Delivery.ExtractFields | pkg/nri/plugin.go:369-409 | the same cases for what is extracted: user and password keys for none or "classic", URI keys for "uri", nothing for any other mode |
| Delivery.BuildMapping | pkg/nri/vault.go:300-323 | gathers all lines of all containers and maps each placeholder found to its credential field |
| Delivery.ClassicMerge | pkg/nri/vault.go:287-291 | for classic configurations the merged mapping is the one of the classic refinement |
| MixedClaims.FieldsAreClaims | pkg/nri/plugin.go:369-409 | in either mode what is extracted from many lines is the union of what each line claims |
| MixedClaims.FieldsRead | pkg/nri/plugin.go:369-409 | in a pod with any list of configurations of either mode, whatever env keys they share, what each configuration takes each placeholder for is told by the modes and env keys alone |
| MixedClaims.MappingHasWinner | pkg/nri/vault.go:287-291 | the merged mapping gives each placeholder the credential of the last configuration that reads it, and leaves out the placeholders nobody reads |
| MixedClaims.DistinctEnvKeysWin | pkg/nri/plugin.go:412-423 | with distinct env keys, written without surrounding blanks, every configuration wins its own fields |
| MixedClaims.SharedUriKeysLose | pkg/nri/vault.go:287-291 | a later URI configuration that reads a key of an earlier one takes its fields over |
| MixedDelivery.MixedExact | pkg/nri/substitute.go:20-37 | for any list of configurations of either mode that win their own fields, and any iteration order: a container's substituted environment is its legacy environment if and only if the credentials that go into URIs need no escaping |
| MixedDelivery.WinnersExact | pkg/nri/vault.go:287-291 | for credentials that can be told apart and need no escaping in URIs, whatever env keys are shared: legacy environments everywhere if and only if every configuration wins its own fields |
| MixedDelivery.MixedEndToEnd | pkg/nri/plugin.go:103-217 | for configurations that win their own fields the hook never skips nor refuses, and what containerd merges is the environment with all credentials in place, which is the legacy one under the same exact condition |
| TwoProcesses.InjectAll | pkg/k8smutator/k8smutator.go:330-363 | the webhook's loop applies every configuration to every container, in order, and succeeds if and only if every one can be applied |
| TwoProcesses.SameConfs | pkg/nri/vault.go:116-182 | parsing the stamped pod the plugin gets the webhook's list, and its keys are the UUIDs stamped |
| TwoProcesses.SameMapping | pkg/nri/vault.go:287-323 | the mapping fetched for a pod with init and main containers is the one of the mixed delivery |
| TwoProcesses.TwoProcesses | pkg/nri/vault.go:42-298 | from the webhook's annotations to the container: when every configuration wins its fields the plugin's fetch succeeds exactly if every configuration has a role, its login, its authorization and its credential; then the container gets all credentials in place, which is the legacy environment under the exact condition above, and each credential is recorded under the UUID the webhook stamped for it; otherwise the container is refused |
| PluginCache.Plugin.Lookup | pkg/nri/plugin.go:261-276 | a hit gives the cached mapping and the source recorded for it, none for an entry from disk |
| PluginCache.Plugin.Record | pkg/nri/plugin.go:300-303 | the new state of both maps |
| PluginCache.Plugin.Resolve | pkg/nri/plugin.go:260-317 | undisturbed: a hit changes nothing, a successful fetch puts the mapping and its source into the two maps, a failed one changes nothing |
| PluginCache.Plugin.EvictCacheEntry | pkg/nri/plugin.go:229-241 | removes the entry from both maps and tells whether it was there |
| PluginCache.Plugin.Synchronize | pkg/nri/plugin.go:61-85 | for every UID: its entry stays, as it was, exactly if the UID is listed; its source goes with it; the count is that of the dropped entries |
| PluginCache.Plugin.Snapshot | pkg/nri/plugin.go:321-333 | the copy equals the cache |
| PluginCache.EveryRun | pkg/nri/plugin.go:260-317 | at every moment of every interleaving: sources only for cached pods, no entry beside a leader past its recheck, no waiter without a slot, every mapping known for its UID, and the log of fetches, writes and evictions follows the cycle absent, pending, cached of each UID |
| PluginCache.Conservation | pkg/nri/plugin.go:229-317 | per UID, successful fetches plus the entry loaded from disk equal effective evictions plus the entry cached now plus the mapping fetched and not yet written |
| PluginCache.SecondFetchNeedsEviction | pkg/nri/plugin.go:278-308 | between two successful fetches for a UID there is an eviction of it |
| PluginCache.ReturnsAreKnown | pkg/nri/plugin.go:309-316 | a returned mapping was fetched for its UID or loaded under it |
| PluginCache.HitAlone | pkg/nri/plugin.go:261-276 | in the machine a hit is returned in one step and changes nothing else |
| PluginCache.MissAlone | pkg/nri/plugin.go:278-317 | an undisturbed miss leaves both maps with the fetched mapping and its source, returns it, frees the slot and changes nothing else, as Resolve does |
| PluginCache.EvictorsDrop | pkg/nri/plugin.go:61-85 | in the machine too a sweep drops exactly the unlisted entries, an eviction exactly its own |
| PluginCache.RecheckAlone | pkg/nri/plugin.go:283-289 | a caller that missed, and whose entry has come in the meantime, gets it without a fetch |
| PluginCache.FailAlone | pkg/nri/plugin.go:278-317 | an undisturbed failed fetch is told to its caller and changes nothing else |
| PluginCache.WaitersShareTheOutcome | pkg/nri/plugin.go:282-308 | callers on the same slot wait together and return together with one outcome, over every run until one of them calls again |
| PluginCache.EvictedExactly | pkg/nri/plugin.go:300-307 | a call can return a mapping that is not cached at any time from the call on if and only if it begins while nothing is cached for the UID and its slot is about to hand out a mapping |
| PluginCache.EvictedIsStillReturned | pkg/nri/plugin.go:300-307 | a run of the plugin that gets into such a state and returns an evicted mapping |
| SafetyNet.NriSafety | pkg/revoker/revoker.go:42-77 | in NRI mode a revoked credential's pod is not in the API then or ever after, for every interleaving with fetches, asynchronous stores, deletions, Deleted events and the renewer |
| SafetyNet.PassNeedsNoUniqueKeys | pkg/revoker/revoker.go:59-69 | for the safety-net pass alone this holds even if pods share keys |
| SafetyNet.GoneForGood | pkg/nri/vault.go:87-101 | over every run a pod that is gone never comes back |
| SafetyNet.WatchedAreGone | pkg/revoker/revoker.go:138-165 | with unique keys, the entry read on a Deleted event belongs to the deleted pod |
| RunningPods.HitExactly | pkg/revoker/revoker.go:59-69 | in every reachable state, in either mode: some continuation ends with a token revoked and its pod in the API if and only if the pod is in the API or can be created, and the token is revoked, or a job holds it, or its pod is not in the API while its entry is in KV, being written, or read by the pass or the renewer |
| RunningPods.NriIsNeverAtRisk | pkg/revoker/revoker.go:42-77 | with NRI no reachable state is of that kind, so no continuation does that |
| RunningPods.LegacyPassCanHitARunningPod | pkg/k8smutator/k8smutator.go:354-359 | a run without NRI that does |
| SafetyNet.WhatUntracks | pkg/vault/handle_token.go:157-180 | the steps that cost a live token its record, exactly: a store of another token under its key, the renewer's purge, or a deletion the revoker began for another token |
| SafetyNet.RevokerDeletes | pkg/vault/handle_token.go:355-374 | over every run, when the revoker deletes an entry the token it read is dead; the deletion costs a live token its record if and only if, after the revoker's read, that token was stored under the key and the key not written again |
| SafetyNet.KeysUsedOnceSuffices | pkg/vault/handle_token.go:426-443 | if no key is used for a second token, only the renewer's purge can cost a live token its record |
| SafetyNet.PurgeCanUntrack | pkg/vault/handle_token.go:426-443 | and the purge does so from every state in which the token is tracked and live |
| SafetyNet.LossHasAStep | pkg/vault/handle_token.go:355-374 | over any run, a live token that lost its record lost it at one of those steps |
| SafetyNet.RevokerCanUntrack | pkg/vault/handle_token.go:355-374 | a run in which the revoker's deletion leaves a live token without a record |
| PassRuns.PassIsARun | pkg/revoker/revoker.go:42-77 | a whole pass of SafetyNetSync, whatever fails, over the records a state shows and the pods in its API, is a run of the machine that ends in what the pass leaves |
| PassRuns.PassIsSafe | pkg/revoker/revoker.go:42-77 | so with NRI, from every reachable state, such a pass only revokes tokens of pods that are not in the API |
| PassRuns.OrphanCanBeCleaned | pkg/revoker/revoker.go:59-76 | from any state with a pod, an entry under a key that is neither the UID of a pod in the API nor in its uuid annotation can be revoked and deleted by a pass |
| PassRuns.DeletedCanBeCleaned | pkg/revoker/revoker.go:138-165 | from any state, an entry under a stamped UUID of a deleted pod can be revoked and deleted on its event |
| PassRuns.PurgeCleansUp | pkg/vault/handle_token.go:426-443 | from any state the renewer can kill an entry's token and delete the entry |
| PassRuns.NothingWithoutPods | pkg/k8s/pod_utils.go:62-65 | with no pod in the API a pass takes nothing |
| PassRuns.CallsMayFail | pkg/vault/handle_token.go:157-180 | in every state each pending store and each job may come to nothing, and each live token expire, without any other change |
| VaultRecords.Vault.RevokeOrphanToken | pkg/vault/handle_token.go:478-493 | success means the token is dead, whether or not it was there; a lost reply kills it too; nothing else changes |
| VaultRecords.Vault.DeleteData | pkg/vault/handle_token.go:157-180 | the two layers in turn, stopping at the first error; exactly what each outcome leaves; success means both are gone |
| VaultRecords.Vault.StoreData | pkg/vault/handle_token.go:58-80 | the entry replaces any other under its key |
| VaultRecords.Vault.ListKeyInfo | pkg/vault/handle_token.go:266-353 | the readable entries that have data, each once; complete exactly when the keys could be listed and every key read |
| Revoker.HandlePodDeletionToken | pkg/vault/handle_token.go:355-374 | revoke, then delete; success exactly when no request reports an error |
| Revoker.SafetyNetSync | pkg/revoker/revoker.go:42-77 | for every listing and every pattern of failures: the entries under the UID of a listed pod, and under every key the plugin writes for it, stay as they were, and their tokens die only with an entry no pod owns; every readable entry that is neither a listed pod's UID nor in its uuid annotation is handled; nothing without pods; the final state in closed form |
| Revoker.DeletedEvent | pkg/revoker/revoker.go:138-176 | the closed form for the UUIDs on a deleted pod; every other entry stays as it was; success means none of the UUIDs has data left |
| Revoker.DeletedEntryIsDead | pkg/vault/handle_token.go:355-368 | a deleted entry's token is dead, under any failures |
| Revoker.LiveTokensStayTracked | pkg/vault/handle_token.go:355-368 | a pass leaves no live token without a record it had, under any failures |
| Revoker.RetriedUntilPurged | pkg/revoker/revoker.go:66-76 | over any sequence of passes an entry remains, as it was, if and only if no pass got through to deleting it |
| Revoker.Converges | pkg/revoker/revoker.go:42-77 | a fault-free pass over a complete listing leaves exactly the entries of live UUIDs, with every other entry's token dead |
| Revoker.SecondPassIsIdle | pkg/revoker/revoker.go:42-77 | a second pass changes nothing |
| Revoker.PartialListing | pkg/revoker/revoker.go:43-47 | a partial listing removes and revokes only listed orphans |
| Revoker.HistoryDoesNotMatter | pkg/revoker/revoker.go:96-107 | after any number of faulty and partial passes while pods only go away, one fault-free complete pass gives the entries and live tokens a single pass would have |
| Revoker.MetadataIsLeftBehind | pkg/vault/handle_token.go:319-322 | a key with metadata and no data is never removed by any later passes |
| Revoker.WhenMetadataIsLeft | pkg/vault/handle_token.go:162-176 | exactly when a pass leaves such a key |
| Renewer.SyncEntry | pkg/vault/handle_token.go:407-465 | the goroutine's body does what its program of requests says, in all branches |
| Renewer.SyncAndCleanupTokens | pkg/vault/handle_token.go:376-476 | the final state is that of every interleaving of the programs; success exactly if every entry succeeds, by its replies and by whether a listed pod has its key |
| Renewer.EntryExactly | pkg/vault/handle_token.go:384-465 | in every interleaving, for each entry: its token is renewed exactly if some listed pod has its key, its lease exactly if that was not answered with an error; a store happens exactly if the lease was renewed or not found and a field is missing, and fills in the last such pod's fields and keeps the others; it is revoked and deleted exactly if the lease is unrecoverable; its series are dropped exactly if its pod is gone or the deletion worked |
| Renewer.OrderDoesNotMatter | pkg/vault/handle_token.go:405-468 | for fixed replies and distinct keys, all interleavings end in the same tokens, records, series and result |
| Renewer.ResultIsConjunction | pkg/vault/handle_token.go:401-475 | the result is the conjunction of the entries' outcomes, told by the replies and the listed pods |
| Renewer.SeriesOfReplies | pkg/vault/handle_token.go:486-584 | which series each reply sets and a revocation drops, exactly |
| Renewer.GonePodsKeepTheirEntry | pkg/vault/handle_token.go:455-464 | whatever the others do, an entry whose pod is gone keeps its record and has no renewal, revocation or write |
| Renewer.Metrics.Flush | pkg/metrics/prom.go:297-304 | the six families lose exactly the series with the pod's labels |
| SeriesTracking.FlushVanished | pkg/renewer/renewer.go:38-49 | the tracked set becomes the listing, and exactly the vanished label pairs are dropped |
| SeriesTracking.RenewerJob.SyncToken | pkg/renewer/renewer.go:69-104 | one cycle: flush only on a complete listing, then the synchronisation |
| SeriesTracking.SeriesFollowListing | pkg/renewer/renewer.go:67-104 | over runs with complete listings and fixed namespaces, each cycle leaves only series of its listing |
| SeriesTracking.CycleExact | pkg/renewer/renewer.go:78-83 | a complete cycle does so if and only if every series of a vanished UUID was tracked under its namespace |
| SeriesTracking.StaleForever | pkg/renewer/renewer.go:43-47 | a series not tracked under its namespace is never dropped while its labels are not listed |
| SeriesTracking.NamespaceChangeGoesStale | pkg/renewer/renewer.go:43-47 | a listing under another namespace makes a series so |
| SeriesTracking.PartialListingGoesStale | pkg/renewer/renewer.go:72-83 | a partial listing can make a series so |
| Connectors.GetDbCredentials | pkg/vault/vault.go:185-246 | which token the credential is issued under, which the connector then holds, and what is recorded, on every path |
| Connectors.RevokeSelfToken | pkg/vault/handle_token.go:499-519 | one attempt for a token, none for the empty one |
| Admission.AuthorizeDbAccess | pkg/k8smutator/k8smutator.go:117-172 | which two tokens an authorized connector holds |
| Admission.InjectCredentials | pkg/k8smutator/k8smutator.go:293-414 | in all four modes and for every failure point, spelled out: success exactly if every configuration is complete, authorized, has its credential where admission fetches it, and applies; then without NRI exactly one record for each, under the UUID stamped for it and with the token its credential was issued under; on failure records only of configurations that were begun; none with NRI; revocation is attempted for exactly the login tokens of authorized configurations that were begun, on an error or with NRI, and for none otherwise |
| Admission.AttemptedExactly | pkg/k8smutator/k8smutator.go:310-327 | a login token is among those exactly when its connector was reached and authorized |
| Admission.RefusedLoginIsNotRevoked | pkg/k8smutator/k8smutator.go:339-344 | a connector that failed authorization is missed |
| Admission.OrphansAreRecorded | pkg/vault/vault.go:194-242 | every orphan token is recorded save one whose credential could not be read |
| Admission.ProjectedRecordsAreLogins | pkg/vault/vault.go:188-192 | with projected tokens the recorded tokens are login tokens, all of them on success |
| CredentialFetch.FetchAndBuildMapping | pkg/nri/vault.go:42-298 | nothing is asked for or recorded if the pod is not in the API, has another UID than the sandbox, lacks the service account that projected tokens need, or has an annotation of the first version, or if there is no token to log in with; otherwise the outcome for the configurations the annotations mean |
| CredentialFetch.OutcomeSpelledOut | pkg/nri/vault.go:63-298 | success exactly if every configuration has a role, its login, its authorization and its credential, and some placeholder matched; on an error with projected tokens exactly the tokens of the successful logins are taken back, otherwise none; exactly one record for each configuration that went through after all before it, under the pod's key for it and with the token its credential was issued under |
| CredentialFetch.EveryLoginIsTakenBack | pkg/nri/vault.go:63-74 | every successful login up to the failure is among them |
| Accounts.AtMostOnce | pkg/nri/vault.go:63-74 | at admission and in the plugin's fetch, no login token is taken back twice |
| Accounts.SharedTokenIsSafe | pkg/k8smutator/k8smutator.go:302-309 | in both, a token nobody logged in for, such as the shared bookkeeping token, is never taken back |
| CredentialFetch.RecordsAreReported | pkg/nri/vault.go:125-182 | every record is under a key reported for the pod |
| CredentialFetch.SuccessIsRecorded | pkg/nri/vault.go:265-281 | on success the i-th credential is recorded under the i-th key with the token it was issued under |
| CredentialFetch.FailureLeaves | pkg/nri/vault.go:63-74 | with projected tokens a failed call leaves no record of a token not taken back |
| CredentialFetch.OwnLoginAccounts | pkg/vault/vault.go:194-242 | a fetch with the plugin's own login takes no token back, whatever its outcome; the orphan tokens it makes are those it records, in order, and one more exactly when its credential could not be read, which is never on success |
| CredentialFetch.OwnLoginsAreForgotten | pkg/nri/vault.go:203-209 | the login tokens of such a fetch are in no record |
| BookkeepingCache.BookkeepingTokenCache.Get | pkg/vault/bookkeeping_cache.go:46-90 | undisturbed: a valid entry is returned and kept, otherwise one login, cached for 30 minutes on success |
| BookkeepingCache.ValidIsUsed | pkg/vault/bookkeeping_cache.go:51-66 | in the machine too an entry with more than 5 minutes left is used, on the fast path and in the slot |
| BookkeepingCache.FailureIsToldOn | pkg/vault/bookkeeping_cache.go:72-75 | a failed login is told to the callers and changes nothing else |
| BookkeepingCache.StoredForHalfAnHour | pkg/vault/bookkeeping_cache.go:75-85 | and a new token is cached for 30 minutes |
| BookkeepingCache.LoginsAreSpaced | pkg/vault/bookkeeping_cache.go:46-90 | for any call pattern and clock, n successful logins of a role span at least 25 (n - 1) minutes |
| BookkeepingCache.LoginsInAWindow | pkg/vault/bookkeeping_cache.go:46-90 | so w minutes see at most w / 25 + 1 of them |
| BookkeepingCache.ReturnedTokensAreGood | pkg/vault/bookkeeping_cache.go:51-70 | a returned token was issued to the role, with more than 5 minutes left when picked |
| BookkeepingCache.NoLoginWhileValid | pkg/vault/bookkeeping_cache.go:60-73 | no login is under way while the role has a valid entry |
| CacheFile.FileSystem.SaveCache | pkg/nri/persist.go:47-78 | success exactly if every call works; whatever fails, every state of the disk on the way has the old file in place or the complete, synced new one, the new one at the end exactly on success; a failed write, sync or close takes the temporary file away |
| CacheFile.SaveAll | pkg/nri/persist.go:27-78 | for any sequence of saves and a crash at any step of any of them, loading gives the map before that save or the map of that save |
| CacheFile.AllDuring | pkg/nri/persist.go:27-78 | every state of the disk belongs to some save, so that this is about all of them |
| CacheFile.SyncIsNeeded | pkg/nri/persist.go:65-69 | without the sync a crash can leave a file that does not parse |
| CacheFile.OverlapTruncates | pkg/nri/persist.go:55-76 | two saves that overlap can put an empty file in place |
| StubLifecycle.Lifecycle.Run | pkg/nri/stub_lifecycle.go:75-130 | the exit, the factory calls, the waits, the counters and the stubs stopped, as an independent account of the rounds says |
| StubLifecycle.FactoryCallsAreBounded | pkg/nri/stub_lifecycle.go:82-129 | at most one call more than the schedule is long; giving up uses the whole schedule |
| StubLifecycle.OtherEnds | pkg/nri/stub_lifecycle.go:75-129 | when exactly a run ends in each of its three errors |
| StubLifecycle.NilOnlyOnCancellation | pkg/nri/stub_lifecycle.go:85-117 | no error exactly on cancellation during a round that was reached |

## Left out

- Substitution.OrderIsIrrelevant: on a line with many placeholders the condition is sufficient only; the exact conditions are for one placeholder on a line (SubstitutionLimits.LineExact) and for two that overlap, bounded together (SubstitutionOverlap.OverlapInLine).
- MixedDelivery.MixedExact: env keys have no '=', and templates are neither opaque, such as mailto:somebody, nor relative paths; classic configurations alone are treated without the first condition (ClassicRefinement.ClassicExact).
- Url.PrintParse: of net/url only scheme, userinfo, host and an opaque rest; hosts and paths are neither validated nor re-encoded.
- Admission.InjectCredentials: whether a configuration's mode applies is an input; Delivery.ApplyEnv says when it does.
- UriDelivery.ApplyUri: templates net/url refuses for their host, port, path or a colon in the first path segment parse here.
- CredentialFetch.FetchAndBuildMapping: obtaining the tokens to log in with is one input; what it fails of is not told apart.
- Renewer.OrderDoesNotMatter: a key's replies are fixed beforehand and do not depend on the other goroutines.
- Revoker.DeletedEvent: a UUID listed twice on a pod meets the same faults both times.
- CacheFile.SaveAll: saves do not overlap; a rename that was done is not undone by a crash, which holds when the process dies, and after a power loss only if the file system keeps the order of renames, since the program syncs no directory; JSON is an abstract encoder and decoder that are inverses.
- SafetyNet.NriSafety: labels and annotations of a pod do not change, UIDs are never reused, generated UUIDs are unique to a pod, and every pod the plugin serves carries the label the listing of pods selects by: an empty nri.podLabel, or one that differs from injectorLabel (pkg/nri/plugin.go:111, docs/reference/configuration.md:60), breaks that.
- CacheFile.OverlapTruncates: one run in which overlapping saves put an empty file in place; a file is found by its path at every step, so what a writer still does to the file after another save has renamed it is not modelled, and it is not said which overlaps are harmless.
- TrimSpace knows ASCII blanks, and Lower ASCII letters, only.
- The prewarmer's semaphore: it only drops callers, which any interleaving may do.
- Saving the cache beside concurrent changes of it: PluginCache and CacheFile are separate models.
- Leases: a lease dies with the token it was issued under, so only tokens are counted.
- Placeholder randomness and UUID generation: values are inputs, fresh where a lemma says so.
- Vault's and Kubernetes' clients, error strings and wire formats: requests answer with small result datatypes.
- Rate limits, timing logs, all metrics but the six per-pod series and the reconnect counters, HTTP servers, leader election, configuration loading: nothing to prove beyond a reading.
