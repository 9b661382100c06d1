# Verified model of the multi-provider LLM proxy

A Dafny model of the stateful cores of the proxy, with machine-checked proofs of
what they promise: the layered runtime configuration, the background discovery
queue, the protocol converters, the model catalogue, the history writer with its
clear barrier, the diagnostics log, the probe gate, the client-key rate limiter,
the pricing worker, the cached activity summary, the time buckets and the
failure policies. `dafny verify dfyconfig.toml` checks all of it.

How it is organised:

- **Configuration** — `Json` (values and the deep merge), `Options`,
  `ConfigOverlay` (normalising, pruning and what the effective configuration
  shows), `ConfigReads` (what readers find, path by path), `ConfigEdits` (edits
  of the overlay against edits of one plain map),
  `IdText` and `VariantLists` (what a request may name), `SchedulerPolicy`
  (failure policies), `PolicyStore` (failure policies in the two layers),
  `ConfigManager` (the manager object), `SwitchEffects` (a switch, seen from the
  catalogue).
- **Discovery** — `ModelDiscoveryQueue` (the lock regions, as an object),
  `DiscoveryWorkers` (every interleaving of callers and workers),
  `DiscoverySchedule` (when a provider is due), `DiscoveryFairness` (how long it
  can be put off), `Ceilings`.
- **Protocols** — `Sequences`, `JsonText` (a printed form of JSON values that
  reads back, so that the codec the theorems ask for exists),
  `ProtocolAdapters` (the three formats and what each says, as a sequence of
  events), `ProtocolConverters` (the loops), `ProtocolRoundTrip` (the theorems
  on requests), `ProtocolForms` (ids, texts, grouping and the placeholder),
  `ProtocolOrder` (what any Anthropic request keeps), `ProtocolResponses`
  (answers), `ReplyForms` (what answers say and why they ended).
- **Catalogue** — `Text`, `ModelIds` (normal forms), `IdSpelling` (which spellings come to
  one id), `Grouping`, `IdOrder`, `ModelRegistry` (parsing, visibility, resolution).
- **History** — `HistoryStore` (the write path as an object), `HistoryBarrier`
  (recorders, writer and clears interleaved), `HistoryContents` (what the tables
  hold, in which order), `HistoryClear` (what a clear guarantees and what
  statistics keep), `HistoryLoss` (what a clear loses).
- **Pricing** — `PricingResolver`, `PricingWorker`, `PricingBudget`.
- **Single kernels** — `ConversionDiagnostics`, `ProbeCoordinator`, `ProbeGate`,
  `ClientKeyStore`, `ClientKeyAdmission` (checks and stamps interleaved),
  `ActivityCache`, `BucketMath`, `TimeBuckets`, `BucketLaws`.

Concurrency is modelled as runs: a step is one lock region or one unlocked read
of shared state, and the theorems quantify over every run. Times are real
numbers that a step carries.

Where the code does less than its comments suggest, the code is modelled and the
gap is proved:

- The discovery queue's comment promises that a provider is put off for at most
  `max_defer_s`. A forced request that falls between a worker's unlocked urgency
  check and its locked decision resets the starvation clock, and the provider
  can then be put off once more than ceil(max_defer_s / defer_interval_s) times
  (`ExceededExactly`, `RaceExceedsBound`).
- The rename guard refuses to drop a name that points at another raw model, but
  only when the request also names a new model (`GuardHoldsOnlyForRenames`, with
  the input of `GuardedNameDeleted`).
- An edit of a provider whose own entry is a tombstone brings the base names
  back (`TombstoneExactly` says when that shows, `TombstoneLost` shows it).
- Saving one failure policy over a retry section that the overlay has blanked
  brings back the base file's other policies and retry settings (`SaveIsLocal`
  and `OtherSettingsKept` say exactly when, `BlankedComesBack` shows it).
- A history clear deletes whatever is in the tables when it finishes. A request
  numbered after its barrier is lost if and only if it was committed before the
  clear finished (`ClearLosesExactly`); `NewerMayGo` is such a run.
- The rate limiter checks and stamps in two calls. A minute never holds more
  than rpm - 1 stamps plus the largest number of requests that were between the
  two (`MinuteBounded`), so the limit holds when requests come one at a time
  (`LimitHolds`); the stamps still owed can break it if and only if the live
  ones and they together exceed rpm (`BreaksExactly`), and any number of
  requests can arrive that way (`SeparateStampsExceed`).
- A client's Anthropic turn comes back from Chat with its events in their order
  if and only if it is tidy: text after a tool call, for one, is moved in front
  of it (`TurnBackExactly`, `TextAfterCallMoves`). Each kind of event keeps its
  order in every turn (`AssistantBlocksBack`, `UserBlocksBack`).

## Model

| member | source | states |
|---|---|---|
| Json.MergeInto | config_loader.py:67-75 | the loop over the override computes the recursive merge: objects merge key by key, anything else replaces |
| Json.MergeEmpty | config_loader.py:67-75 | an empty layer changes nothing |
| PolicyStore.MergeAgain | config_loader.py:67-75 | merging an already merged layer over its base once more changes nothing |
| ConfigReads.OverlayWins | config_loader.py:67-75 | at any depth, an overlay value that is no object is the merged value |
| ConfigReads.BaseShows | config_loader.py:67-75 | at any depth, where the overlay has no value on the way, the merged value is the base value |
| ConfigReads.SettingsShow | config_manager.py:1276-1281 | below every section other than providers and models, readers of the effective configuration find what the merge of the two layers has |
| ConfigReads.ProviderShows | config_manager.py:1276-1285 | a provider is shown as the normalisation of its own merged entry, and not at all when its overlay entry is a tombstone |
| ConfigReads.RouteShows | config_manager.py:1286-1293 | a model route is shown as both layers give it; a tombstone hides it, and a tombstoned format preference is left out |
| ConfigOverlay.PruneKeepsEffective | config_manager.py:1335-1406 | for every base and overlay, pruning leaves the whole effective configuration as it was, apart from the discovery state it drops on purpose |
| ConfigOverlay.PruneIdempotent | config_manager.py:1335-1406 | a pruned overlay is a fixed point of pruning |
| ConfigReads.NoIdleTombstone | config_manager.py:1335-1389 | after pruning, every tombstone of a provider, route or discovered capability masks an entry of the base file |
| ConfigReads.NoIdleName | config_manager.py:1376-1397 | the same for the editable maps: tombstones of whole providers and of single names |
| ConfigReads.NoDiscoveryStays | config_manager.py:1374-1382 | no concrete discovery value stays in a pruned overlay |
| ConfigReads.DiscoveryTombstoneStays | config_manager.py:1374-1384 | the tombstone of a discovered capability stays when the base file has that provider |
| ConfigOverlay.NormalizePruned | config_loader.py:314-357 | normalising the providers section cannot tell a pruned tombstone from a kept one |
| ConfigEdits.EditRefines | config_manager.py:550-783 | one edit of a provider's two layered maps, seen with tombstones applied, is the same edit of one plain map |
| ConfigEdits.EditNames | config_manager.py:550-783 | an edit rewrites the edited provider's names as the plain edit does, and no other provider's names and no other map's |
| ConfigEdits.CommitNames | config_manager.py:68-83 | the same after the commit has pruned the overlay |
| ConfigEdits.LayersRefineOneMap | config_manager.py:550-783 | any sequence of committed mapping, disable and variant edits leaves each provider's names as if its own edits had run on one plain map, when the entry of every edited provider is an object or absent at the start |
| ConfigEdits.SwitchReads | config_manager.py:550-579 | after a committed switch a model that is turned off carries the flag `true`, one that is turned on carries nothing, and every other id reads as before |
| ConfigEdits.SwitchesRead | config_manager.py:581-613 | after a committed batch each id reads as its last mention says, and an id that is not mentioned as before |
| ConfigEdits.MappingReads | config_manager.py:657-725 | after a committed mapping the model points at the raw id, the former name is gone unless a rename finds it pointing at another raw id, and every other name reads as before |
| ConfigEdits.VariantsRead | config_manager.py:760-783 | after a committed variant list the model reads as that list, or nothing for an empty one, and every other id reads as before |
| ConfigEdits.ConfigShowsNames | config_manager.py:1276-1314 | readers of the normalised configuration see exactly the names the two layers define |
| ConfigEdits.EditKeepsSections | config_manager.py:1276-1314 | a committed edit changes no other section of the effective configuration |
| ConfigEdits.RenameKeepsOthers | config_manager.py:652-725 | a committed rename never loses another name of the provider that points at a different raw model, whatever the two layers hold |
| ConfigEdits.GuardHoldsOnlyForRenames | config_manager.py:660-720 | a guarded former name survives the committed request if and only if the request also names a new model |
| ConfigEdits.GuardedNameDeleted | config_manager.py:667-718 | a concrete deletion that the guard refuses and the commit carries out |
| ConfigEdits.TombstoneExactly | config_manager.py:561-579 | an edit over a provider entry that is a tombstone or no object agrees with the plain edit if and only if the base has no name the edit leaves undecided |
| ConfigEdits.TombstoneLost | config_manager.py:561-579 | a concrete edit after which a hidden base name is back |
| ConfigManager.CommitReads | config_manager.py:68-83 | every reader of the published configuration sees the committed edit as an edit of one plain map |
| ConfigManager.AcceptedMappings | config_manager.py:623-631 | a mapping request is accepted if and only if its three texts are at most 256 characters without control characters and it maps a model to a raw id or deletes a former name |
| ConfigManager.WarningTells | config_manager.py:657-713 | a rename that warns of nothing loses no name that pointed at another raw id and leaves no former name; a warning names the entry taken over or the one kept |
| ConfigManager.DeletionWarns | config_manager.py:666-718 | a deletion warns exactly of a name that points at another raw id than the request gives, and deletes it all the same |
| ConfigManager.PruneOverlay | config_manager.py:1335-1406 | the nested loops that drop tombstones in place compute the pruned overlay |
| ConfigManager.RuntimeConfig.constructor | config_manager.py:50-67 | the published configuration starts as the normalised merge of the two layers |
| ConfigManager.RuntimeConfig.CommitDraft | config_manager.py:68-83 | a commit prunes, republishes the normalised merge and advances the revision |
| ConfigManager.RuntimeConfig.UpdateMapping | config_manager.py:615-725 | a mapping request is accepted exactly for a known provider and valid ids, keeps the merge invariant, and is read back as the plain edit: the model points at the raw id, the former name is gone unless it points elsewhere, the rest is as before; a refused one leaves the overlay, the configuration and the revision, and clears the warning exactly when the provider is known |
| ConfigManager.RuntimeConfig.UpdateDisabled | config_manager.py:550-579 | a switch is accepted exactly for a known provider and a valid id; afterwards a reader finds the flag `true` for a model turned off, nothing for one turned on, and all else as before |
| ConfigManager.RuntimeConfig.UpdateManyDisabled | config_manager.py:581-613 | many switches are committed at once or, when one id is invalid, not at all; afterwards a reader finds for each id what its last mention says |
| ConfigManager.RuntimeConfig.UpdateVariants | config_manager.py:727-783 | a variant request is accepted exactly for a known provider, a valid model id and an acceptable list; afterwards a reader finds the cleaned list under the model, or nothing for an empty one, and all else as before |
| SwitchEffects.OffHides | model_registry.py:81-90 | a model that was switched off is disabled for the resolver from then on: not visible, and serving no model |
| SwitchEffects.OnShows | model_registry.py:81-90 | one that was switched on is disabled if and only if its lower-case spelling carries a switch of its own |
| VariantLists.CleanVariants | config_manager.py:741-760 | the validating loop accepts exactly the acceptable lists and leaves the arranged list of first mentions |
| VariantLists.AcceptedExactly | config_manager.py:738-751 | a list is acceptable if and only if it has at most 32 entries, each with a valid id and, where one is given, a whole priority from -1000 to 1000 |
| VariantLists.CleanedExactly | config_manager.py:741-758 | the stored list holds, for each model submitted, its first entry with the priority given there, by falling priority and then in the order submitted |
| VariantLists.FirstsExactly | config_manager.py:743-757 | a variant is listed if and only if it is the first of its model |
| VariantLists.ArrangedOrdered | config_manager.py:758-758 | the list is ordered by falling priority, then by position, with none lost or added |
| ConfigManager.RuntimeConfig.UpdateFailurePolicy | config_manager.py:442-453 | an accepted policy is what the patch asked for, is merged into the overlay and committed, and every scheduler that reads the published configuration applies it; a refused patch changes nothing |
| ConfigManager.RuntimeConfig.CompactOverlay | config_manager.py:1330-1333 | compacting changes nothing that readers see |
| ConfigManager.RuntimeConfig.ClearOverlay | config_manager.py:109-127 | clearing leaves the normalised base configuration |
| ConfigManager.RuntimeConfig.Reload | config_manager.py:819-830 | a reload publishes the normalised merge of the new layers |
| SchedulerPolicy.ApplyOverride | scheduler_policy.py:81-123 | the field-by-field rewrite of the copied policy computes the override cut to its scope |
| PolicyStore.SavedIsApplied | config_manager.py:442-453 | for every base file and overlay, a policy the API accepted is exactly the policy the scheduler applies under the configuration published after the commit, except that an honoured Retry-After (section 10.2.3 of RFC 9110) keeps its clamped delay unless the scope allows no key cooldown |
| PolicyStore.PatchTakesEffect | config_manager.py:442-453 | for every base file and overlay, what the scheduler does about the error after the commit is what the patch asked for: each field it sets, and the current or the default value of each it leaves out, wherever the scope lets it take effect, unless a Retry-After is honoured |
| PolicyStore.SaveWrites | config_manager.py:449-452 | a save leaves the four fields of the policy under the error type's name, in the overlay and in the published configuration |
| PolicyStore.SavesExactly | config_manager.py:442-452 | a save goes through if and only if each section it reads is an object or empty and the patch is acceptable over the entry in force |
| PolicyStore.OthersStayInForce | config_manager.py:442-453 | what the scheduler does about every other configurable error stays, when the overlay's retry section is intact |
| PolicyStore.EntryFieldsKept | config_manager.py:449-450 | a save overwrites the four fields of its entry and leaves its other fields alone if and only if the overlay does not hide the base file's entry or that entry has no other field |
| PolicyStore.SaveIsLocal | config_manager.py:445-452 | a save leaves another error type's policy alone if and only if the overlay's retry section and policies are objects or absent, or the base file says nothing about that error type |
| PolicyStore.OtherSettingsKept | config_manager.py:445-452 | likewise for every other setting of the retry section |
| PolicyStore.OtherSectionsKept | config_manager.py:442-453 | no other section of the effective configuration changes |
| PolicyStore.BlankedComesBack | config_manager.py:445-452 | a concrete save that brings another policy of the base file back |
| SchedulerPolicy.CapsHold | scheduler_policy.py:126-228 | no configuration, valid or not, takes a cooldown past its cap, and an override in force leaves nothing its scope forbids |
| SchedulerPolicy.AcceptedAsAsked | config_manager.py:1171-1209 | each field of an accepted policy is the one the patch sets, or else the current entry's, or else the default, within what the scope allows; a scope that needs a provider cooldown gets one |
| SchedulerPolicy.AcceptedExactly | config_manager.py:1157-1196 | a patch is accepted if and only if its error type is one of nine, the scope that decides is known, and all numbers, also the stored ones, are within their caps |
| SchedulerPolicy.DefaultRests | scheduler_policy.py:126-228 | without an override, the key rests for the time configured for its own kind of error within the cap, or its default, or an honoured Retry-After; only an invalid key is disabled |
| SchedulerPolicy.OverrideClamped | scheduler_policy.py:53-97 | a cooldown written by hand is cut to the cap, counts as zero below zero, and is ignored when it is no number |
| SchedulerPolicy.ValidatedCanonical | config_manager.py:1157-1209 | an accepted policy sets only what its scope allows, within the caps |
| PolicyStore.SaveTwice | config_manager.py:442-453 | the same patch is accepted again on the configuration it produced, and the entry published is the same |
| ModelDiscoveryQueue.DiscoveryQueue.Enqueue | model_discovery_queue.py:126-166 | a forced request jumps the queue, clears the cooldown and the starvation clock; an ordinary one is queued once and takes its due time from the stored snapshot |
| ModelDiscoveryQueue.DiscoveryQueue.PopDue | model_discovery_queue.py:316-336 | the first provider that is neither active nor cooling down is taken, or none is due |
| ModelDiscoveryQueue.DiscoveryQueue.DecideDefer | model_discovery_queue.py:272-305 | a busy network defers until the starvation cap, and a decision to fetch clears the clock |
| ModelDiscoveryQueue.DiscoveryQueue.Reschedule | model_discovery_queue.py:307-314 | a deferred or failed provider is queued again with its new due time |
| ModelDiscoveryQueue.DiscoveryQueue.Release | model_discovery_queue.py:257-270 | the provider is free again; urgency and clock go unless the turn was a deferral |
| DiscoveryWorkers.RunInv | model_discovery_queue.py:226-270 | in every interleaving the queue has no duplicates and equals the membership set, and the active set is exactly the pairwise distinct providers the workers hold |
| DiscoveryWorkers.ReleasedToQueue | model_discovery_queue.py:307-383 | a provider whose fetch failed or was deferred is queued and free once its worker releases it |
| DiscoveryWorkers.ForcedIsNext | model_discovery_queue.py:126-166 | a forced request for a provider nobody holds is what the next pop takes, whatever its cooldown was |
| DiscoverySchedule.OfferedDue | model_discovery_queue.py:126-166 | an ordinary request for an unscheduled provider joins the end of the queue and comes due a time-to-live after its last success, a retry interval after its last error, or at once |
| DiscoverySchedule.OfferedAgain | model_discovery_queue.py:140-166 | an ordinary request for a scheduled provider moves neither its due time nor its place |
| DiscoverySchedule.FetchedRests | model_discovery_queue.py:356-383 | after a fetch the provider rests for its time-to-live or, when it failed, for a retry interval, and only a failed one is queued again |
| DiscoverySchedule.TurnDecided | model_discovery_queue.py:272-305 | a turn may be put off only in the polite mode, with a cap above zero and no forced request, and is put off exactly while the network is busy and the cap is not reached |
| DiscoverySchedule.ImpoliteNeverDefers | model_discovery_queue.py:278-282 | in every run with the polite mode off or a cap of zero, no provider is ever put off |
| DiscoveryFairness.DeferralsBounded | model_discovery_queue.py:272-336 | between two turns that were not deferrals a provider is put off at most ceil(max_defer_s / defer_interval_s) times, and once more only where a forced request raced a decision |
| DiscoveryFairness.ExceededExactly | model_discovery_queue.py:272-305 | a decision exceeds the bound if and only if the network is busy, the deferrals are used up and the starvation clock is gone, which only a raced forced request can cause |
| DiscoveryFairness.RaceExceedsBound | model_discovery_queue.py:272-305 | a concrete run in which the extra deferral happens |
| ProtocolConverters.ConvertToAnthropic | protocol_adapters.py:628-731 | the loop that appends to and extends the message list computes the Anthropic conversation |
| ProtocolConverters.ConvertFromAnthropic | protocol_adapters.py:11-168 | the loop over Anthropic messages computes the Chat conversation, with the placeholder where reasoning is in use |
| ProtocolConverters.ConvertToResponses | protocol_adapters.py:795-904 | the loop over Chat messages computes the instructions and the input items |
| ProtocolConverters.ConvertFromResponses | protocol_adapters.py:460-508 | the loop over input items computes the Chat conversation |
| ProtocolRoundTrip.AnthropicSaysAll | protocol_adapters.py:613-731 | the Anthropic conversation says every event of the Chat one, in order, however results and tool calls are merged into one message |
| ProtocolRoundTrip.AnthropicCanonical | protocol_adapters.py:613-731 | every message written is reasoning, then text, then tool calls, or tool results alone |
| ProtocolRoundTrip.ChatSaysAll | protocol_adapters.py:11-168 | converting such messages back says the same events, up to the reasoning placeholder |
| ProtocolRoundTrip.ChatAnthropicChat | protocol_adapters.py:11-168 | Chat to Anthropic to Chat keeps the full ordered event sequence up to the placeholder, calls without an id being given one first |
| ProtocolForms.FillKeeps | protocol_adapters.py:672-685 | filling in call ids changes nothing but the ids of calls that have none; a conversation whose calls all have ids goes out unchanged |
| ProtocolForms.IdsKept | protocol_adapters.py:628-731 | for conversations with ids, both upstream forms and both round trips say exactly what the conversation itself says: every call and its result keep the id given |
| ProtocolForms.AnthropicGrouped | protocol_adapters.py:613-731 | results that follow each other share one message, calls join the blocks in front of them, and no message has an empty list |
| ProtocolForms.ContentInOrder | protocol_adapters.py:581-597 | the text of a content list is the text of its parts in their order, a line for each that has any |
| ProtocolForms.PromptInOrder | protocol_adapters.py:641-645 | the system prompt is made of the system messages in their order, a line for each that has text |
| ProtocolForms.ReasoningThroughout | protocol_adapters.py:23-126 | when some turn of a request brings reasoning, no assistant message goes out without any, those without their own carry the placeholder, and otherwise none carries any |
| ProtocolForms.ErrorsMarked | protocol_adapters.py:60-77 | a failed tool result is marked in the text the model reads, and another is not |
| ProtocolForms.ArgumentsRead | protocol_adapters.py:672-685 | a call's arguments go out as the value they parse to, and blank or invalid text as an empty object |
| ProtocolRoundTrip.ResponsesSayAloud | protocol_adapters.py:795-904 | the Responses items of a conversation, read by what items themselves say, say every event but reasoning, in order |
| ProtocolRoundTrip.ItemsComeBack | protocol_adapters.py:351-508 | every Responses request comes back as a conversation that says what its items say, in order, with the instructions and the system items as its prompt |
| ProtocolForms.FillItemsKeep | protocol_adapters.py:372-390 | the items of a request change only where a function call has no id |
| ProtocolOrder.AssistantBlocksBack | protocol_adapters.py:42-97 | every assistant turn keeps its calls in order behind its joined reasoning and its joined text |
| ProtocolOrder.UserBlocksBack | protocol_adapters.py:98-115 | every user turn keeps its results in order before everything else it says |
| ProtocolOrder.TurnBackExactly | protocol_adapters.py:40-130 | a turn comes back with exactly its events in their order if and only if it is tidy |
| ProtocolOrder.TextAfterCallMoves | protocol_adapters.py:88-97 | a text after a tool call does not stay behind it |
| ProtocolOrder.TidyConversationKept | protocol_adapters.py:11-168 | a request whose turns are all tidy keeps everything it says in its order, whoever wrote it |
| ProtocolRoundTrip.ChatResponsesChat | protocol_adapters.py:795-904 | Chat to Responses to Chat keeps exactly the non-reasoning events, in order, calls without an id being given one first |
| ProtocolRoundTrip.PathsAgree | protocol_adapters.py:460-508 | both upstream paths say the same things aloud |
| ProtocolRoundTrip.PromptKept | protocol_adapters.py:628-731 | both round trips keep the system prompt |
| ProtocolResponses.ConvertReplyToAnthropic | protocol_adapters.py:171-223 | the loop over the tool calls of a Chat answer builds the Anthropic content: reasoning, text, calls, with an id for calls that lack one |
| ProtocolResponses.ConvertReplyFromAnthropic | protocol_adapters.py:734-792 | the loop over the content blocks gathers text, reasoning and calls, with an id for calls that lack one |
| ProtocolResponses.ConvertReplyToResponses | protocol_adapters.py:511-578 | the loop over the tool calls builds the output items of a Responses answer |
| ProtocolResponses.ConvertReplyFromResponses | protocol_adapters.py:907-967 | the loop over the output items gathers text, reasoning and calls, and derives the finish reason |
| ReplyForms.StopReasons | protocol_adapters.py:209-217 | an Anthropic client is told `end_turn`, `tool_use` or `max_tokens` if and only if the finish reason is the Chat one that means it or that word itself, and any other reason as it is |
| ReplyForms.FinishReasons | protocol_adapters.py:767-784 | a Chat client is told `stop`, `tool_calls` or `length` if and only if the stop reason is one that means it, a missing or empty one being a plain stop |
| ReplyForms.ResponsesEndings | protocol_adapters.py:548-549 | a Responses answer is incomplete if and only if its length ran out, and a Chat client is told of calls first, then of the length |
| ReplyForms.AnthropicReplySays | protocol_adapters.py:171-223 | the Anthropic answer says the stripped reasoning, the stripped text and the calls, in this order |
| ReplyForms.ResponsesReplySays | protocol_adapters.py:511-578 | the items of the Responses answer say the stripped reasoning, the text and the calls, in this order, and its plain text is the text |
| ReplyForms.AnyCallsCome | protocol_adapters.py:743-762 | whatever blocks an upstream sends, the Chat answer has their calls, in order, with ids and argument values |
| ReplyForms.AnyTextComes | protocol_adapters.py:743-767 | its text and its reasoning are those of the blocks in their order, a line for each that has any |
| ReplyForms.AnyItemCallsCome | protocol_adapters.py:916-938 | whatever items an upstream sends, the Chat answer has their calls, in order |
| ReplyForms.AnyItemTextComes | protocol_adapters.py:916-945 | and their texts and reasoning, in order, a line for each that has any |
| ProtocolResponses.AnthropicReplyTrip | protocol_adapters.py:734-792 | an answer through the Anthropic form keeps stripped text and reasoning and every call's name, argument value and id, which a call without one is given on the way |
| ProtocolResponses.FinishSurvives | protocol_adapters.py:209-216 | the finish reason survives that trip if and only if it is no Anthropic stop reason and not empty |
| ProtocolResponses.ResponsesReplyTrip | protocol_adapters.py:907-967 | an answer through the Responses form keeps the text as it is, the stripped reasoning, and the calls with their arguments as written |
| ProtocolResponses.FinishExpressible | protocol_adapters.py:949-954 | the finish reason survives that trip if and only if the Responses form can express it: a truncated answer with calls cannot |
| ProtocolResponses.RepliesAgree | protocol_adapters.py:511-578 | both paths say the same, up to blanks around the text |
| ProtocolResponses.SecondTripStill | protocol_adapters.py:171-223 | a second trip through the Anthropic form changes nothing more |
| ModelIds.CanonicalNormal | model_registry.py:246-272 | a canonical id is blank or a normal form: lower case, one segment, single inner dashes |
| ModelIds.CanonicalIdempotent | model_registry.py:254-272 | normalisation is idempotent |
| ModelIds.CanonicalIsLast | model_registry.py:246-272 | the canonical id is the last cleaned segment of the safe id |
| ModelIds.CandidateNeverDiverts | model_registry.py:254-272 | a candidate that is itself a normal form can only be the id's own canonical id |
| IdSpelling.WordsJoined | model_registry.py:246-251 | whatever run of blanks, underscores and dashes stands between two words, the canonical id has one dash there |
| IdSpelling.SidesDropped | model_registry.py:246-251 | blanks, underscores and dashes around an id are dropped |
| IdSpelling.CaseIgnored | model_registry.py:246-272 | case does not matter |
| IdSpelling.VendorDropped | model_registry.py:246-272 | a vendor prefix of any spelling and depth is dropped, with a slash or a backslash behind it |
| Grouping.BucketExactly | model_registry.py:407-411 | a bucket holds each raw id of its class once and nothing else |
| Grouping.PrimaryIsFirstShortest | model_registry.py:404-406 | the primary raw id is the first of the shortest of its class |
| IdOrder.SortedRest | model_registry.py:413-418 | the other copies come strictly ordered by length and then by name, none lost |
| IdOrder.OrderedUnique | model_registry.py:413-418 | that order is determined by the set of copies alone |
| IdOrder.LexExactly | model_registry.py:413-418 | names of one length are compared at the first character in which they differ |
| ModelRegistry.ShorterFirst | model_registry.py:413-418 | of two copies behind the primary, the earlier one is shorter or, at the same length, the smaller |
| ModelRegistry.Matched | model_registry.py:391-395 | the candidate probe always ends at the canonical id |
| ModelRegistry.ParseProviderModels | model_registry.py:364-425 | the keys are the canonical ids of the list, the primary is the first shortest copy, and each published bucket is arranged |
| ModelRegistry.ResolveDiscovered | model_registry.py:1080-1107 | the loops compute the enabled ids on offer, or the canonical id when there are none |
| ModelRegistry.OffersExactly | model_registry.py:1080-1105 | what is offered is duplicate-free and exactly the enabled ones among the primary and the copies |
| ModelRegistry.OffersAll | model_registry.py:1080-1105 | with nothing disabled, the primary is offered first and every copy with it |
| ModelRegistry.DisabledBySpelling | model_registry.py:81-90 | an id is disabled if and only if its stripped spelling or the lower case of that carries the flag |
| ModelRegistry.VisibleExactly | model_registry.py:177-208 | with a non-blank primary, a model is visible if and only if it is not disabled itself and some enabled raw id is offered |
| ModelRegistry.SupportedIsServed | model_registry.py:1519-1558 | a model reported as supported never falls back to its own name: every id offered is an enabled upstream copy with that normal form |
| ModelRegistry.OffersInOrder | model_registry.py:1080-1105 | with upstream ids free of surrounding blanks, the copies are tried in the published order |
| HistoryStore.HistoryStore.RecordRequest | history_store.py:490-516 | a record gets the next number and is queued, or counted as dropped when the queue is full |
| HistoryStore.HistoryStore.TakeBatch | history_store.py:200-223 | a batch is the longest prefix of the queue within the batch size |
| HistoryStore.HistoryStore.WriteBatch | history_store.py:224-250 | after rollback and single retries the tables are as if the bad records had never been queued, and each bad one is one write failure |
| HistoryContents.HealthyExactly | history_store.py:224-250 | the records that survive a failed batch are exactly those that do not raise, as often as they occur, and every other one is a failure |
| HistoryContents.InsertedShows | history_store.py:224-233 | of records stored together each is logged in order, each probe event has its row, and a request has its row and counts in the statistics unless a later one replaces it or a barrier covers it |
| HistoryStore.HistoryStore.Clear | history_store.py:1985-2023 | the barrier is raised to the current number and the rows go |
| HistoryClear.ReachableGood | history_store.py:200-265 | in every interleaving an accepted record is in exactly one place (queued, held, committed, failed), an offered one was accepted, refused or is about to be offered, the counters count the losses, and the queue stays within its bound |
| HistoryClear.AtRestAllSettled | history_store.py:200-265 | with the queue empty and the writer idle, every accepted record was committed once or counted as failed |
| HistoryContents.CommittedInOrder | history_store.py:200-250 | in every interleaving the committed, held and queued records are, in this order, the accepted ones in the order of acceptance, without those that were given up |
| HistoryContents.CanFinish | history_store.py:200-250 | from every reachable state, and whichever records raise, the writer alone can finish: it commits exactly the others that it holds or that are queued, in order, counts those that raise, and leaves nothing in the way of the clears and backfills that wait |
| HistoryContents.CommitShows | history_store.py:224-234 | a commit publishes the written rows without those that retention selected, and no statistics are lost by it |
| HistoryContents.BackfillShows | history_store.py:267-285 | a backfill counts exactly the rows it visits |
| HistoryContents.ProbesKept | history_store.py:224-233 | the probe table holds exactly the committed probe events, and no clear touches it |
| HistoryClear.ClearIsFinal | history_store.py:1995-2023 | once a clear has finished, no request numbered at or before its barrier has a row in any later state, whatever was still queued or being written |
| HistoryClear.StatisticsClearIsFinal | history_store.py:2137-2144 | once a statistics clear has finished, no request numbered when it was marked is in the statistics, and all that is there was committed, whatever the idle backfill adds |
| HistoryClear.CommittedIsAccounted | history_store.py:774-784 | a committed request is accounted unless a statistics clear covers its number or came after it |
| HistoryClear.HistoryClearsKeepStatistics | history_store.py:774-784 | with history clears alone, every committed request stays accounted, also the ones they hide |
| HistoryLoss.ClearLosesExactly | history_store.py:1985-2023 | with no other clear or retention, a committed request above the barrier and alone with its id has no row if and only if it was committed before the clear finished |
| HistoryLoss.HiddenExactly | history_store.py:774-784 | the same from any moment at which the tables are empty and nothing is being written |
| HistoryClear.NewerMayGo | history_store.py:1995-2015 | a concrete run in which a finishing clear deletes a request numbered after its barrier |
| ConversionDiagnostics.ConversionDiagnosticStore.RotateLocked | conversion_diagnostics.py:228-243 | the renames from the oldest file down move every file one place back, and a gap leaves the oldest file alone |
| ConversionDiagnostics.ConversionDiagnosticStore.Write | conversion_diagnostics.py:246-255 | a record is appended to the current file after the rotation its size calls for |
| ConversionDiagnostics.ConversionDiagnosticStore.Export | conversion_diagnostics.py:289-301 | the export is the concatenation of the files, oldest first |
| ConversionDiagnostics.RotationLoses | conversion_diagnostics.py:228-243 | a rotation loses the oldest file, if another moves over it, and nothing else |
| ConversionDiagnostics.ExportIsSuffix | conversion_diagnostics.py:245-301 | after any writes and rotations the export is a contiguous suffix of everything written, oldest first; with one file it is the whole history |
| ConversionDiagnostics.NewestIsKept | conversion_diagnostics.py:246-255 | the newest record is always last in the export |
| ConversionDiagnostics.LossMeansFull | conversion_diagnostics.py:228-255 | an unbroken run of writes loses a record only when what is left still exceeds one file's limit |
| ConversionDiagnostics.FilesStayBounded | conversion_diagnostics.py:228-255 | with two or more files, no file outgrows the limit unless it holds a single record |
| ProbeCoordinator.FailureGate.RecordSuccess | probe_coordinator.py:73-76 | a success forgets the pairs of its scope |
| ProbeCoordinator.FailureGate.ShouldApplyFailure | probe_coordinator.py:78-102 | severe errors apply at once and uncounted; others apply from the second strike, and the table stays indexed and within its cap |
| ProbeCoordinator.ForgottenIndexed | probe_coordinator.py:73-76 | a success forgets exactly the pairs of its scope and both indexes still agree |
| ProbeCoordinator.FailedIndexed | probe_coordinator.py:78-102 | after a counted failure both indexes agree, no set is empty, and the cap holds |
| ProbeCoordinator.EvictedTracks | probe_coordinator.py:93-101 | the evicted pair is the one that failed longest ago |
| ProbeCoordinator.RunTracks | probe_coordinator.py:73-102 | over any calls the table is exactly the memory of the latest unbroken failures, in their order |
| ProbeCoordinator.AppliedExactly | probe_coordinator.py:78-102 | an ordinary failure is applied if and only if an earlier failure of the same pair is unbroken by success, eviction or a gap longer than the decay |
| ProbeGate.AtMostOneProbe | probe_coordinator.py:39-71 | in every interleaving the slot has at most one holder and is taken exactly while it is held |
| ProbeGate.SlotComesFree | probe_coordinator.py:39-71 | in every run, whoever holds the slot can give it back in at most two steps, and a manual probe may then start |
| ProbeGate.AutoProbeWaited | probe_coordinator.py:39-46 | in every run, an automatic claim takes the slot if and only if there was no recent success, the slot is free, and every probe of the run finished a full interval ago (or the last one at clock reading 0) |
| ProbeGate.AutoProbeYields | probe_coordinator.py:45-57 | a claimed probe runs if and only if no real request arrives before its comparison, whatever other threads do |
| ClientKeyStore.ClientKeyStore.CheckAccess | client_key_store.py:337-371 | the checks in their order, on the live part of the key's window; other windows are untouched |
| ClientKeyStore.AllowedExactly | client_key_store.py:337-371 | a request is let through if and only if its key is enabled, not expired, has room in the minute and in its quota, and may use the model |
| ClientKeyStore.RefusedFor | client_key_store.py:337-371 | a refusal carries the first reason that applies, with its status |
| ClientKeyStore.ClientKeyStore.StampRateLimit | client_key_store.py:373-377 | the stamp joins the end of the key's window only |
| ClientKeyAdmission.MinuteBounded | client_key_store.py:337-377 | with checks and stamps as separate steps at their own times, no half-open minute of any run holds more than rpm - 1 stamps plus the largest number of requests in flight |
| ClientKeyAdmission.LimitHolds | client_key_store.py:337-377 | no minute holds more than rpm stamps when no request of the key is let through between another one's check and its stamp |
| ClientKeyAdmission.ServedAtOnce | client_key_store.py:337-377 | for every list of requests, separate checks and stamps without overlap keep the very window and stamps that serving each request in one piece does |
| ClientKeyAdmission.BreaksExactly | client_key_store.py:350-377 | the stamps still owed can exceed the limit if and only if the live ones and they together exceed rpm |
| ClientKeyStore.RateRefusedExactly | client_key_store.py:350-358 | a request is refused for its rate if and only if the minute up to it already holds rpm stamps of the whole run |
| ClientKeyAdmission.SeparateStampsExceed | client_key_store.py:337-377 | a run of n checks before the first of n stamps is possible for every rate, and its minute holds n |
| PricingResolver.PricingResolver.Enqueue | pricing_resolver.py:69-87 | a key is admitted once until resolved or given up; a full queue gives it back and counts it |
| PricingResolver.PricingResolver.PopDue | pricing_resolver.py:99-102 | the least entry by due time and order is taken if it is due |
| PricingResolver.PricingResolver.ShouldDefer | pricing_resolver.py:178-198 | a busy network defers until the starvation cap; other answers clear the clock |
| PricingResolver.PricingResolver.Handle | pricing_resolver.py:118-154 | a turn ends deferred with its retry unchanged, resolved, queued for one more retry, or given up |
| PricingWorker.TurnDecided | pricing_resolver.py:178-198 | a job is put off if and only if the mode is polite, the network busy and the cap not reached; otherwise it is fetched |
| PricingWorker.TurnEnds | pricing_resolver.py:118-154 | a deferred job comes due an interval later, a failed fetch a backoff later, and a job without retries is given up and counted |
| PricingResolver.DelayDoubles | pricing_resolver.py:135-138 | the first retry waits for the backoff, and each further one twice as long |
| PricingWorker.BlankNeverPending | pricing_resolver.py:69-75 | in every run, a key without a provider or a model is never pending |
| PricingWorker.EarlierFirst | pricing_resolver.py:96-120 | in every run, of two jobs due at one time the worker takes the one pushed first |
| PricingWorker.QueueInOrder | pricing_resolver.py:76-112 | in every run, the queue holds what was put into it and not yet taken out, in order, each job without a retry |
| PricingWorker.NeverStuck | pricing_resolver.py:95-154 | the worker always has a next step, and takes a due job or a queued one when there is any |
| PricingBudget.DecisionHeld | pricing_resolver.py:178-198 | a key that was put off n times has rested n intervals, so the cap ends its deferrals |
| PricingBudget.RunBudgeted | pricing_resolver.py:95-154 | in every run a pending key is in exactly one place, each job carries the number of its fetches, and deferrals consume no retry |
| PricingBudget.FetchesBounded | pricing_resolver.py:95-154 | an admitted key is fetched at most max_retries + 1 times and put off at most max(1, ceil(max_defer_s / interval)) times in a row |
| PricingBudget.DropsCounted | pricing_resolver.py:69-87 | in every run each key that found the queue full is counted as dropped once, as soon as its thread has taken it back |
| ActivityCache.ActivityBoard.Mutate | observability.py:379-394 | every change of the lists (a finished request, a probe, deletion by id or by filter, a clear, a reset, a restore) advances the version and empties the cache |
| ActivityCache.ArrivalsShow | observability.py:763-768 | a finished request goes to the front of the requests only, a probe to the front of the probes only |
| ActivityCache.DeletionShows | observability.py:357-384 | deleting by id takes away exactly the requests with those ids, and no probe |
| ActivityCache.MatchingShows | observability.py:385-400 | deleting by filter takes away exactly the requests it matches, and no probe |
| ActivityCache.ClearsShow | observability.py:336-345 | a clear empties the requests, a reset both lists, a restore replaces the requests and empties the probes |
| ActivityCache.ActivityBoard.Look | observability.py:1086-1093 | a reader gets the cached summary of the current version, or a snapshot of the lists |
| ActivityCache.ActivityBoard.Publish | observability.py:1108-1110 | a summary is cached only if the version is still the reader's |
| ActivityCache.RunCoherent | observability.py:1086-1115 | in every interleaving the cache holds only what recomputing from the current lists gives |
| ActivityCache.HitIsCurrent | observability.py:1086-1090 | a cache hit equals the summary recomputed from the lists as they are, at its own clock readings |
| ActivityCache.RacedNeverPublishes | observability.py:1108-1110 | a reader that raced a mutation changes nothing when it stores |
| ActivityCache.UnracedPublishes | observability.py:1108-1110 | a reader that did not race publishes its own current summary |
| ActivityCache.ReaderCanFinish | observability.py:1086-1115 | a reader never waits: from every state it is done in at most two steps, and its summary is cached when the lists did not change |
| BucketMath.IndexExact | history_store.py:2309-2312 | a time in the window falls into exactly one bucket and its index needs no clamp |
| BucketMath.RoundedBetween | history_store.py:1507-1510 | the rounded average lies between any bounds of the values |
| BucketMath.RoundedNearest | history_store.py:1507-1510 | the rounded average is a nearest integer to the exact one |
| BucketMath.HalfToEven | history_store.py:1507-1510 | between two integers it is the even one |
| TimeBuckets.MemorySeries | observability.py:1858-1882 | the filtering loop puts every item of the window into the bucket of its interval and no other |
| TimeBuckets.SqliteSeries | history_store.py:1473-1506 | the loop over the selected rows does the same |
| BucketLaws.WindowHoldsNow | history_store.py:1473-1475 | the window ends on the first multiple of the width after now and holds the present |
| BucketLaws.BucketsAdjoin | history_store.py:1473-1480 | the buckets follow each other from the start of the window, each as wide as asked, without gap or overlap |
| BucketLaws.RequestsConserved | history_store.py:1473-1521 | the bucket counts add up to the items of the window |
| BucketLaws.OutcomesAddUp | history_store.py:2309-2320 | success plus failed equals requests in every bucket |
| BucketLaws.BreakdownsExact | history_store.py:2314-2322 | every count by model, format or status in a bucket is the number of its items with that value |
| BucketLaws.AddedAnyOrder | history_store.py:2309-2339 | a bucket depends on which items it got, not on their order |
| BucketLaws.PathsAgree | observability.py:1854-1922 | the memory path and the database path, which reads the rows the items of the window were stored as (clamped, with defaults, in any order), give the same series |
| BucketLaws.AveragesInBucket | history_store.py:1507-1518 | in every non-empty bucket min <= rounded average <= max, for durations and first bytes |
| BucketLaws.Finish | history_store.py:1507-1518 | every published row gives the smallest, the largest and a nearest-integer average of its own interval's durations and first bytes, in order, and zeros where there are none |

## Left out

- Configuration: section names are constructors, so a provider cannot be called like a section; `_normalize_provider_entry` is a parameter; the `proxy`, `client_keys` and pool defaults of `_normalize_config` are not modelled.
- Configuration: a base section must be missing, falsy or an object (the source raises otherwise); the in-place pops on shared dictionaries and the order of dictionary keys are not captured.
- Configuration: the edits of providers, keys, routes, retry settings, pricing and routing, the warning log across providers, and the file writes.
- PolicyStore: blanks around a scope in a hand-written entry; what int() makes of text and fractions, and which words are flags, are parameters; the request arrives as typed fields.
- ConfigEdits.LayersRefineOneMap: does not cover edited providers whose entry is a tombstone or no object at the start, because there the claim is false; TombstoneExactly gives the exact condition.
- ProtocolResponses: a call whose id is present but empty is treated as one without an id; where the source draws a random id, a supplied function gives it.
- Discovery: recent results, wake-up events, `_next_timeout`, and the start and stop of threads; a provider found disabled ends its turn without being queued again, as in the code.
- DiscoveryFairness.DeferralsBounded: allows one deferral more than the documented bound after a raced forced request, because the code does.
- Protocols: images, tool definitions, tool choice and the other request fields, list-valued tool results, `reasoning_content` and `tool_calls` beside list content, unknown roles, streams; of the answers, usage numbers, model names and generated object ids; JSON text is abstract, with parse and print as inverses, numbers are decimal literals, and fresh ids come from a supplied function.
- Catalogue: ids are ASCII; display names and creation times are not carried; manual maps, per-key catalogues and configured variants are outside the resolution theorem.
- ModelIds: the candidate list may repeat an id that the source would drop; the first match is the same.
- History: attempts, costs and the other columns; the permanent statistics are a set of accounted request numbers, where a failed accounting that the store marks for later counts as accounted; sync mode, shutdown, schema, and deletion of single requests.
- Diagnostics: renames that fail for a reason other than a missing file, partial writes, redaction, the flush marker and the queue in front of the writer.
- Probes: the wait in `run_manual` is a step that is enabled only while the slot is free.
- ClientKeyAdmission.MinuteBounded: takes one rate for the whole run and clock readings of one key that do not decrease, because the window is trimmed from its front only.
- Pricing: the network fetch and the history backfill are opaque; shutdown, which abandons the heap, is not modelled.
- ActivityCache: durable probe history is outside the model, and so is the hot-swap of the board, after which the old and the new instance share the list object; list limits do not change; the summary is an arbitrary function of the lists, the limit, the flag and the clock readings.
- BucketMath.RoundedNearest: divides exact integers, because the source divides floating-point numbers and rounding error there is not modelled.
- Time buckets: usage totals, costs and the per-attempt counters.
- Everything driven by sockets, HTTP and the dashboard, and the stores that repeat the same patterns in simpler form.
