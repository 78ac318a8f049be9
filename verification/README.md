# Verified core of an LLM gateway

A Dafny 4.11 model of the stateful core of a Go gateway for large language models, with proofs of
what each part is there for. `dafny verify dfyconfig.toml` checks the whole project.

| file | what it models |
|---|---|
| `Basics.dfy` | types and conversions shared by several parts |
| `Sums.dfy` | sums over threads or workers, used by the two concurrent protocols |
| `OrderLock.dfy` | the reference-counted lock per top-up order and the credit it protects, for any number of threads |
| `TopUpCredit.dfy` | the other half of crediting once: a completed order is credited exactly when its credit write did not fail |
| `DiskCache.dfy` | the atomic counters of the request-body disk cache, for any number of workers |
| `BodyStorage.dfy` | storing one request body in memory or in a temporary file, with every failure exit |
| `RateLimiter.dfy` | the in-memory sliding-window limiter against the full history of accepted requests |
| `RelaySpec.dfy` | what one relayed request has to come to, said on its inputs |
| `Relay.dfy` | one relayed request: queue waits, slots, the single primary dispatch, the fallback chain, the final error, proved against that |
| `UpstreamModels.dfy` | keeping a channel's model list in step with its upstream |
| `RatioSync.dfy` | the table of price differences between the gateway and other channels |
| `ModelsDev.dfy` | choosing one price per model from the models.dev catalogue |
| `MultiKey.dfy` | position-keyed key status that must follow keys when positions shift |
| `OggScan.dfy` | the page scan that finds the length of an Ogg/Opus stream |
| `VideoTask.dfy` | settling a video task over repeated polls |

Concurrent code is a state machine over its atomic steps, and the results hold for every finite
interleaving from the initial state. Sequential code that changes fields or runs loops is a class
or a method proved against a specification. Databases, upstreams, clocks, file systems and the
other processes appear as inputs that may answer anything, including every failure.

## Where the code and its documentation part

The model follows the code. Each point has a run that shows it and an exact condition.

- A notification whose quota write fails after the order was marked successful loses the credit
  for good, since later notifications find the order settled (`TopUpCredit.OneFailedWrite` is such
  a run, `TopUpCredit.LostForGood` its permanence). A completed order is credited exactly once if
  and only if that one write did not fail (`TopUpCredit.CreditedExactlyOnce`).
- The disk-cache maximum is not a hard limit: the compare-and-swap looks only at the reserved
  counter, so a delayed reservation can pass its check against an old usage value
  (`DiskCache.StaleLoadsBreakTheBound`; `DiskCache.BoundedIff` says exactly which runs keep the
  bound, `DiskCache.CapacityBound` proves it for all runs with fresh loads).
- A relay whose extra attempt for an oversized context succeeds after a primary error keeps that
  error, so the client is answered and also sent an error; the pre-consumed quota stays spent,
  because the success settled it, unless that settlement failed (`Relay.ReportedSuccess`). A
  request can end with neither an answer nor an error when a transfer meets a fallback channel
  with full slots and no other is left (`Relay.SilentEnd`). `RelaySpec.ReportedIff`,
  `RelaySpec.SilentIff` and `RelaySpec.RefundIff` are the conditions, on the inputs of the request
  by way of `RelaySpec.MainEnd`, which says how the main loop ends.
- A model whose name looks like a regex ignore rule can drop the rule that hides another model,
  so one round of detect and apply need not be final (`UpstreamModels.RegexNamedModelBreaksFixpoint`,
  `UpstreamModels.FixpointIff`).
- Deleting automatically disabled keys, when every key is automatically disabled, deletes none of
  them and enables all: the empty key list is not written, the cleared status is
  (`MultiKey.Channel.DeleteDisabledKeys`, `MultiKey.BothWays`).
- A null price of an upstream is counted as a difference and may then be pruned away
  (`RatioSync.NullPriceIsDropped`; `RatioSync.ReportedIff` says exactly when it is not).
- The models.dev choice is the cheapest non-zero price only up to epsilon
  (`ModelsDev.CheapestNonZero`): two prices in provider order less than epsilon apart give the
  dearer one (`ModelsDev.SortedMissesCheapest`), and `ModelsDev.CheapestIff` says exactly when the
  cheapest is chosen. That bound rests on the sorting (`ModelsDev.UnsortedDrifts`).
- While the row of a video task cannot be saved, each poll charges a price increase again
  (`VideoTask.UnsavedChargeRepeats`, `VideoTask.ConservesIff`). The settlement itself would refund
  a task twice that leaves the failure state and fails again (`VideoTask.RevivalRefundsTwice`);
  a caller that polls only unfinished rows never does (`VideoTask.LoopConserves`). Nothing in the
  repository calls this settlement: the loop behind the query of model/task.go:312-321 is
  service/task_polling.go:97, which settles with its own function of the same name.

## Model

| member | source | states |
|---|---|---|
| `OrderLock.LockProtocol` | controller/topup.go:268-307 | In every reachable state a map entry exists exactly for the trade numbers in use, its count is the number of threads waiting, holding or not yet decremented, at most one thread holds the lock of a number up to its mutex unlock, and UnlockOrder finds the very mutex it locked, held |
| `OrderLock.NoEntryLeft` | controller/topup.go:293-307 | When all threads are idle the lock map is empty |
| `OrderLock.NoDeadlock` | controller/topup.go:278-307 | While some thread is busy, some busy thread can take a step |
| `OrderLock.MutualExclusion` | controller/topup.go:278-300 | Two threads never hold the lock of the same trade number, from taking the mutex to unlocking it |
| `OrderLock.FreshEntryKeeps` | controller/topup.go:278-291 | Creating a mutex for a trade number without an entry keeps all counts and pointers exact |
| `OrderLock.RefCountSectionKeeps` | controller/topup.go:293-307 | Deleting on the last use keeps every other thread's pointer current |
| `OrderLock.CreditedAtMostOnce` | controller/topup.go:372-407 | For every interleaving each order is credited at most once, only when now successful, by the whole part of its amount (its money for Stripe) times the quota per unit, and every balance is the opening balance plus the credits |
| `OrderLock.NotifyCreditsPendingEpay` | controller/topup.go:372-407 | A notification credits only an order it read as pending with the Epay provider and that has no credit yet, by the whole part of its amount times the quota per unit |
| `OrderLock.QuotaIsWorth` | model/topup.go:347-362 | The quota of an order is the whole part of money (Stripe) or amount (all others) times the quota per unit, for either sign |
| `OrderLock.WorkDoes` | model/topup.go:80-388 | What one successful database call does to a pending order: a notification reads it, a manual completion credits it at once, a closing update closes it |
| `OrderLock.StepKeeps` | controller/topup.go:268-407 | Every step of every thread keeps the lock and the money invariant |
| `OrderLock.RunKeeps` | controller/topup.go:268-407 | Both invariants hold after every finite interleaving |
| `OrderLock.BeginKeepsMoney` | model/topup.go:318-388 | The administrator's transaction and the closing updates keep the credits sound |
| `OrderLock.OthersStaySound` | controller/topup.go:372-407 | Work under one trade number leaves what other threads know of their orders true |
| `TopUpCredit.CreditedExactlyOnce` | controller/topup.go:372-407 | When all threads are done, an order completed during the run with a quota that is not negative was credited exactly once if and only if no write of its credit failed, whatever else failed |
| `TopUpCredit.RunComplete` | controller/topup.go:372-407 | Unless its own credit write failed, a completed order is credited, about to be credited, or has a negative quota, after every interleaving |
| `TopUpCredit.FailedCreditIsLost` | controller/topup.go:397-402 | A failing quota write leaves the order successful, uncredited and with nobody left to credit it |
| `TopUpCredit.LostForGood` | controller/topup.go:372-407 | Whatever notifications and completions follow, such a credit is never made |
| `TopUpCredit.OneFailedWrite` | controller/topup.go:372-407 | A run of one notification that completes a pending order, fails to credit it and ends idle |
| `DiskCache.CountersExact` | common/disk_cache_config.go:110-133 | In every reachable state usage, reservation and file count are exactly what the workers own, no clamp to zero ever fired, and all are zero when every body is closed |
| `DiskCache.RunAccounted` | common/body_storage.go:100-218 | The accounting invariant survives every interleaving, whatever the loads see |
| `DiskCache.StepAccounted` | common/disk_cache_config.go:110-220 | Each atomic operation keeps the accounting; only a successful compare-and-swap raises the claimed bytes, by its size |
| `DiskCache.CapacityBound` | common/disk_cache_config.go:195-210 | With fresh loads, usage plus reservation counted once through a commit, and the bytes on disk, never exceed the maximum |
| `DiskCache.CasExact` | common/disk_cache_config.go:201-208 | A successful compare-and-swap keeps the bound if and only if the usage added since its load fits the slack of its check |
| `DiskCache.BoundedIff` | common/disk_cache_config.go:195-210 | The maximum holds after every step of a run if and only if every granted reservation was within the slack of its check |
| `DiskCache.StaleLoadsBreakTheBound` | common/disk_cache_config.go:201-208 | A run of two workers that claims 20 bytes under a maximum of 10 |
| `DiskCache.OnDiskWithinClaim` | common/body_storage.go:100-218 | A worker's bytes on disk are within what it claims, also half-way through a write |
| `DiskCache.StreamStored` | common/body_storage.go:139-218 | With room, a streamed body of any chunks reaches the open state with exactly its bytes counted and its reservations back |
| `DiskCache.WholeStored` | common/body_storage.go:100-137 | With room, a whole body reaches the open state counted once, its reservation back |
| `DiskCache.StreamEnds` | common/body_storage.go:160-218 | A finished stream becomes an open body of all its bytes, a failed one is cleaned up, a short write gives its rest back |
| `BodyStorage.Counters.Reserve` | common/disk_cache_config.go:195-210 | Granted exactly when caching is on and usage, reservation and a positive size fit the maximum |
| `BodyStorage.Counters.Commit` | common/disk_cache_config.go:125-133 | Moves reserved bytes to usage, the reservation cut off at zero |
| `BodyStorage.NewDiskStorage` | common/body_storage.go:100-137 | Stores a body whole or leaves all counters as found; refused exactly for an empty body, a disabled cache or missing room |
| `BodyStorage.StoreChunk` | common/body_storage.go:170-192 | Usage grows by exactly the bytes that reached the file and the reservation ends as it began, also for short writes |
| `BodyStorage.CopyStream` | common/body_storage.go:160-206 | For every chunking and fault: counted bytes equal written bytes; without disk faults the verdict depends on body and room alone |
| `BodyStorage.NewDiskStorageFromReader` | common/body_storage.go:139-218 | On failure usage, files and reservation are as found; on success exactly the stored size, at most the limit, is added and the file is the stream |
| `BodyStorage.DiskStorage.Close` | common/body_storage.go:238-247 | The first Close undoes the accounting and removes the file, later ones do nothing |
| `BodyStorage.DiskStorage.Bytes` | common/body_storage.go:249-281 | Returns the whole content and leaves the cursor where it was, exactly when all seeks and the full read succeed; otherwise where the cursor is left |
| `BodyStorage.MemoryStorage.Close` | common/body_storage.go:65-72 | The first Close gives the buffer back, later ones do nothing |
| `BodyStorage.CreateBodyStorage` | common/body_storage.go:292-308 | Disk exactly from the threshold on; the stored bytes are the data on either route |
| `BodyStorage.CreateBodyStorageFromReader` | common/body_storage.go:311-352 | With room and a proper end of stream, both routes reject exactly the streams over the limit and store exactly the stream otherwise; disk exactly when it is on and the announced or the real length asks for it |
| `RateLimiter.EveryWindowBounded` | common/rate-limit.go:57-105 | Over any run of requests and rollbacks every window of the key's duration holds at most the limit of accepted requests |
| `RateLimiter.EveryWindowCounted` | common/rate-limit.go:57-105 | The same counted on the entries: at most the limit of them have a time in any window |
| `RateLimiter.AcceptsIff` | common/rate-limit.go:57-85 | Accepted exactly when fewer recorded requests than the limit are younger than the window, counted on their times |
| `RateLimiter.RequestKeepsWindows` | common/rate-limit.go:57-85 | Accepting by the count of live entries never overfills any window |
| `RateLimiter.RollbackKeepsWindows` | common/rate-limit.go:89-105 | A rollback never overfills a window |
| `RateLimiter.TokensNeverReused` | common/rate-limit.go:57-85 | Over any run a token names one slot of one key |
| `RateLimiter.RollbackRemovesOwnSlot` | common/rate-limit.go:89-105 | A rollback takes away the slot of its own token under its own key; a stale or foreign token removes nothing |
| `RateLimiter.PruneIsFilter` | common/rate-limit.go:66-76 | Cutting the expired prefix equals filtering the live entries |
| `RateLimiter.PrunedQueue` | common/rate-limit.go:66-76 | The pruned queue is exactly the live part of the whole history |
| `RateLimiter.EvictedAgrees` | common/rate-limit.go:32-47 | Evicting a queue whose newest entry outlived the expiration forgets nothing live |
| `RateLimiter.InMemoryRateLimiter.RequestToken` | common/rate-limit.go:57-85 | Accepts exactly when the history has fewer live entries than the limit, and records under a fresh token |
| `RateLimiter.InMemoryRateLimiter.Rollback` | common/rate-limit.go:89-105 | Splicing the queue is the rollback of the history |
| `RateLimiter.InMemoryRateLimiter.ClearExpired` | common/rate-limit.go:32-47 | Removes exactly the expired keys and keeps agreement with the unchanged history, so no later answer changes |
| `Relay.Relay` | controller/relay.go:277-1030 | On every path each acquired slot is released exactly once; the phase, the requests sent, the answer, the error shown, the billing session and the refund are exactly those the inputs determine; at most one dispatch before the chain, the chain in list order, no channel twice, a per-call price kept |
| `Relay.MainLoop` | controller/relay.go:529-851 | However many queue waits: slots held exactly as recorded; the loop ends as computed from its inputs, with exactly that error, price, session, used channels and at most one request sent |
| `RelaySpec.HandedBackIff` | controller/relay.go:592-641 | A round hands a fallback back if and only if a daily-limit or overload transfer meets full slots |
| `Relay.Conclude` | controller/relay.go:853-1021 | What follows the main loop: the phase, and in each phase what is sent, answered, shown and given back |
| `Relay.SilentEnd` | controller/relay.go:529-641 | A request over the daily limit with one busy fallback: nothing sent, no answer, no error |
| `Relay.ReportedSuccess` | controller/relay.go:856-864 | A rejected primary with an oversized context whose extra attempt succeeds: answered and sent an error, refunded if and only if that success was not settled |
| `Relay.RunChain` | controller/relay.go:879-971 | The chain to its end: answered exactly when an attempt answers before the client leaves, otherwise the primary or the generic error, all slots released |
| `Relay.FallbackChain` | controller/relay.go:881-962 | Considers the unused fallback channels in list order, sends exactly where set-up, slots, price, quota and body allow, and stops exactly at the first answer or when the client is gone |
| `RelaySpec.ChainSentOnce` | controller/relay.go:881-962 | No channel of the chain repeats another or the one already sent to |
| `Relay.ChainErrorShown` | controller/relay.go:138-145 | After a failed chain the error is the first primary error or the generic failure, veiled after a queue wait |
| `Relay.MainErrorShown` | controller/relay.go:980-1021 | Without a chain the error is the one the loop ended with; a cancellation reads 200, an emergency channel's error is generic, a raw failure after a queue wait is replaced unless it is a 503 |
| `Relay.ExtraErrorShown` | controller/relay.go:866-878 | After a failed extra attempt the error is the too-long context, under the same rules |
| `RelaySpec.ReportedIff` | controller/relay.go:856-864 | An answered request is also sent an error if and only if the extra attempt answered it after the main loop failed |
| `RelaySpec.SilentIff` | controller/relay.go:622-641 | Neither answer nor error if and only if a fallback was handed back and nothing follows |
| `RelaySpec.RefundIff` | controller/relay.go:506-522 | An unanswered request gets back what its session holds; an answered one if and only if the extra attempt answered it without settling |
| `RelaySpec.ChainHidesFallbacks` | controller/relay.go:138-145 | A failed chain never shows a fallback attempt's error |
| `RelaySpec.SentProperly` | controller/relay.go:529-962 | At most one request before the chain, the chain in list order, no channel twice, the per-call price kept |
| `RelaySpec.ChainEndMeans` | controller/relay.go:881-962 | Going through the attempts one by one comes to: answered iff some attempt answers with nothing before it ending the chain, left iff the client is gone first |
| `RelaySpec.ConsidersOnce` | controller/relay.go:881-962 | How many fallback channels a chain considers is determined by the attempts |
| `RelaySpec.RoundsEndSound` | controller/relay.go:529-851 | Every ending of the main loop: a hand-back has no session, a sent request is the only used channel, a primary error is no cancellation |
| `Relay.ExecuteFallback` | controller/relay.go:1664-1719 | A request goes out exactly with price, quota and body; a per-call price survives the refresh; an open session is used again; the error says whether the client left |
| `Relay.GetChannel` | controller/relay.go:1759-1831 | A forced fallback is the first unused one; a channel that cannot be set up becomes used |
| `Relay.WaitForQueue` | controller/relay.go:1478-1533 | A granted wait starts over with no channel used; a refused one is a timeout or a cancellation |
| `Relay.Admit` | controller/relay.go:575-716 | An admitted request holds exactly its channel's slots, one that is queued, handed back or rejected holds none, and nothing is sent |
| `Relay.TakeSlots` | controller/relay.go:622-716 | Proceeds if and only if the slots are free and it is no fallback outside a transfer; hands a fallback back if and only if outside a transfer or its slots are full; what the routing state becomes |
| `Relay.ParkedEnds` | controller/relay.go:624-671 | Full slots end the round in a hand-back, a wait or a queue failure as computed from the inputs |
| `Relay.Select` | controller/relay.go:530-570 | A cancelled request stops; a transfer takes the first unused fallback; a refused selection waits or ends in an error |
| `Relay.Divert` | controller/relay.go:592-611 | The overload check runs once; only then and only when overloaded is a counted channel replaced, by the first unused fallback |
| `Relay.SendPrimary` | controller/relay.go:722-850 | One dispatch at most, its channel marked used before it, and what each failure leaves for the fallback |
| `Relay.SentEnds` | controller/relay.go:722-850 | A sent request ends the round as computed from the reply: error code and status, price, session, used channel and whether a fallback may follow |
| `Relay.AcquireChannelSlots` | controller/relay.go:1451-1468 | Both limits or neither, a partial success given back |
| `Relay.ReleaseAll` | controller/relay.go:490-504 | The deferred release leaves nothing acquired |
| `Relay.RetryCurrent` | controller/relay.go:856-879 | The extra attempt for an oversized context: one request if the body is there, the earlier error left in place on success, the too-long error otherwise |
| `RelaySpec.UnusedNext` | controller/relay.go:1766-1831 | Using the first unused fallback leaves the others in order, so the chain ends |
| `RelaySpec.PicksUnused` | controller/relay.go:1766-1831 | Skipping used channels keeps the list order |
| `UpstreamModels.MergeModelNames` | controller/channel_upstream_update.go:104-118 | The accumulating loop appends the new names in order, none twice |
| `UpstreamModels.NormalizeClean` | controller/channel_upstream_update.go:97-102 | Normalised lists are trimmed, non-empty and duplicate-free |
| `UpstreamModels.TrimSpaceCuts` | controller/channel_upstream_update.go:97-102 | Trimming cuts spaces at both ends and nothing else, and all of them |
| `UpstreamModels.NormalizeMember` | controller/channel_upstream_update.go:97-102 | A name survives if and only if it is non-empty, trimmed and some entry is that name between spaces |
| `UpstreamModels.NormalizeOrder` | controller/channel_upstream_update.go:97-102 | Names stand in the order of the entries that first hold them |
| `UpstreamModels.CleanFixed` | controller/channel_upstream_update.go:97-102 | Normalisation changes nothing on a clean list, so it is idempotent |
| `UpstreamModels.SubtractMember` | controller/channel_upstream_update.go:120-129 | Subtraction is set difference on clean lists and keeps them clean |
| `UpstreamModels.MergeMember` | controller/channel_upstream_update.go:104-118 | Merging is union on clean lists and keeps them clean |
| `UpstreamModels.ApplySelectedMember` | controller/channel_upstream_update.go:142-147 | A name is in the result if and only if added, or kept and not removed: additions win |
| `UpstreamModels.IntersectMember` | controller/channel_upstream_update.go:131-140 | Intersection is set intersection on clean lists and keeps them clean |
| `UpstreamModels.AppliedOrder` | controller/channel_upstream_update.go:142-147 | Surviving models keep their order and new ones follow in theirs |
| `UpstreamModels.ChangedIffSetChanged` | controller/channel_upstream_update.go:780-828 | The list changes if and only if the set of models changes |
| `UpstreamModels.DetectMember` | controller/channel_upstream_update.go:176-235 | A name is a pending addition if and only if offered, not local, no redirection target and hit by no rule; a pending removal if and only if local, no redirection source and not offered |
| `UpstreamModels.RuleMeaning` | controller/channel_upstream_update.go:214-220 | A regex rule asks about its trimmed pattern, any other rule is a name |
| `UpstreamModels.PendingDisjoint` | controller/channel_upstream_update.go:176-235 | No name is pending both ways |
| `UpstreamModels.FixpointIff` | controller/channel_upstream_update.go:176-235 | Applying everything leaves nothing pending if and only if no offered model is ignored solely by rules that are themselves names about to be added |
| `UpstreamModels.Fixpoint` | controller/channel_upstream_update.go:176-235 | Without upstream names that look like regex rules one round is final |
| `UpstreamModels.RegexNamedModelBreaksFixpoint` | controller/channel_upstream_update.go:210-222 | A model named like a rule leaves another one pending |
| `UpstreamModels.ModelsRoundTrip` | model/channel.go:311-316 | A list of plain names survives being stored as text |
| `UpstreamModels.JoinSplit` | model/channel.go:311-316 | Splitting a stored text at its commas loses nothing, whatever the text |
| `UpstreamModels.TrimCommasCuts` | model/channel.go:311-316 | Reading a list cuts commas at both ends and nothing else, and all of them |
| `UpstreamModels.Channel.ApplyUpdates` | controller/channel_upstream_update.go:780-828 | Applies only pending names, rewrites the list if and only if the set changed, un-ignores what was added, leaves the rest pending |
| `UpstreamModels.Channel.SyncCycle` | controller/channel_upstream_update.go:360-397 | Detect, apply all, detect again on the stored channel: nothing pending |
| `RatioSync.BuildDifferences` | controller/ratio_sync.go:536-696 | On any input: which pairs are kept after both passes, and each item restricted to the channels that show a value somewhere |
| `RatioSync.Report` | controller/ratio_sync.go:536-696 | On well-formed input: exactly the pairs where some channel's entry is absent locally or differs (fractions by a billionth, whole numbers as themselves in price fields, anything else when unequal), each item listing exactly the channels that differ somewhere, with the entry shown and the confidence |
| `RatioSync.EntriesCompared` | controller/ratio_sync.go:48-62 | Comparing normalised values is exactly the difference of the raw entries |
| `RatioSync.NothingDropped` | controller/ratio_sync.go:667-692 | The last pruning pass never deletes an item |
| `RatioSync.ReportedIff` | controller/ratio_sync.go:593-692 | With nulls upstream a pair is reported if and only if some channel genuinely differs there and some channel with a real price difference somewhere does not read same in it |
| `RatioSync.KeptIff` | controller/ratio_sync.go:667-692 | An item survives pruning if and only if a surviving channel does not read same there |
| `RatioSync.HasDiffIffPriced` | controller/ratio_sync.go:656-665 | With nulls upstream a channel survives if and only if it has a genuine difference that is not a null |
| `RatioSync.HasDiffIffGenuine` | controller/ratio_sync.go:656-665 | A channel survives pruning if and only if it genuinely differs somewhere |
| `RatioSync.IncludedIffGenuine` | controller/ratio_sync.go:593-654 | An item is collected if and only if some channel genuinely differs there |
| `RatioSync.CellShown` | controller/ratio_sync.go:605-629 | Each cell is the differing price, "same", or empty where only the local side has a price |
| `RatioSync.ChannelConfidence` | controller/ratio_sync.go:558-591 | Exactly the default pair 37.5 and 1 is distrusted, whichever branch runs |
| `RatioSync.PruneItem` | controller/ratio_sync.go:667-688 | Deletes exactly the channels that differ nowhere and keeps the item unless all that is left is "same" |
| `RatioSync.NullPriceIsDropped` | controller/ratio_sync.go:605-692 | A channel whose only entry is a null price is reported nowhere although it differs |
| `ModelsDev.SelectCandidates` | controller/ratio_sync.go:915-944 | A model is selected if and only if some provider has a usable cost; the choice is free only if all are and then the first provider's, otherwise no price undercuts it by epsilon and every earlier provider is dearer |
| `ModelsDev.FoldBest` | controller/ratio_sync.go:881-893 | The choice is strictly cheaper than every earlier priced offer and not undercut by epsilon by a later one |
| `ModelsDev.CheapestNonZero` | controller/ratio_sync.go:881-905 | Free if and only if all offers are free; otherwise cheapest up to epsilon |
| `ModelsDev.CheapestIff` | controller/ratio_sync.go:881-905 | The cheapest price is chosen if and only if the choice before its first offer is none, free, or dearer by at least epsilon |
| `ModelsDev.SortedMissesCheapest` | controller/ratio_sync.go:881-905 | Two offers in provider order less than epsilon apart: the dearer one is chosen |
| `ModelsDev.OffersComplete` | controller/ratio_sync.go:845-877 | The folded offers are exactly the valid candidates of the catalogue |
| `ModelsDev.BuildCandidateIs` | controller/ratio_sync.go:845-877 | A cost is usable if and only if no price is negative or undefined and a free input has no priced output; the candidate carries exactly its prices |
| `MultiKey.Channel.DeleteKey` | controller/channel.go:1700-1778 | Exactly that key's record goes and every other key keeps its own; the last key is refused |
| `MultiKey.Channel.DeleteDisabledKeys` | controller/channel.go:1780-1847 | The survivors keep their effective records in order; when none would survive, the keys stay and all become enabled |
| `MultiKey.Channel.DeleteOneByOne` | controller/channel.go:1700-1778 | Deleting the automatically disabled keys singly leaves exactly the survivors |
| `MultiKey.BothWays` | controller/channel.go:1700-1847 | Both ways give the same listing if and only if a key survives or there was none; and what each does when none survives |
| `MultiKey.SameRecordsIff` | controller/channel.go:1781-1833 | Both ways store the same records if and only if no enabled key has a leftover time or reason |
| `MultiKey.LeftoverResurfaces` | controller/channel.go:1544-1585 | A leftover shows again after a manual disabling exactly when it holds something |
| `MultiKey.SurvivorsWithout` | controller/channel.go:1781-1833 | Deleting a disabled key first changes no survivor |
| `MultiKey.PutAppends` | controller/channel.go:1731-1755 | Re-indexing at the next position appends exactly that key's record, positions in range |
| `MultiKey.Channel.ReportKey` | model/channel.go:691-718 | Disabling records status, time and reason; recovery keeps the old time and reason |
| `MultiKey.Channel.DisableKey` | controller/channel.go:1544-1585 | Changes only the status of that key |
| `MultiKey.Channel.EnableKey` | controller/channel.go:1587-1627 | Clears that key's whole record |
| `OggScan.OpusDuration` | common/audio.go:196-254 | The cursor loop computes the scan, ends on all bytes, and reads headers exactly at the visited offsets |
| `OggScan.FindsLargestGranule` | common/audio.go:203-252 | On concatenated well-formed pages the result is the maximum of zero and all signed granule positions |
| `OggScan.CutPageCounts` | common/audio.go:203-252 | A page cut off anywhere after its header still counts, and ends the scan |
| `OggScan.StaysOnBoundaries` | common/audio.go:203-252 | On concatenated pages the offsets the loop visits are the page boundaries and nothing else |
| `OggScan.PageFields` | common/audio.go:219-249 | Reading back an encoded page: capture, granule, table and exact length |
| `OggScan.GranuleRoundTrip` | common/audio.go:228-232 | Signed 64-bit little-endian granules read back |
| `OggScan.Resynchronises` | common/audio.go:219-226 | Leading bytes without a capture pattern do not change the result |
| `OggScan.FoundInTheBytes` | common/audio.go:203-252 | On arbitrary bytes the result is zero or the granule field of some capture pattern present |
| `VideoTask.Settlement.Poll` | controller/task_video.go:122-270 | One poll with any of its writes failing is exactly the settlement step |
| `VideoTask.ConservesIff` | controller/task_video.go:128-270 | Balance plus outstanding charge is kept if and only if a charged failed task is not revived, a first failure is refunded and a changed charge is saved |
| `VideoTask.ActualIs` | controller/task_video.go:155-176 | Billing by tokens exactly with tokens and a model ratio, at the whole part of tokens times both ratios |
| `VideoTask.RunConserves` | controller/task_video.go:128-270 | Over any run of polls with terminal failure and working writes that sum is constant |
| `VideoTask.FailureRestores` | controller/task_video.go:235-267 | However often the charge was adjusted, failing gives the user everything back, once |
| `VideoTask.SuccessSettlesOnce` | controller/task_video.go:144-234 | Polling the same success again moves nothing |
| `VideoTask.UnsavedChargeRepeats` | controller/task_video.go:175-261 | While the row cannot be saved, n polls charge the increase n times |

## Left out

- Concurrent protocols (`controller/topup.go`, `common/disk_cache_config.go`) are state machines on values whose steps are the atomic operations, not heap objects shared by threads; `createLock` sections are single steps.
- The other payment providers' recharge transactions: orders they complete are outside the credit theorem, which assumes every writer of an order's status holds its lock.
- getPayMoney, getMinTopup and the amount arithmetic of RequestEpay: they would only add easy members.
- ResetDiskCacheUsage, SyncDiskCacheStats and the cleanup of old cache files overwrite counters outside the reservation protocol; the cache configuration is fixed during a run.
- 64-bit overflow of counters, quotas, tokens and file sizes; floating-point rounding (prices and ratios are reals).
- The rate limiter assumes a clock that does not go back, one limit and duration per key, and durations within the expiration, as common/constants.go:251-252 asks.
- Relay: logging, notices, usage records, error normalisation, channel auto-disable, vision routing and the websocket and task relays; a previous error kept after the client left (controller/relay.go:798-802) cannot occur with a single dispatch.
- Relay: trackers, the RPM queue, pricing and pre-consumption are their answers only; a billing session is open or not, holds something to give back or not, and is settled by a successful attempt or not, while topping up a session and what a failed attempt may settle are left out; the queue deadline is a finite number of waits; fallback identifiers are distinct and fixed during a request. A request starts with no channel used and no routing flag set, since nothing outside the relay sets them.
- Regular expressions of ignore rules are an arbitrary predicate; reading the mapping from JSON, the timed checks and automatic application of additions.
- RatioSync.Report: requires channel names to be distinct and no entry to be null or the text "same"; RatioSync.BuildDifferences covers every other input and RatioSync.ReportedIff nulls from upstream.
- Values of price tables that are themselves objects, fetching and converting upstream tables, and rounding of the final ratios.
- MultiKey: keys are non-empty single lines whose joined text is not a JSON array, so text and list agree; an update of the row skips the empty key text, as the database layer does for zero values; paging, adding keys and the bulk enable and disable actions would only add easy members.
- OggScan.OpusDuration: assumes full reads and working seeks; the pre-skip that section 4 of RFC 7845 subtracts is not subtracted by the code either.
- VideoTask: progress text, time stamps and result links; a poll runs alone on its row, so two pollers with the same snapshot are not modelled; the settlement of service/task_polling.go with its guarded status update is not part of this model.
- HTTP handlers, JSON binding, sign-in, payment signatures and the other audio formats.
