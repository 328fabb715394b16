# Wasteland: a verified model

Wasteland is a federated work board kept in Dolt databases: rigs post wanted items, claim
them, submit completions and stamp each other's work, either straight to a shared board or
on fork branches that become pull requests. A hosted service serves the board to browsers,
caches reads, limits request rates, and keeps each user's DoltHub credential.

This project models the parts of it whose promises span several functions, and proves
those promises for every input, every interleaving and every run:

| file | what it models |
|---|---|
| `ReadCache.dfy`, `ReadCacheProtocol.dfy` | the read-through cache with single flight and invalidation; its readers, detached fetches and invalidators interleaved |
| `CacheKeys.dfy`, `CachedReads.dfy` | the cache keys of browse and detail reads, the scope a request resolves to, the selections that invalidate keys, and what a read after a mutation is given |
| `RateLimiter.dfy` | the token bucket and the sweep that forgets idle buckets |
| `Board.dfy`, `BoardInvariant.dfy`, `BoardHistory.dfy` | the tables of the wanted board, the scripts that change them, the transition gate, and whole histories |
| `BoardRetries.dfy` | scripts that are cut off between statements, lose their reply, or run again |
| `Overlay.dfy` | the browse and dashboard overlay of mutation branches over main |
| `PendingPRs.dfy` | the batched evaluation of open pull requests |
| `ConnectionStore.dfy` | connection metadata, connect tokens, optimistic versions, the audit log |
| `ServiceAuth.dfy` | signed service requests, their freshness window and nonces |
| `DekCache.dfy`, `EnvelopeProtocol.dfy` | the data-key cache whose arrays are overwritten with zeros, and decryption through it: one call after another, and concurrent calls interleaved |
| `SharedRefresh.dfy` | the shared pending-items refresh and its stop protocol |
| `Escaping.dfy`, `Csv.dfy` | SQL literal and LIKE escaping, CSV lines: each printer with the reader that undoes it |
| `Runs.dfy`, `Sequences.dfy`, `Texts.dfy`, `Timestamps.dfy`, `Wrappers.dfy` | runs of a state machine, byte strings, column times, and small shared helpers |

## How to read it

Each component has functions on values that say what a step does, written from the source.
Where the source changes objects in place, a class or a method does the same work with the
source's loops and branches and is proved equal to those functions. The theorems are lemmas
about the functions, or about runs: sequences of states and events related by the component's
`Steps`, with a mutex-protected block, a database transaction or a board script as one step.

Clocks, random identifiers, and the answers of databases, forks, key services and credential
checks are parameters. Times are unbounded integers; where a theorem needs a clock that does
not run backwards it says so. A connected client is modelled by what it sends: for the board
that is the gate (`ValidateTransition` and `CanPerformTransition`) evaluated on the current
tables, with the checks of `internal/sdk/mutations.go` on the submitter of a completion. An
update is gated on the status alone, because `CanPerformTransition` never grants it.

Where the code does less than one might hope, the model follows the code and a lemma says
exactly when the property holds:

- `EscapeLIKE` makes a search literal if and only if the query has no backslash
  (`Escaping.BoardSearchIsExactIffNoBackslash`), while the profile search is always literal.
- A signed request can be accepted twice in the microsecond in which its window closes, up
  to the close itself, and at no other time; for a timestamp in whole microseconds that is
  one instant (`ServiceAuth.ReplayVerdict`, `ServiceAuth.LastInstantReplayed`).
- A bucket forgotten by the sweep can exceed the rate limit unless ten idle minutes earn
  the burst of its successor; `RateLimiterRuns.LimitHoldsExactlyWhenEarned` gives the
  condition for every rate, burst and interval. Sweeps may come at any instant there: a
  five-minute tick is served whenever its goroutine runs and gets the lock, so two can be
  ten minutes and a nanosecond apart, and the one in between forgets nothing
  (`RateLimiterRuns.EarlySweepForgetsNothing`).
- A board script runs without a transaction. When a statement fails the earlier ones stay,
  which matters for one operation only: an accepted fork submission whose stamp is turned
  down is left closed without a stamp (`BoardEffects.FailuresLeaveNothingElse`).
- A script that is cut off can leave a broken board. Running it again heals that, unless a
  stamp was issued before the cut: an accept then stays half done, and an accepted fork
  submission loses its stamp even when only the reply was lost
  (`BoardRetries.CutKeepsInvExactly`, `BoardRetries.RetryKeepsInvExactly`).
- When the reply to a claim is lost, the retry reports a conflict although the claim went
  through (`BoardReports.LostReplyLooksLikeConflict`); without lost replies the reports are
  honest (`BoardReports.ReportsAreHonest`).
- A cached data key is found by its digest, so a call is affected by the cache only if an
  earlier wrapped key has the same digest (`EnvelopeCipher.Cipher.Decrypt` for one call
  after another, `EnvelopeProtocol.EveryCallIsExact` for concurrent calls).
- The board invariant survives a submission only with a fresh completion id, a late reject
  only of an item that is not completed, a late accept only of the right unstamped
  completion, and an adoption only before the item is stamped (the four `…Needs…` lemmas of
  `BoardHistory`).
- A browse for one claimer without a status keeps an item that a branch took away from that
  claimer, and a branch that empties the claimer column shows the old one
  (`OverlayTheorems.BrowseIsExactUnlessClaimerLost`, `OverlayTheorems.ListedRowsAreEffective`).

## Model

| member | source | states |
|---|---|---|
| ReadCacheProtocol.StepKeepsInv | internal/api/read_cache.go:98-232 | every step of readers, fetches and invalidators keeps: a live fetch is the current call of its key with the current generation, or it is flagged and strictly older; stored entries come from a finished, successful fetch of the current generation; capacity is respected |
| ReadCacheProtocol.RunKeepsInv | internal/api/read_cache.go:98-232 | that invariant in every reachable state |
| ReadCacheProtocol.SingleFlight | internal/api/read_cache.go:114-135 | of two live fetches of one key at most one is unflagged; it is the one in `inflight`, with the key's generation, and the other is strictly older |
| ReadCacheProtocol.OvertakenFetchIsHarmless | internal/api/read_cache.go:199-223 | a fetch overtaken by an invalidation neither stores its bytes nor removes the newer flight |
| ReadCacheProtocol.InvalidationCleans | internal/api/read_cache.go:155-197 | right after an invalidation covering a key nothing older can be served for it |
| ReadCacheProtocol.StaysClean | internal/api/read_cache.go:98-232 | and no later step makes anything older servable again |
| ReadCacheProtocol.StampsAreTrue | internal/api/read_cache.go:199-210 | the recorded start of every fetch is the step at which its goroutine called the fetch function |
| ReadCacheProtocol.FreshAfterInvalidation | internal/api/read_cache.go:98-252 | a call that begins after an invalidation covering its key is only ever given bytes of a fetch of that key which began after the invalidation, by a hit, a join or a retry |
| ReadCacheProtocol.GenerationCountsBumps | internal/api/read_cache.go:225-232 | a key's generation counts the invalidations that touched it |
| ReadCacheProtocol.RetriesAreBounded | internal/api/read_cache.go:99-151 | a call retries at most once per bump of its key's generation during the call |
| ReadCacheImpl.Call.Wait | internal/api/read_cache.go:234-252 | returns the result of a finished call, or that it was invalidated, even when the context is done too; the context's error only when the call is not finished |
| ReadCacheImpl.Call.Settle | internal/api/read_cache.go:119-126 | the caller retries exactly when the call was invalidated and its own context is still alive |
| ReadCacheImpl.ReadCache.Get | internal/api/read_cache.go:63-74 | returns the bytes of an entry within its maximum age, and nothing else |
| ReadCacheImpl.ReadCache.LookUpOrCreate | internal/api/read_cache.go:100-135 | under the lock: a fresh entry, else the call in flight, else a new call stamped with the key's generation |
| ReadCacheImpl.ReadCache.InvalidateKeyLocked | internal/api/read_cache.go:225-232 | forgets the entry, flags and removes the call in flight, and bumps the generation |
| ReadCacheImpl.ReadCache.InvalidateMatching | internal/api/read_cache.go:180-197 | does that for exactly the cached and in-flight keys that match, in any order |
| ReadCacheImpl.ReadCache.Invalidate | internal/api/read_cache.go:155-170 | does it for every key and leaves both maps empty |
| ReadCacheImpl.ReadCache.EvictLocked | internal/api/read_cache.go:256-277 | keeps exactly as many entries as fit, and drops none newer than one it keeps |
| ReadCacheImpl.ReadCache.CompleteLocked | internal/api/read_cache.go:205-221 | stores only a success of the current generation, and removes only its own flight |
| ReadCacheImpl.ReadCache.CompleteCall | internal/api/read_cache.go:205-222 | does that and then closes `done` |
| ReadCacheSpec.InvalidateOneMore | internal/api/read_cache.go:180-197 | invalidating keys one by one is invalidating the set, whatever the order |
| CacheKeys.BrowseInvalidationIsExact | internal/api/cache_scope.go:103-116 | the browse prefix selects the keys of its upstream, over all viewers, modes and impersonations, and no others |
| CacheKeys.DetailInvalidationIsExact | internal/api/cache_scope.go:118-135 | prefix and suffix together select exactly the keys of that upstream and trimmed item id |
| CacheKeys.DetailKeysAreSound | internal/api/cache_scope.go:118-127 | two detail reads share a key if and only if their trimmed scopes and item ids are equal |
| CacheKeys.CanonicalKeyIsSound | internal/api/handlers.go:334-343 | two canonical browse keys agree if and only if every listed parameter does |
| CacheKeys.BrowseKeysAreSound | internal/api/cache_scope.go:103-112 | two browse reads share a key if and only if their trimmed scopes and all listed parameters agree |
| CacheKeys.SharedKeySharedFilter | internal/api/helpers.go:46-68 | reads that share a browse key parse to the same filter |
| CacheKeys.EscapeInjective | internal/api/cache_scope.go:137-139 | the percent-encoding of a key part is injective (section 2.1 of RFC 3986) |
| CacheKeys.HostedViewersAreSeparate | internal/api/cache_scope.go:151-157 | hosted viewers share a read exactly when they are the same viewer; none shares the anonymous bucket |
| ReadScopes.ScopeIsBoard | internal/api/cache_scope.go:53-101 | a cached read, and a mutation that does not clear everything, is keyed by its board: the alias and the local default included |
| ReadScopes.SharedReadsAreTheSame | internal/api/cache_scope.go:53-112 | two cached reads share a browse entry if and only if they are for the same board, viewer, mode, impersonation and parameters |
| CachedReads.BrowseMutationCovers | internal/api/handlers.go:347-376 | a mutation covers every cached browse of its board, whoever reads; one by a hosted caller without a canonical identity covers the cached browses of every board |
| CachedReads.DetailMutationCovers | internal/api/handlers.go:347-400 | the same for the cached details of the mutated item, or of every item when a whole board is invalidated |
| CachedReads.BrowseAfterMutationIsFresh | internal/api/handlers.go:347-376 | a cached browse of a board, its scope resolved from the request, begun after a mutation of that board, or after any mutation without a canonical identity, never returns data fetched before it |
| CachedReads.DetailAfterMutationIsFresh | internal/api/handlers.go:347-400 | the same for a detail read of the mutated item, of any item after a whole board is invalidated, and of any item of any board after a mutation without a canonical identity |
| CachedReads.MutationSparesOthers | internal/api/handlers.go:347-400 | a mutation with an identity leaves entries, flights and generations of other boards and items untouched |
| RateLimiterImpl.RateLimiter.Allow | internal/api/ratelimit.go:48-77 | whole intervals are refilled up to the burst with the remainder kept on the clock; a token is taken if there is one |
| RateLimiterImpl.RateLimiter.Cleanup | internal/api/ratelimit.go:88-95 | drops exactly the buckets last filled more than ten minutes ago |
| RateLimiterRuns.StepKeepsOk | internal/api/ratelimit.go:48-95 | tokens stay between zero and the burst |
| RateLimiterRuns.RateLimitHolds | internal/api/ratelimit.go:48-95 | when a forgotten bucket would have earned its successor's burst: over any run of requests and sweeps, any window of length D grants a key at most burst + rate * (D / interval + 1) requests |
| RateLimiterRuns.GrantsWithinPlan | internal/api/ratelimit.go:48-95 | with any positive settings, what a run grants is bounded by the refills of the bucket it has and the buckets that sweeps let it create afterwards |
| RateLimiterRuns.LimitHoldsExactlyWhenEarned | internal/api/ratelimit.go:80-98 | for all positive settings the bound holds over all runs and windows if and only if that is so: with F = 10 min + 1 ns, burst <= rate * (F / interval); or 2 * burst <= rate * (2 * (F / interval) + 1) when interval > 1 divides F + 1; or, for an interval above F, burst * ceil(interval / F) <= rate |
| RateLimiterRuns.EvasionBreaksTheLimit | internal/api/ratelimit.go:48-95 | otherwise a burst and k more, each after a sweep that forgets the bucket, exceed the bound |
| RateLimiterRuns.RestIsRepaid | internal/api/ratelimit.go:57-66 | a request a whole interval after the last fill is granted |
| RateLimiterRuns.RefusedOnlyAfterBurst | internal/api/ratelimit.go:48-77 | a key is refused only after its tokens, or a whole burst for a new key, were granted |
| BoardImpl.Database.Run | internal/backend/remote.go:112-119 | runs statements one by one without a transaction; after a failing one the earlier ones stay applied |
| BoardImpl.Database.TryOnce | internal/commons/dolt.go:158-168 | one run of a script: it commits, conflicts when there is nothing to commit, or fails; a killed run has applied a part, and a lost reply hides a commit |
| BoardImpl.Database.Exec | internal/commons/dolt.go:14-25 | up to three runs, every error retried, the last outcome reported |
| BoardImpl.Database.Mutate | internal/commons/commons.go:320-345 | the wrapper of each operation reports exactly that outcome |
| BoardCuts.CutOffHeals | internal/commons/dolt.go:14-25 | a run cut off behind any statement before a stamp is issued, and then a whole run, leave what the whole run alone leaves, but for times: for every operation and any tables |
| BoardRetries.CutKeepsInvExactly | internal/backend/remote.go:99-121 | the writes of a gated operation that stop behind any statement keep the board invariant if and only if that cut is one of the harmless ones |
| BoardRetries.RetryKeepsInvExactly | internal/commons/dolt.go:145-169 | running the whole script of a gated operation again after any cut, a lost reply included, keeps the invariant if and only if no stamp was issued before the cut, or an accept had been through to its end |
| BoardReports.ReportedRunsAreOneRun | internal/commons/dolt.go:14-25 | once the retries report a commit or a conflict, what is committed is the effect of one undisturbed run, whatever was killed or lost before, unless a stamp had been issued |
| BoardReports.ReportsAreHonest | internal/commons/dolt.go:14-25 | without lost replies nothing is committed unreported, and a conflict means that nothing changed |
| BoardReports.LostReplyLooksLikeConflict | internal/commons/commons.go:335-345 | a claim that went through but lost its reply is reported as a conflict |
| BoardInvariant.InvMeans | internal/commons/commons.go:329-380 | the invariant says: open and withdrawn items have no claimer and no completion, claimed ones a claimer and no completion, items under review or completed exactly one completion, by the claimer |
| BoardInvariant.StampsMatchCompletions | internal/commons/commons.go:680-707 | stamps and stamped completions are in one-to-one correspondence |
| BoardHistory.OffersAreExact | internal/commons/lifecycle.go:247-269 | the transitions offered to an actor are exactly those the gate allows, for every transition |
| BoardHistory.OffersAreHonoured | internal/commons/lifecycle.go:247-269 | every offered transition, sent with the client's own arguments, goes through as the transition table says |
| BoardHistory.GatedStepFollowsTheRule | internal/commons/lifecycle.go:30-52 | a transition the gate allows on the current tables always goes through, moves its row where the transition table says and changes no other row |
| BoardHistory.StepKeepsInv | internal/commons/commons.go:276-380 | every gated operation, adoption of a fork's submission included, keeps the board invariant |
| BoardHistory.RunKeepsInv | internal/commons/lifecycle.go:30-52 | so does every run |
| BoardHistory.AcceptingKeepsInv | internal/commons/commons.go:680-707 | accepting an unstamped completion by someone else keeps it |
| BoardHistory.AdoptionKeepsInv | internal/commons/commons.go:713-767 | adopting a fork's submission replaces unstamped completions and keeps it |
| BoardHistory.RejectKeepsInv | internal/commons/commons.go:887-892 | rejecting an item that is not completed keeps it |
| BoardHistory.TerminalIsForever | internal/commons/lifecycle.go:30-39 | completed and withdrawn are never left, and the row and its completions stay frozen |
| BoardHistory.StampsAreForever | internal/commons/commons.go:680-746 | a stamp never changes, and its author is not the completer of the completion it names |
| BoardHistory.StampsArePermanent | internal/commons/commons.go:680-767 | no operation, gated or not, alters an issued stamp |
| BoardEffects.StaleGateIsHarmless | internal/commons/commons.go:329-380 | on whatever read the gate was evaluated, claim, unclaim, done, close, delete and update perform exactly the rule's step on the current row or leave the tables unchanged |
| BoardEffects.LocalStepKeepsInv | internal/commons/commons.go:783-872 | so the invariant survives each of the six ungated, given a fresh completion id |
| BoardHistory.StaleRunKeepsInv | internal/commons/lifecycle.go:30-39 | and every interleaving of them |
| BoardHistory.OneClaimWins | internal/commons/commons.go:329-345 | of any number of racing claims on an open item the first takes effect and every other reports a conflict |
| BoardEffects.PostEffect | internal/commons/commons.go:276-317 | posting adds one open unclaimed item, or nothing when the id or title is empty or the id is taken |
| BoardEffects.AcceptEffect | internal/commons/commons.go:680-707 | accept stamps the named completion and completes an item under review, or does nothing |
| BoardEffects.RejectEffect | internal/commons/commons.go:887-892 | reject drops the item's completions and returns an item under review to its claimer |
| BoardEffects.AcceptUpstreamEffect | internal/commons/commons.go:713-746 | accept-upstream replaces the item's completions by the fork's one, completes the item and then stamps it; it fails exactly when the stamp does not fit, and the adoption stays |
| BoardEffects.CloseUpstreamEffect | internal/commons/commons.go:751-767 | close-upstream does the same without a stamp |
| BoardEffects.FailuresLeaveNothingElse | internal/commons/dolt.go:145-169 | a script that fails has changed nothing, except that an accept-upstream whose stamp is turned down leaves what close-upstream would have left |
| BoardHistory.DoneNeedsAFreshId | internal/commons/commons.go:365-380 | an effective submission keeps the invariant if and only if its completion id is new |
| BoardHistory.RejectNeedsTheGate | internal/commons/commons.go:887-892 | an ungated reject keeps the invariant if and only if the item is not completed |
| BoardHistory.AcceptNeedsItsOwnCompletion | internal/commons/commons.go:680-707 | an ungated accept that goes through keeps it if and only if it first stamps a completion by someone else, of its own item or of a completed one |
| BoardHistory.AdoptionNeedsNoStamp | internal/sdk/mutations.go:144-202 | an adoption keeps it, in any status, if and only if the item has no stamped completion |
| OverlayImpl.DetectBranchOverrides | internal/commons/queries.go:148-173 | finds, for one rig, exactly the items whose branch status differs from main |
| OverlayImpl.DetectAllBranchOverrides | internal/commons/queries.go:195-237 | finds, over all rigs, the first differing branch of each item, and counts the branches of each item |
| OverlayImpl.ApplyBranchOverrides | internal/commons/queries.go:240-304 | computes the overlay specification: corrected or dropped rows, then rows only a branch brings in |
| OverlayImpl.ApplyDashboardOverrides | internal/commons/queries.go:472-543 | the same for a dashboard section |
| OverlayTheorems.OverridesAreMutations | internal/commons/queries.go:195-237 | there is one override, with the branch's status and claimer, for each mutated item and none for others |
| OverlayTheorems.ListedCount | internal/commons/queries.go:240-340 | over an untruncated main result every id is listed once or not at all, and exactly when the effective board passes, or its main row was kept unchecked |
| OverlayTheorems.QueryAgreesWithFilter | internal/commons/queries.go:78-108 | the WHERE clause of the browse query and the overlay's own filter select the same items, without a text or my-items filter |
| OverlayTheorems.BrowseIsExact | internal/commons/queries.go:240-340 | when branches change only lifecycle columns, for filters on status, type, project, priority and poster the listed ids are exactly those of the effective board, once each |
| OverlayTheorems.BrowseIsExactUnlessClaimerLost | internal/commons/queries.go:252-268 | with a claimer filter that holds for an id if and only if no mutation took the item from that claimer while no status is asked for |
| OverlayTheorems.StatusFilteredIsExact | internal/commons/queries.go:472-543 | with a status filter, and so for an untruncated dashboard section, the listed ids are exact whatever the rest of the filter and whatever the branches change |
| OverlayTheorems.ListedRowsAreEffective | internal/commons/queries.go:254-301 | when branches change only lifecycle columns, every listed row has the effective status, and shows the effective item if and only if its branch did not empty the claimer that main still lists |
| OverlayTheorems.OrderIsKept | internal/commons/queries.go:250-266 | rows that no branch overrides are unchanged and keep their order |
| PendingImpl.ListPendingWantedIDs | internal/remote/dolthub.go:889-1217 | for each wanted id the pipeline returns the same multiset of states as evaluating every open pull request alone, whatever order the branches answer in |
| PendingTheorems.BatchingIsTransparent | internal/remote/dolthub.go:926-1141 | grouping by source, comparing with a snapshot that covers the compared ids and fanning rows out lose and add nothing |
| PendingTheorems.ProposalsAreIntentional | internal/remote/dolthub.go:1086-1137 | every proposed state differs from upstream and has a lifecycle status; a claim is the author's own, and an open row of a fork's main is new |
| PendingTheorems.FanOutRows | internal/remote/dolthub.go:1084-1141 | row by row over a group of pull requests is pull request by pull request over the rows |
| PendingTheorems.Regrouping | internal/remote/dolthub.go:926-933 | summing by distinct source is summing over pull requests |
| PendingImpl.FetchRows | internal/remote/dolthub.go:960-1034 | a branch called main is compared with upstream main, any other by its own diff without deletions |
| PendingImpl.CollectRows | internal/remote/dolthub.go:1040-1055 | gathers every branch's rows and every id that has to be compared |
| PendingImpl.FanOut | internal/remote/dolthub.go:1083-1141 | skips rows upstream already has and rejected states, and gives each remaining row to every pull request of its source |
| PendingImpl.ReadCompletions | internal/remote/dolthub.go:1163-1202 | one query for several items gives each its own last completion |
| PendingImpl.AttachCompletions | internal/remote/dolthub.go:1143-1217 | writes to each state past claiming the completion of its own branch and item, and changes no other |
| ConnectionImpl.UserMetadata.FindWasteland | internal/dolthubauth/types.go:36-43 | finds the first entry of an upstream |
| ConnectionImpl.UserMetadata.UpsertWasteland | internal/dolthubauth/types.go:46-54 | replaces it in the slice's array, or appends there while there is room and in a larger array otherwise |
| ConnectionImpl.UserMetadata.RemoveWasteland | internal/dolthubauth/types.go:57-65 | removes it by moving the entries behind it up in the same array, and reports whether there was one |
| ConnectionImpl.UserMetadata.Merged | internal/dolthubauth/types.go:21-33 | a fresh object with the updates applied, in an array of its own: the array of the original, which updates in place would write into, is not touched |
| ConnectionImpl.UserMetadata.Mutate | internal/dolthubauth/store.go:402-463 | the callbacks of the four patch operations |
| MetadataTheorems.FindAfterUpsert | internal/dolthubauth/types.go:46-54 | an upsert answers its own upstream and changes no other answer |
| MetadataTheorems.FindAfterRemove | internal/dolthubauth/types.go:57-65 | a removal makes its upstream unknown and changes no other answer |
| MetadataTheorems.FindAfterMerge | internal/dolthubauth/types.go:21-33 | merging answers every upstream with its last update, else with what was there |
| MetadataTheorems.RemoveKeepsDistinct | internal/dolthubauth/types.go:57-65 | a removal keeps upstreams distinct and drops exactly the entry found |
| ConnectionImpl.ConnectionStore.CreateConnectToken | internal/dolthubauth/store.go:44-74 | reaps expired tokens, then issues one unless its MAC is known |
| ConnectionImpl.ConnectionStore.RedeemConnectToken | internal/dolthubauth/store.go:77-253 | the errors in the source's order, and on success the new or merged active connection with its encrypted credential, the spent token and the audit line, in one step |
| ConnectionImpl.ConnectionStore.PatchMetadata | internal/dolthubauth/store.go:465-536 | changes the row only at the expected version, with a valid result, and bumps the version |
| ConnectionHistory.VersionsCount | internal/dolthubauth/store.go:77-536 | in every run credential_version counts the redemptions of a subject, each with its audit line, and record_version minus credential_version its successful patches |
| ConnectionHistory.CredentialIsTheLastRedeemed | internal/dolthubauth/store.go:77-253 | the credential of a subject, its key version and backend included, is the one of its last redemption, and the connection is active, whatever was patched, issued or redeemed for others since |
| ConnectionHistory.PatchesWhatItRead | internal/dolthubauth/store.go:465-536 | a client that patches with the version it read changes exactly the record it read, whatever ran in between |
| ConnectionHistory.OnePatchPerVersion | internal/dolthubauth/store.go:492-494 | of two patches sent with one version at most one goes through |
| ConnectionHistory.TokenIsSingleUse | internal/dolthubauth/store.go:100-118 | a redeemed token is not redeemed again before it is issued again |
| ConnectionHistory.RedemptionWasApproved | internal/dolthubauth/store.go:100-133 | every redemption goes back to an issue that approved the same metadata for that tenant and had not yet expired |
| ConnectionHistory.StoredMetadataIsValid | internal/dolthubauth/validation.go:13-74 | every stored connection has valid metadata, given the server's check of what is redeemed with |
| ServiceAuth.NonceStore.UseServiceNonce | internal/dolthubauth/store.go:539-554 | reaps, then records the nonce unless it is known |
| ServiceAuth.NonceStore.VerifyServiceRequest | internal/dolthubauth/service_auth.go:124-197 | key, timestamp, window, nonce, body hash, scope and signature are checked in turn; only an authentic request uses its nonce |
| ServiceAuth.SignatureCoversTheRequest | internal/dolthubauth/service_auth.go:51-66 | for fields without line breaks the signed base string determines all ten fields |
| ServiceAuth.ReplayOnlyInTheLastMicrosecond | internal/dolthubauth/service_auth.go:148-195 | with a clock that never runs backwards and expiries kept in microseconds, two requests with one key, nonce and timestamp are both accepted only if the second comes in the microsecond of timestamp + 5 minutes and not after it; at that very instant, for a timestamp in whole microseconds |
| ServiceAuth.ReplayVerdict | internal/dolthubauth/store.go:573-579 | sent again right after acceptance a request is a replay before that microsecond, accepted in it up to the close of the window, and stale after that |
| ServiceAuth.LastInstantReplayed | internal/dolthubauth/store.go:573-579 | the instant exists: a concrete request accepted twice |
| KeyNames.CacheKeyDetermines | internal/dolthubauth/kms.go:215-218 | two cache keys are equal if and only if the trimmed key versions and the digests of the wrapped keys are |
| DekCacheImpl.ClearBytes | internal/dolthubauth/kms.go:305-309 | zeroes the array |
| DekCacheImpl.DekCache.Get | internal/dolthubauth/kms.go:244-263 | returns a fresh copy of a live key and renews its use; an expired one is zeroed and dropped; no other key's bytes change |
| DekCacheImpl.DekCache.Set | internal/dolthubauth/kms.go:265-281 | stores a copy, zeroes what it replaces or evicts, stays within capacity, and evicts only expired entries or ones no more recently used than every kept one |
| DekCacheImpl.DekCache.Oldest | internal/dolthubauth/kms.go:291-297 | the scan, with the empty key as its sentinel, finds a least recently used entry |
| DekCacheImpl.DekCache.EvictLocked | internal/dolthubauth/kms.go:283-303 | drops the expired, then the least recently used down to capacity and no further; it terminates because the empty key is never stored |
| EnvelopeCipher.GenuineSharesDigest | internal/dolthubauth/kms.go:215-218 | a cached key is the key service's answer for some known wrapped key of the same digest |
| EnvelopeCipher.SeparatedKeysNeverCollide | internal/dolthubauth/kms.go:215-218 | a hash that separates the wrapped keys in use is collision-free at every call |
| EnvelopeCipher.Cipher.DataKey | internal/dolthubauth/kms.go:168-181 | the working key is the key service's answer for a wrapped key of the same digest, in an array the cache never holds |
| EnvelopeCipher.Cipher.Decrypt | internal/dolthubauth/kms.go:150-196 | with or without a cache, after any sequence of calls, decryption returns what it would return without one, unless another wrapped key cached before has the same digest |
| EnvelopeProtocol.StepKeepsInv | internal/dolthubauth/kms.go:168-309 | with calls interleaved between the locked Get and Set: every buffer has one user, cached keys are genuine, and what is dropped is zero |
| EnvelopeProtocol.EveryCallIsExact | internal/dolthubauth/kms.go:150-196 | in every interleaving, a call returns what it would return without a cache and without the others, unless another wrapped key with its digest had been cached when it asked |
| EnvelopeProtocol.SeparatedRunIsExact | internal/dolthubauth/kms.go:215-218 | a hash that separates the wrapped keys of a run makes every one of its calls exact |
| EnvelopeProtocol.NoKeyIsLeftBehind | internal/dolthubauth/kms.go:244-309 | a buffer that is not all zero is cached under a key or held by one call still at work, never both: finished calls and dropped entries leave no data key behind |
| EnvelopeProtocol.CacheFits | internal/dolthubauth/kms.go:265-303 | the cache stays within its capacity in every reachable state |
| SharedRefreshImpl.PendingUpstreamCache.StartRefresh | internal/hosted/shared_cache.go:155-186 | joins the refresh in flight, starts one, or answers from the snapshot without a provider or after a stop |
| SharedRefreshImpl.PendingUpstreamCache.Get | internal/hosted/shared_cache.go:73-83 | returns the snapshot and starts a refresh only when it is old, present, and none runs |
| SharedRefreshImpl.PendingUpstreamCache.GetContext | internal/hosted/shared_cache.go:85-94 | returns a fresh snapshot, else waits for a refresh |
| SharedRefreshImpl.Await | internal/hosted/shared_cache.go:96-107 | the wait ends with the refresh's own result or error, or with the context's error if that is done |
| SharedRefreshImpl.PendingUpstreamCache.RunRefresh | internal/hosted/shared_cache.go:188-205 | publishes a success, clears only its own flight, then sets the result and closes `done` |
| SharedRefreshImpl.PendingUpstreamCache.CloseStop | internal/hosted/shared_cache.go:64-71 | the locked part of Stop marks the cache stopped and touches nothing else; the wait that follows is a step of the protocol |
| SharedRefreshProtocol.StepKeepsInv | internal/hosted/shared_cache.go:64-205 | every step keeps: only the refresh in flight is before its clearing, results are set before `done` closes, snapshots are in order, the wait group counts the running goroutines |
| SharedRefreshProtocol.OneFetchAtATime | internal/hosted/shared_cache.go:155-186 | at most one upstream fetch runs, and it is the one in flight |
| SharedRefreshProtocol.SnapshotsAreOrdered | internal/hosted/shared_cache.go:119-153 | snapshots replace one another in the order their fetches started, each once, and the cached one is the last |
| SharedRefreshProtocol.WaitersSeeTheResult | internal/hosted/shared_cache.go:188-205 | `done` is closed at most once, with the fetch's result already set and a success already published |
| SharedRefreshProtocol.ResultIsFinal | internal/hosted/shared_cache.go:96-107 | what a waiter reads after `done` never changes |
| SharedRefreshProtocol.NothingAfterStop | internal/hosted/shared_cache.go:64-71 | once Stop has returned no refresh is running, none ever starts, and the snapshot stays |
| SharedRefreshProtocol.StopCanReturn | internal/hosted/shared_cache.go:64-71 | every goroutine Stop waits for can take its next step, and Stop can return exactly when none is left |
| Escaping.LiteralRoundTrip | internal/commons/commons.go:231-235 | reading the literal of an escaped string gives the string back and stops at the final quote |
| Escaping.ReadEscaped | internal/commons/commons.go:231-235 | inside any literal an escaped string reads back as itself |
| Escaping.SearchIsExact | internal/pile/profile.go:363-370 | a profile search matches exactly the strings that contain the query |
| Escaping.SearchPattern | internal/pile/profile.go:569-577 | the LIKE pattern of an escaped query between percent signs means containment |
| Escaping.BoardSearchIsExactIffNoBackslash | internal/commons/commons.go:237-244 | the board's search pattern means containment if and only if the query has no backslash |
| Csv.FormatRow | internal/backend/csv.go:58-75 | a row is the comma-join of its quoted fields |
| Csv.ParseLine | cmd/wl/cmd_browse.go:366-392 | the scanner computes the field list |
| Csv.LineRoundTrip | cmd/wl/cmd_browse.go:366-392 | for every nonempty field list, scanning the joined quoted fields gives the list back (section 2 of RFC 4180, rules 5 to 7) |
| Csv.RowRoundTrip | internal/backend/csv.go:142-175 | every row is read back cell by cell, NULL and missing cells as empty |

## Left out

- HTTP handlers, commands, the terminal and web interfaces, subprocesses, the DoltHub and GitHub clients, tracing and environment settings: input and output.
- `GetStale` and `GetOrFetch` of the read cache: a lookup without an age, and a wrapper.
- ReadCacheImpl.ReadCache.LookUpOrCreate: `GetOrFetchContext` as a whole waits on channels, so it is a protocol of steps rather than one method; the methods are its locked blocks and its waits.
- ReadCacheImpl.ReadCache.EvictLocked: the library sort is an insertion sort; entries stored at the same time may be dropped in any order, as in the source.
- RateLimiterImpl.RateLimiter.Allow: buckets are values in the map rather than pointers, so it does not show the update through the pointer.
- Trimming removes the ASCII spaces only; the Unicode ones that `strings.TrimSpace` also removes are not modelled.
- BoardImpl.Database.Exec: statements are syntax trees, not SQL text, and a failing one is a duplicate id or a stamp for its own author. Branch checkouts around a script, and collations that compare without case, are not modelled. Hop URIs, skill tags, messages and scores of a stamp, and creation times, are not columns of the model.
- Round trips of `formatTagsJSON`: its tags keep backslashes and quotes only in part.
- BoardHistory.StepKeepsInv: the invariant is not claimed for accept or reject on a stale gate; the `…Needs…` lemmas say when it holds.
- OverlayTheorems.BrowseIsExact: not claimed for text search, for the my-items filter or for truncated results; the server and the overlay compare search text differently, and the browse and dashboard queries carry a LIMIT.
- OverlayImpl.DetectBranchOverrides: branch queries are assumed to succeed; branch names are distinct, as a database lists them.
- PendingImpl.ListPendingWantedIDs: all queries succeed, or report a missing repository; goroutines appear as an arbitrary order of results. The branch URL is a rendering of fields the model keeps.
- ConnectionImpl.ConnectionStore.RedeemConnectToken: the distinction of a null from an empty list of wastelands, which the server's validation excludes, is not modelled; the credential check and encryption are inputs.
- ServiceAuth.NonceStore.VerifyServiceRequest: time parsing, hash and MAC are deterministic functions and the request target is given in canonical form; verifying and recording are one step. That the driver cuts times off to microseconds, rather than rounding them, is taken as given.
- EnvelopeCipher.Cipher.Decrypt: one call at a time; interleaved calls are the steps of `EnvelopeProtocol`. AES-GCM, unwrapping and hashing are deterministic functions; JSON decoding is an input. Encryption is not modelled.
- SharedRefreshImpl.PendingUpstreamCache.GetContext: the wait it ends in is `Await`, not part of the method.
- `AuthServiceWorkspaceResolver`, push targets, trust tiers, labels and profile sheets: not part of this model.
- Csv.ParseLine: one line at a time; the document reader trims and splits on newlines first. Numbers arrive as their text.
