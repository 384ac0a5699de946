# Feature-flag cache: a Dafny model

This project models the in-memory feature-flag cache in
`common/featureflag/featureflag.go`. The cache answers "is feature flag `key`
enabled for guild `guildID`". Per guild it keeps a map from flag key to a
16-bit mask `LoadedFlags`. Bit 0 (`LoadedFlagEnabled`) holds the enabled
status. Bit 1 (`LoadedFlagFetching`) marks a pair being fetched from the
database. A lookup does one of three things:
- it waits while the pair is being fetched;
- it answers from a loaded entry;
- it claims an absent pair by storing exactly the fetching mask, then fetches.

A successful fetch stores `LoadedFlagEnabled` or `0`. A fetch that fails or
panics deletes the entry in a deferred block, so a later caller fetches again.

Files and modules:
- `flag_table.dfy`, module `FlagTable`: the bit mask, the nested table
  `map<int64, map<K, LoadedFlags>>`, and each critical section as a pure
  transition. `LookupStep` is a lookup pass, `Publish` a successful fetch and
  `Discard` the failure cleanup. `Machine` is the table plus the set of
  outstanding claims, and `Step` is one critical section of any caller.
- `flag_traces.dfy`, module `FlagTraces`: runs, meaning any interleaving of
  the critical sections of any number of callers. It proves single flight,
  that a loaded pair is terminal, that different pairs are isolated, that
  waiters never claim, and that a failed fetch is retried.
- `feature_flag.dfy`, module `FeatureFlag`: class `FlagCache`. Its field
  `loadedGuildFlags` is updated in place, and a ghost set `claims` records the
  pairs claimed and not yet resolved. `Lookup`, `FinishSuccess` and
  `FinishFailure` are one critical section each, and the `ensures` of each ties
  the new state to `FlagTable.Step` of the old state. `FetchFlag` runs
  `FinishSuccess` or `FinishFailure`. `GetFeatureFlagEnabled` runs `Lookup` and
  then, for a claimed pair, `FetchFlag`, so it covers two critical sections. Its
  `ensures` states the reply and the final table through `Publish` and
  `EnsureGuild`.
- `scenarios.dfy`, module `FlagScenarios`: two clients of the class. In one,
  many callers of a pair share one fetch. In the other, a fetch that fails
  with a backend error is fetched again and succeeds on retry.
- `lock_accounting.dfy`, module `LockAccounting`: the order of one caller's
  mutex operations on each path, for the finding below.

Modelling choices:
- The guild id is a 64-bit signed `newtype int64`.
- The flag key (Go `interface{}`) is a type parameter with equality.
- `LoadedFlags` (Go `int16`) is `bv16`. The code uses only its bit pattern,
  and `&` on `int16` is bitwise on that pattern.
- The fetch result is an input, `FetchOutcome`: a value, an error, or a panic.
  The error is an opaque type parameter `E`.
- A caller that would block on the condition variable gets `MustWait` (or
  `Waiting` from `GetFeatureFlagEnabled`).
- Go's `guildStore` is a reference to the guild's inner map. The model writes
  the updated inner map back into the table, which has the same effect
  because a guild's store is never replaced or removed.

## Model

| member | source | states |
|---|---|---|
| FlagTable.FlagBitsAreDistinctSingleBits | common/featureflag/featureflag.go:28-36 | `LoadedFlagEnabled` is 1 and `LoadedFlagFetching` is 2, they share no bit, and each decodes as only its own flag |
| FlagTable.Flags | common/featureflag/featureflag.go:28-36 | any choice of the enabled bit and the fetching bit decodes back to that same choice, so the two bits are independent |
| FlagTable.PublishedFlags | common/featureflag/featureflag.go:108-111 | the mask a successful fetch builds has the fetching bit clear and the enabled bit equal to the fetched value |
| FlagTable.EnsureGuild | common/featureflag/featureflag.go:51-55 | afterwards the guild has a store, empty if it had none before; the guilds are the old ones plus this one, and every existing store is unchanged |
| FlagTable.LookupStep | common/featureflag/featureflag.go:51-75 | a pair being fetched gives `MustWait` and leaves the table unchanged; a loaded pair gives `Hit` with exactly its enabled bit and leaves the table unchanged; an absent pair is claimed, and its entry becomes exactly `LoadedFlagFetching`; the result is `Claimed` if and only if the pair was absent; no other pair or guild store changes |
| FlagTable.Publish | common/featureflag/featureflag.go:113-114 | the entry becomes the published mask, so the pair is loaded with the fetched value; no other entry and no guild changes |
| FlagTable.Discard | common/featureflag/featureflag.go:93-94 | the entry is deleted, so the pair is absent; no other entry and no guild changes |
| FlagTable.ClaimThenDiscard | common/featureflag/featureflag.go:71-94 | a claim followed by the failure cleanup gives back the table from before the claim, plus the guild store created lazily |
| FlagTable.Step | common/featureflag/featureflag.go:47-118 | every critical section keeps all stored masks among 0, 1 and 2, and keeps the claimed pairs equal to the pairs with the fetching bit; only the event's own pair changes |
| FlagTraces.SingleFlight | common/featureflag/featureflag.go:59-75 | over any run, the in-flight count (start, plus fetches claimed minus fetches ended, counted along the run) equals whether the pair is claimed at the end; so it is never above 1, and a pair is never fetched twice at once |
| FlagTraces.LoadedIsTerminal | common/featureflag/featureflag.go:59-68 | once loaded, a pair stays loaded with the same value through any run, and a later lookup returns that value without changing the table |
| FlagTraces.Isolation | common/featureflag/featureflag.go:72-114 | a critical section for one pair leaves every other pair's state and claim unchanged |
| FlagTraces.WaitersNeverClaim | common/featureflag/featureflag.go:59-64 | while a pair is being fetched, any number of lookups of it all wait, start no fetch, and change nothing |
| FlagTraces.FailedFetchIsRetried | common/featureflag/featureflag.go:71-99 | for an absent pair, a claim followed by a failed fetch leaves the pair absent with the claims as before, and the next lookup claims it again |
| FlagTraces.ManyCallersShareOneFetch | common/featureflag/featureflag.go:57-118 | one claim, `n` waiting lookups, a successful fetch and `n` re-checks form a valid run, start exactly one fetch, and end with the pair loaded and answered by `Hit` |
| FlagTraces.LoadedAnsweredByHits | common/featureflag/featureflag.go:59-68 | any number of lookups of a loaded pair are a valid run, start no fetch, and change nothing |
| FeatureFlag.FlagCache.constructor | common/featureflag/featureflag.go:41 | the cache starts with an empty guild table and no claims |
| FeatureFlag.FlagCache.Lookup | common/featureflag/featureflag.go:47-75 | the new state is `Step` of the old state on the lookup; fetching gives `MustWait` with the table unchanged; loaded gives `Hit` of its bit with the table unchanged; it claims only an absent pair that had no claim, and adds exactly that pair to the claims |
| FeatureFlag.FlagCache.FinishSuccess | common/featureflag/featureflag.go:107-118 | the claim is released; the stored mask has the fetching bit clear and the enabled bit equal to the result returned, which is the fetched value |
| FeatureFlag.FlagCache.FinishFailure | common/featureflag/featureflag.go:88-99 | the claim is released, and the pair's entry is deleted, so the pair is absent again |
| FeatureFlag.FlagCache.FetchFlag | common/featureflag/featureflag.go:81-119 | success publishes and returns `(enabled, nil)`; an error deletes the entry and returns `(false, err)` with a non-nil error; a panic deletes the entry and is passed on; a claim never survives the call |
| FeatureFlag.FlagCache.GetFeatureFlagEnabled | common/featureflag/featureflag.go:46-79 | a loaded pair returns its value with a nil error; a pair being fetched waits; an absent pair is fetched, and on success it is stored; on an error or a panic the table is as before, apart from the new guild store; the claims are the same after the call as before it |
| FeatureFlag.PublishAfterClaim | common/featureflag/featureflag.go:72-114 | publishing over a claimed entry gives the same table as publishing over the table before the claim |
| FlagScenarios.CallersShareOneFetch | common/featureflag/featureflag.go:57-118 | with one claiming caller and any number of callers waiting on it, exactly one fetch is made, and every caller gets `true` |
| FlagScenarios.RetryAfterBackendError | common/featureflag/featureflag.go:81-105 | a first call whose fetch fails returns `(false, error)`; a second call fetches again and returns `(true, nil)` |
| LockAccounting.AsWrittenFetchReleasesUnheldMutex | common/featureflag/featureflag.go:47-115 | in the code as written, both fetch paths end by releasing a mutex the caller no longer holds; the path answered from the table is balanced |
| LockAccounting.CorrectedLockOpsBalance | common/featureflag/featureflag.go:47-115 | with the lookup's final unlock kept off the fetch path, every path acquires before each release and ends with the mutex not held |

## Left out

- `bot/featureflags.go`: an unfinished stub whose `GetFeatureFlagEnabled` has an empty body and whose map and mutex are never used, so it has no behaviour to model.
- The mutex and the condition variable (`Lock`, `Unlock`, `Wait`, `Broadcast`): blocking, waking and thread interleaving are concurrency. Each critical section is one atomic method, and any interleaving of them is a run in `FlagTraces`. `LockAccounting` models only the order of one caller's lock operations.
- The re-check `for` loop at lines 57-76 is not a loop here. Going round it again needs a wake-up from another caller, so one pass is one `Lookup`, and a second pass is a later `Lookup` in a run.
- No claim that the lock balances in the original code: as written it does not (see Findings).
- FlagTraces.SingleFlight, FlagTraces.Isolation and FeatureFlag.FlagCache.GetFeatureFlagEnabled assume that each critical section runs atomically under the lock, which holds only with the corrected lock order. As written, the deferred `Unlock` at line 48 either ends the process or releases another caller's lock, which breaks that atomicity. These members therefore describe the cache with its lock order corrected.
- The fetch function `fetchGuildEnabled` (a database call) and the registry `registeredFeatureFlags`. The fetch's result is the input `FetchOutcome`. The registry is never filled in the code shown, so the nil-definition panic at line 102 is covered by the `FetchPanicked` outcome.
- `errors.WithStackIf` (line 104) only adds a stack trace. The model returns the backend error itself, as an opaque value.
- The unused fields `Name`, `Plugin` and `guildStatuses` of `FeatureFlag`, and the unreachable `return false, nil` at line 78.

## Findings

| source | as written | input that shows it | evidently intended | confidence | as-written member | corrected member |
|---|---|---|---|---|---|---|
| common/featureflag/featureflag.go:48 | `GetFeatureFlagEnabled` defers `Unlock` for every return, but `fetchFlag` has already released the lock (line 84), then locked and unlocked around the publication (113-115) or the cleanup (93-95) | any call for an absent pair: the deferred `Unlock` at line 48 runs on a mutex this caller no longer holds. Go treats that as a fatal error, or it releases another caller's lock | the lookup's own unlock happens only when it answers from the table, or `fetchFlag` returns holding the lock | not executed | LockAccounting.AsWrittenFetchReleasesUnheldMutex | LockAccounting.CorrectedLockOpsBalance |
