/**
 * Two client runs of the cache, from what the cache promises its callers:
 * many callers of one pair share one fetch, and a failed fetch is retried.
 */
module FlagScenarios {
  import opened FlagTable
  import opened FeatureFlag

  /** One caller claims guild 42's key "K1"; `waiters` more callers look it
      up while it is being fetched and all wait; the fetch returns `true`;
      the waiters re-check and all read `true`. Exactly one fetch is made,
      and every caller gets `true`. */
  method CallersShareOneFetch(waiters: nat) returns (fetches: nat, answers: seq<bool>)
    ensures fetches == 1
    ensures |answers| == waiters + 1 && forall i :: 0 <= i < |answers| ==> answers[i]
  {
    var cache := new FlagCache<string>();
    fetches := 0;
    var r := cache.Lookup(42, "K1");
    fetches := fetches + (if r == Claimed then 1 else 0);
    ghost var claimed := cache.State();
    var i := 0;
    while i < waiters
      invariant 0 <= i <= waiters
      invariant cache.Valid() && cache.State() == claimed
      invariant (42, "K1") in cache.claims
      invariant fetches == 1
    {
      r := cache.Lookup(42, "K1");
      fetches := fetches + (if r == Claimed then 1 else 0);
      i := i + 1;
    }
    var enabled := cache.FinishSuccess(42, "K1", true);
    answers := [enabled];
    i := 0;
    while i < waiters
      invariant 0 <= i <= waiters
      invariant cache.Valid() && StateOf(cache.loadedGuildFlags, 42, "K1") == Loaded(true)
      invariant |answers| == i + 1 && forall j :: 0 <= j < |answers| ==> answers[j]
    {
      r := cache.Lookup(42, "K1");
      answers := answers + [r.enabled];
      i := i + 1;
    }
  }

  /** Guild 7's key "K2": the first call's fetch fails with a backend error,
      which that caller receives; the entry is not poisoned, so the second
      call fetches again and gets `true`. */
  method RetryAfterBackendError() returns (first: Reply<string>, second: Reply<string>)
    ensures first == Returned(false, Some("backend down"))
    ensures second == Returned(true, None)
  {
    var cache := new FlagCache<string>();
    first := cache.GetFeatureFlagEnabled(7, "K2", FetchFailed("backend down"));
    second := cache.GetFeatureFlagEnabled(7, "K2", Fetched(true));
  }
}
