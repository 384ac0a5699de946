/**
 * The process-wide feature-flag cache: the nested map `loadedGuildFlags`,
 * updated in place by the critical sections of `GetFeatureFlagEnabled` and
 * `fetchFlag`. Each critical section is one atomic method here; the lock,
 * the condition variable and blocking are not modelled, and a caller that
 * would block on the condition variable gets `MustWait` instead.
 */
module FeatureFlag {
  import opened FlagTable

  /** What the database fetch of a flag did: returned a value, returned an
      error, or panicked. It is an input of the model, not a call. */
  datatype FetchOutcome<E> = Fetched(enabled: bool) | FetchFailed(err: E) | FetchPanicked

  /** What a caller of the cache sees: a value and an error (`None` is a nil
      error), a wait on the condition variable, or a panic passed on. */
  datatype Reply<E> = Returned(enabled: bool, err: Option<E>) | Waiting | Panicked

  class FlagCache<K(==,!new)> {
    var loadedGuildFlags: Table<K>
    /** The pairs claimed by some caller whose fetch has not yet resolved. */
    ghost var claims: set<(int64, K)>

    ghost function State(): Machine<K>
      reads this
    {
      Machine(loadedGuildFlags, claims)
    }

    ghost predicate Valid()
      reads this
    {
      Inv(State())
    }

    constructor ()
      ensures Valid()
      ensures loadedGuildFlags == map[] && claims == {}
    {
      loadedGuildFlags := map[];
      claims := {};
    }

    /** One lock-held pass of the lookup loop, up to the fetch. */
    method Lookup(g: int64, k: K) returns (r: LookupResult)
      requires Valid()
      modifies this
      ensures Valid() && State() == Step(old(State()), Call(g, k))
      ensures r == LookupStep(old(loadedGuildFlags), g, k).result
      ensures loadedGuildFlags == LookupStep(old(loadedGuildFlags), g, k).table
      ensures old(StateOf(loadedGuildFlags, g, k)) == Fetching ==>
                r == MustWait && loadedGuildFlags == old(loadedGuildFlags)
      ensures forall b :: old(StateOf(loadedGuildFlags, g, k)) == Loaded(b) ==>
                r == Hit(b) && loadedGuildFlags == old(loadedGuildFlags)
      ensures r == Claimed <==> old(StateOf(loadedGuildFlags, g, k)) == Absent
      ensures r == Claimed ==> (g, k) !in old(claims) && claims == old(claims) + {(g, k)}
      ensures r != Claimed ==> claims == old(claims)
    {
      var guildStore: map<K, LoadedFlags>;
      if g in loadedGuildFlags {
        guildStore := loadedGuildFlags[g];
      } else {
        guildStore := map[];
        loadedGuildFlags := loadedGuildFlags[g := guildStore];
      }
      if k in guildStore {
        var flags := guildStore[k];
        if flags & LoadedFlagFetching != 0 {
          return MustWait;
        }
        return Hit(flags & LoadedFlagEnabled != 0);
      }
      assert (g, k) !in claims by {
        assert !InFlight(loadedGuildFlags, (g, k));
      }
      guildStore := guildStore[k := LoadedFlagFetching];
      loadedGuildFlags := loadedGuildFlags[g := guildStore];
      claims := claims + {(g, k)};
      r := Claimed;
    }

    /** Publication of a successful fetch by the caller that claimed the pair. */
    method FinishSuccess(g: int64, k: K, enabled: bool) returns (res: bool)
      requires Valid() && (g, k) in claims
      modifies this
      ensures Valid() && State() == Step(old(State()), Succeed(g, k, enabled))
      ensures (g, k) !in claims
      ensures res == enabled
      ensures g in loadedGuildFlags && k in loadedGuildFlags[g]
      ensures !IsFetching(loadedGuildFlags[g][k]) && IsEnabled(loadedGuildFlags[g][k]) == res
    {
      ClaimedPairIsStored(State(), g, k);
      var f: LoadedFlags := 0;
      if enabled {
        f := LoadedFlagEnabled;
      }
      loadedGuildFlags := loadedGuildFlags[g := loadedGuildFlags[g][k := f]];
      claims := claims - {(g, k)};
      res := enabled;
    }

    /** The deferred cleanup of a fetch that failed or panicked. */
    method FinishFailure(g: int64, k: K)
      requires Valid() && (g, k) in claims
      modifies this
      ensures Valid() && State() == Step(old(State()), Fail(g, k))
      ensures (g, k) !in claims && StateOf(loadedGuildFlags, g, k) == Absent
    {
      ClaimedPairIsStored(State(), g, k);
      loadedGuildFlags := loadedGuildFlags[g := loadedGuildFlags[g] - {k}];
      claims := claims - {(g, k)};
    }

    /** The fetch of a claimed pair, with the fetch's outcome given: success
        publishes the value; an error or a panic runs the deferred cleanup,
        which deletes the entry. */
    method FetchFlag<E>(g: int64, k: K, outcome: FetchOutcome<E>) returns (reply: Reply<E>)
      requires Valid() && (g, k) in claims
      modifies this
      ensures Valid() && (g, k) !in claims
      ensures outcome.Fetched? ==>
                && State() == Step(old(State()), Succeed(g, k, outcome.enabled))
                && reply == Returned(outcome.enabled, None)
      ensures !outcome.Fetched? ==> State() == Step(old(State()), Fail(g, k))
      ensures outcome.FetchFailed? ==> reply == Returned(false, Some(outcome.err))
      ensures outcome.FetchPanicked? ==> reply == Panicked
    {
      var deleteFlag := true;
      match outcome {
        case FetchFailed(err) =>
          reply := Returned(false, Some(err));
        case FetchPanicked =>
          reply := Panicked;
        case Fetched(enabled) =>
          deleteFlag := false;
          var res := FinishSuccess(g, k, enabled);
          reply := Returned(res, None);
      }
      if deleteFlag {
        FinishFailure(g, k);
      }
    }

    /** One call of the cache by a caller that does not have to wait, or up
        to the wait for one that does. */
    method GetFeatureFlagEnabled<E>(g: int64, k: K, outcome: FetchOutcome<E>) returns (reply: Reply<E>)
      requires Valid()
      modifies this
      ensures Valid() && claims == old(claims)
      ensures old(StateOf(loadedGuildFlags, g, k)) == Fetching ==>
                reply == Waiting && loadedGuildFlags == old(loadedGuildFlags)
      ensures forall b :: old(StateOf(loadedGuildFlags, g, k)) == Loaded(b) ==>
                reply == Returned(b, None) && loadedGuildFlags == old(loadedGuildFlags)
      ensures old(StateOf(loadedGuildFlags, g, k)) == Absent ==>
                match outcome
                case Fetched(b) =>
                  && reply == Returned(b, None)
                  && loadedGuildFlags == Publish(EnsureGuild(old(loadedGuildFlags), g), g, k, b)
                case FetchFailed(err) =>
                  reply == Returned(false, Some(err)) && loadedGuildFlags == EnsureGuild(old(loadedGuildFlags), g)
                case FetchPanicked =>
                  reply == Panicked && loadedGuildFlags == EnsureGuild(old(loadedGuildFlags), g)
    {
      ghost var t := loadedGuildFlags;
      var r := Lookup(g, k);
      match r {
        case Hit(enabled) =>
          reply := Returned(enabled, None);
        case MustWait =>
          reply := Waiting;
        case Claimed =>
          reply := FetchFlag(g, k, outcome);
          ClaimThenDiscard(t, g, k);
          PublishAfterClaim(t, g, k);
      }
    }
  }

  /** Publishing over a claim is publishing over the table before the claim. */
  lemma PublishAfterClaim<K(!new)>(t: Table<K>, g: int64, k: K)
    requires StateOf(t, g, k) == Absent
    ensures forall b :: Publish(LookupStep(t, g, k).table, g, k, b) == Publish(EnsureGuild(t, g), g, k, b)
  {
    var t1 := EnsureGuild(t, g);
    forall b ensures Publish(LookupStep(t, g, k).table, g, k, b) == Publish(t1, g, k, b) {
      assert t1[g][k := LoadedFlagFetching][k := PublishedFlags(b)] == t1[g][k := PublishedFlags(b)];
    }
  }
}
