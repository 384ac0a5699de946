/**
 * Runs of the cache: any interleaving of the critical sections of any number
 * of callers, each a `FlagTable.Event`. The lemmas state what the
 * claim/wait/publish protocol guarantees over a whole run.
 */
module FlagTraces {
  import opened FlagTable

  /** `es` can be executed from `m`: every resolution is made by a claimer. */
  ghost predicate Runs<K(!new)>(m: Machine<K>, es: seq<Event<K>>)
    decreases |es|
  {
    Inv(m) && (es == [] || (Allowed(m, es[0]) && Runs(Step(m, es[0]), es[1..])))
  }

  ghost function Run<K(!new)>(m: Machine<K>, es: seq<Event<K>>): (m': Machine<K>)
    requires Runs(m, es)
    ensures Inv(m')
    decreases |es|
  {
    if es == [] then m else Run(Step(m, es[0]), es[1..])
  }

  /** The number of lookups in `es` that claimed `p`, i.e. fetches started. */
  ghost function FetchesStarted<K(!new)>(m: Machine<K>, es: seq<Event<K>>, p: (int64, K)): nat
    requires Runs(m, es)
    decreases |es|
  {
    if es == [] then 0
    else
      var e := es[0];
      var started := e.Call? && (e.guild, e.key) == p
                     && LookupStep(m.table, e.guild, e.key).result == Claimed;
      (if started then 1 else 0) + FetchesStarted(Step(m, e), es[1..], p)
  }

  /** The number of fetches of `p` that ended (published or cleaned up) in `es`. */
  ghost function FetchesEnded<K(!new)>(es: seq<Event<K>>, p: (int64, K)): nat
  {
    if es == [] then 0
    else (if !es[0].Call? && (es[0].guild, es[0].key) == p then 1 else 0) + FetchesEnded(es[1..], p)
  }

  function InFlightAtStart<K(==)>(m: Machine<K>, p: (int64, K)): nat
  {
    if p in m.claims then 1 else 0
  }

  /** Single flight: counting the fetches started and ended along the run,
      the pair has exactly one fetch in flight while it is claimed and none
      otherwise; so no run ever has two fetches of one pair in flight. */
  lemma {:induction false} SingleFlight<K(!new)>(m: Machine<K>, es: seq<Event<K>>, p: (int64, K))
    requires Runs(m, es)
    ensures InFlightAtStart(m, p) + FetchesStarted(m, es, p) - FetchesEnded(es, p)
            == InFlightAtStart(Run(m, es), p)
    ensures InFlightAtStart(m, p) + FetchesStarted(m, es, p) - FetchesEnded(es, p) <= 1
    ensures p in Run(m, es).claims <==> InFlight(Run(m, es).table, p)
    decreases |es|
  {
    if es != [] {
      var e := es[0];
      var m1 := Step(m, e);
      if (e.guild, e.key) == p {
        if e.Call? {
          var s := LookupStep(m.table, e.guild, e.key);
          if s.result == Claimed {
            assert !InFlight(m.table, p);
          }
        }
      }
      SingleFlight(m1, es[1..], p);
    }
  }

  /** Once a pair is loaded it stays loaded with the same value through any
      run, and a lookup after the run answers that value without touching the
      table or claiming anything. */
  lemma {:induction false} LoadedIsTerminal<K(!new)>(m: Machine<K>, es: seq<Event<K>>, g: int64, k: K, b: bool)
    requires Runs(m, es)
    requires StateOf(m.table, g, k) == Loaded(b)
    ensures StateOf(Run(m, es).table, g, k) == Loaded(b)
    ensures LookupStep(Run(m, es).table, g, k) == Transition(Hit(b), Run(m, es).table)
    decreases |es|
  {
    if es != [] {
      var e := es[0];
      var m1 := Step(m, e);
      if (e.guild, e.key) != (g, k) {
        SameElsewhereEntry(m.table, m1.table, e.guild, e.key, g, k);
      }
      LoadedIsTerminal(m1, es[1..], g, k, b);
    }
  }

  /** A step of one pair leaves every other pair's state and claim as it was:
      different pairs proceed independently. */
  lemma Isolation<K(!new)>(m: Machine<K>, e: Event<K>, g: int64, k: K)
    requires Inv(m) && Allowed(m, e)
    requires (e.guild, e.key) != (g, k)
    ensures StateOf(Step(m, e).table, g, k) == StateOf(m.table, g, k)
    ensures (g, k) in Step(m, e).claims <==> (g, k) in m.claims
  {
  }

  /** `n` lookups of pair `(g, k)`. */
  ghost function Calls<K(!new)>(g: int64, k: K, n: nat): (es: seq<Event<K>>)
    ensures |es| == n && forall i :: 0 <= i < n ==> es[i] == Call(g, k)
  {
    if n == 0 then [] else [Call(g, k)] + Calls(g, k, n - 1)
  }

  /** While a pair is being fetched, any number of further lookups of it all
      wait: none claims it, and none changes the table or the claims. */
  lemma {:induction false} WaitersNeverClaim<K(!new)>(m: Machine<K>, g: int64, k: K, n: nat)
    requires Inv(m) && StateOf(m.table, g, k) == Fetching
    ensures Runs(m, Calls(g, k, n)) && Run(m, Calls(g, k, n)) == m
    ensures FetchesStarted(m, Calls(g, k, n), (g, k)) == 0
    decreases n
  {
    if n > 0 {
      var es := Calls(g, k, n);
      assert es[0] == Call(g, k) && es[1..] == Calls(g, k, n - 1);
      assert LookupStep(m.table, g, k) == Transition(MustWait, m.table);
      assert Step(m, Call(g, k)) == m;
      WaitersNeverClaim(m, g, k, n - 1);
    }
  }

  /** Retry after failure: a fetch that fails leaves the pair absent, with
      everything else as before the claim, and the next lookup claims it
      afresh. */
  lemma FailedFetchIsRetried<K(!new)>(m: Machine<K>, g: int64, k: K)
    requires Inv(m) && StateOf(m.table, g, k) == Absent
    ensures var m1 := Step(m, Call(g, k));
            && LookupStep(m.table, g, k).result == Claimed
            && (g, k) in m1.claims
            && var m2 := Step(m1, Fail(g, k));
               && StateOf(m2.table, g, k) == Absent
               && m2.claims == m.claims
               && LookupStep(m2.table, g, k).result == Claimed
  {
  }

  /** A single event that may run is a run of its own, and it starts a fetch
      exactly when it is a lookup of `p` that claims it. */
  lemma RunOne<K(!new)>(m: Machine<K>, e: Event<K>, p: (int64, K))
    requires Inv(m) && Allowed(m, e)
    ensures Runs(m, [e]) && Run(m, [e]) == Step(m, e)
    ensures FetchesStarted(m, [e], p)
            == if e.Call? && (e.guild, e.key) == p && LookupStep(m.table, e.guild, e.key).result == Claimed
               then 1 else 0
  {
    assert [e][1..] == [];
  }

  /** Running two event sequences one after the other is running their
      concatenation, and the fetch counts add up. */
  lemma {:induction false} RunConcat<K(!new)>(m: Machine<K>, a: seq<Event<K>>, b: seq<Event<K>>, p: (int64, K))
    requires Runs(m, a) && Runs(Run(m, a), b)
    ensures Runs(m, a + b) && Run(m, a + b) == Run(Run(m, a), b)
    ensures FetchesStarted(m, a + b, p) == FetchesStarted(m, a, p) + FetchesStarted(Run(m, a), b, p)
    decreases |a|
  {
    if a != [] {
      var ab := a + b;
      assert ab[0] == a[0] && ab[1..] == a[1..] + b;
      RunConcat(Step(m, a[0]), a[1..], b, p);
      assert Runs(m, ab) && Run(m, ab) == Run(Step(m, a[0]), a[1..] + b);
      assert FetchesStarted(m, a, p) == FetchesStarted(m, [a[0]], p) + FetchesStarted(Step(m, a[0]), a[1..], p) by {
        RunOne(m, a[0], p);
      }
      assert FetchesStarted(m, ab, p) == FetchesStarted(m, [a[0]], p) + FetchesStarted(Step(m, a[0]), a[1..] + b, p) by {
        RunOne(m, a[0], p);
      }
    } else {
      assert a + b == b;
    }
  }

  /** Many callers of one absent pair: the first lookup claims it, the other
      `n` wait while it is fetched, the fetch publishes `enabled`, and the `n`
      waiters then re-check and all find it loaded. Exactly one fetch is
      started over the whole run. */
  lemma ManyCallersShareOneFetch<K(!new)>(m: Machine<K>, g: int64, k: K, enabled: bool, n: nat)
    requires Inv(m) && StateOf(m.table, g, k) == Absent
    ensures var es := [Call(g, k)] + Calls(g, k, n) + [Succeed(g, k, enabled)] + Calls(g, k, n);
            && Runs(m, es)
            && FetchesStarted(m, es, (g, k)) == 1
            && StateOf(Run(m, es).table, g, k) == Loaded(enabled)
            && LookupStep(Run(m, es).table, g, k).result == Hit(enabled)
  {
    var p := (g, k);
    var claim: seq<Event<K>> := [Call(g, k)];
    var m1 := Step(m, Call(g, k));
    RunOne(m, Call(g, k), p);
    WaitersNeverClaim(m1, g, k, n);
    var waits := Calls(g, k, n);
    RunConcat(m, claim, waits, p);
    var publish: seq<Event<K>> := [Succeed(g, k, enabled)];
    var m2 := Step(m1, Succeed(g, k, enabled));
    RunOne(m1, Succeed(g, k, enabled), p);
    RunConcat(m, claim + waits, publish, p);
    LoadedAnsweredByHits(m2, g, k, enabled, n);
    RunConcat(m, claim + waits + publish, waits, p);
  }

  lemma {:induction false} LoadedAnsweredByHits<K(!new)>(m: Machine<K>, g: int64, k: K, b: bool, n: nat)
    requires Inv(m) && StateOf(m.table, g, k) == Loaded(b)
    ensures Runs(m, Calls(g, k, n)) && Run(m, Calls(g, k, n)) == m
    ensures FetchesStarted(m, Calls(g, k, n), (g, k)) == 0
    decreases n
  {
    if n > 0 {
      var es := Calls(g, k, n);
      assert es[0] == Call(g, k) && es[1..] == Calls(g, k, n - 1);
      assert Step(m, Call(g, k)) == m;
      LoadedAnsweredByHits(m, g, k, b, n - 1);
    }
  }
}
