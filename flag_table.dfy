/**
 * The per-guild feature-flag state table of the feature-flag cache and the
 * atomic steps (critical sections) that change it, as pure functions.
 *
 * Each (guild, key) pair is in one of three states: absent, being fetched, or
 * loaded with an enabled bit. A state is stored as a 16-bit mask `LoadedFlags`.
 */
module FlagTable {

  /** Guild (tenant) identifiers are signed 64-bit integers. */
  newtype int64 = x: int | -0x8000_0000_0000_0000 <= x < 0x8000_0000_0000_0000

  datatype Option<T> = None | Some(value: T)

  /** The stored state of one pair. The source declares it as a 16-bit signed
      integer; only its bit pattern is ever used, so a 16-bit vector. */
  type LoadedFlags = bv16

  /** The enabled status itself (bit 0). */
  const LoadedFlagEnabled: LoadedFlags := 1 << 0

  /** The pair is being fetched from the database (bit 1). */
  const LoadedFlagFetching: LoadedFlags := 1 << 1

  predicate IsEnabled(f: LoadedFlags) { f & LoadedFlagEnabled != 0 }

  predicate IsFetching(f: LoadedFlags) { f & LoadedFlagFetching != 0 }

  /** The two flag constants are two different single bits. */
  lemma FlagBitsAreDistinctSingleBits()
    ensures LoadedFlagEnabled == 1 && LoadedFlagFetching == 2
    ensures LoadedFlagEnabled & LoadedFlagFetching == 0
    ensures IsEnabled(LoadedFlagEnabled) && !IsFetching(LoadedFlagEnabled)
    ensures IsFetching(LoadedFlagFetching) && !IsEnabled(LoadedFlagFetching)
  {
  }

  /** A mask built from any choice of the two bits decodes back to that choice:
      the enabled bit and the fetching bit are independent. */
  function Flags(enabled: bool, fetching: bool): (f: LoadedFlags)
    ensures IsEnabled(f) == enabled && IsFetching(f) == fetching
  {
    (if enabled then LoadedFlagEnabled else 0) | (if fetching then LoadedFlagFetching else 0)
  }

  /** The mask a successful fetch stores: `LoadedFlagEnabled` or `0`. */
  function PublishedFlags(enabled: bool): (f: LoadedFlags)
    ensures f == Flags(enabled, false)
    ensures !IsFetching(f) && IsEnabled(f) == enabled
  {
    if enabled then LoadedFlagEnabled else 0
  }

  /** The only masks the cache ever stores. */
  predicate StoredFlags(f: LoadedFlags)
  {
    f == LoadedFlagFetching || f == PublishedFlags(true) || f == PublishedFlags(false)
  }

  /** `guildID -> (key -> LoadedFlags)`; a guild's inner map is created lazily. */
  type Table<K(==)> = map<int64, map<K, LoadedFlags>>

  /** The state of one pair, decoded from the table. */
  datatype EntryState = Absent | Fetching | Loaded(enabled: bool)

  function Entry<K(==)>(t: Table<K>, g: int64, k: K): Option<LoadedFlags>
  {
    if g in t && k in t[g] then Some(t[g][k]) else None
  }

  /** Decodes a pair's mask; the fetching bit is tested first, as the lookup does. */
  function StateOf<K(==)>(t: Table<K>, g: int64, k: K): EntryState
  {
    match Entry(t, g, k)
    case None => Absent
    case Some(f) => if IsFetching(f) then Fetching else Loaded(IsEnabled(f))
  }

  predicate InFlight<K(==)>(t: Table<K>, p: (int64, K))
  {
    StateOf(t, p.0, p.1) == Fetching
  }

  ghost predicate WellFormed<K(!new)>(t: Table<K>)
  {
    forall g, k :: g in t && k in t[g] ==> StoredFlags(t[g][k])
  }

  /** The outstanding claims are exactly the pairs whose entry has the fetching bit. */
  ghost predicate ClaimsMatch<K(!new)>(t: Table<K>, claims: set<(int64, K)>)
  {
    forall p :: p in claims <==> InFlight(t, p)
  }

  /** `t'` differs from `t` at most in the entry for `(g, k)` (and possibly in
      holding a new, empty inner map for `g`). */
  ghost predicate SameElsewhere<K(!new)>(t: Table<K>, t': Table<K>, g: int64, k: K)
  {
    && (forall h :: h != g ==> (h in t' <==> h in t))
    && (forall h :: h in t && h != g ==> t'[h] == t[h])
    && (forall j :: j != k ==> Entry(t', g, j) == Entry(t, g, j))
  }

  /** Two pairs that differ keep their entries when only one of them changes. */
  lemma SameElsewhereEntry<K(!new)>(t: Table<K>, t': Table<K>, g: int64, k: K, g': int64, k': K)
    requires SameElsewhere(t, t', g, k)
    requires (g', k') != (g, k)
    ensures Entry(t', g', k') == Entry(t, g', k')
    ensures StateOf(t', g', k') == StateOf(t, g', k')
  {
  }

  /** Looking up a guild that has no store yet gives it an empty one; every
      other guild's store is left as it was. */
  function EnsureGuild<K(==,!new)>(t: Table<K>, g: int64): (t': Table<K>)
    ensures g in t' && t'.Keys == t.Keys + {g}
    ensures forall h :: h in t ==> t'[h] == t[h]
    ensures g !in t ==> t'[g] == map[]
  {
    if g in t then t else t[g := map[]]
  }

  /** What one lock-held pass of the lookup decides. */
  datatype LookupResult = Hit(enabled: bool) | MustWait | Claimed

  datatype Transition<K(==)> = Transition(result: LookupResult, table: Table<K>)

  /** One pass of the lookup under the lock, up to the fetch: create the guild
      store if needed, then wait on a pair being fetched, answer a loaded pair
      from its enabled bit, or claim an absent pair by storing exactly the
      fetching mask. */
  function LookupStep<K(==,!new)>(t: Table<K>, g: int64, k: K): (r: Transition<K>)
    ensures g in r.table && SameElsewhere(t, r.table, g, k)
    ensures g !in t ==> r.table[g].Keys <= {k}
    ensures StateOf(t, g, k) == Fetching ==> r == Transition(MustWait, t)
    ensures forall b :: StateOf(t, g, k) == Loaded(b) ==> r == Transition(Hit(b), t)
    ensures StateOf(t, g, k) == Absent ==>
              r.result == Claimed && Entry(r.table, g, k) == Some(LoadedFlagFetching)
    ensures r.result == Claimed <==> StateOf(t, g, k) == Absent
  {
    var t1 := EnsureGuild(t, g);
    var guildStore := t1[g];
    if k in guildStore then
      var flags := guildStore[k];
      if flags & LoadedFlagFetching != 0 then
        Transition(MustWait, t1)
      else
        Transition(Hit(flags & LoadedFlagEnabled != 0), t1)
    else
      Transition(Claimed, t1[g := guildStore[k := LoadedFlagFetching]])
  }

  /** A successful fetch stores `LoadedFlagEnabled` or `0` for the pair,
      which clears the fetching bit. */
  function Publish<K(==,!new)>(t: Table<K>, g: int64, k: K, enabled: bool): (t': Table<K>)
    requires g in t
    ensures t'.Keys == t.Keys && SameElsewhere(t, t', g, k)
    ensures Entry(t', g, k) == Some(PublishedFlags(enabled))
    ensures StateOf(t', g, k) == Loaded(enabled)
  {
    t[g := t[g][k := PublishedFlags(enabled)]]
  }

  /** A failed or aborted fetch deletes the pair's entry, so it is absent again. */
  function Discard<K(==,!new)>(t: Table<K>, g: int64, k: K): (t': Table<K>)
    requires g in t
    ensures t'.Keys == t.Keys && SameElsewhere(t, t', g, k)
    ensures Entry(t', g, k) == None && StateOf(t', g, k) == Absent
  {
    t[g := t[g] - {k}]
  }

  /** A claim followed by the cleanup of its failed fetch leaves the table as
      it was before the claim, except that the guild now has a store. */
  lemma ClaimThenDiscard<K(!new)>(t: Table<K>, g: int64, k: K)
    requires StateOf(t, g, k) == Absent
    ensures Discard(LookupStep(t, g, k).table, g, k) == EnsureGuild(t, g)
  {
    var t1 := EnsureGuild(t, g);
    assert k !in t1[g];
    assert t1[g][k := LoadedFlagFetching] - {k} == t1[g];
  }

  /** The whole shared state: the table and the set of pairs some caller has
      claimed and not yet resolved. */
  datatype Machine<K(==)> = Machine(table: Table<K>, claims: set<(int64, K)>)

  ghost predicate Inv<K(!new)>(m: Machine<K>)
  {
    WellFormed(m.table) && ClaimsMatch(m.table, m.claims)
  }

  /** One critical section of some caller: a lookup pass, the publication of
      a fetched value, or the deferred cleanup of a failed or aborted fetch. */
  datatype Event<K(==)> =
    | Call(guild: int64, key: K)
    | Succeed(guild: int64, key: K, enabled: bool)
    | Fail(guild: int64, key: K)

  /** Only the caller that claimed a pair resolves it. */
  predicate Allowed<K(==)>(m: Machine<K>, e: Event<K>)
  {
    e.Call? || (e.guild, e.key) in m.claims
  }

  lemma ClaimedPairIsStored<K(!new)>(m: Machine<K>, g: int64, k: K)
    requires Inv(m) && (g, k) in m.claims
    ensures g in m.table && StateOf(m.table, g, k) == Fetching
  {
  }

  /** Every critical section keeps the table well formed and the claims in
      step with the fetching bits. */
  function Step<K(==,!new)>(m: Machine<K>, e: Event<K>): (m': Machine<K>)
    requires Inv(m) && Allowed(m, e)
    ensures Inv(m')
    ensures SameElsewhere(m.table, m'.table, e.guild, e.key)
    ensures forall p :: p != (e.guild, e.key) ==> (p in m'.claims <==> p in m.claims)
  {
    match e
    case Call(g, k) =>
      var s := LookupStep(m.table, g, k);
      StepCallInv(m, g, k);
      Machine(s.table, if s.result == Claimed then m.claims + {(g, k)} else m.claims)
    case Succeed(g, k, enabled) =>
      ClaimedPairIsStored(m, g, k);
      StepResolveInv(m, g, k, Publish(m.table, g, k, enabled));
      Machine(Publish(m.table, g, k, enabled), m.claims - {(g, k)})
    case Fail(g, k) =>
      ClaimedPairIsStored(m, g, k);
      StepResolveInv(m, g, k, Discard(m.table, g, k));
      Machine(Discard(m.table, g, k), m.claims - {(g, k)})
  }

  lemma StepCallInv<K(!new)>(m: Machine<K>, g: int64, k: K)
    requires Inv(m)
    ensures var s := LookupStep(m.table, g, k);
            Inv(Machine(s.table, if s.result == Claimed then m.claims + {(g, k)} else m.claims))
  {
    var s := LookupStep(m.table, g, k);
    var c := if s.result == Claimed then m.claims + {(g, k)} else m.claims;
    forall h, j | h in s.table && j in s.table[h] ensures StoredFlags(s.table[h][j]) {
      if (h, j) != (g, k) {
        SameElsewhereEntry(m.table, s.table, g, k, h, j);
      }
    }
    forall p ensures p in c <==> InFlight(s.table, p) {
      if p != (g, k) {
        SameElsewhereEntry(m.table, s.table, g, k, p.0, p.1);
      }
    }
  }

  lemma StepResolveInv<K(!new)>(m: Machine<K>, g: int64, k: K, t': Table<K>)
    requires Inv(m) && (g, k) in m.claims
    requires SameElsewhere(m.table, t', g, k)
    requires StateOf(t', g, k) != Fetching
    requires forall f :: Entry(t', g, k) == Some(f) ==> StoredFlags(f)
    ensures Inv(Machine(t', m.claims - {(g, k)}))
  {
    forall h, j | h in t' && j in t'[h] ensures StoredFlags(t'[h][j]) {
      if (h, j) != (g, k) {
        SameElsewhereEntry(m.table, t', g, k, h, j);
        assert Entry(t', h, j) == Some(t'[h][j]);
      } else {
        assert Entry(t', g, k) == Some(t'[h][j]);
      }
    }
    forall p ensures p in m.claims - {(g, k)} <==> InFlight(t', p) {
      if p != (g, k) {
        SameElsewhereEntry(m.table, t', g, k, p.0, p.1);
      }
    }
  }
}
