/** The dye catalog: the array from the fetched `dyes.json` keyed by id, and
    the process-wide memo `getDyes` as a transition function over the cache
    state. The network fetch is an explicit input, `FetchOutcome`. The
    colour type `C` is `Rgb` for the worker and Next variants and the
    optional `hex` string for the Hono variant. */
module Catalog {
  import opened Wrappers

  /** One element of the fetched `dyes` array. */
  datatype Dye<C> = Dye(id: string, name: string, color: C)

  /** The value stored under a dye's id. */
  datatype Entry<C> = Entry(name: string, color: C)

  type Catalog<C> = map<string, Entry<C>>

  function EntryOf<C>(d: Dye<C>): Entry<C> {
    Entry(d.name, d.color)
  }

  ghost function Ids<C>(dyes: seq<Dye<C>>): set<string> {
    set i | 0 <= i < |dyes| :: dyes[i].id
  }

  /** The loop `for (const dye of data.dyes) dyeMap[dye.id] = {...}`
      (and the equivalent `reduce`): every dye is keyed by its id. */
  function Index<C>(dyes: seq<Dye<C>>): (m: Catalog<C>)
    ensures m.Keys == Ids(dyes)
    decreases |dyes|
  {
    if |dyes| == 0 then
      map[]
    else
      var init := dyes[..|dyes| - 1];
      var last := dyes[|dyes| - 1];
      var m := Index(init)[last.id := EntryOf(last)];
      assert Ids(dyes) == Ids(init) + {last.id} by {
        forall k | k in Ids(dyes) ensures k in Ids(init) + {last.id} {
          var i :| 0 <= i < |dyes| && dyes[i].id == k;
          if i < |dyes| - 1 { assert init[i].id == k; }
        }
        forall k | k in Ids(init) ensures k in Ids(dyes) {
          var i :| 0 <= i < |init| && init[i].id == k;
          assert dyes[i].id == k;
        }
      }
      m
  }

  /** A later dye with the same id overwrites an earlier one: the entry
      under an id is the last dye carrying it. */
  lemma {:induction false} IndexLastWins<C>(dyes: seq<Dye<C>>, i: int)
    requires 0 <= i < |dyes|
    requires forall j :: i < j < |dyes| ==> dyes[j].id != dyes[i].id
    ensures dyes[i].id in Index(dyes)
    ensures Index(dyes)[dyes[i].id] == EntryOf(dyes[i])
    decreases |dyes|
  {
    if i < |dyes| - 1 {
      var init := dyes[..|dyes| - 1];
      assert init[i] == dyes[i];
      IndexLastWins(init, i);
    }
  }

  /** What a fetch of `dyes.json` produced: the request or the JSON body
      failed (`res.json()` or `fetch` threw; for the Hono variant also a
      non-ok status), or a body was read whose `dyes` field is an array
      (`Some`) or missing / not an array (`None`). */
  datatype FetchOutcome<C> = FetchFailed | Fetched(dyes: Option<seq<Dye<C>>>)

  /** The map a successful fetch builds: empty unless `dyes` is an array. */
  function Built<C>(dyes: Option<seq<Dye<C>>>): (m: Catalog<C>)
    ensures dyes.None? ==> m == map[]
    ensures dyes.Some? ==> m.Keys == Ids(dyes.value)
  {
    match dyes
    case None => map[]
    case Some(ds) => Index(ds)
  }

  /** The catalog one request sees when it fetches without memoising:
      what the memo would hand out on a miss, so empty on failure or when
      `dyes` is not an array, and keyed by exactly the fetched ids
      otherwise. */
  function CatalogOf<C>(outcome: FetchOutcome<C>): (m: Catalog<C>)
    ensures m == GetDyes(None, outcome).catalog
    ensures outcome.FetchFailed? || outcome.dyes.None? ==> m == map[]
    ensures outcome.Fetched? && outcome.dyes.Some? ==> m.Keys == Ids(outcome.dyes.value)
  {
    match outcome
    case FetchFailed => map[]
    case Fetched(ds) => Built(ds)
  }

  /** One call of `getDyes`: the map it returns, the cache afterwards and
      whether it fetched. */
  datatype CacheStep<C> = CacheStep(catalog: Catalog<C>, cache: Option<Catalog<C>>, fetched: bool)

  /** `getDyes`. The cache test is JavaScript truthiness, and every object,
      including `{}`, is truthy: any set cache is a hit. */
  function GetDyes<C>(cache: Option<Catalog<C>>, outcome: FetchOutcome<C>): (step: CacheStep<C>)
    ensures step.fetched <==> cache.None?
    ensures cache.Some? ==> step.catalog == cache.value && step.cache == cache
    ensures step.cache.Some? <==> cache.Some? || outcome.Fetched?
    ensures step.cache.Some? ==> step.cache.value == step.catalog
    ensures cache.None? && outcome.FetchFailed? ==> step.catalog == map[]
    ensures cache.None? && outcome.Fetched? ==> step.catalog == Built(outcome.dyes)
  {
    if cache.Some? then
      CacheStep(cache.value, cache, false)
    else
      match outcome
      case FetchFailed => CacheStep(map[], None, true)
      case Fetched(ds) =>
        var m := Built(ds);
        CacheStep(m, Some(m), true)
  }

  /** A hit ignores the network entirely: any two outcomes give the same step. */
  lemma CacheHitIgnoresFetch<C>(c: Catalog<C>, o1: FetchOutcome<C>, o2: FetchOutcome<C>)
    ensures GetDyes(Some(c), o1) == GetDyes(Some(c), o2) == CacheStep(c, Some(c), false)
  {
  }

  /** Two calls in a row whose first fetch (if any) does not fail perform at
      most one fetch, and the second returns what the first did. */
  lemma SecondCallIsHit<C>(cache: Option<Catalog<C>>, o1: FetchOutcome<C>, o2: FetchOutcome<C>)
    requires o1.Fetched? || cache.Some?
    ensures var s1 := GetDyes(cache, o1);
      var s2 := GetDyes(s1.cache, o2);
      !s2.fetched && s2.catalog == s1.catalog && s2.cache == s1.cache
  {
  }

  /** A successful fetch that found no `dyes` array still caches `{}`. */
  lemma EmptyBodyIsCached<C>(o: FetchOutcome<C>)
    ensures GetDyes<C>(None, Fetched(None)).cache == Some(map[])
    ensures !GetDyes<C>(Some(map[]), o).fetched
  {
  }

  /** After a failed fetch the cache is still unset, so the next call fetches again. */
  lemma FailureRetries<C>(o2: FetchOutcome<C>)
    ensures GetDyes<C>(None, FetchFailed).cache == None
    ensures GetDyes(GetDyes<C>(None, FetchFailed).cache, o2).fetched
  {
  }

  /** The cache and the number of fetches after a run of calls. */
  datatype Trace<C> = Trace(cache: Option<Catalog<C>>, fetches: nat)

  /** Successive `getDyes` calls, the i-th meeting fetch outcome `outcomes[i]`. */
  function Replay<C>(cache: Option<Catalog<C>>, outcomes: seq<FetchOutcome<C>>): Trace<C>
    decreases |outcomes|
  {
    if |outcomes| == 0 then
      Trace(cache, 0)
    else
      var step := GetDyes(cache, outcomes[0]);
      var rest := Replay(step.cache, outcomes[1..]);
      Trace(rest.cache, rest.fetches + if step.fetched then 1 else 0)
  }

  /** The number of failed fetches at the front of a run. */
  function LeadingFailures<C>(outcomes: seq<FetchOutcome<C>>): (n: nat)
    ensures n <= |outcomes|
    ensures forall i :: 0 <= i < n ==> outcomes[i].FetchFailed?
    ensures n < |outcomes| ==> outcomes[n].Fetched?
    decreases |outcomes|
  {
    if |outcomes| == 0 || outcomes[0].Fetched? then 0 else 1 + LeadingFailures(outcomes[1..])
  }

  /** Once set, the cache never changes and nothing is fetched again. */
  lemma {:induction false} ReplayFromSetCache<C>(c: Catalog<C>, outcomes: seq<FetchOutcome<C>>)
    ensures Replay(Some(c), outcomes) == Trace(Some(c), 0)
    decreases |outcomes|
  {
    if |outcomes| > 0 {
      ReplayFromSetCache(c, outcomes[1..]);
    }
  }

  /** From an unset cache, every call fetches until the first success and
      none after it; the cache stays unset exactly when every fetch failed. */
  lemma {:induction false} ReplayFromUnsetCache<C>(outcomes: seq<FetchOutcome<C>>)
    ensures var n := LeadingFailures(outcomes);
      Replay(None, outcomes).fetches == (if n == |outcomes| then n else n + 1)
    ensures Replay(None, outcomes).cache.None? <==> LeadingFailures(outcomes) == |outcomes|
    decreases |outcomes|
  {
    if |outcomes| > 0 {
      var step := GetDyes(None, outcomes[0]);
      if outcomes[0].FetchFailed? {
        ReplayFromUnsetCache(outcomes[1..]);
      } else {
        ReplayFromSetCache(step.cache.value, outcomes[1..]);
      }
    }
  }
}
