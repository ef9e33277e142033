/** Card search behind a short-lived cache. What a search finds in a catalogue is a parameter, as is the
    lowercasing of the needle. */
module Search {
  import opened Schema
  import opened Lru
  import opened ReadThrough
  import opened Labels

  const DEFAULT_LIMIT := 10
  const MAX_LIMIT := 25
  const MIN_CHARS := 2
  const CACHE_CAPACITY := 1024
  const CACHE_TTL := 60

  datatype Query = Query(needle: string, limit: int)

  function Clamped(x: int, low: int, high: int): int {
    if x < low then low else if x > high then high else x
  }

  /** What is looked for: the cache's key. */
  function Normalised(lower: string -> string, q: string, limit: Option<int>): Query {
    Query(lower(Trim(q)), Clamped(match limit case Some(n) => n case None => DEFAULT_LIMIT, 1, MAX_LIMIT))
  }

  /** What normalising does: white space, and all of it, goes from both ends before lowercasing; ten results
      unless asked for, and never fewer than one nor more than 25. */
  lemma NormalisedIs(lower: string -> string, q: string, limit: Option<int>) returns (lead: string, text: string, trail: string)
    ensures Blank(lead) && Blank(trail) && Tight(text) && q == lead + text + trail
    ensures Normalised(lower, q, limit).needle == lower(text)
    ensures
      var n := Normalised(lower, q, limit).limit;
      && 1 <= n <= 25 && (limit.None? ==> n == 10)
      && (limit.Some? && 1 <= limit.value <= 25 ==> n == limit.value)
      && (limit.Some? && limit.value < 1 ==> n == 1) && (limit.Some? && limit.value > 25 ==> n == 25)
  {
    lead, trail := TrimIs(q);
    text := Trim(q);
  }

  type Suggest<!C, +R> = (C, string, int) -> R

  function NoExpiry<R>(r: R): Option<int> {
    None
  }

  function AnyResult<R>(key: Query, r: R): bool {
    true
  }

  // ---- The cache in place ---------------------------------------------------------------------------------

  class SearchCache<R> {
    var inner: Lru<Query, Timed<R>>
    const ttl: int
    const capacity: nat

    constructor (capacity: nat, ttl: int)
      requires capacity > 0
      ensures inner == Nothing() && this.ttl == ttl && this.capacity == capacity
      ensures Sized(inner, capacity)
    {
      inner := Nothing();
      this.ttl := ttl;
      this.capacity := capacity;
    }

    /** A hit is what was stored for this very query, within its time. */
    method GetResult(key: Query, now: int) returns (hit: Option<Timed<R>>)
      requires Sized(inner, capacity)
      modifies this
      ensures LookUp(inner, hit) == Get(old(inner), key, now, ttl, NoExpiry)
      ensures Sized(inner, capacity)
      ensures hit.Some? <==> key in old(inner.data) && now - old(inner.data)[key].cachedAt <= ttl
      ensures hit.Some? ==> hit.value == old(inner.data)[key] && inner.data == old(inner.data)
      ensures hit.None? ==> inner.data == old(inner.data) - {key}
    {
      GetKeepsSized(inner, key, now, ttl, NoExpiry, capacity);
      inner := Touch(inner, key);
      hit := Find(inner, key);
      if hit.Some? {
        if now - hit.value.cachedAt > ttl {
          inner := Pop(inner, key);
          return None;
        }
      }
    }

    method InsertResult(key: Query, result: R, now: int)
      requires capacity > 0 && Sized(inner, capacity)
      modifies this
      ensures inner == Put(old(inner), key, Timed(result, now), capacity)
      ensures Sized(inner, capacity) && Find(inner, key) == Some(Timed(result, now))
    {
      PutKeepsSized(inner, key, Timed(result, now), capacity);
      inner := Put(inner, key, Timed(result, now), capacity);
    }
  }

  // ---- The protocol -----------------------------------------------------------------------------------------

  /** The limit is clamped before it becomes part of the key. */
  function SearchConfig<C, R>(suggest: Suggest<C, R>): Config<C, Query, R> {
    Config((catalogue: C, key: Query, now: int) => Some(suggest(catalogue, key.needle, key.limit)),
           AnyResult, NoExpiry, CACHE_TTL, CACHE_CAPACITY)
  }

  /** One search in the code's order. `queryFails` says whether the database reports an error. A needle that is
      too short finds nothing and leaves the cache alone. */
  method SearchCards<C, R>(
    cache: SearchCache<R>, catalogue: C, suggest: Suggest<C, R>, lower: string -> string, nothing: R,
    q: string, limit: Option<int>, now: int, queryFails: bool) returns (answer: Option<R>)
    requires cache.capacity == CACHE_CAPACITY && cache.ttl == CACHE_TTL && Sized(cache.inner, CACHE_CAPACITY)
    modifies cache
    ensures Sized(cache.inner, CACHE_CAPACITY)
    ensures
      var key := Normalised(lower, q, limit);
      var hit := Get(old(cache.inner), key, now, CACHE_TTL, NoExpiry).hit;
      if |key.needle| < 2 then answer == Some(nothing) && cache.inner == old(cache.inner)
      else if hit.None? && queryFails then
        answer == None && cache.inner.data == old(cache.inner.data) - {key}
      else
        && answer == Some(if hit.Some? then hit.value.value else suggest(catalogue, key.needle, key.limit))
        && cache.inner == Undisturbed(SearchConfig(suggest), State(now, catalogue, old(cache.inner), map[], 0), key).cache
  {
    hide Undisturbed;
    var n := if limit.Some? then limit.value else DEFAULT_LIMIT;
    n := if n < 1 then 1 else if n > MAX_LIMIT then MAX_LIMIT else n;
    var key := Query(lower(Trim(q)), n);
    if |key.needle| < MIN_CHARS {
      return Some(nothing);
    }
    UndisturbedCache(SearchConfig(suggest), State(now, catalogue, cache.inner, map[], 0), key);
    var hit := cache.GetResult(key, now);
    if hit.Some? {
      return Some(hit.value.value);
    }
    if queryFails {
      return None;
    }
    var found := suggest(catalogue, key.needle, key.limit);
    cache.InsertResult(key, found, now);
    answer := Some(found);
  }

  type SearchRun<!C, !R> = Run<C, Query, R>

  /** Every answer, in every interleaving of searches with catalogue writes and clock ticks, is what the same
      normalised query finds in a state the catalogue had when some search queried it, at most one time to
      live before that search's latency; and the cache never outgrows its capacity. */
  lemma SearchAnswersAreRecent<C, R(!new)>(run: SearchRun<C, R>, suggest: Suggest<C, R>, i: nat, key: Query, result: R)
    requires run.config == SearchConfig(suggest) && Initial(run.start)
    requires i < |run.steps| && AnswerAt(run, i) == Some((key, result))
    ensures exists t: Timed<R>, o: Origin ::
      && AnsweredFrom(run, i, key, t, o) && FreshEnough(run, i, o)
      && At(run, i).now - At(run, o.fetch).now <= 60 + (At(run, o.insert).now - At(run, o.fetch).now)
      && result == t.value == suggest(At(run, o.fetch).source, key.needle, key.limit)
    ensures |At(run, i).cache.order| <= 1024
  {
    var t, o := AnswersAreSourced(run, i, key, result);
    SourcedIsFresh(run, i, key, t, o);
    RunIsSourced(run, i);
    assert result == suggest(At(run, o.fetch).source, key.needle, key.limit);
  }

  ghost predicate SameCatalogue<C, R>(run: SearchRun<C, R>, from: nat, to: nat)
    requires to <= |run.steps|
  {
    forall x :: from <= x <= to ==> At(run, x).source == At(run, from).source
  }

  /** While the catalogue has not changed for one time to live and the latency of a search, the cache cannot
      be told from the query itself. */
  lemma CacheIsInvisibleWhenQuiet<C(!new), R(!new)>(
    run: SearchRun<C, R>, suggest: Suggest<C, R>, a: nat, i: nat, key: Query, result: R, latency: nat)
    requires run.config == SearchConfig(suggest) && Initial(run.start)
    requires a <= i < |run.steps| && AnswerAt(run, i) == Some((key, result))
    requires SameCatalogue(run, a, i) && At(run, i).now - At(run, a).now > 60 + latency
    requires Prompt(run, key, latency)
    ensures result == suggest(At(run, i).source, key.needle, key.limit)
  {
    var t, o := AnswersAreSourced(run, i, key, result);
    SourcedIsFresh(run, i, key, t, o);
    if o.fetch < a { ClockNeverGoesBack(run, o.fetch, a); }
    assert result == suggest(At(run, o.fetch).source, key.needle, key.limit);
  }
}
