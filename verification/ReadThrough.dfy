/** Requests answered through a shared time-limited cache, as a protocol. A request first asks the cache; on
    a miss it fetches from a source that others write to meanwhile, checks what it fetched, stamps an entry
    with the clock, and inserts it. Any number of requests interleave, step by step, with the passing of
    time, with writes to the source, and with the clearing of the cache. */
module ReadThrough {
  import opened Schema
  import opened Lru

  datatype Config<!S, !K, !V> = Config(
    fetch: (S, K, int) -> Option<V>, check: (K, V) -> bool, expiry: Expiry<V>, ttl: int, capacity: nat)

  /** Where a request stands after missing the cache. */
  datatype Flight<K, V> = Missed(key: K) | Fetched(key: K, value: V) | Stamped(key: K, entry: Timed<V>)

  /** Requests are numbered in the order they arrive. */
  datatype State<S, K, V> = State(
    now: int, source: S, cache: Lru<K, Timed<V>>, flights: map<nat, Flight<K, V>>, arrived: nat)

  datatype Step<S, K> =
    | Tick(seconds: nat)
    | Write(source: S)
    | Clear
    | Arrive(key: K)
    | Fetch(request: nat)
    | Check(request: nat)
    | Insert(request: nat)
    | Fail(request: nat)

  ghost predicate Initial<S, K, V>(s: State<S, K, V>) {
    s.cache == Nothing() && s.flights == map[] && s.arrived == 0
  }

  /** A step that does not apply to the request it names changes nothing. */
  function Next<S, K(==), V>(c: Config<S, K, V>, s: State<S, K, V>, step: Step<S, K>): State<S, K, V> {
    match step
    case Tick(d) => s.(now := s.now + d)
    case Write(source) => s.(source := source)
    case Clear => s.(cache := Nothing())
    case Arrive(k) =>
      var g := Get(s.cache, k, s.now, c.ttl, c.expiry);
      s.(cache := g.cache, arrived := s.arrived + 1,
         flights := if g.hit.Some? then s.flights else s.flights[s.arrived := Missed(k)])
    case Fetch(r) =>
      if r in s.flights && s.flights[r].Missed? then
        match c.fetch(s.source, s.flights[r].key, s.now)
        case Some(v) => s.(flights := s.flights[r := Fetched(s.flights[r].key, v)])
        case None => s.(flights := s.flights - {r})
      else s
    case Check(r) =>
      if r in s.flights && s.flights[r].Fetched? then
        var f := s.flights[r];
        var stamped := Stamped(f.key, Timed(f.value, s.now));
        s.(flights := if c.check(f.key, f.value) then s.flights[r := stamped] else s.flights - {r})
      else s
    case Insert(r) =>
      if r in s.flights && s.flights[r].Stamped? then
        var f := s.flights[r];
        s.(flights := s.flights - {r}, cache := Put(s.cache, f.key, f.entry, c.capacity))
      else s
    case Fail(r) => s.(flights := s.flights - {r})
  }

  /** The key and value a step answers a request with: a hit answers at once, a miss after its insertion. */
  function Answer<S, K(==), V>(c: Config<S, K, V>, s: State<S, K, V>, step: Step<S, K>): Option<(K, V)> {
    match step
    case Arrive(k) =>
      (match Get(s.cache, k, s.now, c.ttl, c.expiry).hit case Some(t) => Some((k, t.value)) case None => None)
    case Insert(r) =>
      if r in s.flights && s.flights[r].Stamped? then Some((s.flights[r].key, s.flights[r].entry.value)) else None
    case _ => None
  }

  /** One request that no other step comes between. */
  function Undisturbed<S, K(==), V>(c: Config<S, K, V>, s: State<S, K, V>, k: K): State<S, K, V> {
    var r := s.arrived;
    Next(c, Next(c, Next(c, Next(c, s, Arrive(k)), Fetch(r)), Check(r)), Insert(r))
  }

  lemma UndisturbedCache<S, K(!new), V>(c: Config<S, K, V>, s: State<S, K, V>, k: K)
    requires s.arrived !in s.flights
    ensures
      var g := Get(s.cache, k, s.now, c.ttl, c.expiry);
      var found := c.fetch(s.source, k, s.now);
      Undisturbed(c, s, k).cache ==
        if g.hit.None? && found.Some? && c.check(k, found.value)
        then Put(g.cache, k, Timed(found.value, s.now), c.capacity)
        else g.cache
  {
    hide Get, Put;
  }

  datatype Run<!S, !K, !V> = Run(config: Config<S, K, V>, start: State<S, K, V>, steps: seq<Step<S, K>>)

  /** The state after the first `i` steps. */
  function At<S, K(==), V>(run: Run<S, K, V>, i: nat): State<S, K, V>
    requires i <= |run.steps|
  {
    if i == 0 then run.start else Next(run.config, At(run, i - 1), run.steps[i - 1])
  }

  function AnswerAt<S, K(==), V>(run: Run<S, K, V>, i: nat): Option<(K, V)>
    requires i < |run.steps|
  {
    Answer(run.config, At(run, i), run.steps[i])
  }

  ghost predicate Proper<S, K, V>(run: Run<S, K, V>) {
    run.config.capacity > 0 && run.config.ttl >= 0 && Initial(run.start)
  }

  // ---- Where flights and entries come from ------------------------------------------------------------

  /** A request, and the steps at which it fetched, checked and inserted. */
  datatype Origin = Origin(request: nat, fetch: nat, check: nat, insert: nat)

  ghost predicate FetchedAt<S, K, V>(run: Run<S, K, V>, o: Origin, k: K, v: V) {
    && o.fetch < |run.steps| && run.steps[o.fetch] == Fetch(o.request)
    && var s := At(run, o.fetch);
       && o.request in s.flights && s.flights[o.request] == Missed(k)
       && run.config.fetch(s.source, k, s.now) == Some(v)
  }

  ghost predicate StampedAt<S, K, V>(run: Run<S, K, V>, o: Origin, k: K, t: Timed<V>) {
    && FetchedAt(run, o, k, t.value)
    && o.fetch < o.check < |run.steps| && run.steps[o.check] == Check(o.request)
    && run.config.check(k, t.value) && t.cachedAt == At(run, o.check).now
  }

  ghost predicate InsertedAt<S, K, V>(run: Run<S, K, V>, o: Origin, k: K, t: Timed<V>) {
    StampedAt(run, o, k, t) && o.check < o.insert < |run.steps| && run.steps[o.insert] == Insert(o.request)
  }

  ghost predicate FlightSourced<S, K, V>(run: Run<S, K, V>, i: nat, r: nat, f: Flight<K, V>) {
    match f
    case Missed(_) => true
    case Fetched(k, v) => exists o: Origin :: o.request == r && o.fetch < i && FetchedAt(run, o, k, v)
    case Stamped(k, t) => exists o: Origin :: o.request == r && o.check < i && StampedAt(run, o, k, t)
  }

  ghost predicate Uncleared<S, K>(steps: seq<Step<S, K>>, from: nat, to: nat)
    requires to <= |steps|
  {
    forall b :: from <= b < to ==> !steps[b].Clear?
  }

  /** The entry was inserted, and the cache not cleared since. */
  ghost predicate EntrySourced<S, K, V>(run: Run<S, K, V>, i: nat, k: K, t: Timed<V>)
    requires i <= |run.steps|
  {
    exists o: Origin :: o.insert < i && InsertedAt(run, o, k, t) && Uncleared(run.steps, o.insert, i)
  }

  ghost predicate Sourced<S, K(!new), V>(run: Run<S, K, V>, i: nat)
    requires i <= |run.steps|
  {
    var s := At(run, i);
    && Sized(s.cache, run.config.capacity)
    && (forall r :: r in s.flights ==> FlightSourced(run, i, r, s.flights[r]))
    && (forall k :: k in s.cache.data ==> EntrySourced(run, i, k, s.cache.data[k]))
  }

  lemma FlightStaysSourced<S, K(!new), V>(run: Run<S, K, V>, i: nat, r: nat, f: Flight<K, V>)
    requires FlightSourced(run, i, r, f)
    ensures FlightSourced(run, i + 1, r, f)
  {
  }

  lemma EntryStaysSourced<S, K(!new), V>(run: Run<S, K, V>, i: nat, k: K, t: Timed<V>)
    requires i < |run.steps| && EntrySourced(run, i, k, t) && !run.steps[i].Clear?
    ensures EntrySourced(run, i + 1, k, t)
  {
    var o: Origin :| o.insert < i && InsertedAt(run, o, k, t) && Uncleared(run.steps, o.insert, i);
    assert Uncleared(run.steps, o.insert, i + 1);
  }

  /** What one step puts in flight was fetched and stamped by that very request. */
  lemma StepSourcesFlight<S, K(!new), V>(run: Run<S, K, V>, i: nat, r: nat)
    requires i < |run.steps| && Sourced(run, i) && r in At(run, i + 1).flights
    ensures FlightSourced(run, i + 1, r, At(run, i + 1).flights[r])
  {
    hide Get, Put;
    var s := At(run, i);
    var f := At(run, i + 1).flights[r];
    if r in s.flights && s.flights[r] == f {
      FlightStaysSourced(run, i, r, f);
    } else if f.Fetched? {
      assert FetchedAt(run, Origin(r, i, 0, 0), f.key, f.value);
    } else if f.Stamped? {
      assert FlightSourced(run, i, r, s.flights[r]);
      var o: Origin :| o.request == r && o.fetch < i && FetchedAt(run, o, f.key, f.entry.value);
      assert StampedAt(run, Origin(r, o.fetch, i, 0), f.key, f.entry);
    }
  }

  /** Only an insertion puts anything in the cache, and only under the request's key. */
  lemma StepChangesEntry<S, K(!new), V>(c: Config<S, K, V>, s: State<S, K, V>, step: Step<S, K>, k: K)
    requires c.capacity > 0 && Sized(s.cache, c.capacity)
    ensures
      var s' := Next(c, s, step);
      && Sized(s'.cache, c.capacity)
      && (Find(s'.cache, k).Some? && (Find(s'.cache, k) != Find(s.cache, k) || step.Clear?) ==>
            && step.Insert? && step.request in s.flights
            && s.flights[step.request] == Stamped(k, s'.cache.data[k]))
  {
    match step {
      case Arrive(x) => GetKeepsSized(s.cache, x, s.now, c.ttl, c.expiry, c.capacity);
      case Insert(r) =>
        if r in s.flights && s.flights[r].Stamped? {
          PutKeepsSized(s.cache, s.flights[r].key, s.flights[r].entry, c.capacity);
        }
      case _ =>
    }
  }

  lemma StepSourcesEntry<S, K(!new), V>(run: Run<S, K, V>, i: nat, k: K)
    requires run.config.capacity > 0 && i < |run.steps| && Sourced(run, i) && k in At(run, i + 1).cache.data
    ensures EntrySourced(run, i + 1, k, At(run, i + 1).cache.data[k])
  {
    var s, s' := At(run, i), At(run, i + 1);
    StepChangesEntry(run.config, s, run.steps[i], k);
    if Find(s.cache, k) == Find(s'.cache, k) {
      EntryStaysSourced(run, i, k, s.cache.data[k]);
    } else {
      var r := run.steps[i].request;
      var t := s'.cache.data[k];
      assert FlightSourced(run, i, r, s.flights[r]);
      var o: Origin :| o.request == r && o.check < i && StampedAt(run, o, k, t);
      assert InsertedAt(run, o.(insert := i), k, t);
    }
  }

  /** In every reachable state: never more entries than the capacity, and every entry, like every value in
      flight, traceable to one request's own fetch, check and insertion. */
  lemma {:induction false} RunIsSourced<S, K(!new), V>(run: Run<S, K, V>, i: nat)
    requires Proper(run) && i <= |run.steps|
    ensures Sourced(run, i)
  {
    hide Next, FlightSourced, EntrySourced;
    if i > 0 {
      RunIsSourced(run, i - 1);
      var s, s' := At(run, i - 1), At(run, i);
      forall r | r in s'.flights ensures FlightSourced(run, i, r, s'.flights[r]) { StepSourcesFlight(run, i - 1, r); }
      CacheStaysSized(run.config, s, run.steps[i - 1]);
      forall k | k in s'.cache.data ensures EntrySourced(run, i, k, s'.cache.data[k]) { StepSourcesEntry(run, i - 1, k); }
    }
  }

  lemma CacheStaysSized<S, K(!new), V>(c: Config<S, K, V>, s: State<S, K, V>, step: Step<S, K>)
    requires c.capacity > 0 && Sized(s.cache, c.capacity)
    ensures Sized(Next(c, s, step).cache, c.capacity)
  {
    if k :| k in Next(c, s, step).cache.data { StepChangesEntry(c, s, step, k); }
    else if k :| k in s.cache.data { StepChangesEntry(c, s, step, k); }
  }

  // ---- How old an answer can be -------------------------------------------------------------------------

  lemma {:induction false} ClockNeverGoesBack<S, K(!new), V>(run: Run<S, K, V>, i: nat, j: nat)
    requires i <= j <= |run.steps|
    ensures At(run, i).now <= At(run, j).now
    decreases j
  {
    if i < j { ClockNeverGoesBack(run, i, j - 1); }
  }

  /** Answer `i` comes from one request's fetch, check and insertion: either that request is the one
      answered, or this is a hit within the time to live and before the value expires. */
  ghost predicate AnsweredFrom<S, K, V>(run: Run<S, K, V>, i: nat, k: K, t: Timed<V>, o: Origin)
    requires i < |run.steps|
  {
    && InsertedAt(run, o, k, t) && o.insert <= i
    && (o.insert < i ==>
          Uncleared(run.steps, o.insert, i) && Live(t, At(run, i).now, run.config.ttl, run.config.expiry))
  }

  /** The time from the look-up to the answer is at most the time to live plus what that request took from
      its look-up to its insertion; for a hit, to the stamping of its entry. */
  ghost predicate FreshEnough<S, K, V>(run: Run<S, K, V>, i: nat, o: Origin)
    requires i < |run.steps| && o.fetch <= o.check <= o.insert <= i
  {
    var looked, stamped, inserted, now := At(run, o.fetch).now, At(run, o.check).now, At(run, o.insert).now, At(run, i).now;
    && looked <= stamped <= inserted <= now
    && now - looked <= run.config.ttl + (inserted - looked)
    && (o.insert < i ==> now - looked <= run.config.ttl + (stamped - looked))
  }

  lemma AnswersAreSourced<S, K(!new), V>(run: Run<S, K, V>, i: nat, k: K, v: V) returns (t: Timed<V>, o: Origin)
    requires Proper(run) && i < |run.steps| && AnswerAt(run, i) == Some((k, v))
    ensures t.value == v && AnsweredFrom(run, i, k, t, o)
  {
    var s := At(run, i);
    RunIsSourced(run, i);
    if run.steps[i].Arrive? {
      GetKeepsSized(s.cache, k, s.now, run.config.ttl, run.config.expiry, run.config.capacity);
      t := s.cache.data[k];
      o :| o.insert < i && InsertedAt(run, o, k, t) && Uncleared(run.steps, o.insert, i);
    } else {
      var r := run.steps[i].request;
      t := s.flights[r].entry;
      assert FlightSourced(run, i, r, s.flights[r]);
      o :| o.request == r && o.check < i && StampedAt(run, o, k, t);
      o := o.(insert := i);
    }
  }

  lemma SourcedIsFresh<S, K(!new), V>(run: Run<S, K, V>, i: nat, k: K, t: Timed<V>, o: Origin)
    requires Proper(run) && i < |run.steps| && AnsweredFrom(run, i, k, t, o)
    ensures FreshEnough(run, i, o)
  {
    ClockNeverGoesBack(run, o.fetch, o.check);
    ClockNeverGoesBack(run, o.check, o.insert);
    ClockNeverGoesBack(run, o.insert, i);
  }

  /** Every answer, in every interleaving, is what the source held for that key when some request looked, not
      longer ago than the time to live plus that request's own latency. */
  lemma AnswersAreFresh<S, K(!new), V(!new)>(run: Run<S, K, V>, i: nat, k: K, v: V)
    requires Proper(run) && i < |run.steps| && AnswerAt(run, i) == Some((k, v))
    ensures exists t: Timed<V>, o: Origin :: t.value == v && AnsweredFrom(run, i, k, t, o) && FreshEnough(run, i, o)
  {
    var t, o := AnswersAreSourced(run, i, k, v);
    SourcedIsFresh(run, i, k, t, o);
  }

  // ---- Withdrawing a key ----------------------------------------------------------------------------------

  /** From state `from` on, the source holds nothing for `k`. */
  ghost predicate Withdrawn<S, K, V>(run: Run<S, K, V>, k: K, from: nat, to: nat)
    requires to <= |run.steps|
  {
    forall x :: from <= x <= to ==> var s := At(run, x); run.config.fetch(s.source, k, s.now) == None
  }

  /** Once the key is withdrawn from the source (from state `a` on) and the cache was cleared (at step `b`),
      an answer for it can only come from a request that looked before the one and inserted after the other. */
  lemma LateAnswersWereInFlight<S, K(!new), V(!new)>(run: Run<S, K, V>, a: nat, b: nat, i: nat, k: K, v: V)
    requires Proper(run) && a <= b < i < |run.steps| && run.steps[b].Clear? && Withdrawn(run, k, a, i)
    requires AnswerAt(run, i) == Some((k, v))
    ensures exists t: Timed<V>, o: Origin :: t.value == v && o.fetch < a && b < o.insert && AnsweredFrom(run, i, k, t, o)
  {
    var t, o := AnswersAreSourced(run, i, k, v);
    assert o.fetch < a;
    assert b < o.insert;
  }

  /** No request for `k` takes longer than `latency` from its look-up to its insertion. */
  ghost predicate Prompt<S, K, V(!new)>(run: Run<S, K, V>, k: K, latency: nat) {
    forall t: Timed<V>, o: Origin :: InsertedAt(run, o, k, t) ==>
      At(run, o.insert).now - At(run, o.fetch).now <= latency
  }

  /** Without the clearing, the time to live bounds how long the withdrawn key is still answered. */
  lemma LateAnswersAreBounded<S, K(!new), V(!new)>(run: Run<S, K, V>, a: nat, i: nat, k: K, v: V, latency: nat)
    requires Proper(run) && a <= i < |run.steps| && Withdrawn(run, k, a, i) && AnswerAt(run, i) == Some((k, v))
    requires Prompt(run, k, latency)
    ensures At(run, i).now - At(run, a).now <= run.config.ttl + latency
  {
    var t, o := AnswersAreSourced(run, i, k, v);
    SourcedIsFresh(run, i, k, t, o);
    ClockNeverGoesBack(run, o.fetch, a);
  }

  /** A look-up of `k` is in flight: found, acceptable, and not yet inserted. */
  ghost predicate Carries<S, K, V>(c: Config<S, K, V>, f: Flight<K, V>, k: K) {
    f.key == k && (f.Stamped? || (f.Fetched? && c.check(k, f.value)))
  }

  ghost predicate InFlight<S, K, V>(c: Config<S, K, V>, s: State<S, K, V>, k: K) {
    exists r :: r in s.flights && Carries(c, s.flights[r], k)
  }

  lemma GoneIsKept<S, K(!new), V(!new)>(c: Config<S, K, V>, s: State<S, K, V>, step: Step<S, K>, k: K)
    requires c.capacity > 0 && Sized(s.cache, c.capacity)
    requires k !in s.cache.data && !InFlight(c, s, k) && c.fetch(s.source, k, s.now) == None
    ensures k !in Next(c, s, step).cache.data && !InFlight(c, Next(c, s, step), k)
    ensures forall v :: Answer(c, s, step) != Some((k, v))
  {
    var s' := Next(c, s, step);
    StepChangesEntry(c, s, step, k);
    if step.Arrive? { GetKeepsSized(s.cache, step.key, s.now, c.ttl, c.expiry, c.capacity); }
    if step.Insert? && step.request in s.flights { assert !Carries(c, s.flights[step.request], k); }
    forall r | r in s'.flights ensures !Carries(c, s'.flights[r], k) {
      if r in s.flights { assert !Carries(c, s.flights[r], k); }
    }
  }

  lemma {:induction false} GoneStaysGone<S, K(!new), V(!new)>(run: Run<S, K, V>, b: nat, i: nat, k: K)
    requires Proper(run) && b <= i <= |run.steps| && Withdrawn(run, k, b, i)
    requires k !in At(run, b).cache.data && !InFlight(run.config, At(run, b), k)
    ensures k !in At(run, i).cache.data && !InFlight(run.config, At(run, i), k)
    decreases i
  {
    if b < i {
      GoneStaysGone(run, b, i - 1, k);
      RunIsSourced(run, i - 1);
      GoneIsKept(run.config, At(run, i - 1), run.steps[i - 1], k);
    }
  }

  ghost predicate NeverAnswered<S, K, V>(run: Run<S, K, V>, from: nat, k: K) {
    forall i :: from <= i < |run.steps| ==> AnswerAt(run, i).None? || AnswerAt(run, i).value.0 != k
  }

  function Continued<S, K, V>(run: Run<S, K, V>, more: seq<Step<S, K>>): Run<S, K, V> {
    run.(steps := run.steps + more)
  }

  lemma GoneIsNeverAnswered<S, K(!new), V(!new)>(run: Run<S, K, V>, b: nat, k: K)
    requires Proper(run) && b <= |run.steps| && Withdrawn(run, k, b, |run.steps|)
    requires k !in At(run, b).cache.data && !InFlight(run.config, At(run, b), k)
    ensures NeverAnswered(run, b, k)
  {
    forall i | b <= i < |run.steps| ensures AnswerAt(run, i).None? || AnswerAt(run, i).value.0 != k {
      GoneStaysGone(run, b, i, k);
      RunIsSourced(run, i);
      GoneIsKept(run.config, At(run, i), run.steps[i], k);
    }
  }

  lemma {:induction false} SamePrefix<S, K(!new), V>(run: Run<S, K, V>, more: seq<Step<S, K>>, i: nat)
    requires i <= |run.steps|
    ensures At(Continued(run, more), i) == At(run, i)
  {
    if i > 0 { SamePrefix(run, more, i - 1); }
  }

  /** A look-up in flight needs only to be finished for the withdrawn key to be answered once more. */
  lemma FinishInFlight<S, K(!new), V>(run: Run<S, K, V>, k: K) returns (more: seq<Step<S, K>>)
    requires InFlight(run.config, At(run, |run.steps|), k)
    requires var s := At(run, |run.steps|); run.config.fetch(s.source, k, s.now) == None
    ensures Withdrawn(Continued(run, more), k, |run.steps|, |run.steps| + |more|)
    ensures !NeverAnswered(Continued(run, more), |run.steps|, k)
    ensures forall x :: x in more ==> !x.Write?
  {
    var b, s := |run.steps|, At(run, |run.steps|);
    var r :| r in s.flights && Carries(run.config, s.flights[r], k);
    more := [Check(r), Insert(r)];
    var all := Continued(run, more);
    SamePrefix(run, more, b);
    assert all.steps[b] == Check(r) && all.steps[b + 1] == Insert(r);
    var s1 := Next(run.config, s, Check(r));
    assert At(all, b + 1) == s1;
    assert At(all, b + 2) == Next(run.config, s1, Insert(r));
    assert AnswerAt(all, b + 1) == Some((k, s1.flights[r].entry.value));
  }

  // ---- When the time to live alone is the bound --------------------------------------------------------------

  /** From state `from` on, answers for `k` come no later than `d` after it. */
  ghost predicate AnsweredWithin<S, K, V>(run: Run<S, K, V>, from: nat, k: K, d: int)
    requires from <= |run.steps|
  {
    forall i :: from <= i < |run.steps| && AnswerAt(run, i).Some? && AnswerAt(run, i).value.0 == k ==>
      At(run, i).now - At(run, from).now <= d
  }

  /** No look-up of `k` is in flight, and an entry for it was stamped by time `t`. */
  ghost predicate SettledBy<S, K, V>(c: Config<S, K, V>, s: State<S, K, V>, k: K, t: int) {
    !InFlight(c, s, k) && (k in s.cache.data ==> s.cache.data[k].cachedAt <= t)
  }

  lemma SettledIsKept<S, K(!new), V>(c: Config<S, K, V>, s: State<S, K, V>, step: Step<S, K>, k: K, t: int)
    requires c.capacity > 0 && Sized(s.cache, c.capacity)
    requires SettledBy(c, s, k, t) && c.fetch(s.source, k, s.now) == None
    ensures SettledBy(c, Next(c, s, step), k, t)
    ensures Answer(c, s, step).Some? && Answer(c, s, step).value.0 == k ==> s.now - t <= c.ttl
  {
    var s' := Next(c, s, step);
    StepChangesEntry(c, s, step, k);
    if step.Arrive? { GetKeepsSized(s.cache, step.key, s.now, c.ttl, c.expiry, c.capacity); }
    if step.Insert? && step.request in s.flights { assert !Carries(c, s.flights[step.request], k); }
    forall r | r in s'.flights ensures !Carries(c, s'.flights[r], k) {
      if r in s.flights { assert !Carries(c, s.flights[r], k); }
    }
  }

  lemma {:induction false} SettledStays<S, K(!new), V>(run: Run<S, K, V>, b: nat, i: nat, k: K, t: int)
    requires Proper(run) && b <= i <= |run.steps| && Withdrawn(run, k, b, i)
    requires SettledBy(run.config, At(run, b), k, t)
    ensures SettledBy(run.config, At(run, i), k, t)
    decreases i
  {
    hide Next, SettledBy;
    if b < i {
      SettledStays(run, b, i - 1, k, t);
      RunIsSourced(run, i - 1);
      SettledIsKept(run.config, At(run, i - 1), run.steps[i - 1], k, t);
    }
  }

  /** A withdrawn key with no look-up in flight is answered no longer than the time to live. */
  lemma SettledIsAnsweredWithin<S, K(!new), V>(run: Run<S, K, V>, b: nat, k: K)
    requires Proper(run) && b <= |run.steps| && Withdrawn(run, k, b, |run.steps|)
    requires !InFlight(run.config, At(run, b), k)
    ensures AnsweredWithin(run, b, k, run.config.ttl)
  {
    hide Next, Answer;
    var t := At(run, b).now;
    RunIsSourced(run, b);
    if k in At(run, b).cache.data {
      var entry := At(run, b).cache.data[k];
      var o: Origin :| o.insert < b && InsertedAt(run, o, k, entry) && Uncleared(run.steps, o.insert, b);
      ClockNeverGoesBack(run, o.check, b);
    }
    forall i | b <= i < |run.steps| && AnswerAt(run, i).Some? && AnswerAt(run, i).value.0 == k
      ensures At(run, i).now - t <= run.config.ttl
    {
      SettledStays(run, b, i, k, t);
      RunIsSourced(run, i);
      SettledIsKept(run.config, At(run, i), run.steps[i], k, t);
    }
  }

  /** A look-up in flight may be finished as late as one likes. */
  lemma FinishLate<S, K(!new), V>(run: Run<S, K, V>, k: K, delay: nat) returns (more: seq<Step<S, K>>)
    requires InFlight(run.config, At(run, |run.steps|), k)
    ensures !AnsweredWithin(Continued(run, more), |run.steps|, k, delay as int - 1)
    ensures forall x :: x in more ==> !x.Write?
  {
    var b, s := |run.steps|, At(run, |run.steps|);
    var r :| r in s.flights && Carries(run.config, s.flights[r], k);
    more := [Tick(delay), Check(r), Insert(r)];
    var all := Continued(run, more);
    SamePrefix(run, more, b);
    assert all.steps[b] == Tick(delay) && all.steps[b + 1] == Check(r) && all.steps[b + 2] == Insert(r);
    var s1 := Next(run.config, s, Tick(delay));
    var s2 := Next(run.config, s1, Check(r));
    assert At(all, b + 1) == s1;
    assert At(all, b + 2) == s2;
    assert AnswerAt(all, b + 2) == Some((k, s2.flights[r].entry.value));
    assert s2.now - s.now == delay;
  }
}
