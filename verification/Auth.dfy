/** Bearer-token authorisation: the cache in front of the key table, and what the protocol of many requests,
    revocations and clock ticks guarantees about accepted tokens. The cache is keyed by the token's SHA-256,
    represented by the token. */
module Auth {
  import opened Schema
  import opened Lru
  import opened ReadThrough
  import opened KeyStore

  // ---- The cache in place ---------------------------------------------------------------------------------

  function KeyExpiry(row: KeyRow): Option<int> {
    row.expiresAt
  }

  class AuthCache {
    var inner: Lru<string, Timed<KeyRow>>
    const ttl: int
    const capacity: nat

    constructor (capacity: nat, ttl: int)
      requires capacity > 0
      ensures inner == Nothing() && this.ttl == ttl && this.capacity == capacity
      ensures Sized(inner, capacity)
    {
      inner := Nothing();
      this.ttl := ttl;
      this.capacity := capacity;
    }

    /** A hit is an entry stored for this very token, within its time, whose key has not expired. */
    method GetEntry(token: string, now: int) returns (hit: Option<Timed<KeyRow>>)
      requires Sized(inner, capacity)
      modifies this
      ensures LookUp(inner, hit) == Get(old(inner), token, now, ttl, KeyExpiry)
      ensures Sized(inner, capacity)
      ensures hit.Some? <==>
        && token in old(inner.data)
        && var entry := old(inner.data)[token];
           && now - entry.cachedAt <= ttl
           && (entry.value.expiresAt.Some? ==> now < entry.value.expiresAt.value)
      ensures hit.Some? ==> hit.value == old(inner.data)[token] && inner.data == old(inner.data)
      ensures hit.None? ==> inner.data == old(inner.data) - {token}
    {
      GetKeepsSized(inner, token, now, ttl, KeyExpiry, capacity);
      inner := Touch(inner, token);
      var found := Find(inner, token);
      if found.None? {
        return None;
      }
      if now - found.value.cachedAt > ttl {
        inner := Pop(inner, token);
        return None;
      }
      if found.value.value.expiresAt.Some? {
        if found.value.value.expiresAt.value <= now {
          inner := Pop(inner, token);
          return None;
        }
      }
      hit := found;
    }

    method InsertEntry(token: string, entry: Timed<KeyRow>)
      requires capacity > 0 && Sized(inner, capacity)
      modifies this
      ensures inner == Put(old(inner), token, entry, capacity)
      ensures Sized(inner, capacity) && Find(inner, token) == Some(entry)
    {
      PutKeepsSized(inner, token, entry, capacity);
      inner := Put(inner, token, entry, capacity);
    }

    method InvalidateAll()
      modifies this
      ensures inner == Nothing() && Sized(inner, capacity)
    {
      inner := Nothing();
    }

    method Invalidate(token: string)
      requires Sized(inner, capacity)
      modifies this
      ensures Sized(inner, capacity) && inner.data == old(inner.data) - {token}
    {
      PopKeepsSized(inner, token, capacity);
      inner := Pop(inner, token);
    }
  }

  // ---- The protocol -----------------------------------------------------------------------------------------

  /** Resolving a bearer token: fetch is the database look-up, check the Argon2 verification. */
  function AuthConfig(prefixOf: PrefixOf, ttl: int, capacity: nat): Config<Keys, string, KeyRow> {
    Config((keys: Keys, token: string, now: int) => Lookup(prefixOf, keys, token, now), Verifies, KeyExpiry, ttl, capacity)
  }

  /** One request in the code's order: the cache, then look-up, verification and insertion. Alone, it is the
      protocol's four steps of one request. */
  method ResolveAuth(cache: AuthCache, table: KeyTable, token: string, now: int) returns (row: Option<KeyRow>)
    requires cache.capacity > 0 && Sized(cache.inner, cache.capacity)
    modifies cache
    ensures Sized(cache.inner, cache.capacity)
    ensures cache.inner == Undisturbed(
      AuthConfig(table.prefixOf, cache.ttl, cache.capacity), State(now, table.keys, old(cache.inner), map[], 0), token).cache
    ensures
      var hit := Get(old(cache.inner), token, now, cache.ttl, KeyExpiry).hit;
      var found := Lookup(table.prefixOf, table.keys, token, now);
      row == if hit.Some? then Some(hit.value.value)
             else if found.Some? && Verifies(token, found.value) then found
             else None
  {
    hide Undisturbed;
    UndisturbedCache(
      AuthConfig(table.prefixOf, cache.ttl, cache.capacity), State(now, table.keys, cache.inner, map[], 0), token);
    var hit := cache.GetEntry(token, now);
    if hit.Some? {
      return Some(hit.value.value);
    }
    var found := table.LookupActiveRowByPrefix(token, now);
    if found.None? || !Verifies(token, found.value) {
      return None;
    }
    cache.InsertEntry(token, Timed(found.value, now));
    row := found;
  }

  type AuthRun = Run<Keys, string, KeyRow>

  ghost predicate IsAuthRun(run: AuthRun, prefixOf: PrefixOf) {
    && run.config == AuthConfig(prefixOf, run.config.ttl, run.config.capacity)
    && Proper(run) && Administered(run, prefixOf)
  }

  /** The table is only ever changed by the operations of the key store. */
  ghost predicate Administered(run: AuthRun, prefixOf: PrefixOf) {
    forall i :: 0 <= i < |run.steps| && run.steps[i].Write? ==>
      exists op :: run.steps[i].source == ApplyOp(prefixOf, At(run, i).source, op)
  }

  ghost predicate ActiveAt(prefixOf: PrefixOf, s: State<Keys, string, KeyRow>, token: string, row: KeyRow) {
    && VISIBLE_PREFIX <= token && prefixOf(token) in s.source && s.source[prefixOf(token)] == row
    && row.secret == token && Active(row, s.now)
  }

  /** Every accepted token was, when some request looked it up, the secret of an active row, which is the row
      the caller is given. The time since is at most the time to live plus that request's latency, and a
      cached row is not expired. */
  lemma AcceptsAreBoundedlyStale(run: AuthRun, prefixOf: PrefixOf, i: nat, token: string, row: KeyRow)
    requires IsAuthRun(run, prefixOf) && i < |run.steps| && AnswerAt(run, i) == Some((token, row))
    ensures exists t: Timed<KeyRow>, o: Origin ::
      && t.value == row && AnsweredFrom(run, i, token, t, o) && FreshEnough(run, i, o)
      && ActiveAt(prefixOf, At(run, o.fetch), token, row)
      && (o.insert < i && row.expiresAt.Some? ==> At(run, i).now < row.expiresAt.value)
  {
    var t, o := AnswersAreSourced(run, i, token, row);
    SourcedIsFresh(run, i, token, t, o);
    assert ActiveAt(prefixOf, At(run, o.fetch), token, row);
  }

  // ---- Revocation -------------------------------------------------------------------------------------------

  ghost predicate IsRevoked(prefixOf: PrefixOf, keys: Keys, token: string) {
    prefixOf(token) in keys && keys[prefixOf(token)].revokedAt.Some?
  }

  /** The key the token is stored under is the one named, by its prefix or by its id. */
  predicate NamesToken(prefixOf: PrefixOf, keys: Keys, token: string, target: string, parsed: Option<nat>) {
    prefixOf(token) in keys && (target == prefixOf(token) || parsed == Some(keys[prefixOf(token)].id))
  }

  /** The API's revocation alone: the row first, then the whole cache, unless no row is found. Every token of
      a row named, by prefix or by id, is then neither active nor cached. */
  method RevokeThroughApi(cache: AuthCache, table: KeyTable, target: string, parsed: Option<nat>, at: int)
    returns (found: bool)
    requires Sized(cache.inner, cache.capacity)
    modifies cache, table
    ensures Sized(cache.inner, cache.capacity)
    ensures table.keys == ApplyOp(table.prefixOf, old(table.keys), Revoke(target, parsed, at))
    ensures cache.inner == if found then Nothing() else old(cache.inner)
    ensures found <==>
      target in old(table.keys) || exists p :: p in old(table.keys) && parsed == Some(old(table.keys)[p].id)
    ensures forall token, now | NamesToken(table.prefixOf, old(table.keys), token, target, parsed) ::
      && Lookup(table.prefixOf, table.keys, token, now) == None
      && Get(cache.inner, token, now, cache.ttl, KeyExpiry).hit == None
  {
    found := table.RevokeKey(target, parsed, at);
    if found {
      cache.InvalidateAll();
    }
  }

  lemma {:induction false} RevokedStaysWithdrawn(run: AuthRun, prefixOf: PrefixOf, a: nat, x: nat, token: string)
    requires IsAuthRun(run, prefixOf) && a <= x <= |run.steps| && IsRevoked(prefixOf, At(run, a).source, token)
    ensures IsRevoked(prefixOf, At(run, x).source, token) && Withdrawn(run, token, a, x)
    decreases x
  {
    if a < x {
      RevokedStaysWithdrawn(run, prefixOf, a, x - 1, token);
      if run.steps[x - 1].Write? {
        var op :| run.steps[x - 1].source == ApplyOp(prefixOf, At(run, x - 1).source, op);
        assert ApplyOps(prefixOf, At(run, x - 1).source, [op]) == ApplyOp(prefixOf, At(run, x - 1).source, op);
        RowsAreNeverRevived(prefixOf, At(run, x - 1).source, [op], prefixOf(token));
      }
    }
  }

  /** The API's revocation, row first and cache second: after both, a request is accepted only through a
      look-up made before the row was revoked whose entry went in after the cache was cleared. */
  lemma RevocationLeavesOnlyInFlight(run: AuthRun, prefixOf: PrefixOf, a: nat, b: nat, i: nat, token: string, row: KeyRow)
    requires IsAuthRun(run, prefixOf) && a <= b < i < |run.steps|
    requires IsRevoked(prefixOf, At(run, a).source, token) && run.steps[b].Clear?
    requires AnswerAt(run, i) == Some((token, row))
    ensures exists t: Timed<KeyRow>, o: Origin ::
      t.value == row && o.fetch < a && b < o.insert && AnsweredFrom(run, i, token, t, o)
  {
    RevokedStaysWithdrawn(run, prefixOf, a, i, token);
    LateAnswersWereInFlight(run, a, b, i, token, row);
  }

  /** Exactly when that revocation is immediate, however many requests are under way: right after the cache
      was cleared, the token is never accepted again, whatever follows, if and only if no verified look-up of
      it is waiting to be inserted. */
  lemma RevocationIsImmediateIff(run: AuthRun, prefixOf: PrefixOf, token: string)
    requires IsAuthRun(run, prefixOf) && |run.steps| > 0 && run.steps[|run.steps| - 1].Clear?
    requires IsRevoked(prefixOf, At(run, |run.steps|).source, token)
    ensures
      var b := |run.steps|;
      (forall more :: Administered(Continued(run, more), prefixOf) ==> NeverAnswered(Continued(run, more), b, token))
      <==> !InFlight(run.config, At(run, b), token)
  {
    var b := |run.steps|;
    if InFlight(run.config, At(run, b), token) {
      RevokedStaysWithdrawn(run, prefixOf, b, b, token);
      var more := FinishInFlight(run, token);
      WritelessStaysAdministered(run, prefixOf, more);
      assert !NeverAnswered(Continued(run, more), b, token);
    } else {
      forall more | Administered(Continued(run, more), prefixOf) ensures NeverAnswered(Continued(run, more), b, token) {
        NothingInFlightNothingAccepted(run, prefixOf, token, more);
      }
    }
  }

  lemma WritelessStaysAdministered(run: AuthRun, prefixOf: PrefixOf, more: seq<Step<Keys, string>>)
    requires Administered(run, prefixOf) && forall x :: x in more ==> !x.Write?
    ensures Administered(Continued(run, more), prefixOf)
  {
    var all := Continued(run, more);
    assert forall i :: |run.steps| <= i < |all.steps| ==> all.steps[i] in more;
    forall i | 0 <= i < |all.steps| && all.steps[i].Write?
      ensures exists op :: all.steps[i].source == ApplyOp(prefixOf, At(all, i).source, op)
    {
      SamePrefix(run, more, i);
      var op :| run.steps[i].source == ApplyOp(prefixOf, At(run, i).source, op);
    }
  }

  lemma NothingInFlightNothingAccepted(run: AuthRun, prefixOf: PrefixOf, token: string, more: seq<Step<Keys, string>>)
    requires IsAuthRun(run, prefixOf) && |run.steps| > 0 && run.steps[|run.steps| - 1].Clear?
    requires IsRevoked(prefixOf, At(run, |run.steps|).source, token)
    requires !InFlight(run.config, At(run, |run.steps|), token) && Administered(Continued(run, more), prefixOf)
    ensures NeverAnswered(Continued(run, more), |run.steps|, token)
  {
    var b, all := |run.steps|, Continued(run, more);
    assert At(run, b) == Next(run.config, At(run, b - 1), Clear);
    SamePrefix(run, more, b);
    RevokedStaysWithdrawn(all, prefixOf, b, |all.steps|, token);
    GoneIsNeverAnswered(all, b, token);
  }

  /** The command line's revocation, which leaves the cache alone, takes effect within the time to live plus
      the longest time a request spends between its look-up and its insertion. */
  lemma CliRevocationIsBounded(run: AuthRun, prefixOf: PrefixOf, a: nat, i: nat, token: string, row: KeyRow, latency: nat)
    requires IsAuthRun(run, prefixOf) && a <= i < |run.steps|
    requires IsRevoked(prefixOf, At(run, a).source, token) && AnswerAt(run, i) == Some((token, row))
    requires Prompt(run, token, latency)
    ensures At(run, i).now - At(run, a).now <= run.config.ttl + latency
  {
    RevokedStaysWithdrawn(run, prefixOf, a, i, token);
    LateAnswersAreBounded(run, a, i, token, row, latency);
  }

  /** Exactly when the documented bound, the time to live, holds of that revocation: once the row is revoked, no
      continuation accepts the token later than that, if and only if no verified look-up of it was waiting to
      be inserted. */
  lemma CliRevocationMeetsTtlIff(run: AuthRun, prefixOf: PrefixOf, token: string)
    requires IsAuthRun(run, prefixOf) && IsRevoked(prefixOf, At(run, |run.steps|).source, token)
    ensures
      var b := |run.steps|;
      (forall more :: Administered(Continued(run, more), prefixOf) ==>
         AnsweredWithin(Continued(run, more), b, token, run.config.ttl))
      <==> !InFlight(run.config, At(run, b), token)
  {
    hide Next, Answer, AnsweredWithin;
    var b := |run.steps|;
    if InFlight(run.config, At(run, b), token) {
      var more := FinishLate(run, token, run.config.ttl + 1);
      WritelessStaysAdministered(run, prefixOf, more);
      assert !AnsweredWithin(Continued(run, more), b, token, run.config.ttl);
    } else {
      forall more | Administered(Continued(run, more), prefixOf)
        ensures AnsweredWithin(Continued(run, more), b, token, run.config.ttl)
      {
        SamePrefix(run, more, b);
        RevokedStaysWithdrawn(Continued(run, more), prefixOf, b, |Continued(run, more).steps|, token);
        SettledIsAnsweredWithin(Continued(run, more), b, token);
      }
    }
  }

  // ---- A revoked token accepted -------------------------------------------------------------------------------

  /** A key is created, a request looks it up, the key is revoked, and before that request is verified and
      inserted the cache may be cleared and any time may pass. */
  function LateSteps(prefixOf: PrefixOf, body: string, clear: bool, delay: nat): seq<Step<Keys, string>> {
    var token := VISIBLE_PREFIX + body;
    var created := ApplyOp(prefixOf, map[], Create(body, 0, "key", [], 60, None));
    var revoked := ApplyOp(prefixOf, created, Revoke(prefixOf(token), None, 0));
    [Write(created), Arrive(token), Fetch(0), Write(revoked),
     if clear then Clear else Tick(0), Tick(delay), Check(0), Insert(0)]
  }

  function LateRun(prefixOf: PrefixOf, ttl: nat, capacity: nat, body: string, clear: bool, delay: nat): AuthRun {
    Run(AuthConfig(prefixOf, ttl, capacity), State(0, map[], Nothing(), map[], 0),
        LateSteps(prefixOf, body, clear, delay))
  }

  /** The states of that run after the look-up, after the revocation, and after the verification. */
  lemma LateLookUp(prefixOf: PrefixOf, ttl: nat, capacity: nat, body: string, clear: bool, delay: nat)
    ensures
      var run := LateRun(prefixOf, ttl, capacity, body, clear, delay);
      var token := VISIBLE_PREFIX + body;
      var keys := map[prefixOf(token) := KeyRow(0, "key", [], 60, token, None, None, None)];
      && At(run, 3) == State(0, keys, Nothing(), map[0 := Fetched(token, keys[prefixOf(token)])], 1)
      && At(run, 4) == At(run, 3).(source := run.steps[3].source)
  {
    var run := LateRun(prefixOf, ttl, capacity, body, clear, delay);
    var token := VISIBLE_PREFIX + body;
    var keys: Keys := map[prefixOf(token) := KeyRow(0, "key", [], 60, token, None, None, None)];
    assert At(run, 1) == State(0, keys, Nothing(), map[], 0);
    assert At(run, 2) == State(0, keys, Nothing(), map[0 := Missed(token)], 1) by {
      assert At(run, 2) == Next(run.config, At(run, 1), Arrive(token));
    }
    assert At(run, 3) == Next(run.config, At(run, 2), Fetch(0));
    var fetched := Fetched(token, keys[prefixOf(token)]);
    assert map[0 := Missed(token)][0 := fetched] == map[0 := fetched];
    assert At(run, 4) == Next(run.config, At(run, 3), run.steps[3]);
  }

  lemma LateCheck(prefixOf: PrefixOf, ttl: nat, capacity: nat, body: string, clear: bool, delay: nat)
    ensures
      var run := LateRun(prefixOf, ttl, capacity, body, clear, delay);
      var token := VISIBLE_PREFIX + body;
      var row := KeyRow(0, "key", [], 60, token, None, None, None);
      At(run, 7) == State(delay, run.steps[3].source, Nothing(), map[0 := Stamped(token, Timed(row, delay))], 1)
  {
    hide LateRun;
    var run := LateRun(prefixOf, ttl, capacity, body, clear, delay);
    var token := VISIBLE_PREFIX + body;
    var row := KeyRow(0, "key", [], 60, token, None, None, None);
    LateLookUp(prefixOf, ttl, capacity, body, clear, delay);
    LateLast(prefixOf, ttl, capacity, body, clear, delay);
    assert At(run, 5) == Next(run.config, At(run, 4), run.steps[4]) == At(run, 4);
    assert At(run, 6) == Next(run.config, At(run, 5), Tick(delay));
    assert At(run, 7) == Next(run.config, At(run, 6), Check(0));
    var stamped := Stamped(token, Timed(row, delay));
    assert map[0 := Fetched(token, row)][0 := stamped] == map[0 := stamped];
  }

  lemma LateLast(prefixOf: PrefixOf, ttl: nat, capacity: nat, body: string, clear: bool, delay: nat)
    ensures
      var run := LateRun(prefixOf, ttl, capacity, body, clear, delay);
      && |run.steps| == 8 && run.steps[4] == (if clear then Clear else Tick(0))
      && run.steps[5] == Tick(delay) && run.steps[6] == Check(0) && run.steps[7] == Insert(0)
      && run.config.check == Verifies
  {
  }

  /** Whatever the time to live, and however long after: the token revoked at step 3 is accepted at step 7,
      through the cleared cache or not. */
  lemma RevokedTokenIsAccepted(prefixOf: PrefixOf, ttl: nat, capacity: nat, body: string, clear: bool, delay: nat)
    requires capacity > 0
    ensures
      var run := LateRun(prefixOf, ttl, capacity, body, clear, delay);
      var token := VISIBLE_PREFIX + body;
      && IsAuthRun(run, prefixOf) && IsRevoked(prefixOf, At(run, 4).source, token)
      && (clear ==> run.steps[4].Clear?)
      && AnswerAt(run, 7).Some? && AnswerAt(run, 7).value.0 == token
      && At(run, 7).now == At(run, 4).now + delay
  {
    hide Next;
    var run := LateRun(prefixOf, ttl, capacity, body, clear, delay);
    LateLookUp(prefixOf, ttl, capacity, body, clear, delay);
    LateCheck(prefixOf, ttl, capacity, body, clear, delay);
    forall i | 0 <= i < |run.steps| && run.steps[i].Write?
      ensures exists op :: run.steps[i].source == ApplyOp(prefixOf, At(run, i).source, op)
    {
      var token := VISIBLE_PREFIX + body;
      var op := if i == 0 then Create(body, 0, "key", [], 60, None) else Revoke(prefixOf(token), None, 0);
      assert i == 0 || i == 3;
      assert run.steps[i].source == ApplyOp(prefixOf, At(run, i).source, op);
    }
  }
}
