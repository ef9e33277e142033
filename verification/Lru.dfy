/** A least-recently-used cache of bounded size: what is stored, and the stored keys from the most to the
    least recently used. Values are kept for a limited time. */
module Lru {
  import opened Schema

  datatype Lru<K, V> = Lru(order: seq<K>, data: map<K, V>)

  function Nothing<K, V>(): Lru<K, V> {
    Lru([], map[])
  }

  function Dropped<K(==)>(order: seq<K>, k: K): seq<K> {
    if order == [] then [] else if order[0] == k then order[1..] else [order[0]] + Dropped(order[1..], k)
  }

  function Find<K(==), V>(c: Lru<K, V>, k: K): Option<V> {
    if k in c.data then Some(c.data[k]) else None
  }

  /** `pop`. */
  function Pop<K(==), V>(c: Lru<K, V>, k: K): Lru<K, V> {
    Lru(Dropped(c.order, k), c.data - {k})
  }

  /** `get`: a hit becomes the most recently used entry. */
  function Touch<K(==), V>(c: Lru<K, V>, k: K): Lru<K, V> {
    if k in c.data then c.(order := [k] + Dropped(c.order, k)) else c
  }

  /** What is given up to make room for a new key: nothing, or the least recently used entry. */
  function MakeRoom<K(==), V>(c: Lru<K, V>, capacity: nat): Lru<K, V> {
    if |c.order| < capacity || c.order == [] then c
    else
      var last := |c.order| - 1;
      Lru(c.order[..last], c.data - {c.order[last]})
  }

  /** `put`: the entry becomes the most recently used. */
  function Put<K(==), V>(c: Lru<K, V>, k: K, v: V, capacity: nat): Lru<K, V> {
    var room := if k in c.data then Pop(c, k) else MakeRoom(c, capacity);
    Lru([k] + room.order, room.data[k := v])
  }

  // ---- Each key once, never more than the capacity ----------------------------------------------------

  ghost predicate Distinct<K(!new)>(order: seq<K>) {
    forall i, j :: 0 <= i < j < |order| ==> order[i] != order[j]
  }

  ghost predicate Sized<K(!new), V>(c: Lru<K, V>, capacity: nat) {
    && Distinct(c.order) && |c.order| <= capacity
    && (forall k :: k in c.order <==> k in c.data)
  }

  lemma {:induction false} DroppedIsWithout<K(!new)>(order: seq<K>, k: K)
    requires Distinct(order)
    ensures Distinct(Dropped(order, k))
    ensures forall x :: x in Dropped(order, k) <==> x in order && x != k
    ensures |Dropped(order, k)| == |order| - if k in order then 1 else 0
  {
    if order != [] {
      var rest := order[1..];
      assert forall x :: x in order <==> x == order[0] || x in rest;
      assert order[0] !in rest;
      if order[0] != k {
        DroppedIsWithout(rest, k);
        var t := Dropped(rest, k);
        assert forall j :: 0 <= j < |t| ==> t[j] in t && t[j] in rest;
      }
    }
  }

  lemma PrependKeepsDistinct<K(!new)>(k: K, order: seq<K>)
    requires Distinct(order) && k !in order
    ensures Distinct([k] + order) && forall x :: x in [k] + order <==> x == k || x in order
  {
  }

  lemma PopKeepsSized<K(!new), V>(c: Lru<K, V>, k: K, capacity: nat)
    requires Sized(c, capacity)
    ensures Sized(Pop(c, k), capacity)
    ensures k in c.data ==> |Pop(c, k).order| < |c.order|
  {
    DroppedIsWithout(c.order, k);
  }

  lemma TouchKeepsSized<K(!new), V>(c: Lru<K, V>, k: K, capacity: nat)
    requires Sized(c, capacity)
    ensures Sized(Touch(c, k), capacity)
  {
    DroppedIsWithout(c.order, k);
    PrependKeepsDistinct(k, Dropped(c.order, k));
  }

  lemma RoomIsMade<K(!new), V>(c: Lru<K, V>, capacity: nat)
    requires capacity > 0 && Sized(c, capacity)
    ensures var room := MakeRoom(c, capacity); Sized(room, capacity) && |room.order| < capacity
    ensures forall k :: k in MakeRoom(c, capacity).data ==> k in c.data && c.data[k] == MakeRoom(c, capacity).data[k]
  {
    if |c.order| >= capacity {
      var last := |c.order| - 1;
      assert c.order == c.order[..last] + [c.order[last]];
      assert forall x :: x in c.order <==> x in c.order[..last] || x == c.order[last];
    }
  }

  /** What a `put` keeps: the size bound, one entry a key, the new entry, and no entry that was not there. */
  lemma PutKeepsSized<K(!new), V>(c: Lru<K, V>, k: K, v: V, capacity: nat)
    requires capacity > 0 && Sized(c, capacity)
    ensures Sized(Put(c, k, v, capacity), capacity) && Find(Put(c, k, v, capacity), k) == Some(v)
    ensures forall x :: x in Put(c, k, v, capacity).data && x != k ==> Find(c, x) == Find(Put(c, k, v, capacity), x)
  {
    DroppedIsWithout(c.order, k);
    PopKeepsSized(c, k, capacity);
    RoomIsMade(c, capacity);
    PrependKeepsDistinct(k, if k in c.data then Pop(c, k).order else MakeRoom(c, capacity).order);
  }

  // ---- Time-limited look-ups -----------------------------------------------------------------------------

  datatype Timed<+V> = Timed(value: V, cachedAt: int)

  datatype LookUp<K, V> = LookUp(cache: Lru<K, Timed<V>>, hit: Option<Timed<V>>)

  /** When a value itself expires, if it does. */
  type Expiry<!V> = V -> Option<int>

  predicate Live<V>(t: Timed<V>, now: int, ttl: int, expiry: Expiry<V>) {
    now - t.cachedAt <= ttl && (match expiry(t.value) case Some(x) => now < x case None => true)
  }

  /** The entry found is first made the most recently used; one that outlived its time, or whose value
      expired, is then dropped and does not count. */
  function Get<K(==), V>(c: Lru<K, Timed<V>>, k: K, now: int, ttl: int, expiry: Expiry<V>): LookUp<K, V> {
    var touched := Touch(c, k);
    match Find(c, k)
    case None => LookUp(touched, None)
    case Some(t) => if Live(t, now, ttl, expiry) then LookUp(touched, Some(t)) else LookUp(Pop(touched, k), None)
  }

  lemma GetKeepsSized<K(!new), V>(c: Lru<K, Timed<V>>, k: K, now: int, ttl: int, expiry: Expiry<V>, capacity: nat)
    requires Sized(c, capacity)
    ensures
      var g := Get(c, k, now, ttl, expiry);
      && Sized(g.cache, capacity)
      && (forall x :: x in g.cache.data ==> Find(g.cache, x) == Find(c, x))
      && (g.hit.Some? ==> Find(c, k) == g.hit && Live(g.hit.value, now, ttl, expiry))
  {
    TouchKeepsSized(c, k, capacity);
    PopKeepsSized(Touch(c, k), k, capacity);
  }

  // ---- Survival ------------------------------------------------------------------------------------------

  datatype Use<K, V> = Getting(key: K, now: int) | Putting(key: K, entry: Timed<V>)

  function Apply<K(==), V>(c: Lru<K, Timed<V>>, u: Use<K, V>, ttl: int, expiry: Expiry<V>, capacity: nat): Lru<K, Timed<V>> {
    match u
    case Getting(k, now) => Get(c, k, now, ttl, expiry).cache
    case Putting(k, t) => Put(c, k, t, capacity)
  }

  function ApplyAll<K(==), V>(
    c: Lru<K, Timed<V>>, uses: seq<Use<K, V>>, ttl: int, expiry: Expiry<V>, capacity: nat): Lru<K, Timed<V>>
    decreases |uses|
  {
    if uses == [] then c else ApplyAll(Apply(c, uses[0], ttl, expiry, capacity), uses[1..], ttl, expiry, capacity)
  }

  ghost function UsedKeys<K(!new), V>(uses: seq<Use<K, V>>): set<K> {
    set i | 0 <= i < |uses| :: uses[i].key
  }

  /** `k` is listed, and only keys from `ahead` are listed before it. */
  ghost predicate Behind<K(!new)>(order: seq<K>, k: K, ahead: set<K>) {
    exists i :: 0 <= i < |order| && order[i] == k && forall j :: 0 <= j < i ==> order[j] in ahead
  }

  lemma {:induction false} DroppedKeepsBehind<K(!new)>(order: seq<K>, x: K, k: K, ahead: set<K>)
    requires x != k && Behind(order, k, ahead)
    ensures Behind(Dropped(order, x), k, ahead)
  {
    var i :| 0 <= i < |order| && order[i] == k && forall j :: 0 <= j < i ==> order[j] in ahead;
    if order[0] == x {
      assert Dropped(order, x)[i - 1] == k;
    } else if i == 0 {
      assert Dropped(order, x)[0] == k;
    } else {
      assert order[1..][i - 1] == k;
      DroppedKeepsBehind(order[1..], x, k, ahead);
      PrependKeepsBehind(Dropped(order[1..], x), order[0], k, ahead);
      assert ahead + {order[0]} == ahead;
    }
  }

  lemma PrependKeepsBehind<K(!new)>(order: seq<K>, x: K, k: K, ahead: set<K>)
    requires Behind(order, k, ahead)
    ensures Behind([x] + order, k, ahead + {x})
  {
    var i :| 0 <= i < |order| && order[i] == k && forall j :: 0 <= j < i ==> order[j] in ahead;
    assert ([x] + order)[i + 1] == k;
    assert forall j :: 0 <= j < i + 1 ==> ([x] + order)[j] in ahead + {x};
  }

  lemma {:induction false} DistinctCount<K(!new)>(order: seq<K>, within: set<K>)
    requires Distinct(order) && forall x :: x in order ==> x in within
    ensures |order| <= |within|
    decreases |order|
  {
    if order != [] {
      DistinctCount(order[1..], within - {order[0]});
    }
  }

  /** The keys ahead of a key are distinct, so it is not the one evicted unless they fill the cache. */
  lemma EvictionSparesEntry<K(!new), V>(c: Lru<K, V>, x: K, k: K, ahead: set<K>, capacity: nat)
    requires Sized(c, capacity) && Behind(c.order, k, ahead)
    requires x !in c.data && |ahead + {x}| < capacity
    ensures Behind(MakeRoom(c, capacity).order, k, ahead)
    ensures Find(MakeRoom(c, capacity), k) == Find(c, k)
  {
    var i :| 0 <= i < |c.order| && c.order[i] == k && forall j :: 0 <= j < i ==> c.order[j] in ahead;
    assert x !in c.order;
    DistinctCount([x] + c.order[..i], ahead + {x});
    assert |c.order| >= capacity ==> c.order[..|c.order| - 1][i] == k;
  }

  lemma UseKeepsBehind<K(!new), V>(
    c: Lru<K, Timed<V>>, u: Use<K, V>, ttl: int, expiry: Expiry<V>, capacity: nat, k: K, ahead: set<K>)
    requires capacity > 0 && Sized(c, capacity) && Behind(c.order, k, ahead)
    requires u.key != k && |ahead + {u.key}| < capacity
    ensures
      var c' := Apply(c, u, ttl, expiry, capacity);
      Sized(c', capacity) && Behind(c'.order, k, ahead + {u.key}) && Find(c', k) == Find(c, k)
  {
    var x := u.key;
    DroppedKeepsBehind(c.order, x, k, ahead);
    PrependKeepsBehind(Dropped(c.order, x), x, k, ahead);
    assert Behind(c.order, k, ahead + {x});
    match u {
      case Getting(_, now) =>
        GetKeepsSized(c, x, now, ttl, expiry, capacity);
        DroppedKeepsBehind(Touch(c, x).order, x, k, ahead + {x});
      case Putting(_, t) =>
        PutKeepsSized(c, x, t, capacity);
        if x !in c.data {
          EvictionSparesEntry(c, x, k, ahead, capacity);
          PrependKeepsBehind(MakeRoom(c, capacity).order, x, k, ahead);
        }
    }
  }

  lemma {:induction false} UsesKeepBehind<K(!new), V>(
    c: Lru<K, Timed<V>>, uses: seq<Use<K, V>>, ttl: int, expiry: Expiry<V>, capacity: nat, k: K, ahead: set<K>)
    requires capacity > 0 && Sized(c, capacity) && Behind(c.order, k, ahead)
    requires k !in UsedKeys(uses) && |ahead + UsedKeys(uses)| < capacity
    ensures
      var c' := ApplyAll(c, uses, ttl, expiry, capacity);
      Sized(c', capacity) && Find(c', k) == Find(c, k)
    decreases |uses|
  {
    if uses != [] {
      var u, rest := uses[0], uses[1..];
      assert u.key in UsedKeys(uses);
      assert forall i :: 0 <= i < |rest| ==> rest[i] == uses[i + 1];
      assert UsedKeys(uses) == {u.key} + UsedKeys(rest) by {
        forall y | y in UsedKeys(uses) ensures y in {u.key} + UsedKeys(rest) {
          var i :| 0 <= i < |uses| && uses[i].key == y;
          if i > 0 { assert rest[i - 1].key == y; }
        }
      }
      Smaller(ahead + {u.key}, ahead + UsedKeys(uses));
      UseKeepsBehind(c, u, ttl, expiry, capacity, k, ahead);
      assert ahead + {u.key} + UsedKeys(rest) == ahead + UsedKeys(uses);
      UsesKeepBehind(Apply(c, u, ttl, expiry, capacity), rest, ttl, expiry, capacity, k, ahead + {u.key});
    }
  }

  lemma {:induction false} Smaller<T>(a: set<T>, b: set<T>)
    requires a <= b
    ensures |a| <= |b|
    decreases |a|
  {
    if a != {} {
      var x :| x in a;
      Smaller(a - {x}, b - {x});
    }
  }

  /** An entry just put survives any number of look-ups and insertions of other keys, as long as these are
      fewer than the capacity, whatever expires meanwhile; it is then still found while it is live. */
  lemma EntrySurvives<K(!new), V>(
    c: Lru<K, Timed<V>>, k: K, t: Timed<V>, uses: seq<Use<K, V>>, now: int, ttl: int, expiry: Expiry<V>, capacity: nat)
    requires capacity > 0 && Sized(c, capacity)
    requires k !in UsedKeys(uses) && |UsedKeys(uses)| < capacity
    ensures
      var c' := ApplyAll(Put(c, k, t, capacity), uses, ttl, expiry, capacity);
      && |c'.order| <= capacity && Find(c', k) == Some(t)
      && Get(c', k, now, ttl, expiry).hit == if Live(t, now, ttl, expiry) then Some(t) else None
  {
    var p := Put(c, k, t, capacity);
    PutKeepsSized(c, k, t, capacity);
    assert p.order[0] == k;
    assert {} + UsedKeys(uses) == UsedKeys(uses);
    UsesKeepBehind(p, uses, ttl, expiry, capacity, k, {});
  }

  /** An entry just hit survives likewise: every hit gives it as long again, so an entry that is asked for in
      time stays until it expires, whatever else is used in between. */
  lemma HitEntrySurvives<K(!new), V>(
    c: Lru<K, Timed<V>>, k: K, hitAt: int, uses: seq<Use<K, V>>, now: int, ttl: int, expiry: Expiry<V>, capacity: nat)
    requires capacity > 0 && Sized(c, capacity) && Get(c, k, hitAt, ttl, expiry).hit.Some?
    requires k !in UsedKeys(uses) && |UsedKeys(uses)| < capacity
    ensures
      var hit := Get(c, k, hitAt, ttl, expiry);
      var c' := ApplyAll(hit.cache, uses, ttl, expiry, capacity);
      && Sized(c', capacity) && Find(c', k) == hit.hit
      && Get(c', k, now, ttl, expiry).hit == if Live(hit.hit.value, now, ttl, expiry) then hit.hit else None
  {
    var g := Get(c, k, hitAt, ttl, expiry);
    GetKeepsSized(c, k, hitAt, ttl, expiry, capacity);
    assert g.cache.order[0] == k;
    assert {} + UsedKeys(uses) == UsedKeys(uses);
    UsesKeepBehind(g.cache, uses, ttl, expiry, capacity, k, {});
  }
}
