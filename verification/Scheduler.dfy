/** The daily scrape loop, on a clock in nanoseconds of UTC. Sleeps are exact; a run, with the wait for the
    scrape lock before it, takes any time. */
module Scheduler {
  const SECOND: int := 1_000_000_000
  const HOUR: int := 3600 * SECOND
  const DAY: int := 24 * HOUR
  const MIN_DELAY: int := 60

  function Hour(hourUtc: nat): nat {
    if hourUtc < 23 then hourUtc else 23
  }

  /** The daily moment on day `d`. */
  function Slot(hourUtc: nat, d: int): int {
    d * DAY + Hour(hourUtc) * HOUR
  }

  function Target(hourUtc: nat, now: int): int {
    var today := Slot(hourUtc, now / DAY);
    if today > now then today else today + DAY
  }

  /** In whole seconds. */
  function NextDelay(hourUtc: nat, now: int): int {
    var secs := (Target(hourUtc, now) - now) / SECOND;
    if secs < MIN_DELAY then MIN_DELAY else secs
  }

  function Wake(hourUtc: nat, now: int): int {
    now + NextDelay(hourUtc, now) * SECOND
  }

  /** When the loop is entered for the `k`-th time; `took(k)` is what run `k` took. */
  function Entry(hourUtc: nat, start: int, took: nat -> nat, k: nat): int {
    if k == 0 then start
    else Wake(hourUtc, Entry(hourUtc, start, took, k - 1)) + took(k - 1)
  }

  /** The first `n` turns of the loop. */
  method RunLoop(hourUtc: nat, start: int, took: nat -> nat, n: nat) returns (now: int)
    ensures now == Entry(hourUtc, start, took, n)
  {
    now := start;
    for k := 0 to n
      invariant now == Entry(hourUtc, start, took, k)
    {
      now := Wake(hourUtc, now);
      now := now + took(k);
    }
  }

  // ---- One sleep ------------------------------------------------------------------------------------------

  /** The target is the first slot strictly after now. */
  lemma TargetIsNextSlot(hourUtc: nat, now: int, d: int)
    ensures now < Target(hourUtc, now) <= now + DAY
    ensures Target(hourUtc, now) == Slot(hourUtc, now / DAY) || Target(hourUtc, now) == Slot(hourUtc, now / DAY + 1)
    ensures Slot(hourUtc, d) > now ==> Slot(hourUtc, d) >= Target(hourUtc, now)
    ensures Slot(hourUtc, d) > Target(hourUtc, now) ==> Slot(hourUtc, d) >= Target(hourUtc, now) + DAY
  {
    assert now == now / DAY * DAY + now % DAY;
  }

  /** Spelled out in nanoseconds: the target is the full hour asked for, at most 23, of a day of UTC, and lies
      within the next 24 hours. */
  lemma TargetIsTheHour(hourUtc: nat, now: int)
    ensures Target(hourUtc, now) % 86_400_000_000_000 ==
      (if hourUtc <= 23 then hourUtc else 23) * 3_600_000_000_000
    ensures now < Target(hourUtc, now) <= now + 86_400_000_000_000
    ensures Wake(hourUtc, now) == now + NextDelay(hourUtc, now) * 1_000_000_000
  {
    TargetIsNextSlot(hourUtc, now, 0);
    SlotInDay(Hour(hourUtc) * 3_600_000_000_000, now / DAY);
    SlotInDay(Hour(hourUtc) * 3_600_000_000_000, now / DAY + 1);
  }

  lemma SlotInDay(x: int, d: int)
    requires 0 <= x < 86_400_000_000_000
    ensures (d * 86_400_000_000_000 + x) % 86_400_000_000_000 == x
  {
  }

  /** A sleep lasts between a minute and a day, and ends less than a second before or a minute after the slot. */
  lemma WakeIsNearTarget(hourUtc: nat, now: int)
    ensures 60 <= NextDelay(hourUtc, now) <= 86400
    ensures Target(hourUtc, now) - SECOND < Wake(hourUtc, now) < Target(hourUtc, now) + 60 * SECOND
    ensures Target(hourUtc, now) - now < 60 * SECOND ==> Wake(hourUtc, now) > Target(hourUtc, now)
  {
    TargetIsNextSlot(hourUtc, now, 0);
    var diff := Target(hourUtc, now) - now;
    assert diff == diff / SECOND * SECOND + diff % SECOND;
  }

  // ---- The loop -------------------------------------------------------------------------------------------

  lemma {:induction false} EntriesAdvance(hourUtc: nat, start: int, took: nat -> nat, i: nat, j: nat)
    requires i <= j
    ensures Entry(hourUtc, start, took, j) >= Entry(hourUtc, start, took, i) + (j - i) * 60 * SECOND
    decreases j
  {
    if i < j {
      EntriesAdvance(hourUtc, start, took, i, j - 1);
      WakeIsNearTarget(hourUtc, Entry(hourUtc, start, took, j - 1));
    }
  }

  /** The last entry before a moment. */
  lemma {:induction false} LastEntryBefore(hourUtc: nat, start: int, took: nat -> nat, t: int, bound: nat) returns (k: nat)
    requires start < t <= Entry(hourUtc, start, took, bound)
    ensures Entry(hourUtc, start, took, k) < t <= Entry(hourUtc, start, took, k + 1)
    decreases bound
  {
    if Entry(hourUtc, start, took, bound - 1) < t {
      k := bound - 1;
    } else {
      k := LastEntryBefore(hourUtc, start, took, t, bound - 1);
    }
  }

  /** Every slot after the loop starts is either slept for, so that a run starts within a minute of it, or
      falls within a run. */
  lemma EverySlotIsServed(hourUtc: nat, start: int, took: nat -> nat, d: int) returns (k: nat)
    requires Slot(hourUtc, d) > start
    ensures
      var t, e := Slot(hourUtc, d), Entry(hourUtc, start, took, k);
      || (Target(hourUtc, e) == t && t - SECOND < Wake(hourUtc, e) < t + 60 * SECOND)
      || Wake(hourUtc, e) <= t <= Entry(hourUtc, start, took, k + 1)
  {
    var t := Slot(hourUtc, d);
    EntriesAdvance(hourUtc, start, took, 0, t - start);
    k := LastEntryBefore(hourUtc, start, took, t, t - start);
    var e := Entry(hourUtc, start, took, k);
    TargetIsNextSlot(hourUtc, e, d);
    WakeIsNearTarget(hourUtc, e);
  }

  /** No slot is the target of three sleeps. Two it can have: a sleep may end just short of the slot, and a
      quick run then leaves the loop sleeping for the same slot again. */
  lemma AtMostTwoSleepsPerSlot(hourUtc: nat, start: int, took: nat -> nat, i: nat, j: nat, k: nat)
    requires i < j < k
    requires Target(hourUtc, Entry(hourUtc, start, took, i)) == Target(hourUtc, Entry(hourUtc, start, took, j))
    ensures Target(hourUtc, Entry(hourUtc, start, took, k)) > Target(hourUtc, Entry(hourUtc, start, took, j))
  {
    var e, f, g := Entry(hourUtc, start, took, i), Entry(hourUtc, start, took, j), Entry(hourUtc, start, took, k);
    var t := Target(hourUtc, e);
    assert t - SECOND < f by { WakeIsNearTarget(hourUtc, e); WakesBeforeLaterEntry(hourUtc, start, took, i, j); }
    assert t < g by { WakeIsNearTarget(hourUtc, f); WakesBeforeLaterEntry(hourUtc, start, took, j, k); }
    TargetIsNextSlot(hourUtc, g, 0);
  }

  lemma WakesBeforeLaterEntry(hourUtc: nat, start: int, took: nat -> nat, i: nat, j: nat)
    requires i < j
    ensures Wake(hourUtc, Entry(hourUtc, start, took, i)) <= Entry(hourUtc, start, took, j)
  {
    EntriesAdvance(hourUtc, start, took, i + 1, j);
    assert (j - (i + 1)) * 60 * SECOND >= 0;
  }

  /** Exactly when a slot is slept for again: its sleep began at least a minute before it, so ended short of it
      by a fraction of a second, and the run took less than that. */
  lemma SleepsAgainIff(hourUtc: nat, start: int, took: nat -> nat, i: nat)
    ensures
      var e := Entry(hourUtc, start, took, i);
      var t := Target(hourUtc, e);
      Target(hourUtc, Entry(hourUtc, start, took, i + 1)) == t <==>
        t - e >= 60 * SECOND && took(i) < (t - e) % SECOND
  {
    hide Slot;
    var e, next := Entry(hourUtc, start, took, i), Entry(hourUtc, start, took, i + 1);
    var t := Target(hourUtc, e);
    assert next == Wake(hourUtc, e) + took(i);
    TargetAgainIff(hourUtc, e, next);
    WakeIsNearTarget(hourUtc, e);
    WakeFallsShort(e, t);
  }

  lemma WakeFallsShort(e: int, t: int)
    ensures t - e == (t - e) / SECOND * SECOND + (t - e) % SECOND
  {
  }

  lemma TargetAgainIff(hourUtc: nat, e: int, next: int)
    requires e <= next
    ensures Target(hourUtc, next) == Target(hourUtc, e) <==> next < Target(hourUtc, e)
  {
    TargetIsNextSlot(hourUtc, next, e / DAY);
    TargetIsNextSlot(hourUtc, next, e / DAY + 1);
    TargetIsNextSlot(hourUtc, e, next / DAY);
    TargetIsNextSlot(hourUtc, e, next / DAY + 1);
  }

  /** A slot slept for twice: entered half a second short of a minute before it, the loop wakes half a second
      early, and after an instant run sleeps for the same slot. */
  lemma TwoSleepsHappen()
    ensures
      var start := Slot(3, 0) - 60 * SECOND - SECOND / 2;
      Target(3, start) == Slot(3, 0) && Target(3, Entry(3, start, k => 0, 1)) == Slot(3, 0)
  {
    var start := Slot(3, 0) - 60 * SECOND - SECOND / 2;
    assert Entry(3, start, k => 0, 0) == start;
    assert Entry(3, start, k => 0, 1) == Wake(3, start) + 0;
  }
}
