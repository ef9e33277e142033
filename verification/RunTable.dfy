/** The run table: what a run leaves in it, and what the dump's ETag and the failure streak read from it. */
module RunTable {
  import opened Schema
  import opened Statements
  import opened Engine
  import opened Integrity
  import opened Frames
  import opened HashSkip
  import opened Writes

  lemma RunsCleanedIsTransitive(a: seq<RunRow>, b: seq<RunRow>, c: seq<RunRow>)
    requires RunsCleaned(a, b) && RunsCleaned(b, c)
    ensures RunsCleaned(a, c)
  {
  }

  lemma CallCleansRuns(w: World, fate: Fate, s: Stmt)
    requires !s.OpenRun? && !s.CloseRun?
    ensures RunsCleaned(w.runs, Call(w, fate, s).w.runs)
  {
    hide Effect;
    var v := Arrive(w, fate);
    ArriveWithin(w, fate, 0, {}, {});
    ExecuteCleansRuns(v, s, fate(w.step).now);
    RunsCleanedIsTransitive(w.runs, v.runs, Execute(v, s, fate(w.step).now).w.runs);
  }

  lemma ExecuteCleansRuns(w: World, s: Stmt, now: int)
    requires !s.OpenRun? && !s.CloseRun?
    ensures RunsCleaned(w.runs, Execute(w, s, now).w.runs)
  {
  }

  lemma CallOpensRun(w: World, fate: Fate)
    ensures
      var a := Call(w, fate, OpenRun);
      var n := |w.runs|;
      && n <= |a.w.runs| <= n + 1 && RunsCleaned(w.runs, a.w.runs[..n])
      && (a.reply == Ok ==> |a.w.runs| == n + 1)
      && (|a.w.runs| == n + 1 ==> a.w.runs[n] == RunRow(Running, fate(w.step).now, None, None))
  {
    var v := Arrive(w, fate);
    assert RunsCleaned(w.runs, v.runs);
    assert (v.runs + [RunRow(Running, fate(w.step).now, None, None)])[..|w.runs|] == v.runs;
    assert v.runs[..|w.runs|] == v.runs;
  }

  /** Closing affects the run's own row: it is as reported when the call succeeds; otherwise it may be as
      reported, cleaned up, or as it was. */
  lemma CallClosesRun(w: World, fate: Fate, r: Report)
    requires r.runId < |w.runs|
    ensures
      var a := Call(w, fate, CloseRun(r));
      var n := r.runId;
      && |a.w.runs| == |w.runs| && RunsCleaned(w.runs[..n], a.w.runs[..n])
      && (a.reply == Ok ==> ClosedAs(a.w.runs[n], r, fate(w.step).now))
      && (ClosedAs(a.w.runs[n], r, fate(w.step).now) || RunsCleaned([w.runs[n]], [a.w.runs[n]]))
  {
    hide Effect;
    ArriveWithin(w, fate, 0, {}, {});
    ExecuteClosesRun(Arrive(w, fate), r, fate(w.step).now);
  }

  lemma ExecuteClosesRun(w: World, r: Report, now: int)
    requires r.runId < |w.runs|
    ensures
      var a := Execute(w, CloseRun(r), now);
      && a.reply == Ok && |a.w.runs| == |w.runs| && a.w.runs[..r.runId] == w.runs[..r.runId]
      && ClosedAs(a.w.runs[r.runId], r, now)
  {
  }

  ghost predicate ClosedAs(row: RunRow, r: Report, now: int) {
    row.status == r.status && row.totals == Some(r) && row.finishedAt == Some(now)
  }

  lemma ScrapeAllCleansRuns(w: World, fate: Fate, visits: seq<Visit>, r: Report)
    ensures RunsCleaned(w.runs, ScrapeAll(w, fate, visits, r).w.runs)
  {
    ScrapeAllWithin(w, fate, visits, r, SeriesOf(visits), AllCodes(visits));
  }

  // ---- What a run leaves -------------------------------------------------------------------------------

  /** Earlier rows are at most cleaned up; a run that ends `Closed` has added one row, which carries its
      report and its final status. */
  ghost predicate Leaves(w: World, x: Run) {
    var n := |w.runs|;
    && n <= |x.w.runs| <= n + 1 && RunsCleaned(w.runs, x.w.runs[..n])
    && (x.end == Closed ==>
        && |x.w.runs| == n + 1 && x.report.runId == n && x.report.status != Running
        && x.w.runs[n].status == x.report.status && x.w.runs[n].totals == Some(x.report) && x.w.runs[n].finishedAt.Some?)
  }

  lemma BeginLeaves(w: World, fate: Fate)
    ensures
      var o := Begin(w, fate);
      var n := |w.runs|;
      && n <= |o.w.runs| <= n + 1 && RunsCleaned(w.runs, o.w.runs[..n])
      && (o.reply == Ok ==> |o.w.runs| == n + 1)
  {
    var d := Call(w, fate, Query);
    CallCleansRuns(w, fate, Query);
    CallOpensRun(d.w, fate);
    assert d.w.runs[..|w.runs|] == d.w.runs;
    if d.reply == Ok { RunsCleanedIsTransitive(w.runs, d.w.runs, Call(d.w, fate, OpenRun).w.runs[..|w.runs|]); }
  }

  lemma CloseLeaves(w: World, fate: Fate, r: Report)
    requires r.runId + 1 == |w.runs| && r.status != Running
    ensures
      var x := Close(w, fate, r);
      var n := r.runId;
      && |x.w.runs| == n + 1 && RunsCleaned(w.runs[..n], x.w.runs[..n]) && x.report == r
      && (x.end == Closed ==> ClosedAs(x.w.runs[n], r, fate(w.step).now))
  {
    CallClosesRun(w, fate, r);
  }

  lemma PrefixCleaned(a: seq<RunRow>, b: seq<RunRow>, n: nat)
    requires RunsCleaned(a, b) && n <= |a|
    ensures RunsCleaned(a[..n], b[..n])
  {
  }

  lemma OpenedLeaves(w: World, fate: Fate, index: Option<seq<Visit>>, r: Report)
    requires Sound(w) && r.runId + 1 == |w.runs|
    ensures
      var x := RunOpened(w, fate, index, r);
      var n := r.runId;
      && |x.w.runs| == n + 1 && RunsCleaned(w.runs[..n], x.w.runs[..n])
      && (x.end == Closed ==>
          && x.report.runId == n && x.report.status != Running
          && x.w.runs[n].status == x.report.status && x.w.runs[n].totals == Some(x.report)
          && x.w.runs[n].finishedAt.Some?)
  {
    var n := r.runId;
    var i := Call(w, fate, Query);
    CallCleansRuns(w, fate, Query);
    CallKeeps(w, fate, Query);
    PrefixCleaned(w.runs, i.w.runs, n);
    if i.reply == Gone {
    } else if i.reply == Err || index.None? {
      CloseLeaves(i.w, fate, r.(status := Failed));
      RunsCleanedIsTransitive(w.runs[..n], i.w.runs[..n], Close(i.w, fate, r.(status := Failed)).w.runs[..n]);
    } else {
      var r' := r.(setsTotal := |index.value|);
      var p := ScrapeAll(i.w, fate, index.value, r');
      ScrapeAllCleansRuns(i.w, fate, index.value, r');
      ScrapeAllKeeps(i.w, fate, index.value, r');
      RunsCleanedIsTransitive(w.runs, i.w.runs, p.w.runs);
      PrefixCleaned(w.runs, p.w.runs, n);
      if !p.abandoned {
        var c := p.report.(status := StatusOf(p.report));
        CloseLeaves(p.w, fate, c);
        RunsCleanedIsTransitive(w.runs[..n], p.w.runs[..n], Close(p.w, fate, c).w.runs[..n]);
      }
    }
  }

  /** A run leaves its own row `running` only if it was not closed: the closing failed, or it was abandoned
      on the way, or its opening took effect without being acknowledged. Once closed, the row is final. */
  lemma RunLeaves(w: World, fate: Fate, index: Option<seq<Visit>>)
    requires Sound(w)
    ensures Leaves(w, RunOnce(w, fate, index))
  {
    hide Effect, RunOpened, Begin;
    var n := |w.runs|;
    var o := Begin(w, fate);
    BeginLeaves(w, fate);
    BeginKeeps(w, fate);
    if o.reply == Ok {
      OpenedLeaves(o.w, fate, index, Fresh(n));
      RunsCleanedIsTransitive(w.runs, o.w.runs[..n], RunOnce(w, fate, index).w.runs[..n]);
    }
  }

  lemma SingleRunLeaves(w: World, fate: Fate, series: string, page: Page)
    requires Sound(w)
    ensures Leaves(w, RunOne(w, fate, series, page))
  {
    hide Effect, ScrapeTracked, Begin;
    var n := |w.runs|;
    var o := Begin(w, fate);
    BeginLeaves(w, fate);
    BeginKeeps(w, fate);
    if o.reply == Ok {
      var v, r := SingleVisit(series, page), Fresh(n).(setsTotal := 1);
      var p := ScrapeTracked(o.w, fate, v, r);
      ScrapeTrackedWithin(o.w, fate, v, r);
      ScrapeTrackedCountsSet(o.w, fate, v, r);
      PrefixCleaned(o.w.runs, p.w.runs, n);
      RunsCleanedIsTransitive(w.runs, o.w.runs[..n], p.w.runs[..n]);
      if p.ending != Abandoned {
        var c := p.report.(status := if p.report.setsOk == 1 then Success else Failed);
        CloseLeaves(p.w, fate, c);
        RunsCleanedIsTransitive(w.runs, p.w.runs[..n], Close(p.w, fate, c).w.runs[..n]);
      }
    }
  }

  lemma AfterCleansRuns(w: World, e: Event)
    requires Sound(w)
    ensures |w.runs| <= |After(w, e).runs| && RunsCleaned(w.runs, After(w, e).runs[..|w.runs|])
  {
    match e {
      case FullRun(fate, index) => RunLeaves(w, fate, index);
      case SingleRun(fate, series, page) => SingleRunLeaves(w, fate, series, page);
      case Cleanup(fate) =>
        var a := Call(w, fate, CleanRuns);
        CallCleansRuns(w, fate, CleanRuns);
        CallCleansRuns(a.w, fate, CleanSets);
        RunsCleanedIsTransitive(w.runs, a.w.runs, Call(a.w, fate, CleanSets).w.runs);
        assert After(w, e).runs[..|w.runs|] == After(w, e).runs;
    }
  }

  lemma {:induction false} HistoryCleansRuns(w: World, events: seq<Event>)
    requires Sound(w)
    ensures |w.runs| <= |History(w, events).runs| && RunsCleaned(w.runs, History(w, events).runs[..|w.runs|])
    decreases |events|
  {
    var n := |w.runs|;
    if events == [] {
      assert w.runs[..n] == w.runs;
    } else {
      var w1 := After(w, events[0]);
      AfterCleansRuns(w, events[0]);
      AfterKeeps(w, events[0]);
      HistoryCleansRuns(w1, events[1..]);
      var w2 := History(w, events);
      PrefixCleaned(w1.runs, w2.runs[..|w1.runs|], n);
      assert w2.runs[..|w1.runs|][..n] == w2.runs[..n];
      RunsCleanedIsTransitive(w.runs, w1.runs[..n], w2.runs[..n]);
    }
  }

  // ---- The dump's ETag -----------------------------------------------------------------------------------

  function NewestSuccess(runs: seq<RunRow>): Option<RunRow> {
    if runs == [] then None
    else if runs[|runs| - 1].status == Success then Some(runs[|runs| - 1])
    else NewestSuccess(runs[..|runs| - 1])
  }

  /** Times are in microseconds; the tag is the newest successful run's finish time in whole milliseconds. */
  function Millis(t: int): int {
    t / 1000
  }

  function CurrentEtag(runs: seq<RunRow>): Option<int> {
    match NewestSuccess(runs)
    case Some(row) => (match row.finishedAt case Some(t) => Some(Millis(t)) case None => None)
    case None => None
  }

  /** A dump request whose `If-None-Match` names `tag` is answered 304. */
  predicate NotModified(runs: seq<RunRow>, tag: int) {
    CurrentEtag(runs) == Some(tag)
  }

  ghost predicate SuccessSince(runs: seq<RunRow>, n: nat) {
    exists i :: n <= i < |runs| && runs[i].status == Success
  }

  lemma {:induction false} NewestSuccessSince(a: seq<RunRow>, b: seq<RunRow>)
    requires |a| <= |b| && RunsCleaned(a, b[..|a|])
    ensures SuccessSince(b, |a|) ==> exists i :: |a| <= i < |b| && b[i].status == Success && NewestSuccess(b) == Some(b[i])
    ensures !SuccessSince(b, |a|) ==> NewestSuccess(b) == NewestSuccess(a)
    decreases |b|
  {
    if b != [] {
      var c := b[..|b| - 1];
      if |a| < |b| {
        assert c[..|a|] == b[..|a|];
        NewestSuccessSince(a, c);
        if SuccessSince(c, |a|) && b[|c|].status != Success {
          var i :| |a| <= i < |c| && c[i].status == Success && NewestSuccess(c) == Some(c[i]);
          assert b[i] == c[i];
        }
        assert SuccessSince(b, |a|) && b[|c|].status != Success ==> SuccessSince(c, |a|);
      } else {
        var d := a[..|a| - 1];
        assert b[..|a|] == b && c[..|d|] == c;
        NewestSuccessSince(d, c);
      }
    }
  }

  /** No later successful run finished in the millisecond the tag names. */
  ghost predicate FinishesElsewhere(runs: seq<RunRow>, n: nat, tag: int) {
    forall i :: n <= i < |runs| && runs[i].status == Success && runs[i].finishedAt.Some? ==>
      !(tag * 1000 <= runs[i].finishedAt.value < tag * 1000 + 1000)
  }

  /** The newest successful run is the `i`-th. */
  ghost predicate NewestSuccessIs(runs: seq<RunRow>, i: nat) {
    i < |runs| && runs[i].status == Success && forall j :: i < j < |runs| ==> runs[j].status != Success
  }

  lemma {:induction false} NewestSuccessFound(runs: seq<RunRow>) returns (i: nat)
    ensures match NewestSuccess(runs)
      case None => forall j :: 0 <= j < |runs| ==> runs[j].status != Success
      case Some(row) => NewestSuccessIs(runs, i) && runs[i] == row
    decreases |runs|
  {
    i := 0;
    if runs != [] {
      if runs[|runs| - 1].status == Success {
        i := |runs| - 1;
      } else {
        i := NewestSuccessFound(runs[..|runs| - 1]);
      }
    }
  }

  /** The tag names the millisecond, in microseconds of finish time, in which the newest successful run ended. */
  lemma EtagNamesMillisecond(runs: seq<RunRow>, tag: int)
    ensures CurrentEtag(runs) == Some(tag) <==>
      exists i: nat :: NewestSuccessIs(runs, i) && runs[i].finishedAt.Some? &&
        tag * 1000 <= runs[i].finishedAt.value < tag * 1000 + 1000
  {
    var n := NewestSuccessFound(runs);
    forall i: nat | NewestSuccessIs(runs, i) ensures NewestSuccess(runs).Some? && i == n {}
    assert NewestSuccess(runs).Some? ==> NewestSuccessIs(runs, n);
  }

  /** A client that dumped between runs is answered 304 after a history of further runs if and only if none
      of them closed as `success`: `partial`, `failed` and open runs do not change the tag. */
  lemma NotModifiedIffNoSuccess(w: World, events: seq<Event>, tag: int)
    requires Sound(w) && CurrentEtag(w.runs) == Some(tag)
    requires FinishesElsewhere(History(w, events).runs, |w.runs|, tag)
    ensures NotModified(History(w, events).runs, tag) <==> !SuccessSince(History(w, events).runs, |w.runs|)
  {
    HistoryCleansRuns(w, events);
    HistoryKeeps(w, events);
    NewestSuccessSince(w.runs, History(w, events).runs);
  }

  /** From the times alone: when no later success finished within a millisecond of the newest one before the
      dump, the dump's tag is answered 304 if and only if there is no later success. */
  lemma NotModifiedFromTimes(w: World, events: seq<Event>, n: nat, t0: int)
    requires Sound(w) && NewestSuccessIs(w.runs, n) && w.runs[n].finishedAt == Some(t0)
    requires
      var runs := History(w, events).runs;
      forall i :: |w.runs| <= i < |runs| && runs[i].status == Success && runs[i].finishedAt.Some? ==>
        runs[i].finishedAt.value <= t0 - 1000 || runs[i].finishedAt.value >= t0 + 1000
    ensures CurrentEtag(w.runs).Some?
    ensures
      var runs := History(w, events).runs;
      NotModified(runs, CurrentEtag(w.runs).value) <==> forall i :: |w.runs| <= i < |runs| ==> runs[i].status != Success
  {
    hide History;
    var i := NewestSuccessFound(w.runs);
    assert i == n;
    NotModifiedIffNoSuccess(w, events, CurrentEtag(w.runs).value);
  }

  /** An event that changes the cards ends with its run closed as `success`. */
  ghost predicate WritesSucceed(w: World, e: Event) {
    After(w, e).cards != w.cards ==> SuccessSince(After(w, e).runs, |w.runs|)
  }

  ghost predicate AllWritesSucceed(w: World, events: seq<Event>)
    decreases |events|
  {
    events != [] ==> WritesSucceed(w, events[0]) && AllWritesSucceed(After(w, events[0]), events[1..])
  }

  lemma {:induction false} ChangedMeansSuccess(w: World, events: seq<Event>)
    requires Sound(w) && AllWritesSucceed(w, events) && History(w, events).cards != w.cards
    ensures SuccessSince(History(w, events).runs, |w.runs|)
    decreases |events|
  {
    if events != [] {
      var w1 := After(w, events[0]);
      var w2 := History(w, events);
      AfterKeeps(w, events[0]);
      AfterCleansRuns(w, events[0]);
      HistoryCleansRuns(w1, events[1..]);
      if w1.cards != w.cards {
        var i :| |w.runs| <= i < |w1.runs| && w1.runs[i].status == Success;
        assert w2.runs[..|w1.runs|][i] == w1.runs[i];
      } else {
        ChangedMeansSuccess(w1, events[1..]);
      }
    }
  }

  /** If every run that wrote cards after the dump closed as `success`, with a finish time of its own to the
      millisecond, then a 304 (section 13.1.2 of RFC 9110) means the cards are the ones dumped. */
  lemma NotModifiedMeansUnchanged(w: World, events: seq<Event>, tag: int)
    requires Sound(w) && CurrentEtag(w.runs) == Some(tag)
    requires FinishesElsewhere(History(w, events).runs, |w.runs|, tag) && AllWritesSucceed(w, events)
    requires NotModified(History(w, events).runs, tag)
    ensures History(w, events).cards == w.cards
  {
    NotModifiedIffNoSuccess(w, events, tag);
    if History(w, events).cards != w.cards { ChangedMeansSuccess(w, events); }
  }

  /** Exactly when the 304 is right about the payloads dumped: a later run closed as `success`, so that there is
      none, or the last write to each card written since, by whatever run, left the payload dumped. */
  lemma NotModifiedIsRightIff(w: World, events: seq<Event>, tag: int)
    requires Sound(w) && CurrentEtag(w.runs) == Some(tag)
    requires FinishesElsewhere(History(w, events).runs, |w.runs|, tag)
    ensures
      var w' := History(w, events);
      (NotModified(w'.runs, tag) ==> PayloadsOf(w'.cards) == PayloadsOf(w.cards))
      <==> (SuccessSince(w'.runs, |w.runs|) || Holds(PayloadsOf(w.cards), Final(HistoryWrites(w, events))))
  {
    hide History, HistoryWrites, CurrentEtag;
    NotModifiedIffNoSuccess(w, events, tag);
    HistoryOverwrites(w, events);
    OverwriteFixedIff(PayloadsOf(w.cards), HistoryWrites(w, events));
  }

  // ---- The failure streak --------------------------------------------------------------------------------

  /** The closed runs, newest first: the rows the query numbers. */
  function Ordered(runs: seq<RunRow>): seq<RunStatus> {
    if runs == [] then []
    else
      var last := runs[|runs| - 1];
      (if last.status == Running then [] else [last.status]) + Ordered(runs[..|runs| - 1])
  }

  /** The row number, from one, of the first closed run that did not fail. */
  ghost predicate FirstGood(ordered: seq<RunStatus>, rn: nat) {
    && 1 <= rn <= |ordered| && ordered[rn - 1] in {Success, Partial}
    && forall k :: 0 <= k < rn - 1 ==> ordered[k] !in {Success, Partial}
  }

  /** What the query computes: one less than that row number, or the number of rows when there is none. */
  ghost function StreakQuery(runs: seq<RunRow>): int {
    if exists rn: nat :: FirstGood(Ordered(runs), rn) then
      var rn: nat :| FirstGood(Ordered(runs), rn);
      rn - 1
    else |Ordered(runs)|
  }

  /** The reference: leading failures among closed runs, newest first. */
  function Streak(runs: seq<RunRow>): nat {
    if runs == [] then 0
    else
      var last, rest := runs[|runs| - 1], runs[..|runs| - 1];
      match last.status
      case Running => Streak(rest)
      case Failed => 1 + Streak(rest)
      case _ => 0
  }

  lemma {:induction false} StreakSplitsOrdered(runs: seq<RunRow>)
    ensures
      var o, n := Ordered(runs), Streak(runs);
      && n <= |o| && (forall k :: 0 <= k < n ==> o[k] == Failed) && (n < |o| ==> o[n] in {Success, Partial})
      && forall s :: s in o ==> s != Running
    decreases |runs|
  {
    if runs != [] { StreakSplitsOrdered(runs[..|runs| - 1]); }
  }

  lemma StreakQueryIsStreak(runs: seq<RunRow>)
    ensures StreakQuery(runs) == Streak(runs)
  {
    StreakSplitsOrdered(runs);
    var o, n := Ordered(runs), Streak(runs);
    if n < |o| { assert FirstGood(o, n + 1); }
  }

  lemma {:induction false} CleaningRaisesStreak(a: seq<RunRow>, b: seq<RunRow>)
    requires RunsCleaned(a, b)
    ensures Streak(a) <= Streak(b)
    decreases |a|
  {
    if a != [] { CleaningRaisesStreak(a[..|a| - 1], b[..|b| - 1]); }
  }

  lemma ClosedRowMovesStreak(runs: seq<RunRow>)
    requires runs != [] && runs[|runs| - 1].status != Running
    ensures StreakQuery(runs) == if runs[|runs| - 1].status == Failed then StreakQuery(runs[..|runs| - 1]) + 1 else 0
  {
    StreakQueryIsStreak(runs);
    StreakQueryIsStreak(runs[..|runs| - 1]);
  }

  lemma CleaningRaisesQuery(a: seq<RunRow>, b: seq<RunRow>)
    requires RunsCleaned(a, b)
    ensures StreakQuery(a) <= StreakQuery(b)
  {
    StreakQueryIsStreak(a);
    StreakQueryIsStreak(b);
    CleaningRaisesStreak(a, b);
  }

  /** A run closed as `failed` adds one to the streak the query reports, and one closed as `success` or
      `partial` resets it; before it, the streak is that of the earlier runs, higher only by runs that a
      clean-up meanwhile declared failed. */
  ghost predicate MovesStreak(w: World, x: Run) {
    && |w.runs| < |x.w.runs|
    && var earlier := x.w.runs[..|w.runs|];
       && RunsCleaned(w.runs, earlier) && StreakQuery(earlier) >= StreakQuery(w.runs)
       && StreakQuery(x.w.runs) == if x.report.status == Failed then StreakQuery(earlier) + 1 else 0
  }

  lemma LeavingMovesStreak(w: World, x: Run)
    requires Leaves(w, x) && x.end == Closed
    ensures MovesStreak(w, x)
  {
    var earlier := x.w.runs[..|w.runs|];
    CleaningRaisesQuery(w.runs, earlier);
    ClosedRowMovesStreak(x.w.runs);
    assert x.w.runs[..|x.w.runs| - 1] == earlier;
  }

  lemma ClosingMovesStreak(w: World, fate: Fate, index: Option<seq<Visit>>)
    requires Sound(w) && RunOnce(w, fate, index).end == Closed
    ensures MovesStreak(w, RunOnce(w, fate, index))
  {
    RunLeaves(w, fate, index);
    LeavingMovesStreak(w, RunOnce(w, fate, index));
  }

  lemma SingleClosingMovesStreak(w: World, fate: Fate, series: string, page: Page)
    requires Sound(w) && RunOne(w, fate, series, page).end == Closed
    ensures MovesStreak(w, RunOne(w, fate, series, page))
  {
    SingleRunLeaves(w, fate, series, page);
    LeavingMovesStreak(w, RunOne(w, fate, series, page));
  }
}
