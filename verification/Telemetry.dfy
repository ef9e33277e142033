/** What the telemetry rows of a run add up to, and the counts that skipped pages carry forward. */
module Telemetry {
  import opened Schema
  import opened Parse
  import opened Statements
  import opened Engine
  import opened Integrity
  import opened Frames
  import opened Events
  import opened HashSkip

  // ---- Per-set rows add up -----------------------------------------------------------------------------

  /** The visit's row is opened and closed with success. */
  ghost predicate RowWritten(w: World, fate: Fate, v: Visit, r: Report) {
    var a := Call(w, fate, OpenRunSet(r.runId, v.set_.series));
    var p := ScrapeSet(a.w, fate, v, r);
    a.reply == Ok && p.ending != Abandoned && Call(p.w, fate, ClosingStatement(p, v, r)).reply == Ok
  }

  ghost predicate RowsWritten(w: World, fate: Fate, visits: seq<Visit>, r: Report)
    decreases |visits|
  {
    visits != [] ==>
      var q := ScrapeTracked(w, fate, visits[0], r);
      RowWritten(w, fate, visits[0], r) && RowsWritten(q.w, fate, visits[1..], q.report)
  }

  function SeenInRows(rows: map<(nat, string), RunSetRow>, run: nat, visits: seq<Visit>): int {
    if visits == [] then 0
    else
      var k := (run, visits[0].set_.series);
      (if k in rows then rows[k].seen else 0) + SeenInRows(rows, run, visits[1..])
  }

  function UnmodifiedInRows(rows: map<(nat, string), RunSetRow>, run: nat, visits: seq<Visit>): int {
    if visits == [] then 0
    else
      var k := (run, visits[0].set_.series);
      (if k in rows then rows[k].unmodified else 0) + UnmodifiedInRows(rows, run, visits[1..])
  }

  lemma {:induction false} RowSumsFrame(
    rows: map<(nat, string), RunSetRow>, rows': map<(nat, string), RunSetRow>, run: nat, visits: seq<Visit>)
    requires forall v :: v in visits ==>
      (run, v.set_.series) in rows && (run, v.set_.series) in rows' && rows'[(run, v.set_.series)] == rows[(run, v.set_.series)]
    ensures SeenInRows(rows', run, visits) == SeenInRows(rows, run, visits)
    ensures UnmodifiedInRows(rows', run, visits) == UnmodifiedInRows(rows, run, visits)
    decreases |visits|
  {
    if visits != [] {
      assert visits[0] in visits;
      RowSumsFrame(rows, rows', run, visits[1..]);
    }
  }

  ghost predicate RowClosed(w: World, k: (nat, string)) {
    k in w.runSets && w.runSets[k].status != SetRunning
  }

  /** Working telemetry leaves a closed row that says how the page ended, under which set and digest, and what
      it added to the totals. */
  lemma VisitRow(w: World, fate: Fate, v: Visit, r: Report)
    requires RowWritten(w, fate, v, r)
    ensures
      var q := ScrapeTracked(w, fate, v, r);
      var k := (r.runId, v.set_.series);
      && q.ending != Abandoned && RowClosed(q.w, k)
      && q.w.runSets[k].seen == q.report.seen - r.seen && q.w.runSets[k].unmodified == q.report.unmodified - r.unmodified
      && q.w.runSets[k].status == (if q.ending.Finished? then SetOk else SetFailed)
      && q.w.runSets[k].setId == (if q.ending.Finished? then q.ending.primary else None)
      && q.w.runSets[k].htmlHash == (if q.ending.Finished? then q.ending.htmlHash else None)
  {
    var k := (r.runId, v.set_.series);
    var a := Call(w, fate, OpenRunSet(r.runId, v.set_.series));
    var p := ScrapeSet(a.w, fate, v, r);
    RowOpened(w, fate, r.runId, v.set_.series);
    ScrapeSetWithin(a.w, fate, v, r, r.runId);
    RowClosedBy(p.w, fate, ClosingStatement(p, v, r));
  }

  lemma RowOpened(w: World, fate: Fate, run: nat, series: string)
    requires Call(w, fate, OpenRunSet(run, series)).reply == Ok
    ensures (run, series) in Call(w, fate, OpenRunSet(run, series)).w.runSets
  {
  }

  lemma RowClosedBy(w: World, fate: Fate, s: Stmt)
    requires s.CloseRunSet? && (s.run, s.series) in w.runSets && Call(w, fate, s).reply == Ok
    ensures
      var rows := Call(w, fate, s).w.runSets;
      && (s.run, s.series) in rows && rows[(s.run, s.series)].seen == s.seen
      && rows[(s.run, s.series)].unmodified == s.unmodified && rows[(s.run, s.series)].status == s.status
      && rows[(s.run, s.series)].setId == s.primary && rows[(s.run, s.series)].htmlHash == s.htmlHash
  {
  }

  /** With distinct series and working telemetry, the rows of a pass are closed and sum to what it counted. */
  lemma {:induction false} PassRows(w: World, fate: Fate, visits: seq<Visit>, r: Report)
    requires DistinctSeries(visits) && RowsWritten(w, fate, visits, r)
    ensures
      var p := ScrapeAll(w, fate, visits, r);
      && !p.abandoned && p.report.runId == r.runId
      && (forall v :: v in visits ==> RowClosed(p.w, (r.runId, v.set_.series)))
      && SeenInRows(p.w.runSets, r.runId, visits) == p.report.seen - r.seen
      && UnmodifiedInRows(p.w.runSets, r.runId, visits) == p.report.unmodified - r.unmodified
    decreases |visits|
  {
    hide RowWritten, ScrapeTracked;
    if visits != [] {
      var v, rest := visits[0], visits[1..];
      var q := ScrapeTracked(w, fate, v, r);
      var p := ScrapeAll(w, fate, visits, r);
      VisitRow(w, fate, v, r);
      ScrapeTrackedCountsSet(w, fate, v, r);
      PassRows(q.w, fate, rest, q.report);
      ScrapeAllWithin(q.w, fate, rest, q.report, SeriesOf(rest), AllCodes(rest));
      forall x | x in rest ensures x.set_.series != v.set_.series {
        var i :| 0 <= i < |rest| && rest[i] == x;
        assert visits[i + 1] == x;
      }
      assert SameOk(q.w, p.w, (r.runId, v.set_.series));
      assert forall x :: x in visits ==> x == v || x in rest;
    }
  }

  /** With distinct series and working telemetry, the per-set rows of a run sum to the totals it reports. */
  lemma RunRowsAddUp(w: World, fate: Fate, visits: seq<Visit>)
    requires DistinctSeries(visits) && StartOf(w, FullRun(fate, Some(visits))).Some?
    requires
      var s := StartOf(w, FullRun(fate, Some(visits))).value;
      RowsWritten(s.w, fate, visits, s.r)
    ensures
      var x := RunOnce(w, fate, Some(visits));
      && SeenInRows(x.w.runSets, x.report.runId, visits) == x.report.seen
      && UnmodifiedInRows(x.w.runSets, x.report.runId, visits) == x.report.unmodified
  {
    var e := FullRun(fate, Some(visits));
    var s := StartOf(w, e).value;
    var p := PassOf(s, fate);
    RunReport(w, fate, visits);
    PassRows(s.w, fate, visits, s.r);
    EndSpares(w, e);
    forall v | v in visits ensures SameOk(p.w, After(w, e), (s.r.runId, v.set_.series)) {}
    RowSumsFrame(p.w.runSets, After(w, e).runSets, s.r.runId, visits);
  }

  // ---- Counts of skipped pages ---------------------------------------------------------------------------

  /** Run `n` recorded this page of the series, and so did every later run that recorded any page of it: `n` is
      in the trailing block of runs with this page's digest. */
  ghost predicate InBlock(w: World, s: string, d: Digest<Page>, n: nat) {
    && IsOk(w, (n, s)) && w.runSets[(n, s)].htmlHash == Some(d)
    && forall m: nat :: n < m && IsOk(w, (m, s)) && w.runSets[(m, s)].htmlHash.Some? ==>
         w.runSets[(m, s)].htmlHash == Some(d)
  }

  /** No `ok` row of the series without a digest is newer than a row of that block, hence none than its oldest. */
  ghost predicate Unbroken(w: World, s: string, d: Digest<Page>) {
    forall n: nat, m: nat :: InBlock(w, s, d, n) && n < m && IsOk(w, (m, s)) ==> w.runSets[(m, s)].htmlHash.Some?
  }

  /** The count the next skip of the series will add: all cards of the recorded page, or none. */
  ghost predicate CountFollows(w: World, s: string) {
    match StoredHash(w, s)
    case None => true
    case Some(d) => LastSeen(w, s) == if Unbroken(w, s, d) then |d.of.cards| else 0
  }

  ghost predicate CountsFollow(w: World) {
    forall s :: CountFollows(w, s)
  }

  /** The look-ups find the newest row there is. */
  lemma {:induction false} NewestIs(w: World, s: string, below: nat, hashedOnly: bool) returns (n: nat)
    ensures
      match NewestOk(w, s, below, hashedOnly)
      case None => forall m: nat :: m < below && IsOk(w, (m, s)) ==> hashedOnly && w.runSets[(m, s)].htmlHash.None?
      case Some(row) =>
        && n < below && IsOk(w, (n, s)) && w.runSets[(n, s)] == row && (hashedOnly ==> row.htmlHash.Some?)
        && forall m: nat :: n < m < below && IsOk(w, (m, s)) ==> hashedOnly && w.runSets[(m, s)].htmlHash.None?
    decreases below
  {
    n := 0;
    if below > 0 {
      var k := (below - 1, s);
      if IsOk(w, k) && (hashedOnly ==> w.runSets[k].htmlHash.Some?) {
        n := below - 1;
      } else {
        n := NewestIs(w, s, below - 1, hashedOnly);
      }
    }
  }

  lemma BlockFrame(w: World, w': World, s: string, d: Digest<Page>)
    requires forall k: (nat, string) :: k.1 == s ==> SameOk(w, w', k)
    ensures Unbroken(w', s, d) <==> Unbroken(w, s, d)
  {
    forall n: nat ensures IsOk(w, (n, s)) <==> IsOk(w', (n, s))
    ensures IsOk(w, (n, s)) ==> w'.runSets[(n, s)] == w.runSets[(n, s)]
    {
      assert SameOk(w, w', (n, s));
    }
    forall n: nat ensures InBlock(w', s, d, n) <==> InBlock(w, s, d, n) {}
  }

  /** What a finished page with a digest has been counted as. */
  lemma FinishedCount(w: World, fate: Fate, v: Visit, r: Report)
    ensures
      var p := ScrapeSet(w, fate, v, r);
      p.ending.Finished? && p.ending.htmlHash.Some? ==>
        && p.ending.htmlHash == Some(Sha256(v.page))
        && p.report.seen - r.seen ==
             if StoredHash(w, v.set_.series) == Some(Sha256(v.page)) then LastSeen(w, v.set_.series) else |v.page.cards|
  {
    hide Effect, WritePage;
    var a := Call(w, fate, Query);
    var b := Call(a.w, fate, Query);
    LookUpSeesStoredHash(w, fate, v.set_.series);
    if a.reply == Ok && b.reply == Ok {
      if StoredHash(b.w, v.set_.series) == Some(Sha256(v.page)) {
        CallWithin(b.w, fate, Query, 0, {}, {});
        LookUpFrame(b.w, Call(b.w, fate, Query).w, v.set_.series);
        assert ScrapeSet(w, fate, v, r) == SkipPage(b.w, fate, v, r);
      } else {
        assert ScrapeSet(w, fate, v, r) == WalkPage(b.w, fate, v, r);
        WalkCount(b.w, fate, v, r);
      }
    }
  }

  lemma WalkCount(w: World, fate: Fate, v: Visit, r: Report)
    ensures
      var p := WalkPage(w, fate, v, r);
      p.ending.Finished? && p.ending.htmlHash.Some? ==>
        p.ending.htmlHash == Some(Sha256(v.page)) && p.report.seen - r.seen == |v.page.cards|
  {
    hide Effect, WritePage;
    var cards := v.page.cards;
    if cards != [] && SetIdFromCode(cards[0].code).Some? {
      var primary, r' := SetIdFromCode(cards[0].code).value, r.(seen := r.seen + |cards|);
      forall x: World ensures UpsertCards(x, fate, primary, cards, r').report.seen == r'.seen {
        UpsertsKeepSeen(x, fate, primary, cards, r');
      }
      WriteCount(w, fate, v, primary, r');
    }
  }

  lemma {:induction false} UpsertsKeepSeen(w: World, fate: Fate, primary: string, cards: seq<ParsedCard>, r: Report)
    ensures UpsertCards(w, fate, primary, cards, r).report.seen == r.seen
    decreases |cards|
  {
    if cards != [] {
      var a := Call(w, fate, UpsertCard(SetIdOr(cards[0].code, primary), cards[0]));
      UpsertsKeepSeen(a.w, fate, primary, cards[1..], Count(r, OutcomeOf(w.cards, cards[0])));
    }
  }

  lemma WriteCount(w: World, fate: Fate, v: Visit, primary: string, r: Report)
    ensures
      var p := WritePage(w, fate, v, primary, r);
      && p.report.seen == r.seen
      && (p.ending.Finished? ==> p.ending == Finished(Some(primary), Some(Sha256(v.page))))
  {
    var a := Call(w, fate, UpsertSet(primary, v.set_));
    var b := EnsureSets(a.w, fate, SecondaryIds(v.page.cards, primary));
    UpsertsKeepSeen(b.w, fate, primary, v.page.cards, r);
  }

  /** Between the two states the newest run's row of the series became `ok`, and no other. */
  ghost predicate NewestRecorded(w: World, w': World, s: string) {
    var run := |w.runs| - 1;
    && |w'.runs| == |w.runs| > 0 && RunSetsSound(w) && RunSetsSound(w')
    && !IsOk(w, (run, s)) && IsOk(w', (run, s))
    && forall n: nat :: n != run ==> SameOk(w, w', (n, s))
  }

  lemma RecordingSplits(w: World, w': World, s: string)
    requires NewestRecorded(w, w', s)
    ensures
      var run := |w.runs| - 1;
      var row := w'.runSets[(run, s)];
      && Newest(w', s) == Some(row)
      && StoredHash(w', s) == (if row.htmlHash.Some? then row.htmlHash else StoredHash(w, s))
      && (forall n: nat :: IsOk(w', (n, s)) <==> n == run || IsOk(w, (n, s)))
      && (forall n: nat :: IsOk(w, (n, s)) ==> n < run && w'.runSets[(n, s)] == w.runSets[(n, s)])
  {
    var run := |w.runs| - 1;
    NewestRunFirst(w', run, s, true);
    NewestRunFirst(w', run, s, false);
    NewestRunFirst(w, run, s, true);
    forall k: (nat, string) | k.1 == s && k.0 < run ensures SameOk(w, w', k) { assert SameOk(w, w', (k.0, s)); }
    NewestOkFrame(w, w', s, run, true);
    forall n: nat ensures IsOk(w', (n, s)) <==> n == run || IsOk(w, (n, s)) {
      assert n != run ==> SameOk(w, w', (n, s));
    }
    forall n: nat | IsOk(w, (n, s)) ensures n < run && w'.runSets[(n, s)] == w.runSets[(n, s)] {
      assert SameOk(w, w', (n, s));
    }
  }

  /** Recording the page already recorded adds a row to the block, and leaves a gap in it where there was one. */
  lemma SkipExtendsBlock(w: World, w': World, s: string, d: Digest<Page>)
    requires NewestRecorded(w, w', s) && w'.runSets[(|w.runs| - 1, s)].htmlHash == Some(d)
    ensures Unbroken(w', s, d) <==> Unbroken(w, s, d)
  {
    RecordingSplits(w, w', s);
    forall n: nat ensures InBlock(w', s, d, n) <==> n == |w.runs| - 1 || InBlock(w, s, d, n) {
      if InBlock(w', s, d, n) && n != |w.runs| - 1 {
        forall m: nat | n < m && IsOk(w, (m, s)) && w.runSets[(m, s)].htmlHash.Some?
          ensures w.runSets[(m, s)].htmlHash == Some(d)
        {
          assert IsOk(w', (m, s));
        }
      }
    }
    if Unbroken(w', s, d) {
      forall n: nat, m: nat | InBlock(w, s, d, n) && n < m && IsOk(w, (m, s)) ensures w.runSets[(m, s)].htmlHash.Some? {
        assert InBlock(w', s, d, n) && IsOk(w', (m, s));
      }
    }
  }

  /** Recording another page starts a block of one row. */
  lemma WalkStartsBlock(w: World, w': World, s: string, d: Digest<Page>)
    requires NewestRecorded(w, w', s) && w'.runSets[(|w.runs| - 1, s)].htmlHash == Some(d)
    requires StoredHash(w, s) != Some(d)
    ensures Unbroken(w', s, d)
  {
    RecordingSplits(w, w', s);
    var newest := NewestIs(w, s, |w.runs|, true);
    assert StoredHash(w, s).Some? ==>
      IsOk(w', (newest, s)) && w'.runSets[(newest, s)].htmlHash == StoredHash(w, s);
    forall n: nat | n != |w.runs| - 1 ensures !InBlock(w', s, d, n) {
      assert IsOk(w', (n, s)) ==> IsOk(w, (n, s));
    }
  }

  /** Recording that the series lists nothing leaves a gap in the block. */
  lemma BlankBreaksBlock(w: World, w': World, s: string, d: Digest<Page>)
    requires NewestRecorded(w, w', s) && w'.runSets[(|w.runs| - 1, s)].htmlHash.None?
    requires StoredHash(w, s) == Some(d)
    ensures !Unbroken(w', s, d)
  {
    RecordingSplits(w, w', s);
    var newest := NewestIs(w, s, |w.runs|, true);
    assert InBlock(w', s, d, newest);
    assert IsOk(w', (|w.runs| - 1, s));
  }

  lemma RecordingKeepsCount(w: World, w': World, s: string, page: Page)
    requires NewestRecorded(w, w', s) && CountFollows(w, s)
    requires
      var row := w'.runSets[(|w.runs| - 1, s)];
      row.htmlHash.Some? ==>
        && row.htmlHash == Some(Sha256(page))
        && row.seen == if StoredHash(w, s) == Some(Sha256(page)) then LastSeen(w, s) else |page.cards|
    ensures CountFollows(w', s)
  {
    RecordingSplits(w, w', s);
    if w'.runSets[(|w.runs| - 1, s)].htmlHash.None? {
      if StoredHash(w, s).Some? { BlankBreaksBlock(w, w', s, StoredHash(w, s).value); }
    } else if StoredHash(w, s) == Some(Sha256(page)) {
      SkipExtendsBlock(w, w', s, Sha256(page));
    } else {
      WalkStartsBlock(w, w', s, Sha256(page));
    }
  }

  lemma FrameKeepsCount(w: World, w': World, s: string)
    requires CountFollows(w, s) && StoredHash(w', s) == StoredHash(w, s) && Newest(w', s) == Newest(w, s)
    requires forall k: (nat, string) :: k.1 == s ==> SameOk(w, w', k)
    ensures CountFollows(w', s)
  {
    if StoredHash(w, s).Some? { BlockFrame(w, w', s, StoredHash(w, s).value); }
  }

  lemma VisitKeepsCounts(w: World, fate: Fate, v: Visit, r: Report)
    requires Sound(w) && CountsFollow(w) && Unvisited(w, r.runId, v.set_.series)
    ensures CountsFollow(ScrapeTracked(w, fate, v, r).w)
  {
    hide ScrapeTracked, CountFollows;
    var w' := ScrapeTracked(w, fate, v, r).w;
    ScrapeTrackedWithin(w, fate, v, r);
    ScrapeTrackedKeeps(w, fate, v, r);
    forall s ensures CountFollows(w', s) {
      assert CountFollows(w, s);
      if s == v.set_.series && IsOk(w', (r.runId, s)) {
        OwnVisitRecords(w, fate, v, r);
        RecordingKeepsCount(w, w', s, v.page);
      } else {
        forall k: (nat, string) | k.1 == s ensures SameOk(w, w', k) {
          if k == (r.runId, v.set_.series) { NotRecorded(w, w', k); }
        }
        LookUpFrame(w, w', s);
        FrameKeepsCount(w, w', s);
      }
    }
  }

  lemma NotRecorded(w: World, w': World, k: (nat, string))
    requires k !in w.runSets && !IsOk(w', k)
    ensures SameOk(w, w', k)
  {
  }

  lemma OwnVisitRecords(w: World, fate: Fate, v: Visit, r: Report)
    requires Sound(w) && Unvisited(w, r.runId, v.set_.series)
    requires IsOk(ScrapeTracked(w, fate, v, r).w, (r.runId, v.set_.series))
    ensures
      var w' := ScrapeTracked(w, fate, v, r).w;
      var row := w'.runSets[(r.runId, v.set_.series)];
      && NewestRecorded(w, w', v.set_.series)
      && (row.htmlHash.Some? ==>
          && row.htmlHash == Some(Sha256(v.page))
          && row.seen ==
               if StoredHash(w, v.set_.series) == Some(Sha256(v.page)) then LastSeen(w, v.set_.series) else |v.page.cards|)
  {
    hide Effect, ScrapeSet, CloseTracked;
    var s := v.set_.series;
    var a := Call(w, fate, OpenRunSet(r.runId, s));
    var p := ScrapeSet(a.w, fate, v, r);
    var q := ScrapeTracked(w, fate, v, r);
    VisitLookUps(w, fate, v, r, s);
    FinishedCount(a.w, fate, v, r);
    ScrapeTrackedWithin(w, fate, v, r);
    ScrapeTrackedKeeps(w, fate, v, r);
    AbandonedIsNotRecorded(w, fate, v, r);
    CloseRecords(p, fate, v, r);
    forall n: nat | n != r.runId ensures SameOk(w, q.w, (n, s)) {}
  }

  lemma AbandonedIsNotRecorded(w: World, fate: Fate, v: Visit, r: Report)
    requires Unvisited(w, r.runId, v.set_.series)
    requires IsOk(ScrapeTracked(w, fate, v, r).w, (r.runId, v.set_.series))
    ensures
      var a := Call(w, fate, OpenRunSet(r.runId, v.set_.series));
      a.reply != Gone && ScrapeSet(a.w, fate, v, r).ending != Abandoned
  {
    hide Effect, ScrapeSet;
    VisitLookUps(w, fate, v, r, v.set_.series);
  }

  lemma {:induction false} PassKeepsCounts(w: World, fate: Fate, visits: seq<Visit>, r: Report)
    requires Sound(w) && CountsFollow(w) && DistinctSeries(visits) && AllUnvisited(w, r.runId, visits)
    ensures CountsFollow(ScrapeAll(w, fate, visits, r).w)
    decreases |visits|
  {
    hide ScrapeTracked, CountsFollow;
    if visits != [] {
      var p := ScrapeTracked(w, fate, visits[0], r);
      assert visits[0] in visits;
      VisitKeepsCounts(w, fate, visits[0], r);
      ScrapeTrackedKeeps(w, fate, visits[0], r);
      NextIsUnvisited(w, fate, visits, r);
      if p.ending != Abandoned { PassKeepsCounts(p.w, fate, visits[1..], p.report); }
    }
  }

  lemma SparingKeepsCounts(w: World, w': World)
    requires RunSetsSound(w) && CountsFollow(w) && Spares(w, w') && |w.runs| <= |w'.runs| <= |w.runs| + 1
    ensures CountsFollow(w')
  {
    hide CountFollows;
    forall s ensures CountFollows(w', s) {
      assert CountFollows(w, s);
      if |w'.runs| == |w.runs| { LookUpFrame(w, w', s); } else { NewRunFrame(w, w', s); }
      FrameKeepsCount(w, w', s);
    }
  }

  lemma EventKeepsCounts(w: World, e: Event)
    requires Sound(w) && CountsFollow(w) && DistinctSeries(VisitsOf(e))
    ensures CountsFollow(After(w, e))
  {
    hide CountsFollow, After, ScrapeAll;
    match StartOf(w, e)
    case None =>
      NoStartSpares(w, e);
      SparingKeepsCounts(w, After(w, e));
    case Some(s) =>
      StartSpares(w, e);
      StartIsSound(w, e);
      StartIsUnvisited(w, e);
      SparingKeepsCounts(w, s.w);
      StartVisits(w, e);
      PassKeepsCounts(s.w, e.fate, s.visits, s.r);
      EndSpares(w, e);
      SparingKeepsCounts(PassOf(s, e.fate).w, After(w, e));
  }

  lemma StartVisits(w: World, e: Event)
    requires StartOf(w, e).Some?
    ensures StartOf(w, e).value.visits == VisitsOf(e)
  {
    hide Begin, Call;
  }

  lemma {:induction false} HistoryKeepsCounts(w: World, events: seq<Event>)
    requires Sound(w) && CountsFollow(w) && forall e :: e in events ==> DistinctSeries(VisitsOf(e))
    ensures CountsFollow(History(w, events))
    decreases |events|
  {
    hide CountsFollow, After;
    if events != [] {
      assert events[0] in events;
      EventKeepsCounts(w, events[0]);
      AfterKeeps(w, events[0]);
      HistoryKeepsCounts(After(w, events[0]), events[1..]);
    }
  }

  lemma NothingToCount()
    ensures CountsFollow(EMPTY)
  {
    forall s ensures CountFollows(EMPTY, s) { assert NewestOk(EMPTY, s, 0, true) == None; }
  }

  /** Over every history: a recorded page, when skipped, is counted with all its cards if and only if no `ok`
      row of its series without a digest is newer than the oldest row of the trailing block of rows with the
      page's digest. Once there is one, it is counted with no cards, in every later skip of that block too. */
  lemma SkipCountIff(events: seq<Event>, s: string, d: Digest<Page>)
    requires forall e :: e in events ==> DistinctSeries(VisitsOf(e))
    requires StoredHash(History(EMPTY, events), s) == Some(d)
    ensures
      var w := History(EMPTY, events);
      && LastSeen(w, s) == (if Unbroken(w, s, d) then |d.of.cards| else 0)
      && (LastSeen(w, s) == |d.of.cards| <==> Unbroken(w, s, d))
  {
    hide History, Unbroken, LastSeen, StoredHash;
    var w := History(EMPTY, events);
    NothingToCount();
    HistoryKeepsCounts(EMPTY, events);
    HistoryKeeps(EMPTY, events);
    assert CountFollows(w, s);
    StoredHashHasCards(w, s);
  }

  /** Skip counts carry forward: after any history, a page skipped by its digest adds to `seen` and to
      `unmodified` all of its cards, as the original walk did and however many skips lie between, if and only
      if that block is unbroken, whatever happened to other series. */
  lemma SkipCountsCarryForward(events: seq<Event>, fate: Fate, v: Visit, r: Report)
    requires forall e :: e in events ==> DistinctSeries(VisitsOf(e))
    requires StoredHash(History(EMPTY, events), v.set_.series) == Some(Sha256(v.page))
    ensures
      var w := History(EMPTY, events);
      var p := ScrapeSet(w, fate, v, r);
      var n := if Unbroken(w, v.set_.series, Sha256(v.page)) then |v.page.cards| else 0;
      && |v.page.cards| > 0
      && (p.ending.Finished? ==> p.report == r.(seen := r.seen + n, unmodified := r.unmodified + n))
  {
    hide History, Unbroken, Effect;
    var w := History(EMPTY, events);
    SkipCountIff(events, v.set_.series, Sha256(v.page));
    HistoryKeeps(EMPTY, events);
    StoredHashHasCards(w, v.set_.series);
    var a := Call(w, fate, Query);
    var b := Call(a.w, fate, Query);
    LookUpSeesStoredHash(w, fate, v.set_.series);
    if a.reply == Ok && b.reply == Ok {
      assert ScrapeSet(w, fate, v, r) == SkipPage(b.w, fate, v, r);
      CallWithin(b.w, fate, Query, 0, {}, {});
      LookUpFrame(b.w, Call(b.w, fate, Query).w, v.set_.series);
    }
  }
}
