/** What every statement, and therefore every page, run and history, keeps: the constraints of the
    schema, the life cycle of telemetry rows, and the way rows may change over time. */
module Integrity {
  import opened Schema
  import opened Parse
  import opened Statements
  import opened Engine

  ghost predicate CardsSound(w: World) {
    forall code :: code in w.cards ==>
      && w.cards[code].setId in w.sets
      && w.cards[code].card.code == code
      && w.cards[code].payloadHash == Sha256(w.cards[code].card)
  }

  ghost predicate SeriesUnique(sets: map<string, SetRow>) {
    forall a, b :: a in sets && b in sets && sets[a].series == sets[b].series ==> a == b
  }

  /** A page digest is only ever found on an `ok` row, and belongs to a page that has cards; an `ok` row
      without a digest counted no cards. */
  ghost predicate RunSetSound(row: RunSetRow) {
    && (row.htmlHash.Some? ==> row.status == SetOk && row.htmlHash.value.of.cards != [])
    && (row.status == SetOk && row.htmlHash.None? ==> row.seen == 0)
  }

  ghost predicate RunSetsSound(w: World) {
    forall k :: k in w.runSets ==> k.0 < |w.runs| && RunSetSound(w.runSets[k])
  }

  ghost predicate RunSound(row: RunRow) {
    (row.status == Running <==> row.finishedAt.None?) && (row.status in {Success, Partial} ==> row.totals.Some?)
  }

  ghost predicate RunsSound(w: World) {
    forall i :: 0 <= i < |w.runs| ==> RunSound(w.runs[i])
  }

  ghost predicate Sound(w: World) {
    CardsSound(w) && SeriesUnique(w.sets) && RunSetsSound(w) && RunsSound(w)
  }

  /** No card or set disappears; a set's series changes only away from its placeholder; a card keeps its
      first-seen time; runs are only added; no statement breaks a foreign key. */
  ghost predicate Evolves(w: World, w': World) {
    && (forall code :: code in w.cards ==> code in w'.cards && w'.cards[code].firstSeen == w.cards[code].firstSeen)
    && (forall id :: id in w.sets ==>
        id in w'.sets && (w'.sets[id].series == w.sets[id].series || w.sets[id].series == id))
    && |w.runs| <= |w'.runs|
    && w'.fkErrors == w.fkErrors
  }

  ghost predicate Keeps(w: World, w': World) {
    (Sound(w) ==> Sound(w')) && Evolves(w, w')
  }

  /** The statements the scraper issues: telemetry rows are closed as `ok` or `failed`, with a digest only
      when `ok` and only for a page with cards; runs are closed with a final status; the set of an
      upserted card is present. */
  ghost predicate Lawful(w: World, s: Stmt) {
    match s
    case OpenRunSet(run, _) => run < |w.runs|
    case CloseRunSet(_, _, _, seen, _, htmlHash, status) =>
      && status != SetRunning
      && (htmlHash.Some? ==> status == SetOk && htmlHash.value.of.cards != [])
      && (status == SetOk && htmlHash.None? ==> seen == 0)
    case CloseRun(report) => report.status != Running
    case UpsertCard(setId, _) => setId in w.sets
    case _ => true
  }

  lemma KeepsIsTransitive(a: World, b: World, c: World)
    requires Keeps(a, b) && Keeps(b, c)
    ensures Keeps(a, c)
  {
  }

  lemma ExecuteKeeps(w: World, s: Stmt, now: int)
    requires Lawful(w, s)
    ensures Keeps(w, Execute(w, s, now).w)
  {
    if s.UpsertCard? {
      CardStmtKeeps(w, s, now);
    } else if s.UpsertSet? {
      UpsertSetKeeps(w, s, now);
    } else if s.EnsureSet? {
      EnsureSetKeeps(w, s, now);
    } else {
      TelemetryStmtKeeps(w, s, now);
    }
  }

  lemma CardStmtKeeps(w: World, s: Stmt, now: int)
    requires Lawful(w, s) && s.UpsertCard?
    ensures Keeps(w, Execute(w, s, now).w)
  {
    hide RunSetSound, RunSound, SeriesUnique;
  }

  lemma UpsertSetKeeps(w: World, s: Stmt, now: int)
    requires s.UpsertSet?
    ensures Keeps(w, Execute(w, s, now).w)
  {
    hide RunSetSound, RunSound, CardsAfter;
  }

  lemma EnsureSetKeeps(w: World, s: Stmt, now: int)
    requires s.EnsureSet?
    ensures Keeps(w, Execute(w, s, now).w)
  {
    hide RunSetSound, RunSound, CardsAfter;
  }

  lemma TelemetryStmtKeeps(w: World, s: Stmt, now: int)
    requires Lawful(w, s) && !s.UpsertCard? && !s.UpsertSet? && !s.EnsureSet?
    ensures Keeps(w, Execute(w, s, now).w)
  {
    hide CardsAfter, SetsAfterUpsert, SeriesUnique;
  }

  lemma ArriveKeeps(w: World, fate: Fate)
    ensures Keeps(w, Arrive(w, fate))
    ensures Arrive(w, fate).cards == w.cards && Arrive(w, fate).sets == w.sets
    ensures |Arrive(w, fate).runs| == |w.runs|
  {
    hide Keeps, CleanRun, CleanRunSet;
    var m := fate(w.step);
    var a := if m.cleanRuns then Effect(w, CleanRuns, m.now) else w;
    var b := if m.cleanSets then Effect(a, CleanSets, m.now) else a;
    CleanKeeps(w, CleanRuns, m.now);
    CleanKeeps(a, CleanSets, m.now);
    StepKeeps(w);
    StepKeeps(b);
    KeepsIsTransitive(w, a, b);
    KeepsIsTransitive(w, b, Arrive(w, fate));
  }

  lemma CleanKeeps(w: World, s: Stmt, now: int)
    requires s in {CleanRuns, CleanSets}
    ensures Keeps(w, w) && Keeps(w, Effect(w, s, now))
  {
    hide SeriesUnique;
  }

  lemma StepKeeps(w: World)
    ensures Keeps(w, w) && forall n: nat :: Keeps(w, w.(step := n))
  {
  }

  lemma CallKeeps(w: World, fate: Fate, s: Stmt)
    requires Lawful(w, s)
    ensures Keeps(w, Call(w, fate, s).w)
  {
    ArriveKeeps(w, fate);
    var v := Arrive(w, fate);
    ExecuteKeeps(v, s, fate(w.step).now);
    KeepsIsTransitive(w, v, Execute(v, s, fate(w.step).now).w);
  }

  // ---- Pages ---------------------------------------------------------------------------------------

  lemma {:induction false} EnsureSetsKeeps(w: World, fate: Fate, ids: seq<string>)
    ensures Keeps(w, EnsureSets(w, fate, ids).w)
    ensures EnsureSets(w, fate, ids).reply == Ok ==> forall id :: id in ids ==> id in EnsureSets(w, fate, ids).w.sets
    decreases |ids|
  {
    if ids != [] {
      var a := Call(w, fate, EnsureSet(ids[0]));
      CallKeeps(w, fate, EnsureSet(ids[0]));
      if a.reply == Ok {
        EnsureSetsKeeps(a.w, fate, ids[1..]);
        KeepsIsTransitive(w, a.w, EnsureSets(a.w, fate, ids[1..]).w);
      }
    }
  }

  /** With the set of every card present, no card upsert can break the foreign key. */
  lemma {:induction false} UpsertCardsKeeps(w: World, fate: Fate, primary: string, cards: seq<ParsedCard>, r: Report)
    requires forall c :: c in cards ==> SetIdOr(c.code, primary) in w.sets
    ensures Keeps(w, UpsertCards(w, fate, primary, cards, r).w)
    decreases |cards|
  {
    if cards != [] {
      var c := cards[0];
      var s := UpsertCard(SetIdOr(c.code, primary), c);
      var a := Call(w, fate, s);
      CallKeeps(w, fate, s);
      if a.reply == Ok {
        UpsertCardsKeeps(a.w, fate, primary, cards[1..], Count(r, OutcomeOf(w.cards, c)));
        KeepsIsTransitive(w, a.w, UpsertCards(w, fate, primary, cards, r).w);
      }
    }
  }

  lemma WritePageKeeps(w: World, fate: Fate, v: Visit, primary: string, r: Report)
    ensures Keeps(w, WritePage(w, fate, v, primary, r).w)
  {
    var cards := v.page.cards;
    var a := Call(w, fate, UpsertSet(primary, v.set_));
    CallKeeps(w, fate, UpsertSet(primary, v.set_));
    if a.reply == Ok {
      var b := EnsureSets(a.w, fate, SecondaryIds(cards, primary));
      EnsureSetsKeeps(a.w, fate, SecondaryIds(cards, primary));
      KeepsIsTransitive(w, a.w, b.w);
      if b.reply == Ok {
        SetsArePresent(w, fate, v, primary);
        UpsertCardsKeeps(b.w, fate, primary, cards, r);
        KeepsIsTransitive(w, b.w, UpsertCards(b.w, fate, primary, cards, r).w);
      }
    }
  }

  lemma WrittenEnding(w: World, fate: Fate, v: Visit, primary: string, r: Report)
    ensures WritePage(w, fate, v, primary, r).ending in {Finished(Some(primary), Some(Sha256(v.page))), Errored, Abandoned}
  {
    hide Call;
  }

  /** Once the primary set is upserted and the secondary ones are ensured, the set of every card of the
      page is there: the one its code names, or the primary one for a code that names none. */
  lemma SetsArePresent(w: World, fate: Fate, v: Visit, primary: string)
    requires Call(w, fate, UpsertSet(primary, v.set_)).reply == Ok
    requires EnsureSets(Call(w, fate, UpsertSet(primary, v.set_)).w, fate, SecondaryIds(v.page.cards, primary)).reply == Ok
    ensures
      var b := EnsureSets(Call(w, fate, UpsertSet(primary, v.set_)).w, fate, SecondaryIds(v.page.cards, primary)).w;
      forall c :: c in v.page.cards ==> SetIdOr(c.code, primary) in b.sets
  {
    hide Call;
    var a := Call(w, fate, UpsertSet(primary, v.set_));
    var ids := SecondaryIds(v.page.cards, primary);
    UpsertedSetIsThere(w, fate, primary, v.set_);
    EnsureSetsKeeps(a.w, fate, ids);
    forall c | c in v.page.cards && SetIdOr(c.code, primary) != primary
      ensures SetIdOr(c.code, primary) in ids
    {
      assert Refers(v.page.cards, SetIdOr(c.code, primary));
    }
  }

  lemma UpsertedSetIsThere(w: World, fate: Fate, id: string, set_: ParsedSet)
    ensures var a := Call(w, fate, UpsertSet(id, set_)); a.reply == Ok ==> id in a.w.sets
  {
  }

  lemma {:induction false} NewestOkIsARow(w: World, series: string, below: nat, hashedOnly: bool)
    ensures
      var row := NewestOk(w, series, below, hashedOnly);
      row.Some? ==> exists k ::
        k in w.runSets && k.1 == series && k.0 < below && w.runSets[k] == row.value && row.value.status == SetOk
        && (hashedOnly ==> row.value.htmlHash.Some?)
  {
    if below > 0 { NewestOkIsARow(w, series, below - 1, hashedOnly); }
  }

  lemma StoredHashHasCards(w: World, series: string)
    requires Sound(w) && StoredHash(w, series).Some?
    ensures StoredHash(w, series).value.of.cards != []
  {
    NewestOkIsARow(w, series, |w.runs|, true);
  }

  /** What a page leaves to be recorded is fit for its telemetry row. */
  ghost predicate Recordable(p: Progress, r: Report) {
    p.ending.Finished? ==>
      && (p.ending.htmlHash.Some? ==> p.ending.htmlHash.value.of.cards != [])
      && (p.ending.htmlHash.None? ==> p.report.seen == r.seen)
  }

  lemma LookUpKeeps(w: World, fate: Fate)
    ensures
      var a := Call(w, fate, Query);
      Keeps(w, a.w) && Keeps(w, Call(a.w, fate, Query).w)
  {
    var a := Call(w, fate, Query);
    CallKeeps(w, fate, Query);
    CallKeeps(a.w, fate, Query);
    KeepsIsTransitive(w, a.w, Call(a.w, fate, Query).w);
  }

  lemma SkipPageKeeps(w: World, fate: Fate, v: Visit, r: Report)
    requires v.page.cards != []
    ensures Keeps(w, SkipPage(w, fate, v, r).w) && Recordable(SkipPage(w, fate, v, r), r)
  {
    LookUpKeeps(w, fate);
  }

  lemma ScrapeSetKeeps(w: World, fate: Fate, v: Visit, r: Report)
    requires Sound(w)
    ensures Keeps(w, ScrapeSet(w, fate, v, r).w) && Recordable(ScrapeSet(w, fate, v, r), r)
  {
    var a := Call(w, fate, Query);
    var b := Call(a.w, fate, Query);
    LookUpKeeps(w, fate);
    if a.reply == Ok && b.reply == Ok {
      if StoredHash(b.w, v.set_.series) == Some(Sha256(v.page)) {
        StoredHashHasCards(b.w, v.set_.series);
        SkipPageKeeps(b.w, fate, v, r);
        KeepsIsTransitive(w, b.w, SkipPage(b.w, fate, v, r).w);
      } else {
        WalkPageKeeps(b.w, fate, v, r);
        KeepsIsTransitive(w, b.w, WalkPage(b.w, fate, v, r).w);
      }
    }
  }

  lemma WalkPageKeeps(w: World, fate: Fate, v: Visit, r: Report)
    ensures Keeps(w, WalkPage(w, fate, v, r).w) && Recordable(WalkPage(w, fate, v, r), r)
  {
    hide Effect, WritePage;
    var cards := v.page.cards;
    if cards != [] && SetIdFromCode(cards[0].code).Some? {
      var primary, r' := SetIdFromCode(cards[0].code).value, r.(seen := r.seen + |cards|);
      WritePageKeeps(w, fate, v, primary, r');
      WrittenEnding(w, fate, v, primary, r');
      assert WalkPage(w, fate, v, r) == WritePage(w, fate, v, primary, r');
    } else {
      assert WalkPage(w, fate, v, r).w == w;
    }
  }

  lemma CloseTrackedKeeps(p: Progress, fate: Fate, v: Visit, r: Report)
    requires Recordable(p, r)
    ensures Keeps(p.w, CloseTracked(p, fate, v, r).w)
  {
    if p.ending != Abandoned {
      CallKeeps(p.w, fate, ClosingStatement(p, v, r));
    }
  }

  lemma ScrapeTrackedKeeps(w: World, fate: Fate, v: Visit, r: Report)
    requires Sound(w) && r.runId < |w.runs|
    ensures Keeps(w, ScrapeTracked(w, fate, v, r).w)
  {
    var open := OpenRunSet(r.runId, v.set_.series);
    var a := Call(w, fate, open);
    CallKeeps(w, fate, open);
    if a.reply != Gone {
      var p := ScrapeSet(a.w, fate, v, r);
      ScrapeSetKeeps(a.w, fate, v, r);
      CloseTrackedKeeps(p, fate, v, r);
      KeepsIsTransitive(w, a.w, p.w);
      KeepsIsTransitive(w, p.w, CloseTracked(p, fate, v, r).w);
    }
  }

  // ---- Runs and histories --------------------------------------------------------------------------

  /** Two states of a report that differ in card counters only. */
  ghost predicate SameHeader(r: Report, r': Report) {
    r'.runId == r.runId && r'.setsTotal == r.setsTotal && r'.setsOk == r.setsOk && r'.status == r.status
  }

  lemma {:induction false} UpsertCardsKeepsHeader(w: World, fate: Fate, primary: string, cards: seq<ParsedCard>, r: Report)
    ensures SameHeader(r, UpsertCards(w, fate, primary, cards, r).report)
    decreases |cards|
  {
    if cards != [] {
      var a := Call(w, fate, UpsertCard(SetIdOr(cards[0].code, primary), cards[0]));
      UpsertCardsKeepsHeader(a.w, fate, primary, cards[1..], Count(r, OutcomeOf(w.cards, cards[0])));
    }
  }

  lemma ScrapeSetKeepsHeader(w: World, fate: Fate, v: Visit, r: Report)
    ensures SameHeader(r, ScrapeSet(w, fate, v, r).report)
  {
    hide Call;
    forall x: World, primary: string, q: Report
      ensures SameHeader(q, UpsertCards(x, fate, primary, v.page.cards, q).report)
    {
      UpsertCardsKeepsHeader(x, fate, primary, v.page.cards, q);
    }
  }

  /** A visit counts a set as done exactly when its page finished, whatever becomes of its telemetry. */
  lemma ScrapeTrackedCountsSet(w: World, fate: Fate, v: Visit, r: Report)
    ensures
      var a := Call(w, fate, OpenRunSet(r.runId, v.set_.series));
      var p := ScrapeSet(a.w, fate, v, r);
      var q := ScrapeTracked(w, fate, v, r);
      && SameHeader(r.(setsOk := q.report.setsOk), q.report)
      && q.report.setsOk == r.setsOk + (if a.reply != Gone && p.ending.Finished? then 1 else 0)
      && (q.ending != Abandoned ==> (q.ending.Finished? <==> p.ending.Finished?))
  {
    ScrapeSetKeepsHeader(Call(w, fate, OpenRunSet(r.runId, v.set_.series)).w, fate, v, r);
  }

  lemma {:induction false} ScrapeAllKeeps(w: World, fate: Fate, visits: seq<Visit>, r: Report)
    requires Sound(w) && r.runId < |w.runs|
    ensures Keeps(w, ScrapeAll(w, fate, visits, r).w)
    ensures ScrapeAll(w, fate, visits, r).report.runId == r.runId
    decreases |visits|
  {
    if visits != [] {
      var p := ScrapeTracked(w, fate, visits[0], r);
      ScrapeTrackedKeeps(w, fate, visits[0], r);
      ScrapeTrackedCountsSet(w, fate, visits[0], r);
      if p.ending != Abandoned {
        ScrapeAllKeeps(p.w, fate, visits[1..], p.report);
        KeepsIsTransitive(w, p.w, ScrapeAll(w, fate, visits, r).w);
      }
    }
  }

  lemma BeginKeeps(w: World, fate: Fate)
    ensures
      var o := Begin(w, fate);
      Keeps(w, o.w) && (o.reply == Ok ==> |o.w.runs| == |w.runs| + 1)
  {
    var d := Call(w, fate, Query);
    CallKeeps(w, fate, Query);
    CallKeeps(d.w, fate, OpenRun);
    ArriveKeeps(w, fate);
    ArriveKeeps(d.w, fate);
    KeepsIsTransitive(w, d.w, Call(d.w, fate, OpenRun).w);
  }

  lemma RunOnceKeeps(w: World, fate: Fate, index: Option<seq<Visit>>)
    requires Sound(w)
    ensures Keeps(w, RunOnce(w, fate, index).w)
  {
    var o := Begin(w, fate);
    BeginKeeps(w, fate);
    if o.reply == Ok {
      RunOpenedKeeps(o.w, fate, index, Fresh(|o.w.runs| - 1));
      KeepsIsTransitive(w, o.w, RunOnce(w, fate, index).w);
    }
  }

  lemma RunOpenedKeeps(w: World, fate: Fate, index: Option<seq<Visit>>, r: Report)
    requires Sound(w) && r.runId < |w.runs|
    ensures Keeps(w, RunOpened(w, fate, index, r).w)
  {
    var i := Call(w, fate, Query);
    CallKeeps(w, fate, Query);
    if i.reply == Gone {
    } else if i.reply == Err || index.None? {
      CallKeeps(i.w, fate, CloseRun(r.(status := Failed)));
      KeepsIsTransitive(w, i.w, RunOpened(w, fate, index, r).w);
    } else {
      var p := ScrapeAll(i.w, fate, index.value, r.(setsTotal := |index.value|));
      ScrapeAllKeeps(i.w, fate, index.value, r.(setsTotal := |index.value|));
      KeepsIsTransitive(w, i.w, p.w);
      CallKeeps(p.w, fate, CloseRun(p.report.(status := StatusOf(p.report))));
      KeepsIsTransitive(w, p.w, RunOpened(w, fate, index, r).w);
    }
  }

  lemma RunOneKeeps(w: World, fate: Fate, series: string, page: Page)
    requires Sound(w)
    ensures Keeps(w, RunOne(w, fate, series, page).w)
  {
    var o := Begin(w, fate);
    BeginKeeps(w, fate);
    if o.reply == Ok {
      var r := Fresh(|o.w.runs| - 1).(setsTotal := 1);
      var p := ScrapeTracked(o.w, fate, SingleVisit(series, page), r);
      ScrapeTrackedKeeps(o.w, fate, SingleVisit(series, page), r);
      KeepsIsTransitive(w, o.w, p.w);
      CallKeeps(p.w, fate, CloseRun(p.report.(status := if p.report.setsOk == 1 then Success else Failed)));
      KeepsIsTransitive(w, p.w, RunOne(w, fate, series, page).w);
    }
  }

  lemma AfterKeeps(w: World, e: Event)
    requires Sound(w)
    ensures Keeps(w, After(w, e))
  {
    match e
    case FullRun(fate, index) => RunOnceKeeps(w, fate, index);
    case SingleRun(fate, series, page) => RunOneKeeps(w, fate, series, page);
    case Cleanup(fate) =>
      var a := Call(w, fate, CleanRuns);
      CallKeeps(w, fate, CleanRuns);
      CallKeeps(a.w, fate, CleanSets);
      KeepsIsTransitive(w, a.w, Call(a.w, fate, CleanSets).w);
  }

  /** Over every history of runs and clean-ups, with any call failing, losing its reply or abandoned, and
      clean-ups getting in before any call. A state in the middle of a run is the last state of the run
      abandoned at that call, so it is covered too. */
  lemma {:induction false} HistoryKeeps(w: World, events: seq<Event>)
    requires Sound(w)
    ensures Keeps(w, History(w, events))
    decreases |events|
  {
    if events != [] {
      AfterKeeps(w, events[0]);
      HistoryKeeps(After(w, events[0]), events[1..]);
      KeepsIsTransitive(w, After(w, events[0]), History(w, events));
    }
  }

  /** Foreign keys never fail: starting from empty tables, no statement of any history is rejected for
      its set, and every stored card refers to a stored set. */
  lemma ForeignKeysNeverFail(events: seq<Event>)
    ensures
      var w := History(EMPTY, events);
      w.fkErrors == 0 && forall code :: code in w.cards ==> w.cards[code].setId in w.sets
  {
    HistoryKeeps(EMPTY, events);
  }

  /** In every reachable state a page digest sits on an `ok` row, so `running` and `failed` rows have none,
      and exactly the running runs have no finish time. */
  lemma DigestsSitOnOkRows(events: seq<Event>)
    ensures
      var w := History(EMPTY, events);
      && (forall k :: k in w.runSets && w.runSets[k].htmlHash.Some? ==> w.runSets[k].status == SetOk)
      && (forall i :: 0 <= i < |w.runs| ==> (w.runs[i].status == Running <==> w.runs[i].finishedAt.None?))
  {
    HistoryKeeps(EMPTY, events);
  }

  /** A run or per-set row that was running is failed and finished, and keeps a finish time it had and all else;
      any other is as before. */
  ghost predicate RunTidied(a: RunRow, b: RunRow) {
    if a.status != Running then b == a
    else
      && b.finishedAt.Some? && (a.finishedAt.Some? ==> b.finishedAt == a.finishedAt)
      && b == a.(status := Failed, finishedAt := b.finishedAt)
  }

  ghost predicate RunSetTidied(a: RunSetRow, b: RunSetRow) {
    if a.status != SetRunning then b == a
    else
      && b.finishedAt.Some? && (a.finishedAt.Some? ==> b.finishedAt == a.finishedAt)
      && b == a.(status := SetFailed, finishedAt := b.finishedAt)
  }

  /** The catalogue is as before, and of each table of telemetry either every row is tidied, as it must be when
      asked for, or some rows are. */
  ghost predicate Tidied(w: World, w': World, allRuns: bool, allSets: bool) {
    && w'.cards == w.cards && w'.sets == w.sets && |w'.runs| == |w.runs| && w'.runSets.Keys == w.runSets.Keys
    && (forall i :: 0 <= i < |w.runs| ==> RunTidied(w.runs[i], w'.runs[i]) || (!allRuns && w'.runs[i] == w.runs[i]))
    && (forall k :: k in w.runSets ==>
          RunSetTidied(w.runSets[k], w'.runSets[k]) || (!allSets && w'.runSets[k] == w.runSets[k]))
  }

  lemma CleanRunsTidies(w: World, now: int)
    ensures Tidied(w, Effect(w, CleanRuns, now), true, false)
  {
  }

  lemma CleanSetsTidies(w: World, now: int)
    ensures Tidied(w, Effect(w, CleanSets, now), false, true)
  {
  }

  lemma TidiedIsTransitive(a: World, b: World, c: World, runs1: bool, sets1: bool, runs2: bool, sets2: bool)
    requires Tidied(a, b, runs1, sets1) && Tidied(b, c, runs2, sets2)
    ensures Tidied(a, c, runs1 || runs2, sets1 || sets2)
  {
  }

  lemma ArriveTidies(w: World, fate: Fate)
    ensures Tidied(w, Arrive(w, fate), false, false)
  {
    hide Effect;
    var m := fate(w.step);
    var a := if m.cleanRuns then Effect(w, CleanRuns, m.now) else w;
    var b := if m.cleanSets then Effect(a, CleanSets, m.now) else a;
    CleanRunsTidies(w, m.now);
    CleanSetsTidies(a, m.now);
    assert Tidied(w, a, false, false) && Tidied(a, b, false, false);
    TidiedIsTransitive(w, a, b, false, false, false, false);
  }

  lemma CleanCallTidies(w: World, fate: Fate, s: Stmt)
    requires s in {CleanRuns, CleanSets} && Call(w, fate, s).reply == Ok
    ensures Tidied(w, Call(w, fate, s).w, s == CleanRuns, s == CleanSets)
  {
    hide Effect, Arrive, Tidied;
    var v := Arrive(w, fate);
    ArriveTidies(w, fate);
    CleanRunsTidies(v, fate(w.step).now);
    CleanSetsTidies(v, fate(w.step).now);
    TidiedIsTransitive(w, v, Effect(v, s, fate(w.step).now), false, false, s == CleanRuns, s == CleanSets);
  }

  /** A clean-up whose two statements succeed leaves nothing running: what was is failed and finished, and
      every other row, and the catalogue, is as before. */
  lemma CleanupLeavesNothingRunning(w: World, fate: Fate)
    requires CleanupStaleRuns(w, fate).reply == Ok
    ensures
      var w' := CleanupStaleRuns(w, fate).w;
      && w'.cards == w.cards && w'.sets == w.sets && |w'.runs| == |w.runs| && w'.runSets.Keys == w.runSets.Keys
      && (forall i :: 0 <= i < |w.runs| ==>
            w'.runs[i].status != Running && RunTidied(w.runs[i], w'.runs[i]))
      && (forall k :: k in w.runSets ==>
            w'.runSets[k].status != SetRunning && RunSetTidied(w.runSets[k], w'.runSets[k]))
  {
    hide Call;
    var a := Call(w, fate, CleanRuns);
    CleanCallTidies(w, fate, CleanRuns);
    CleanCallTidies(a.w, fate, CleanSets);
    TidiedIsTransitive(w, a.w, Call(a.w, fate, CleanSets).w, true, false, false, true);
  }
}
