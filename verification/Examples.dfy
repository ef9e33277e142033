/** Histories that show what the general statements exclude, made of runs of a few calls each: nearly every
    call succeeds, and no clean-up gets in. */
module Examples {
  import opened Schema
  import opened Parse
  import opened Statements
  import opened Engine
  import opened Integrity
  import opened Frames
  import opened Events
  import opened HashSkip
  import opened Writes
  import opened Telemetry
  import opened RunTable

  const SERIES := "5"
  const CARD := ParsedCard("A-1", "A-1.png", "1", "first print")
  const OLD_PAGE := Page("<old>", [CARD])
  const NEW_PAGE := Page("<new>", [CARD.(details := "errata")])
  const BLANK_PAGE := Page("<blank>", [])

  /** Every call succeeds, except for what becomes of the one at step `k`. */
  function OddAt(k: nat, o: Outcome): Fate {
    t => Moment(t, false, false, if t == k then o else Done)
  }

  const SMOOTH: Fate := t => Moment(t, false, false, Done)

  /** The `n` calls from step `t` on succeed. */
  ghost predicate Smooth(fate: Fate, t: nat, n: nat) {
    forall i :: t <= i < t + n ==> fate(i) == Moment(i, false, false, Done)
  }

  ghost function Scrape(fate: Fate, page: Page): Event {
    FullRun(fate, Some([SingleVisit(SERIES, page)]))
  }

  // ---- Calls -----------------------------------------------------------------------------------------------

  lemma SmoothCall(w: World, fate: Fate, s: Stmt)
    requires Smooth(fate, w.step, 1) && !BreaksUnique(w, s) && !BreaksForeignKey(w, s)
    ensures Call(w, fate, s) == Answer(Effect(w.(step := w.step + 1), s, w.step), Ok)
  {
  }

  lemma SmoothQuery(w: World, fate: Fate)
    requires Smooth(fate, w.step, 1)
    ensures Call(w, fate, Query) == Answer(w.(step := w.step + 1), Ok)
  {
    hide Call;
    SmoothCall(w, fate, Query);
  }

  lemma SmoothStart(w: World, fate: Fate, visits: seq<Visit>) returns (s: Start)
    requires Smooth(fate, w.step, 3) && RunSetsSound(w)
    ensures
      && StartOf(w, FullRun(fate, Some(visits))) == Some(s)
      && s.w == w.(step := w.step + 3, runs := w.runs + [RunRow(Running, w.step + 1, None, None)])
      && s.visits == visits && s.r == Fresh(|w.runs|).(setsTotal := |visits|)
      && AllUnvisited(s.w, s.r.runId, visits)
      && forall x :: StoredHash(s.w, x) == StoredHash(w, x) && Newest(s.w, x) == Newest(w, x)
  {
    hide Call;
    var e := FullRun(fate, Some(visits));
    SmoothQuery(w, fate);
    SmoothCall(w.(step := w.step + 1), fate, OpenRun);
    SmoothQuery(Begin(w, fate).w, fate);
    s := StartOf(w, e).value;
    StartIsUnvisited(w, e);
    forall x ensures StoredHash(s.w, x) == StoredHash(w, x) && Newest(s.w, x) == Newest(w, x) { NewRunFrame(w, s.w, x); }
  }

  // ---- Pages -----------------------------------------------------------------------------------------------

  lemma SmoothLookUps(w: World, fate: Fate, v: Visit, r: Report)
    requires Smooth(fate, w.step, 2)
    ensures
      var b := w.(step := w.step + 2);
      ScrapeSet(w, fate, v, r) ==
        if StoredHash(w, v.set_.series) == Some(Sha256(v.page)) then SkipPage(b, fate, v, r) else WalkPage(b, fate, v, r)
  {
    hide Call, SkipPage, WalkPage;
    SmoothQuery(w, fate);
    SmoothQuery(w.(step := w.step + 1), fate);
    LookUpSeesStoredHash(w, fate, v.set_.series);
  }

  lemma SmoothSkip(w: World, fate: Fate, v: Visit, r: Report)
    requires Smooth(fate, w.step, 4) && StoredHash(w, v.set_.series) == Some(Sha256(v.page))
    ensures
      var p := ScrapeSet(w, fate, v, r);
      var n := LastSeen(w, v.set_.series);
      && p.w == w.(step := w.step + 4) && p.report == r.(seen := r.seen + n, unmodified := r.unmodified + n)
      && p.ending.Finished? && p.ending.htmlHash == Some(Sha256(v.page))
  {
    hide Call;
    var b := w.(step := w.step + 2);
    SmoothLookUps(w, fate, v, r);
    SmoothQuery(b, fate);
    SmoothQuery(b.(step := b.step + 1), fate);
    LookUpSeesStoredHash(w, fate, v.set_.series);
    LookUpFrame(w, b.(step := b.step + 1), v.set_.series);
  }

  lemma SmoothBlank(w: World, fate: Fate, v: Visit, r: Report)
    requires Smooth(fate, w.step, 2) && Sound(w) && v.page.cards == []
    ensures ScrapeSet(w, fate, v, r) == Progress(w.(step := w.step + 2), r, Finished(None, None))
  {
    SmoothLookUps(w, fate, v, r);
    if StoredHash(w, v.set_.series).Some? { StoredHashHasCards(w, v.set_.series); }
  }

  /** The fetch of the page fails. */
  lemma RefusedFetch(w: World, fate: Fate, v: Visit, r: Report)
    requires fate(w.step) == Moment(w.step, false, false, Refused)
    ensures ScrapeSet(w, fate, v, r) == Progress(w.(step := w.step + 1), r, Errored)
  {
  }

  ghost predicate OnlySetA(w: World) {
    w.sets.Keys <= {"A"} && ("A" in w.sets ==> w.sets["A"].series == SERIES)
  }

  ghost predicate OneCard(page: Page, card: ParsedCard) {
    page.cards == [card] && card.code == "A-1"
  }

  lemma NoSecondaryIds(page: Page, card: ParsedCard)
    requires OneCard(page, card)
    ensures SecondaryIds(page.cards, "A") == [] && SetIdFromCode(card.code) == Some("A")
  {
    SetIdIsTheDashedPrefix("A-1", "A");
    var ids := SecondaryIds(page.cards, "A");
    assert forall id :: id !in ids;
    SomeMember(ids);
  }

  lemma SomeMember(ids: seq<string>)
    ensures ids == [] || exists id :: id in ids
  {
    if ids != [] { assert ids[0] in ids; }
  }

  /** Up to the upsert of the page's only card. */
  lemma SmoothLoopStart(w: World, fate: Fate, page: Page, card: ParsedCard)
    requires OneCard(page, card) && OnlySetA(w) && Smooth(fate, w.step, 1)
    ensures
      var start := WriteStart(w, fate, SingleVisit(SERIES, page), "A");
      && start.Some? && start.value.primary == "A"
      && start.value.w == Effect(w.(step := w.step + 1), UpsertSet("A", SingleVisit(SERIES, page).set_), w.step)
      && OnlySetA(start.value.w) && "A" in start.value.w.sets
  {
    hide Call;
    NoSecondaryIds(page, card);
    SmoothCall(w, fate, UpsertSet("A", SingleVisit(SERIES, page).set_));
  }

  /** The upsert of the page's only card succeeds, or takes effect with its reply lost. */
  lemma OneUpsert(w: World, fate: Fate, page: Page, card: ParsedCard, r: Report)
    requires OneCard(page, card) && "A" in w.sets
    requires var m := fate(w.step); m.now == w.step && !m.cleanRuns && !m.cleanSets && m.outcome in {Done, Lost}
    ensures
      var c := UpsertCards(w, fate, "A", page.cards, r);
      && c.w == w.(step := w.step + 1, cards := CardsAfter(w.cards, "A", card, w.step))
      && c.reply == (if fate(w.step).outcome == Done then Ok else Err)
      && c.report == if c.reply == Ok then Count(r, OutcomeOf(w.cards, card)) else r
  {
    NoSecondaryIds(page, card);
    assert page.cards[1..] == [];
    assert Call(w, fate, UpsertCard("A", card)).w ==
      w.(step := w.step + 1, cards := CardsAfter(w.cards, "A", card, w.step));
  }

  /** A page of one card is walked: four calls, the last of which may lose its reply. */
  lemma OneCardWalk(w: World, fate: Fate, page: Page, card: ParsedCard, r: Report)
    requires OneCard(page, card) && OnlySetA(w) && Smooth(fate, w.step, 3)
    requires StoredHash(w, SERIES) != Some(Sha256(page))
    requires
      var m := fate(w.step + 3);
      m.now == w.step + 3 && !m.cleanRuns && !m.cleanSets && m.outcome in {Done, Lost}
    ensures
      var p := ScrapeSet(w, fate, SingleVisit(SERIES, page), r);
      && p.w.step == w.step + 4 && p.w.cards == CardsAfter(w.cards, "A", card, w.step + 3)
      && OnlySetA(p.w) && "A" in p.w.sets && p.w.runs == w.runs && p.w.runSets == w.runSets
      && (fate(w.step + 3).outcome == Done ==>
            && p.ending == Finished(Some("A"), Some(Sha256(page)))
            && p.report == Count(r.(seen := r.seen + 1), OutcomeOf(w.cards, card)))
      && (fate(w.step + 3).outcome == Lost ==> p.ending == Errored && p.report == r.(seen := r.seen + 1))
  {
    hide Call, UpsertCards, SecondaryIds;
    var v := SingleVisit(SERIES, page);
    var b := w.(step := w.step + 2);
    SmoothLookUps(w, fate, v, r);
    NoSecondaryIds(page, card);
    SmoothLoopStart(b, fate, page, card);
    var l := WriteStart(b, fate, v, "A").value;
    OneUpsert(l.w, fate, page, card, r.(seen := r.seen + 1));
    assert WalkPage(b, fate, v, r) == WritePage(b, fate, v, "A", r.(seen := r.seen + 1));
    assert l.w.step == w.step + 3 && l.w.cards == w.cards;
  }

  // ---- Visits ----------------------------------------------------------------------------------------------

  lemma SmoothOpen(w: World, fate: Fate, run: nat, series: string)
    requires Smooth(fate, w.step, 1)
    ensures
      Call(w, fate, OpenRunSet(run, series)) ==
        Answer(w.(step := w.step + 1,
                  runSets := w.runSets[(run, series) := RunSetRow(SetRunning, None, 0, 0, None, w.step, None)]), Ok)
  {
    hide Call;
    SmoothCall(w, fate, OpenRunSet(run, series));
  }

  /** The page's row is opened; what follows is the page, then the closing of the row. */
  lemma OpenedVisit(w: World, fate: Fate, v: Visit, r: Report) returns (a: World)
    requires Smooth(fate, w.step, 1) && Unvisited(w, r.runId, v.set_.series)
    ensures a == Call(w, fate, OpenRunSet(r.runId, v.set_.series)).w
    ensures ScrapeTracked(w, fate, v, r) == CloseTracked(ScrapeSet(a, fate, v, r), fate, v, r)
    ensures a.step == w.step + 1 && a.cards == w.cards && a.sets == w.sets && a.runs == w.runs
    ensures (r.runId, v.set_.series) in a.runSets && !IsOk(a, (r.runId, v.set_.series))
    ensures forall x :: StoredHash(a, x) == StoredHash(w, x) && Newest(a, x) == Newest(w, x)
    ensures Sound(w) ==> Sound(a)
  {
    hide Call, ScrapeSet, CloseTracked;
    SmoothOpen(w, fate, r.runId, v.set_.series);
    a := Call(w, fate, OpenRunSet(r.runId, v.set_.series)).w;
    forall x ensures StoredHash(a, x) == StoredHash(w, x) && Newest(a, x) == Newest(w, x) {
      VisitLookUps(w, fate, v, r, x);
    }
    CallKeeps(w, fate, OpenRunSet(r.runId, v.set_.series));
  }

  /** The row is closed as the page ended. */
  lemma SmoothClose(p: Progress, fate: Fate, v: Visit, r: Report)
    requires Smooth(fate, p.w.step, 1) && p.ending != Abandoned
    requires |p.w.runs| == r.runId + 1 && (r.runId, v.set_.series) in p.w.runSets && !IsOk(p.w, (r.runId, v.set_.series))
    ensures
      var q := CloseTracked(p, fate, v, r);
      var s := v.set_.series;
      && q.w.step == p.w.step + 1 && q.w.cards == p.w.cards && q.w.sets == p.w.sets && q.w.runs == p.w.runs
      && q.ending == p.ending
      && q.report == (if p.ending.Finished? then p.report.(setsOk := p.report.setsOk + 1) else p.report)
      && (p.ending.Finished? ==>
            && Newest(q.w, s).Some? && Newest(q.w, s).value.htmlHash == p.ending.htmlHash
            && LastSeen(q.w, s) == p.report.seen - r.seen
            && StoredHash(q.w, s) == (if p.ending.htmlHash.Some? then p.ending.htmlHash else StoredHash(p.w, s)))
  {
    hide Call;
    var s := v.set_.series;
    var q := CloseTracked(p, fate, v, r);
    SmoothCall(p.w, fate, ClosingStatement(p, v, r));
    if p.ending.Finished? {
      NewestRunFirst(q.w, r.runId, s, true);
      NewestRunFirst(q.w, r.runId, s, false);
      NewestRunFirst(p.w, r.runId, s, true);
      NewestOkFrame(p.w, q.w, s, r.runId, true);
    }
  }

  // ---- Runs ------------------------------------------------------------------------------------------------

  /** The run is closed as its pass counted, and leaves catalogue and look-ups as the pass did. */
  lemma SmoothEnd(w: World, fate: Fate, s: Start)
    requires StartOf(w, FullRun(fate, Some(s.visits))) == Some(s) && !PassOf(s, fate).abandoned
    requires Smooth(fate, PassOf(s, fate).w.step, 1)
    ensures
      var x := RunOnce(w, fate, Some(s.visits));
      var p := PassOf(s, fate);
      && x.w.step == p.w.step + 1 && x.w.cards == p.w.cards && x.w.sets == p.w.sets
      && x.report == p.report.(status := StatusOf(p.report)) && x.end == Closed
      && forall y :: StoredHash(x.w, y) == StoredHash(p.w, y) && Newest(x.w, y) == Newest(p.w, y)
  {
    var e := FullRun(fate, Some(s.visits));
    var p := PassOf(s, fate);
    var close := CloseRun(p.report.(status := StatusOf(p.report)));
    EndCall(w, fate, Some(s.visits), s);
    EndSpares(w, e);
    EndReply(w, fate, s);
    SmoothCall(p.w, fate, close);
    forall y ensures StoredHash(After(w, e), y) == StoredHash(p.w, y) && Newest(After(w, e), y) == Newest(p.w, y) {
      LookUpFrame(p.w, After(w, e), y);
    }
  }

  lemma EndReply(w: World, fate: Fate, s: Start)
    requires StartOf(w, FullRun(fate, Some(s.visits))) == Some(s) && !PassOf(s, fate).abandoned
    ensures
      var p := PassOf(s, fate);
      var r := p.report.(status := StatusOf(p.report));
      RunOnce(w, fate, Some(s.visits)) == Close(p.w, fate, r)
  {
    hide Call, Close, ScrapeAll;
  }

  /** The tables between runs: what is recorded of the series, and what the next skip of it would add. */
  ghost predicate Between(w: World, stored: Option<Digest<Page>>, lastSeen: int) {
    Sound(w) && OnlySetA(w) && StoredHash(w, SERIES) == stored && LastSeen(w, SERIES) == lastSeen
  }

  /** A visit that walks a page of one card; the closing of its row may be refused. */
  lemma WalkVisit(w: World, fate: Fate, page: Page, card: ParsedCard, r: Report)
    requires OneCard(page, card) && OnlySetA(w) && Unvisited(w, r.runId, SERIES)
    requires StoredHash(w, SERIES) != Some(Sha256(page)) && Smooth(fate, w.step, 5)
    requires fate(w.step + 5) in {Moment(w.step + 5, false, false, Done), Moment(w.step + 5, false, false, Refused)}
    ensures
      var q := ScrapeTracked(w, fate, SingleVisit(SERIES, page), r);
      && q.w.step == w.step + 6 && q.w.cards == CardsAfter(w.cards, "A", card, w.step + 4) && q.w.runs == w.runs
      && OnlySetA(q.w) && "A" in q.w.sets && q.ending.Finished? && q.report.setsOk == r.setsOk + 1
      && q.report.setsTotal == r.setsTotal && q.report.runId == r.runId
      && (fate(w.step + 5).outcome == Done ==>
            StoredHash(q.w, SERIES) == Some(Sha256(page)) && LastSeen(q.w, SERIES) == 1)
      && (fate(w.step + 5).outcome == Refused ==>
            StoredHash(q.w, SERIES) == StoredHash(w, SERIES) && LastSeen(q.w, SERIES) == LastSeen(w, SERIES))
  {
    hide ScrapeTracked, Call, ScrapeSet, CloseTracked;
    var v := SingleVisit(SERIES, page);
    var a := OpenedVisit(w, fate, v, r);
    OneCardWalk(a, fate, page, card, r);
    var p := ScrapeSet(a, fate, v, r);
    if fate(w.step + 5).outcome == Done {
      SmoothClose(p, fate, v, r);
    } else {
      RefusedClose(p, fate, v, r);
      LookUpFrame(a, p.w, SERIES);
    }
  }

  /** A run of one such visit. */
  lemma WalkRun(w: World, fate: Fate, page: Page, card: ParsedCard, stored: Option<Digest<Page>>, lastSeen: int)
    requires Between(w, stored, lastSeen) && OneCard(page, card) && stored != Some(Sha256(page))
    requires Smooth(fate, w.step, 8) && Smooth(fate, w.step + 9, 1)
    requires fate(w.step + 8) in {Moment(w.step + 8, false, false, Done), Moment(w.step + 8, false, false, Refused)}
    ensures
      var x := RunOnce(w, fate, Some([SingleVisit(SERIES, page)]));
      && x.w.step == w.step + 10 && x.w.cards == CardsAfter(w.cards, "A", card, w.step + 7) && "A" in x.w.sets
      && x.end == Closed && x.report.status == Success
      && (fate(w.step + 8).outcome == Done ==> Between(x.w, Some(Sha256(page)), 1))
      && (fate(w.step + 8).outcome == Refused ==> Between(x.w, stored, lastSeen))
  {
    hide ScrapeTracked, RunOnce, StartOf, Evolves, CardsSound, RunSetsSound, RunsSound, SeriesUnique;
    var v := SingleVisit(SERIES, page);
    var s := SmoothStart(w, fate, [v]);
    assert v in [v];
    WalkVisit(s.w, fate, page, card, s.r);
    SinglePass(s.w, fate, v, s.r);
    SmoothEnd(w, fate, s);
    RunOnceKeeps(w, fate, Some([v]));
  }

  lemma RefusedClose(p: Progress, fate: Fate, v: Visit, r: Report)
    requires fate(p.w.step) == Moment(p.w.step, false, false, Refused) && p.ending.Finished?
    ensures
      var q := CloseTracked(p, fate, v, r);
      && q.w == p.w.(step := p.w.step + 1) && q.ending == p.ending
      && q.report == p.report.(setsOk := p.report.setsOk + 1)
      && forall x :: StoredHash(q.w, x) == StoredHash(p.w, x) && Newest(q.w, x) == Newest(p.w, x)
  {
    var q := CloseTracked(p, fate, v, r);
    forall x ensures StoredHash(q.w, x) == StoredHash(p.w, x) && Newest(q.w, x) == Newest(p.w, x) {
      LookUpFrame(p.w, q.w, x);
    }
  }

  lemma SkipRun(w: World, fate: Fate, page: Page, lastSeen: int)
    requires Between(w, Some(Sha256(page)), lastSeen) && Smooth(fate, w.step, 10)
    ensures
      var x := RunOnce(w, fate, Some([SingleVisit(SERIES, page)]));
      && x.w.step == w.step + 10 && x.w.cards == w.cards && x.w.sets == w.sets && x.report.status == Success
      && x.report.seen == x.report.unmodified == lastSeen
      && Between(x.w, Some(Sha256(page)), lastSeen)
      && Newest(x.w, SERIES).Some? && Newest(x.w, SERIES).value.htmlHash.Some?
  {
    hide ScrapeTracked, RunOnce, Call, ScrapeSet, CloseTracked;
    var v := SingleVisit(SERIES, page);
    var s := SmoothStart(w, fate, [v]);
    assert v in [v];
    var a := OpenedVisit(s.w, fate, v, s.r);
    SmoothSkip(a, fate, v, s.r);
    SmoothClose(ScrapeSet(a, fate, v, s.r), fate, v, s.r);
    SinglePass(s.w, fate, v, s.r);
    SmoothEnd(w, fate, s);
    RunOnceKeeps(w, fate, Some([v]));
  }

  lemma BlankRun(w: World, fate: Fate, stored: Option<Digest<Page>>, lastSeen: int)
    requires Between(w, stored, lastSeen) && Smooth(fate, w.step, 8)
    ensures
      var x := RunOnce(w, fate, Some([SingleVisit(SERIES, BLANK_PAGE)]));
      && x.w.step == w.step + 8 && x.w.cards == w.cards && x.w.sets == w.sets && Between(x.w, stored, 0)
  {
    hide ScrapeTracked, RunOnce, Call, ScrapeSet, CloseTracked;
    var v := SingleVisit(SERIES, BLANK_PAGE);
    var s := SmoothStart(w, fate, [v]);
    assert v in [v];
    var a := OpenedVisit(s.w, fate, v, s.r);
    BeginSound(w, fate, s);
    SmoothBlank(a, fate, v, s.r);
    SmoothClose(ScrapeSet(a, fate, v, s.r), fate, v, s.r);
    LookUpFrame(a, a.(step := a.step + 2), SERIES);
    SinglePass(s.w, fate, v, s.r);
    SmoothEnd(w, fate, s);
    RunOnceKeeps(w, fate, Some([v]));
  }

  lemma BeginSound(w: World, fate: Fate, s: Start)
    requires Sound(w) && StartOf(w, FullRun(fate, Some(s.visits))) == Some(s)
    ensures Sound(s.w)
  {
    hide Call, Begin;
    StartIsSound(w, FullRun(fate, Some(s.visits)));
  }

  lemma OneEvent(w: World, a: Event)
    ensures History(w, [a]) == After(w, a)
  {
    hide After;
    assert [a][1..] == [];
  }

  lemma TwoEvents(w: World, a: Event, b: Event)
    ensures History(w, [a, b]) == After(After(w, a), b)
  {
    hide After;
    assert [a, b][1..] == [b];
    OneEvent(After(w, a), b);
  }

  lemma ThreeEvents(w: World, a: Event, b: Event, c: Event)
    ensures History(w, [a, b, c]) == After(After(After(w, a), b), c)
  {
    hide After;
    assert [a, b, c][1..] == [b, c];
    TwoEvents(After(w, a), b, c);
  }

  lemma NothingYet()
    ensures Between(EMPTY, None, 0)
  {
    assert |EMPTY.runs| == 0 && EMPTY.sets == map[] && EMPTY.cards == map[] && EMPTY.runSets == map[];
    assert NewestOk(EMPTY, SERIES, 0, true) == None && NewestOk(EMPTY, SERIES, 0, false) == None;
    assert Sound(EMPTY);
    assert OnlySetA(EMPTY);
    assert StoredHash(EMPTY, SERIES) == None;
    assert LastSeen(EMPTY, SERIES) == 0;
  }

  // ---- A stale skip ----------------------------------------------------------------------------------------

  /** The page is scraped; its new edition is scraped, but the closing of its telemetry row is refused; then
      the old page is served again, and skipped. The table is left with the new edition's card, where walking
      the old page succeeds and restores the old one. */
  lemma StaleSkipExample(r: Report)
    ensures
      var w := History(EMPTY, [Scrape(SMOOTH, OLD_PAGE), Scrape(OddAt(18, Refused), NEW_PAGE), Scrape(SMOOTH, OLD_PAGE)]);
      var walked := UpsertCards(w, SMOOTH, "A", OLD_PAGE.cards, r);
      && "A-1" in w.cards && w.cards["A-1"].card == NEW_PAGE.cards[0] != CARD
      && walked.reply == Ok && "A-1" in walked.w.cards && walked.w.cards["A-1"].card == CARD
  {
    hide RunOnce, UpsertCards;
    NothingYet();
    var a, b, c := Scrape(SMOOTH, OLD_PAGE), Scrape(OddAt(18, Refused), NEW_PAGE), Scrape(SMOOTH, OLD_PAGE);
    WalkRun(EMPTY, SMOOTH, OLD_PAGE, CARD, None, 0);
    var w1 := After(EMPTY, a);
    WalkRun(w1, OddAt(18, Refused), NEW_PAGE, NEW_PAGE.cards[0], Some(Sha256(OLD_PAGE)), 1);
    var w2 := After(w1, b);
    SkipRun(w2, SMOOTH, OLD_PAGE, 1);
    ThreeEvents(EMPTY, a, b, c);
    OneUpsert(After(w2, c), SMOOTH, OLD_PAGE, CARD, r);
  }

  // ---- A page counted short ----------------------------------------------------------------------------------

  /** The page is scraped, found empty, and served again as before: that skip counts none of its cards, and
      leaves a row with the page's digest and a count of zero, so that the next skip counts none either,
      although the newest row then carries a digest. */
  lemma ShortCountExample()
    ensures
      var w := History(EMPTY, [Scrape(SMOOTH, OLD_PAGE), Scrape(SMOOTH, BLANK_PAGE), Scrape(SMOOTH, OLD_PAGE)]);
      && StoredHash(w, SERIES) == Some(Sha256(OLD_PAGE)) && |OLD_PAGE.cards| == 1
      && Newest(w, SERIES).Some? && Newest(w, SERIES).value.htmlHash.Some?
      && LastSeen(w, SERIES) == 0 && !Unbroken(w, SERIES, Sha256(OLD_PAGE))
      && RunOnce(w, SMOOTH, Some([SingleVisit(SERIES, OLD_PAGE)])).report.seen == 0
  {
    hide RunOnce, Unbroken;
    NothingYet();
    var a, b := Scrape(SMOOTH, OLD_PAGE), Scrape(SMOOTH, BLANK_PAGE);
    WalkRun(EMPTY, SMOOTH, OLD_PAGE, CARD, None, 0);
    var w1 := After(EMPTY, a);
    BlankRun(w1, SMOOTH, Some(Sha256(OLD_PAGE)), 1);
    var w2 := After(w1, b);
    SkipRun(w2, SMOOTH, OLD_PAGE, 0);
    var w3 := After(w2, a);
    SkipRun(w3, SMOOTH, OLD_PAGE, 0);
    ThreeEvents(EMPTY, a, b, a);
    SkipCountIff([a, b, a], SERIES, Sha256(OLD_PAGE));
  }

  // ---- A card stored but not reported ------------------------------------------------------------------------

  /** The upsert of the only card takes effect, but its reply is lost: the table grows by a card that the run
      does not report as inserted. */
  lemma LostInsertExample()
    ensures
      var x := RunOnce(EMPTY, OddAt(7, Lost), Some([SingleVisit(SERIES, OLD_PAGE)]));
      x.w.cards.Keys == {"A-1"} && x.report.inserted == 0 && x.report.seen == 1
  {
    hide ScrapeTracked, RunOnce, Call, ScrapeSet, CloseTracked;
    NothingYet();
    var fate, v := OddAt(7, Lost), SingleVisit(SERIES, OLD_PAGE);
    var s := SmoothStart(EMPTY, fate, [v]);
    assert v in [v];
    var a := OpenedVisit(s.w, fate, v, s.r);
    OneCardWalk(a, fate, OLD_PAGE, CARD, s.r);
    SmoothClose(ScrapeSet(a, fate, v, s.r), fate, v, s.r);
    SinglePass(s.w, fate, v, s.r);
    SmoothEnd(EMPTY, fate, s);
  }

  // ---- A 304 although the cards changed ------------------------------------------------------------------------

  /** After a successful run, a run writes a new edition but fails to fetch a second page: it closes as
      `partial`, and a client that dumped before it is still told that nothing changed. */
  lemma PartialRunExample()
    ensures
      var w := After(EMPTY, Scrape(SMOOTH, OLD_PAGE));
      var x := RunOnce(w, OddAt(20, Refused), Some([SingleVisit(SERIES, NEW_PAGE), SingleVisit("6", BLANK_PAGE)]));
      && x.end == Closed && x.report.status == Partial && x.w.cards != w.cards
      && CurrentEtag(w.runs).Some? && NotModified(x.w.runs, CurrentEtag(w.runs).value)
  {
    hide RunOnce;
    NothingYet();
    WalkRun(EMPTY, SMOOTH, OLD_PAGE, CARD, None, 0);
    RunLeaves(EMPTY, SMOOTH, Some([SingleVisit(SERIES, OLD_PAGE)]));
    var w := After(EMPTY, Scrape(SMOOTH, OLD_PAGE));
    PartialRun(w, OddAt(20, Refused));
    RunLeaves(w, OddAt(20, Refused), Some([SingleVisit(SERIES, NEW_PAGE), SingleVisit("6", BLANK_PAGE)]));
    var x := RunOnce(w, OddAt(20, Refused), Some([SingleVisit(SERIES, NEW_PAGE), SingleVisit("6", BLANK_PAGE)]));
    NewestSuccessSince(w.runs, x.w.runs);
  }

  lemma RefusedVisit(w: World, fate: Fate, v: Visit, r: Report)
    requires Unvisited(w, r.runId, v.set_.series) && Smooth(fate, w.step, 1) && Smooth(fate, w.step + 2, 1)
    requires fate(w.step + 1) == Moment(w.step + 1, false, false, Refused)
    ensures
      var q := ScrapeTracked(w, fate, v, r);
      q.w.step == w.step + 3 && q.w.cards == w.cards && q.ending == Errored && q.report == r
  {
    hide ScrapeTracked, Call, ScrapeSet, CloseTracked;
    var a := OpenedVisit(w, fate, v, r);
    RefusedFetch(a, fate, v, r);
    SmoothClose(ScrapeSet(a, fate, v, r), fate, v, r);
  }

  lemma PartialRun(w: World, fate: Fate)
    requires Between(w, Some(Sha256(OLD_PAGE)), 1) && Smooth(fate, w.step, 10) && Smooth(fate, w.step + 11, 2)
    requires fate(w.step + 10) == Moment(w.step + 10, false, false, Refused)
    ensures
      var x := RunOnce(w, fate, Some([SingleVisit(SERIES, NEW_PAGE), SingleVisit("6", BLANK_PAGE)]));
      && x.w.cards == CardsAfter(w.cards, "A", NEW_PAGE.cards[0], w.step + 7)
      && x.end == Closed && x.report.status == Partial
  {
    hide ScrapeTracked, RunOnce, Call, ScrapeSet, CloseTracked, StartOf, CardsSound, SeriesUnique, RunsSound;
    var v, u := SingleVisit(SERIES, NEW_PAGE), SingleVisit("6", BLANK_PAGE);
    var s := SmoothStart(w, fate, [v, u]);
    assert v in [v, u] && [v, u][1..] == [u];
    WalkVisit(s.w, fate, NEW_PAGE, NEW_PAGE.cards[0], s.r);
    var q := ScrapeTracked(s.w, fate, v, s.r);
    NextIsUnvisited(s.w, fate, [v, u], s.r);
    assert u in [u];
    RefusedVisit(q.w, fate, u, q.report);
    SinglePass(q.w, fate, u, q.report);
    SmoothEnd(w, fate, s);
  }
}
