/** Running again on the same site changes nothing, whether its pages are skipped or walked. */
module Rerun {
  import opened Schema
  import opened Parse
  import opened Statements
  import opened Engine
  import opened Integrity
  import opened Frames
  import opened Events
  import opened HashSkip

  ghost predicate AllStored(cards: map<string, CardRow>, list: seq<ParsedCard>) {
    forall c :: c in list ==> c.code in cards && cards[c.code].card == c
  }

  /** Another visit of the page has nothing to write: it will be skipped, or every card is stored as listed. */
  ghost predicate Settled(w: World, v: Visit) {
    StoredHash(w, v.set_.series) == Some(Sha256(v.page)) || AllStored(w.cards, v.page.cards)
  }

  ghost predicate DistinctCodes(cards: seq<ParsedCard>) {
    forall i, j :: 0 <= i < j < |cards| ==> cards[i].code != cards[j].code
  }

  lemma {:induction false} OverwriteStores(m: Payloads, cards: seq<ParsedCard>)
    requires DistinctCodes(cards)
    ensures forall c :: c in cards ==> c.code in Overwrite(m, cards) && Overwrite(m, cards)[c.code] == c
    decreases |cards|
  {
    if cards != [] {
      var c := cards[0];
      var m' := m[c.code := c];
      OverwriteStores(m', cards[1..]);
      OverwriteSplits(m', cards[1..]);
      FinalKeys(cards[1..]);
      assert c.code !in Codes(cards[1..]);
      assert forall x :: x in cards ==> x == c || x in cards[1..];
    }
  }

  lemma ImprintedPageIsStored(cards: map<string, CardRow>, page: Page)
    requires DistinctCodes(page.cards) && Imprinted(cards, page)
    ensures AllStored(cards, page.cards)
  {
    OverwriteStores(PayloadsOf(cards), page.cards);
  }

  /** Upserting cards that are stored as listed writes nothing and counts each as unmodified. */
  lemma {:induction false} StoredCardsAreUnmodified(w: World, fate: Fate, primary: string, cards: seq<ParsedCard>, r: Report)
    requires Hashed(w.cards) && AllStored(w.cards, cards)
    ensures
      var p := UpsertCards(w, fate, primary, cards, r);
      && p.w.cards == w.cards
      && p.report == r.(unmodified := p.report.unmodified)
      && (p.reply == Ok ==> p.report.unmodified == r.unmodified + |cards|)
    decreases |cards|
  {
    if cards != [] {
      var c := cards[0];
      assert c in cards;
      CardCall(w, fate, SetIdOr(c.code, primary), c);
      var a := Call(w, fate, UpsertCard(SetIdOr(c.code, primary), c));
      if a.reply == Ok {
        StoredCardsAreUnmodified(a.w, fate, primary, cards[1..], Count(r, OutcomeOf(w.cards, c)));
      }
    }
  }

  /** Nothing written, and every card seen counted as unmodified. */
  ghost predicate Idle(w: World, r: Report, w': World, r': Report) {
    && w'.cards == w.cards
    && r'.inserted == r.inserted && r'.updated == r.updated
    && r'.seen - r.seen == r'.unmodified - r.unmodified
  }

  lemma StoredPageIsIdle(w: World, fate: Fate, v: Visit, primary: string, r: Report)
    requires Hashed(w.cards) && AllStored(w.cards, v.page.cards)
    ensures
      var p := WritePage(w, fate, v, primary, r.(seen := r.seen + |v.page.cards|));
      p.w.cards == w.cards && (p.ending.Finished? ==> Idle(w, r, p.w, p.report))
  {
    hide Call;
    var cards := v.page.cards;
    var a := Call(w, fate, UpsertSet(primary, v.set_));
    CallLeavesCards(w, fate, UpsertSet(primary, v.set_));
    if a.reply == Ok {
      var ids := SecondaryIds(cards, primary);
      EnsureSetsWithin(a.w, fate, ids, 0);
      var b := EnsureSets(a.w, fate, ids);
      if b.reply == Ok {
        StoredCardsAreUnmodified(b.w, fate, primary, cards, r.(seen := r.seen + |cards|));
      }
    }
  }

  lemma SettledPageIsIdle(w: World, fate: Fate, v: Visit, r: Report)
    requires Hashed(w.cards) && Settled(w, v)
    ensures
      var p := ScrapeSet(w, fate, v, r);
      p.w.cards == w.cards && (p.ending.Finished? ==> Idle(w, r, p.w, p.report))
  {
    hide Effect;
    var a := Call(w, fate, Query);
    var b := Call(a.w, fate, Query);
    LookUpSeesStoredHash(w, fate, v.set_.series);
    CallLeavesCatalogue(w, fate, Query);
    if a.reply == Ok && b.reply == Ok {
      if StoredHash(w, v.set_.series) == Some(Sha256(v.page)) {
        SkipPageLeavesCatalogue(b.w, fate, v, r);
        assert ScrapeSet(w, fate, v, r) == SkipPage(b.w, fate, v, r);
      } else {
        assert ScrapeSet(w, fate, v, r) == WalkPage(b.w, fate, v, r);
        var cards := v.page.cards;
        if cards != [] && SetIdFromCode(cards[0].code).Some? {
          StoredPageIsIdle(b.w, fate, v, SetIdFromCode(cards[0].code).value, r);
        }
      }
    }
  }

  // ---- Visits ----------------------------------------------------------------------------------------

  /** A visit that finishes leaves its page settled, even if its digest was not recorded. */
  lemma FinishedVisitIsSettled(w: World, fate: Fate, v: Visit, r: Report)
    requires Hashed(w.cards) && Unvisited(w, r.runId, v.set_.series) && DistinctCodes(v.page.cards)
    requires ScrapeTracked(w, fate, v, r).ending.Finished?
    ensures Settled(ScrapeTracked(w, fate, v, r).w, v)
  {
    var a := Call(w, fate, OpenRunSet(r.runId, v.set_.series));
    var p := ScrapeSet(a.w, fate, v, r);
    VisitLookUps(w, fate, v, r, v.set_.series);
    VisitStoredHash(w, fate, v, r);
    ScrapeTrackedCountsSet(w, fate, v, r);
    if StoredHash(w, v.set_.series) == Some(Sha256(v.page)) {
      FinishedPageDigest(a.w, fate, v, r);
    } else {
      FinishedPageDigest(a.w, fate, v, r);
      FinishedPageIsImprinted(a.w, fate, v, r);
      if p.ending.htmlHash.Some? {
        ImprintedPageIsStored(p.w.cards, v.page);
      }
    }
  }

  /** A page that finishes carries its own digest, unless it is walked and lists no card. */
  lemma FinishedPageDigest(w: World, fate: Fate, v: Visit, r: Report)
    ensures
      var p := ScrapeSet(w, fate, v, r);
      && (p.ending.Finished? && p.ending.htmlHash.Some? ==> p.ending.htmlHash == Some(Sha256(v.page)))
      && (p.ending.Finished? && p.ending.htmlHash.None? ==> v.page.cards == [])
  {
    var b := Call(Call(w, fate, Query).w, fate, Query);
    if v.page.cards != [] && SetIdFromCode(v.page.cards[0].code).Some? {
      var primary := SetIdFromCode(v.page.cards[0].code).value;
      WrittenDigest(b.w, fate, v, primary, r.(seen := r.seen + |v.page.cards|));
    }
  }

  lemma WrittenDigest(w: World, fate: Fate, v: Visit, primary: string, r: Report)
    ensures
      var p := WritePage(w, fate, v, primary, r);
      p.ending.Finished? ==> p.ending == Finished(Some(primary), Some(Sha256(v.page)))
  {
  }

  lemma SettledVisitIsIdle(w: World, fate: Fate, v: Visit, r: Report)
    requires Hashed(w.cards) && Unvisited(w, r.runId, v.set_.series) && Settled(w, v)
    requires ScrapeTracked(w, fate, v, r).ending.Finished?
    ensures
      var q := ScrapeTracked(w, fate, v, r);
      Idle(w, r, q.w, q.report)
  {
    var a := Call(w, fate, OpenRunSet(r.runId, v.set_.series));
    VisitLookUps(w, fate, v, r, v.set_.series);
    VisitStoredHash(w, fate, v, r);
    ScrapeTrackedCountsSet(w, fate, v, r);
    SettledPageIsIdle(a.w, fate, v, r);
  }

  // ---- Passes ----------------------------------------------------------------------------------------

  ghost predicate EachCodeOnce(visits: seq<Visit>) {
    && (forall v :: v in visits ==> DistinctCodes(v.page.cards))
    && (forall i, j :: 0 <= i < j < |visits| ==> Codes(visits[i].page.cards) !! Codes(visits[j].page.cards))
  }

  lemma SettledFrame(w: World, w': World, v: Visit, run: nat, series: set<string>, codes: set<string>)
    requires Within(w, w', run, series, codes) && v.set_.series !in series && Codes(v.page.cards) !! codes
    ensures Settled(w, v) ==> Settled(w', v)
  {
    LookUpFrame(w, w', v.set_.series);
    assert forall c :: c in v.page.cards ==> c.code in Codes(v.page.cards);
  }

  lemma RestIsApart(visits: seq<Visit>)
    requires visits != [] && DistinctSeries(visits) && EachCodeOnce(visits)
    ensures visits[0].set_.series !in SeriesOf(visits[1..])
    ensures Codes(visits[0].page.cards) !! AllCodes(visits[1..])
    ensures DistinctSeries(visits[1..]) && EachCodeOnce(visits[1..])
  {
    forall v | v in visits[1..]
      ensures v.set_.series != visits[0].set_.series && Codes(visits[0].page.cards) !! Codes(v.page.cards)
    {
      var i :| 0 <= i < |visits[1..]| && visits[1..][i] == v;
      assert visits[i + 1] == v;
    }
    forall code | code in AllCodes(visits[1..]) ensures code !in Codes(visits[0].page.cards) {
      var v, c :| v in visits[1..] && c in v.page.cards && c.code == code;
      assert code in Codes(v.page.cards);
    }
  }

  lemma {:induction false} PassSettles(w: World, fate: Fate, visits: seq<Visit>, r: Report)
    requires Sound(w) && DistinctSeries(visits) && EachCodeOnce(visits) && AllUnvisited(w, r.runId, visits)
    requires AllDone(w, fate, visits, r)
    ensures forall v :: v in visits ==> Settled(ScrapeAll(w, fate, visits, r).w, v)
    decreases |visits|
  {
    if visits != [] {
      var v := visits[0];
      var p := ScrapeTracked(w, fate, v, r);
      assert v in visits;
      DoneStepByStep(w, fate, visits, r);
      FinishedVisitIsSettled(w, fate, v, r);
      ScrapeTrackedKeeps(w, fate, v, r);
      NextIsUnvisited(w, fate, visits, r);
      RestIsApart(visits);
      PassSettles(p.w, fate, visits[1..], p.report);
      ScrapeAllWithin(p.w, fate, visits[1..], p.report, SeriesOf(visits[1..]), AllCodes(visits[1..]));
      SettledFrame(p.w, ScrapeAll(w, fate, visits, r).w, v, p.report.runId, SeriesOf(visits[1..]), AllCodes(visits[1..]));
      assert forall x :: x in visits ==> x == v || x in visits[1..];
    }
  }

  lemma {:induction false} SettledPassIsIdle(w: World, fate: Fate, visits: seq<Visit>, r: Report)
    requires Sound(w) && DistinctSeries(visits) && EachCodeOnce(visits) && AllUnvisited(w, r.runId, visits)
    requires AllDone(w, fate, visits, r) && forall v :: v in visits ==> Settled(w, v)
    ensures
      var p := ScrapeAll(w, fate, visits, r);
      Idle(w, r, p.w, p.report)
    decreases |visits|
  {
    if visits != [] {
      var v := visits[0];
      var p := ScrapeTracked(w, fate, v, r);
      assert v in visits;
      DoneStepByStep(w, fate, visits, r);
      SettledVisitIsIdle(w, fate, v, r);
      ScrapeTrackedKeeps(w, fate, v, r);
      NextIsUnvisited(w, fate, visits, r);
      RestIsApart(visits);
      ScrapeTrackedWithin(w, fate, v, r);
      forall x | x in visits[1..] ensures Settled(p.w, x) {
        assert x in visits && x.set_.series in SeriesOf(visits[1..]);
        assert forall c :: c in x.page.cards ==> c.code in AllCodes(visits[1..]);
        SettledFrame(w, p.w, x, r.runId, {v.set_.series}, Codes(v.page.cards));
      }
      SettledPassIsIdle(p.w, fate, visits[1..], p.report);
    }
  }

  // ---- Runs ------------------------------------------------------------------------------------------

  lemma SparingKeepsSettled(w: World, w': World, v: Visit)
    requires RunSetsSound(w) && Spares(w, w') && |w.runs| <= |w'.runs| <= |w.runs| + 1
    ensures Settled(w, v) ==> Settled(w', v)
  {
    if |w'.runs| == |w.runs| { LookUpFrame(w, w', v.set_.series); } else { NewRunFrame(w, w', v.set_.series); }
  }

  /** After a run that counts every set as done, all pages it saw are settled. */
  lemma RunSettles(w: World, fate: Fate, visits: seq<Visit>)
    requires Sound(w) && DistinctSeries(visits) && EachCodeOnce(visits)
    requires
      var x := RunOnce(w, fate, Some(visits));
      x.end != RunAbandoned && x.report.setsOk == |visits|
    ensures forall v :: v in visits ==> Settled(RunOnce(w, fate, Some(visits)).w, v)
  {
    var e := FullRun(fate, Some(visits));
    RunReport(w, fate, visits);
    if StartOf(w, e).Some? {
      var s := StartOf(w, e).value;
      StartSpares(w, e);
      StartIsSound(w, e);
      StartIsUnvisited(w, e);
      PassSettles(s.w, fate, visits, s.r);
      EndSpares(w, e);
      forall v | v in visits ensures Settled(After(w, e), v) {
        SparingKeepsSettled(PassOf(s, fate).w, After(w, e), v);
      }
    }
  }

  /** A rerun is a no-op: when two successive runs see the same pages, each series and each code listed
      once, and both count every set as done, the second changes no row of the cards table, not even its
      update time, inserts and updates nothing, and counts every card it sees as unmodified. Telemetry may
      fail in both, and clean-ups may get in anywhere. */
  lemma RerunIsNoOp(w: World, fate1: Fate, fate2: Fate, visits: seq<Visit>)
    requires Sound(w) && DistinctSeries(visits) && EachCodeOnce(visits)
    requires
      var x := RunOnce(w, fate1, Some(visits));
      var y := RunOnce(x.w, fate2, Some(visits));
      && x.end != RunAbandoned && x.report.setsOk == |visits|
      && y.end != RunAbandoned && y.report.setsOk == |visits|
    ensures
      var x := RunOnce(w, fate1, Some(visits));
      var y := RunOnce(x.w, fate2, Some(visits));
      && y.w.cards == x.w.cards
      && y.report.inserted == 0 && y.report.updated == 0 && y.report.unmodified == y.report.seen
  {
    var w' := RunOnce(w, fate1, Some(visits)).w;
    var e := FullRun(fate2, Some(visits));
    RunSettles(w, fate1, visits);
    RunOnceKeeps(w, fate1, Some(visits));
    RunReport(w', fate2, visits);
    match StartOf(w', e) {
      case None => NoStartSpares(w', e);
      case Some(s) =>
        StartSpares(w', e);
        StartIsSound(w', e);
        StartIsUnvisited(w', e);
        forall v | v in visits ensures Settled(s.w, v) { SparingKeepsSettled(w', s.w, v); }
        SettledPassIsIdle(s.w, fate2, visits, s.r);
        EndSpares(w', e);
    }
  }
}
