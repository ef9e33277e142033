/** What the counters of a run mean: conservation over a whole run, its per-set rows, and the counts that
    skipped pages carry forward. */
module Counters {
  import opened Schema
  import opened Parse
  import opened Statements
  import opened Engine
  import opened Integrity
  import opened Events
  import opened HashSkip
  import opened Writes

  function Handled(r: Report): int {
    r.inserted + r.updated + r.unmodified
  }

  // ---- Cards seen and cards handled ------------------------------------------------------------------

  /** How many upserts in a row, from the first, are answered with success. */
  ghost function Reached(w: World, fate: Fate, primary: string, cards: seq<ParsedCard>): nat
    decreases |cards|
  {
    if cards == [] then 0
    else
      var a := Call(w, fate, UpsertCard(SetIdOr(cards[0].code, primary), cards[0]));
      if a.reply != Ok then 0 else 1 + Reached(a.w, fate, primary, cards[1..])
  }

  /** The cards of a page counted as seen that its walk does not get to. */
  ghost function Unreached(w: World, fate: Fate, v: Visit): nat
    ensures Unreached(w, fate, v) <= |v.page.cards|
  {
    var cards := v.page.cards;
    var b := Call(Call(w, fate, Query).w, fate, Query);
    if Call(w, fate, Query).reply != Ok || b.reply != Ok then 0
    else if StoredHash(b.w, v.set_.series) == Some(Sha256(v.page)) then 0
    else if cards == [] || SetIdFromCode(cards[0].code).None? then 0
    else UnreachedInWrite(b.w, fate, v, SetIdFromCode(cards[0].code).value)
  }

  ghost function UnreachedInWrite(w: World, fate: Fate, v: Visit, primary: string): nat
    ensures UnreachedInWrite(w, fate, v, primary) <= |v.page.cards|
  {
    var cards := v.page.cards;
    var a := Call(w, fate, UpsertSet(primary, v.set_));
    var b := EnsureSets(a.w, fate, SecondaryIds(cards, primary));
    if a.reply != Ok || b.reply != Ok then |cards|
    else
      ReachedIsBounded(b.w, fate, primary, cards);
      |cards| - Reached(b.w, fate, primary, cards)
  }

  lemma {:induction false} ReachedIsBounded(w: World, fate: Fate, primary: string, cards: seq<ParsedCard>)
    ensures Reached(w, fate, primary, cards) <= |cards|
    decreases |cards|
  {
    if cards != [] {
      ReachedIsBounded(Call(w, fate, UpsertCard(SetIdOr(cards[0].code, primary), cards[0])).w, fate, primary, cards[1..]);
    }
  }

  lemma {:induction false} UpsertsHandleReached(w: World, fate: Fate, primary: string, cards: seq<ParsedCard>, r: Report)
    ensures
      var p := UpsertCards(w, fate, primary, cards, r);
      && Handled(p.report) == Handled(r) + Reached(w, fate, primary, cards)
      && p.report.seen == r.seen
      && (p.reply == Ok <==> Reached(w, fate, primary, cards) == |cards|)
    decreases |cards|
  {
    if cards != [] {
      var a := Call(w, fate, UpsertCard(SetIdOr(cards[0].code, primary), cards[0]));
      UpsertsHandleReached(a.w, fate, primary, cards[1..], Count(r, OutcomeOf(w.cards, cards[0])));
    }
  }

  lemma WriteConserves(w: World, fate: Fate, v: Visit, primary: string, r: Report)
    ensures
      var p := WritePage(w, fate, v, primary, r.(seen := r.seen + |v.page.cards|));
      var u := UnreachedInWrite(w, fate, v, primary);
      && p.report.seen == r.seen + |v.page.cards|
      && p.report.seen - r.seen == Handled(p.report) - Handled(r) + u
      && (p.ending.Finished? ==> u == 0)
  {
    hide Effect;
    var cards, r' := v.page.cards, r.(seen := r.seen + |v.page.cards|);
    var a := Call(w, fate, UpsertSet(primary, v.set_));
    var b := EnsureSets(a.w, fate, SecondaryIds(cards, primary));
    UpsertsHandleReached(b.w, fate, primary, cards, r');
  }

  /** A visit adds to `seen` what it adds to the other three counters, and the cards it does not get to;
      there are none of those when its page finishes. */
  lemma PageConserves(w: World, fate: Fate, v: Visit, r: Report)
    ensures
      var p := ScrapeSet(w, fate, v, r);
      && p.report.seen - r.seen == Handled(p.report) - Handled(r) + Unreached(w, fate, v)
      && (p.ending.Finished? ==> Unreached(w, fate, v) == 0)
  {
    hide Effect, WritePage;
    var cards := v.page.cards;
    var a := Call(w, fate, Query);
    var b := Call(a.w, fate, Query);
    if a.reply == Ok && b.reply == Ok {
      if StoredHash(b.w, v.set_.series) == Some(Sha256(v.page)) {
        assert ScrapeSet(w, fate, v, r) == SkipPage(b.w, fate, v, r);
      } else {
        assert ScrapeSet(w, fate, v, r) == WalkPage(b.w, fate, v, r);
        if cards != [] && SetIdFromCode(cards[0].code).Some? {
          WriteConserves(b.w, fate, v, SetIdFromCode(cards[0].code).value, r);
        }
      }
    }
  }

  ghost function UnreachedInVisit(w: World, fate: Fate, v: Visit, r: Report): nat {
    var a := Call(w, fate, OpenRunSet(r.runId, v.set_.series));
    if a.reply == Gone then 0 else Unreached(a.w, fate, v)
  }

  ghost function UnreachedInPass(w: World, fate: Fate, visits: seq<Visit>, r: Report): nat
    decreases |visits|
  {
    if visits == [] then 0
    else
      var p := ScrapeTracked(w, fate, visits[0], r);
      UnreachedInVisit(w, fate, visits[0], r) +
      if p.ending == Abandoned then 0 else UnreachedInPass(p.w, fate, visits[1..], p.report)
  }

  lemma {:induction false} PassConserves(w: World, fate: Fate, visits: seq<Visit>, r: Report)
    ensures
      var p := ScrapeAll(w, fate, visits, r);
      && p.report.seen - r.seen == Handled(p.report) - Handled(r) + UnreachedInPass(w, fate, visits, r)
      && p.report.setsOk <= r.setsOk + |visits|
      && (p.report.setsOk == r.setsOk + |visits| ==> UnreachedInPass(w, fate, visits, r) == 0)
    decreases |visits|
  {
    if visits != [] {
      var v := visits[0];
      var p := ScrapeTracked(w, fate, v, r);
      PageConserves(Call(w, fate, OpenRunSet(r.runId, v.set_.series)).w, fate, v, r);
      ScrapeTrackedCountsSet(w, fate, v, r);
      if p.ending != Abandoned { PassConserves(p.w, fate, visits[1..], p.report); }
    }
  }

  // ---- Inserted cards and the growth of the table ------------------------------------------------------

  /** How often a new card is stored without the scraper learning of it: at most once in a card loop, which
      stops at the first upsert that is not acknowledged. */
  ghost function LostInserts(w: World, fate: Fate, primary: string, cards: seq<ParsedCard>): nat
    decreases |cards|
  {
    if cards == [] then 0
    else
      var s := UpsertCard(SetIdOr(cards[0].code, primary), cards[0]);
      var a := Call(w, fate, s);
      if a.reply == Ok then LostInserts(a.w, fate, primary, cards[1..])
      else if Applies(w, fate, s) && cards[0].code !in w.cards then 1
      else 0
  }

  ghost function LostInVisit(w: World, fate: Fate, v: Visit, r: Report): nat {
    match VisitStart(w, fate, v, r)
    case None => 0
    case Some(l) => LostInserts(l.w, fate, l.primary, v.page.cards)
  }

  ghost function LostInPass(w: World, fate: Fate, visits: seq<Visit>, r: Report): nat
    decreases |visits|
  {
    if visits == [] then 0
    else
      var p := ScrapeTracked(w, fate, visits[0], r);
      LostInVisit(w, fate, visits[0], r) +
      if p.ending == Abandoned then 0 else LostInPass(p.w, fate, visits[1..], p.report)
  }

  lemma CardsAfterGrow(cards: map<string, CardRow>, setId: string, c: ParsedCard, now: int)
    ensures |CardsAfter(cards, setId, c, now)| == |cards| + if c.code !in cards then 1 else 0
  {
    var after := CardsAfter(cards, setId, c, now);
    assert c.code !in cards ==> after.Keys == cards.Keys + {c.code};
    assert c.code in cards ==> after.Keys == cards.Keys;
    assert |after| == |after.Keys| && |cards| == |cards.Keys|;
  }

  lemma ExecuteGrows(w: World, setId: string, c: ParsedCard, now: int)
    ensures
      var a := Execute(w, UpsertCard(setId, c), now);
      |a.w.cards| == |w.cards| + if a.reply == Ok && c.code !in w.cards then 1 else 0
  {
    CardsAfterGrow(w.cards, setId, c, now);
  }

  lemma UpsertGrows(w: World, fate: Fate, setId: string, c: ParsedCard)
    ensures
      var a := Call(w, fate, UpsertCard(setId, c));
      && |a.w.cards| == |w.cards| + (if Applies(w, fate, UpsertCard(setId, c)) && c.code !in w.cards then 1 else 0)
      && (a.reply == Ok ==> Applies(w, fate, UpsertCard(setId, c)))
  {
    hide Effect, BreaksForeignKey, BreaksUnique;
    ArriveKeeps(w, fate);
    ExecuteGrows(Arrive(w, fate), setId, c, fate(w.step).now);
  }

  lemma {:induction false} UpsertsGrow(w: World, fate: Fate, primary: string, cards: seq<ParsedCard>, r: Report)
    ensures
      var p := UpsertCards(w, fate, primary, cards, r);
      |p.w.cards| - |w.cards| == p.report.inserted - r.inserted + LostInserts(w, fate, primary, cards)
    decreases |cards|
  {
    hide Call, Applies;
    if cards != [] {
      var c := cards[0];
      var a := Call(w, fate, UpsertCard(SetIdOr(c.code, primary), c));
      UpsertGrows(w, fate, SetIdOr(c.code, primary), c);
      if a.reply == Ok { UpsertsGrow(a.w, fate, primary, cards[1..], Count(r, OutcomeOf(w.cards, c))); }
    }
  }

  lemma {:induction false} PassGrows(w: World, fate: Fate, visits: seq<Visit>, r: Report)
    ensures
      var p := ScrapeAll(w, fate, visits, r);
      |p.w.cards| - |w.cards| == p.report.inserted - r.inserted + LostInPass(w, fate, visits, r)
    decreases |visits|
  {
    hide Call, ScrapeTracked, VisitStart;
    if visits != [] {
      var v := visits[0];
      var p := ScrapeTracked(w, fate, v, r);
      VisitFollowsLoop(w, fate, v, r);
      match VisitStart(w, fate, v, r) {
        case None =>
        case Some(l) => UpsertsGrow(l.w, fate, l.primary, v.page.cards, r.(seen := r.seen + |v.page.cards|));
      }
      if p.ending != Abandoned { PassGrows(p.w, fate, visits[1..], p.report); }
    }
  }

  // ---- Updated cards and the rows rewritten --------------------------------------------------------------

  /** How many rows the acknowledged upserts of a loop rewrite. */
  ghost function Rewrites(w: World, fate: Fate, primary: string, cards: seq<ParsedCard>): nat
    decreases |cards|
  {
    if cards == [] then 0
    else
      var a := Call(w, fate, UpsertCard(SetIdOr(cards[0].code, primary), cards[0]));
      if a.reply != Ok then 0
      else (if cards[0].code in w.cards && a.w.cards != w.cards then 1 else 0) + Rewrites(a.w, fate, primary, cards[1..])
  }

  ghost function RewritesInPass(w: World, fate: Fate, visits: seq<Visit>, r: Report): nat
    decreases |visits|
  {
    if visits == [] then 0
    else
      var p := ScrapeTracked(w, fate, visits[0], r);
      (match VisitStart(w, fate, visits[0], r)
       case None => 0
       case Some(l) => Rewrites(l.w, fate, l.primary, visits[0].page.cards)) +
      if p.ending == Abandoned then 0 else RewritesInPass(p.w, fate, visits[1..], p.report)
  }

  lemma {:induction false} UpsertsRewrite(w: World, fate: Fate, primary: string, cards: seq<ParsedCard>, r: Report)
    requires Hashed(w.cards)
    ensures
      var p := UpsertCards(w, fate, primary, cards, r);
      p.report.updated == r.updated + Rewrites(w, fate, primary, cards)
    decreases |cards|
  {
    hide Call, OutcomeOf;
    if cards != [] {
      var c := cards[0];
      var a := Call(w, fate, UpsertCard(SetIdOr(c.code, primary), c));
      if a.reply == Ok {
        AppliedUpsert(w, fate, SetIdOr(c.code, primary), c);
        OutcomeTellsEffect(w, fate, SetIdOr(c.code, primary), c);
        UpsertsRewrite(a.w, fate, primary, cards[1..], Count(r, OutcomeOf(w.cards, c)));
      }
    }
  }

  lemma {:induction false} PassRewrites(w: World, fate: Fate, visits: seq<Visit>, r: Report)
    requires Hashed(w.cards)
    ensures ScrapeAll(w, fate, visits, r).report.updated == r.updated + RewritesInPass(w, fate, visits, r)
    decreases |visits|
  {
    hide Call, ScrapeTracked, VisitStart;
    if visits != [] {
      var v := visits[0];
      var p := ScrapeTracked(w, fate, v, r);
      VisitFollowsLoop(w, fate, v, r);
      VisitOverwrites(w, fate, v, r);
      match VisitStart(w, fate, v, r) {
        case None =>
        case Some(l) => UpsertsRewrite(l.w, fate, l.primary, v.page.cards, r.(seen := r.seen + |v.page.cards|));
      }
      if p.ending != Abandoned { PassRewrites(p.w, fate, visits[1..], p.report); }
    }
  }

  // ---- Outcomes and the status of a run ------------------------------------------------------------------

  /** What an acknowledged upsert did is what its outcome says: it added a row, rewrote the row of its code alone
      and kept that row's first-seen time, or changed nothing at all. */
  lemma OutcomeTellsEffect(w: World, fate: Fate, setId: string, c: ParsedCard)
    requires Hashed(w.cards) && Call(w, fate, UpsertCard(setId, c)).reply == Ok
    ensures
      var after, now := Call(w, fate, UpsertCard(setId, c)).w.cards, fate(w.step).now;
      && (OutcomeOf(w.cards, c) == Inserted <==> c.code !in w.cards)
      && (OutcomeOf(w.cards, c) == Unmodified <==> after == w.cards)
      && c.code in after && after[c.code].card == c && after == w.cards[c.code := after[c.code]]
      && (after != w.cards ==> after[c.code].setId == setId && after[c.code].updatedAt == now)
      && after[c.code].firstSeen == if c.code in w.cards then w.cards[c.code].firstSeen else now
  {
    hide Effect;
    ArriveKeeps(w, fate);
    ExecuteTellsOutcome(Arrive(w, fate), setId, c, fate(w.step).now);
  }

  lemma ExecuteTellsOutcome(w: World, setId: string, c: ParsedCard, now: int)
    requires Hashed(w.cards) && Execute(w, UpsertCard(setId, c), now).reply == Ok
    ensures
      var after := Execute(w, UpsertCard(setId, c), now).w.cards;
      && (OutcomeOf(w.cards, c) == Unmodified <==> after == w.cards)
      && c.code in after && after[c.code].card == c && after == w.cards[c.code := after[c.code]]
      && (after != w.cards ==> after[c.code].setId == setId && after[c.code].updatedAt == now)
      && after[c.code].firstSeen == if c.code in w.cards then w.cards[c.code].firstSeen else now
  {
  }

  /** How many pages of a pass finish. */
  ghost function FinishedIn(w: World, fate: Fate, visits: seq<Visit>, r: Report): nat
    decreases |visits|
  {
    if visits == [] then 0
    else
      var a := Call(w, fate, OpenRunSet(r.runId, visits[0].set_.series));
      var p := ScrapeTracked(w, fate, visits[0], r);
      (if a.reply != Gone && ScrapeSet(a.w, fate, visits[0], r).ending.Finished? then 1 else 0) +
      if p.ending == Abandoned then 0 else FinishedIn(p.w, fate, visits[1..], p.report)
  }

  lemma {:induction false} SetsOkCountsFinished(w: World, fate: Fate, visits: seq<Visit>, r: Report)
    ensures
      var p := ScrapeAll(w, fate, visits, r).report;
      && p.setsOk == r.setsOk + FinishedIn(w, fate, visits, r) <= r.setsOk + |visits|
      && p.setsTotal == r.setsTotal
    decreases |visits|
  {
    hide Call, ScrapeSet, ScrapeTracked;
    if visits != [] {
      var p := ScrapeTracked(w, fate, visits[0], r);
      ScrapeTrackedCountsSet(w, fate, visits[0], r);
      if p.ending != Abandoned { SetsOkCountsFinished(p.w, fate, visits[1..], p.report); }
    }
  }

  /** The status a run is closed with: `success` when it has pages and all of them finished, `partial` when
      some did, `failed` when none did. */
  lemma StatusSaysWhatFinished(w: World, fate: Fate, visits: seq<Visit>)
    requires StartOf(w, FullRun(fate, Some(visits))).Some? && RunOnce(w, fate, Some(visits)).end in {Closed, NotClosed}
    ensures
      var s := StartOf(w, FullRun(fate, Some(visits))).value;
      var n := FinishedIn(s.w, fate, visits, s.r);
      && n <= |visits|
      && RunOnce(w, fate, Some(visits)).report.status ==
           if 0 < n == |visits| then Success else if 0 < n then Partial else Failed
  {
    RunReport(w, fate, visits);
    var s := StartOf(w, FullRun(fate, Some(visits))).value;
    SetsOkCountsFinished(s.w, fate, visits, s.r);
  }

  /** A run that opens but gets no list of pages, because the index is not fetched or cannot be parsed, closes as
      `failed`, with nothing counted and the catalogue as it was. */
  lemma RunWithoutPagesFails(w: World, fate: Fate, index: Option<seq<Visit>>)
    requires RunOnce(w, fate, index).end in {Closed, NotClosed}
    requires index.None? || StartOf(w, FullRun(fate, index)).None?
    ensures
      var x := RunOnce(w, fate, index);
      && x.report == Fresh(x.report.runId).(status := Failed) && x.w.cards == w.cards && x.w.sets == w.sets
      && x.report.seen == x.report.inserted == x.report.updated == x.report.unmodified == 0
      && x.report.setsTotal == x.report.setsOk == 0
  {
    hide Effect, ScrapeAll;
    NoStartSpares(w, FullRun(fate, index));
  }

  /** The run of a single series closes as `success` or `failed`, as its page finished or not. */
  lemma SingleStatusSaysWhatFinished(w: World, fate: Fate, series: string, page: Page)
    requires RunOne(w, fate, series, page).end in {Closed, NotClosed}
    ensures
      var s := StartOf(w, SingleRun(fate, series, page)).value;
      RunOne(w, fate, series, page).report.status ==
        if FinishedIn(s.w, fate, [SingleVisit(series, page)], s.r) == 1 then Success else Failed
  {
    hide Effect, ScrapeTracked, ScrapeSet;
    var o := Begin(w, fate);
    assert o.reply == Ok;
    var v, r := SingleVisit(series, page), Fresh(|o.w.runs| - 1).(setsTotal := 1);
    ScrapeTrackedCountsSet(o.w, fate, v, r);
    assert [v][1..] == [];
  }

  // ---- A whole run -------------------------------------------------------------------------------------

  ghost function UnreachedInEvent(w: World, e: Event): nat {
    match StartOf(w, e) case None => 0 case Some(s) => UnreachedInPass(s.w, e.fate, s.visits, s.r)
  }

  ghost function LostInEvent(w: World, e: Event): nat {
    match StartOf(w, e) case None => 0 case Some(s) => LostInPass(s.w, e.fate, s.visits, s.r)
  }

  ghost function RewritesInEvent(w: World, e: Event): nat {
    match StartOf(w, e) case None => 0 case Some(s) => RewritesInPass(s.w, e.fate, s.visits, s.r)
  }

  /** What the run that an event is leaves and reports, by what its visits did not reach and what they lost. */
  ghost predicate Balances(w: World, e: Event, x: Run) {
    && x.report.seen == Handled(x.report) + UnreachedInEvent(w, e)
    && x.report.updated == RewritesInEvent(w, e)
    && (x.report.setsOk == |VisitsOf(e)| ==> UnreachedInEvent(w, e) == 0)
    && |x.w.cards| - |w.cards| == x.report.inserted + LostInEvent(w, e)
    && (|x.w.cards| - |w.cards| == x.report.inserted <==> LostInEvent(w, e) == 0)
    && w.cards.Keys <= x.w.cards.Keys
  }

  lemma PassBalances(w: World, e: Event, x: Run)
    requires Sound(w) && x.w == After(w, e)
    requires
      match StartOf(w, e)
      case None => x.report.seen == x.report.inserted == x.report.updated == x.report.unmodified == 0
      case Some(s) =>
        && s.r == Fresh(s.r.runId).(setsTotal := |s.visits|) && s.visits == VisitsOf(e)
        && x.report == PassOf(s, e.fate).report.(status := x.report.status)
    ensures Balances(w, e, x)
  {
    hide After, StartOf, ScrapeAll, UnreachedInPass, LostInPass, RewritesInPass;
    AfterKeeps(w, e);
    match StartOf(w, e) {
      case None => NoStartSpares(w, e);
      case Some(s) =>
        StartSpares(w, e);
        EndSpares(w, e);
        PassConserves(s.w, e.fate, s.visits, s.r);
        PassGrows(s.w, e.fate, s.visits, s.r);
        PassRewrites(s.w, e.fate, s.visits, s.r);
    }
  }

  /** Conservation over a whole run, however it ends: what is seen is inserted, updated, unmodified, or not
      reached by a visit that failed after counting its page, and nothing is unreached when every set is
      done. Updated are the rows an acknowledged upsert rewrote. The codes that are new in the cards table are those the run reports inserted and those whose
      upsert took effect without being acknowledged, so the report is exact if and only if there are none of
      the latter; and no code disappears. */
  lemma RunConserves(w: World, fate: Fate, visits: seq<Visit>)
    requires Sound(w)
    ensures Balances(w, FullRun(fate, Some(visits)), RunOnce(w, fate, Some(visits)))
  {
    hide Balances, ScrapeAll, Sound, RunOnce, Call, Begin;
    RunReport(w, fate, visits);
    PassBalances(w, FullRun(fate, Some(visits)), RunOnce(w, fate, Some(visits)));
  }

  /** The same for the run of a single series. */
  lemma SingleRunConserves(w: World, fate: Fate, series: string, page: Page)
    requires Sound(w)
    ensures Balances(w, SingleRun(fate, series, page), RunOne(w, fate, series, page))
  {
    hide Balances, ScrapeAll, Sound, RunOne, Call, Begin;
    SingleRunReport(w, fate, series, page);
    PassBalances(w, SingleRun(fate, series, page), RunOne(w, fate, series, page));
  }
}
