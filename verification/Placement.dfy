/** Under which set a card is stored, where a set's name and label come from, and how a page can end: told from
    the texts of codes and dropdown entries alone. */
module Placement {
  import opened Schema
  import opened Parse
  import opened Statements
  import opened Engine
  import opened Integrity
  import opened Frames
  import opened Events
  import opened HashSkip
  import opened Writes
  import opened SetSeries
  import opened Telemetry

  /** The code begins with this set id and a dash: it is not empty and has no dash of its own. */
  ghost predicate Names(code: string, set_: string) {
    set_ != "" && '-' !in set_ && set_ + "-" <= code
  }

  /** Every card whose code names a set is stored under it. */
  ghost predicate Placed(cards: map<string, CardRow>) {
    forall code, set_ :: code in cards && Names(code, set_) ==> cards[code].setId == set_
  }

  /** A card with this code belongs to this set, on a page whose first card has the code `first`. */
  ghost predicate Belongs(code: string, first: string, set_: string) {
    && (forall s :: Names(code, s) ==> set_ == s)
    && ((forall s :: !Names(code, s)) ==> Names(first, set_))
  }

  /** Each row is as before, or holds a card of the page, under the set it belongs to. */
  ghost predicate PlacedFrom(
    before: map<string, CardRow>, after: map<string, CardRow>, cards: seq<ParsedCard>, first: string)
  {
    forall code :: code in after ==>
      || (code in before && after[code] == before[code])
      || (after[code].card in cards && after[code].card.code == code && Belongs(code, first, after[code].setId))
  }

  lemma SetIdBelongs(code: string, first: string, primary: string)
    requires SetIdFromCode(first) == Some(primary)
    ensures Belongs(code, first, SetIdOr(code, primary))
  {
    SetIdIsTheDashedPrefix(first, primary);
    forall s ensures Names(code, s) <==> SetIdFromCode(code) == Some(s) { SetIdIsTheDashedPrefix(code, s); }
  }

  lemma UpsertPlaces(w: World, fate: Fate, setId: string, c: ParsedCard)
    ensures
      var cards := Call(w, fate, UpsertCard(setId, c)).w.cards;
      forall code :: code in cards ==>
        || (code in w.cards && cards[code] == w.cards[code])
        || (code == c.code && cards[code].card == c && cards[code].setId == setId)
  {
    hide Effect;
    ArriveKeeps(w, fate);
    ExecutePlaces(Arrive(w, fate), setId, c, fate(w.step).now);
  }

  lemma ExecutePlaces(w: World, setId: string, c: ParsedCard, now: int)
    ensures
      var cards := Execute(w, UpsertCard(setId, c), now).w.cards;
      forall code :: code in cards ==>
        || (code in w.cards && cards[code] == w.cards[code])
        || (code == c.code && cards[code].card == c && cards[code].setId == setId)
  {
  }

  lemma {:induction false} UpsertsPlace(
    w: World, fate: Fate, primary: string, cards: seq<ParsedCard>, r: Report, first: string, all: seq<ParsedCard>)
    requires SetIdFromCode(first) == Some(primary) && forall c :: c in cards ==> c in all
    ensures PlacedFrom(w.cards, UpsertCards(w, fate, primary, cards, r).w.cards, all, first)
    decreases |cards|
  {
    hide Call, Belongs;
    if cards != [] {
      var c := cards[0];
      var a := Call(w, fate, UpsertCard(SetIdOr(c.code, primary), c));
      SetIdBelongs(c.code, first, primary);
      UpsertPlaces(w, fate, SetIdOr(c.code, primary), c);
      if a.reply == Ok {
        UpsertsPlace(a.w, fate, primary, cards[1..], Count(r, OutcomeOf(w.cards, c)), first, all);
      }
    }
  }

  lemma LoopNamesPrimary(w: World, fate: Fate, v: Visit, r: Report)
    ensures
      var start := VisitStart(w, fate, v, r);
      start.Some? ==> v.page.cards != [] && SetIdFromCode(v.page.cards[0].code) == Some(start.value.primary)
  {
    hide Call, EnsureSets;
  }

  /** What a visit, however it ends, does to the cards: each row stays, or holds a card of the page under the set
      its code names; a card whose code names none, under the set the page's first card names. */
  lemma VisitPlaces(w: World, fate: Fate, v: Visit, r: Report)
    ensures
      var after := ScrapeTracked(w, fate, v, r).w.cards;
      after != w.cards ==> v.page.cards != [] && PlacedFrom(w.cards, after, v.page.cards, v.page.cards[0].code)
  {
    hide Call, ScrapeTracked, VisitStart;
    VisitFollowsLoop(w, fate, v, r);
    LoopNamesPrimary(w, fate, v, r);
    match VisitStart(w, fate, v, r)
    case None =>
    case Some(l) =>
      var cards := v.page.cards;
      UpsertsPlace(l.w, fate, l.primary, cards, r.(seen := r.seen + |cards|), cards[0].code, cards);
  }

  lemma VisitKeepsPlaced(w: World, fate: Fate, v: Visit, r: Report)
    requires Placed(w.cards)
    ensures Placed(ScrapeTracked(w, fate, v, r).w.cards)
  {
    hide ScrapeTracked;
    VisitPlaces(w, fate, v, r);
  }

  lemma {:induction false} PassKeepsPlaced(w: World, fate: Fate, visits: seq<Visit>, r: Report)
    requires Placed(w.cards)
    ensures Placed(ScrapeAll(w, fate, visits, r).w.cards)
    decreases |visits|
  {
    hide ScrapeTracked, Placed;
    if visits != [] {
      var q := ScrapeTracked(w, fate, visits[0], r);
      VisitKeepsPlaced(w, fate, visits[0], r);
      if q.ending != Abandoned { PassKeepsPlaced(q.w, fate, visits[1..], q.report); }
    }
  }

  lemma {:induction false} HistoryKeepsPlaced(w: World, events: seq<Event>)
    requires Placed(w.cards)
    ensures Placed(History(w, events).cards)
    decreases |events|
  {
    hide After, StartOf, ScrapeAll, Placed;
    if events != [] {
      var e := events[0];
      match StartOf(w, e) {
        case None => NoStartSpares(w, e);
        case Some(s) =>
          StartSpares(w, e);
          PassKeepsPlaced(s.w, e.fate, s.visits, s.r);
          EndSpares(w, e);
      }
      HistoryKeepsPlaced(After(w, e), events[1..]);
    }
  }

  /** Over every history from empty tables, each card whose code begins with a set id and a dash is stored under
      that set, whatever page it was found on. */
  lemma CardsAreStoredUnderTheirSet(events: seq<Event>, code: string, set_: string)
    requires code in History(EMPTY, events).cards && set_ != "" && '-' !in set_ && set_ + "-" <= code
    ensures History(EMPTY, events).cards[code].setId == set_
  {
    hide History;
    HistoryKeepsPlaced(EMPTY, events);
    assert Names(code, set_);
  }

  // ---- Where a set's name and label come from --------------------------------------------------------------

  /** Each set is as before, a placeholder named by its id, or described by this dropdown entry. */
  ghost predicate DescribedBy(before: map<string, SetRow>, after: map<string, SetRow>, entry: ParsedSet) {
    forall id :: id in after ==>
      || (id in before && after[id] == before[id])
      || after[id].name == after[id].displayLabel == id
      || (after[id].name == entry.name && after[id].displayLabel == entry.displayLabel)
  }

  lemma SetCallDescribes(w: World, fate: Fate, s: Stmt, entry: ParsedSet)
    requires s.UpsertSet? ==> s.set_ == entry
    ensures DescribedBy(w.sets, Call(w, fate, s).w.sets, entry)
  {
    hide Effect;
    ArriveLeavesSets(w, fate);
    ExecuteDescribes(Arrive(w, fate), s, fate(w.step).now, entry);
  }

  lemma ExecuteDescribes(w: World, s: Stmt, now: int, entry: ParsedSet)
    requires s.UpsertSet? ==> s.set_ == entry
    ensures DescribedBy(w.sets, Execute(w, s, now).w.sets, entry)
  {
  }

  lemma {:induction false} EnsureSetsDescribe(w: World, fate: Fate, ids: seq<string>, entry: ParsedSet)
    ensures DescribedBy(w.sets, EnsureSets(w, fate, ids).w.sets, entry)
    decreases |ids|
  {
    hide Call;
    if ids != [] {
      var a := Call(w, fate, EnsureSet(ids[0]));
      SetCallDescribes(w, fate, EnsureSet(ids[0]), entry);
      if a.reply == Ok { EnsureSetsDescribe(a.w, fate, ids[1..], entry); }
    }
  }

  lemma WritePageDescribes(w: World, fate: Fate, v: Visit, primary: string, r: Report)
    ensures DescribedBy(w.sets, WritePage(w, fate, v, primary, r).w.sets, v.set_)
  {
    hide Call;
    var ids := SecondaryIds(v.page.cards, primary);
    var a := Call(w, fate, UpsertSet(primary, v.set_));
    SetCallDescribes(w, fate, UpsertSet(primary, v.set_), v.set_);
    if a.reply == Ok {
      EnsureSetsDescribe(a.w, fate, ids, v.set_);
      UpsertCardsKeepSets(EnsureSets(a.w, fate, ids).w, fate, primary, v.page.cards, r);
    }
  }

  lemma PageDescribes(w: World, fate: Fate, v: Visit, r: Report)
    ensures DescribedBy(w.sets, ScrapeSet(w, fate, v, r).w.sets, v.set_)
  {
    hide Call, WritePage, SkipPage;
    var cards := v.page.cards;
    var a := Call(w, fate, Query);
    var b := Call(a.w, fate, Query);
    OtherCall(w, fate, Query);
    OtherCall(a.w, fate, Query);
    SkipConforms(b.w, fate, v, r);
    if cards != [] && SetIdFromCode(cards[0].code).Some? {
      WritePageDescribes(b.w, fate, v, SetIdFromCode(cards[0].code).value, r.(seen := r.seen + |cards|));
    }
  }

  /** What a visit, however it ends, does to the sets. */
  lemma VisitDescribes(w: World, fate: Fate, v: Visit, r: Report)
    ensures DescribedBy(w.sets, ScrapeTracked(w, fate, v, r).w.sets, v.set_)
  {
    hide Call, ScrapeSet;
    var open := OpenRunSet(r.runId, v.set_.series);
    var a := Call(w, fate, open);
    OtherCall(w, fate, open);
    PageDescribes(a.w, fate, v, r);
    var p := ScrapeSet(a.w, fate, v, r);
    if p.ending != Abandoned { OtherCall(p.w, fate, ClosingStatement(p, v, r)); }
  }

  /** The run visits a dropdown entry of this name and label; for a run of a single series, both are the series. */
  ghost predicate Offers(e: Event, name: string, shown: string) {
    match e
    case FullRun(_, index) =>
      index.Some? && exists v :: v in index.value && v.set_.name == name && v.set_.displayLabel == shown
    case SingleRun(_, series, _) => name == shown == series
    case Cleanup(_) => false
  }

  /** Every set is a placeholder named by its id, or has the name and label some run was offered. */
  ghost predicate Described(sets: map<string, SetRow>, events: seq<Event>) {
    forall id :: id in sets ==>
      || sets[id].name == sets[id].displayLabel == id
      || exists e :: e in events && Offers(e, sets[id].name, sets[id].displayLabel)
  }

  lemma {:induction false} PassKeepsDescribed(
    w: World, fate: Fate, visits: seq<Visit>, r: Report, e: Event, events: seq<Event>)
    requires Described(w.sets, events) && e in events
    requires forall v :: v in visits ==> Offers(e, v.set_.name, v.set_.displayLabel)
    ensures Described(ScrapeAll(w, fate, visits, r).w.sets, events)
    decreases |visits|
  {
    hide ScrapeTracked, Offers;
    if visits != [] {
      var q := ScrapeTracked(w, fate, visits[0], r);
      VisitDescribes(w, fate, visits[0], r);
      if q.ending != Abandoned { PassKeepsDescribed(q.w, fate, visits[1..], q.report, e, events); }
    }
  }

  lemma StartOffers(w: World, e: Event)
    requires StartOf(w, e).Some?
    ensures forall v :: v in StartOf(w, e).value.visits ==> Offers(e, v.set_.name, v.set_.displayLabel)
  {
    hide Begin, Call;
  }

  lemma {:induction false} HistoryKeepsDescribed(w: World, events: seq<Event>, all: seq<Event>)
    requires Described(w.sets, all) && forall e :: e in events ==> e in all
    ensures Described(History(w, events).sets, all)
    decreases |events|
  {
    hide After, StartOf, ScrapeAll, Described;
    if events != [] {
      var e := events[0];
      match StartOf(w, e) {
        case None => NoStartSpares(w, e);
        case Some(s) =>
          StartSpares(w, e);
          StartOffers(w, e);
          PassKeepsDescribed(s.w, e.fate, s.visits, s.r, e, all);
          EndSpares(w, e);
      }
      HistoryKeepsDescribed(After(w, e), events[1..], all);
    }
  }

  /** Over every history from empty tables, a set is a placeholder named and labelled by its id, or has the name
      and label of a dropdown entry of one of the runs; the entry of a single run has its series for both. */
  lemma SetsAreDescribed(events: seq<Event>, id: string)
    requires id in History(EMPTY, events).sets
    ensures
      var row := History(EMPTY, events).sets[id];
      || row.name == row.displayLabel == id
      || exists e :: e in events && Offers(e, row.name, row.displayLabel)
  {
    hide History;
    HistoryKeepsDescribed(EMPTY, events, events);
  }

  /** A run of a single series adds no telemetry row but its own, which is that series'. */
  lemma SingleRunRecordsItsSeries(w: World, fate: Fate, series: string, page: Page)
    ensures
      var sets := RunOne(w, fate, series, page).w.runSets;
      forall k :: k in sets && k !in w.runSets ==> k == (|w.runs|, series)
  {
    hide ScrapeTracked, Begin, Call;
    var e := SingleRun(fate, series, page);
    match StartOf(w, e)
    case None => NoStartSpares(w, e);
    case Some(s) =>
      StartSpares(w, e);
      SinglePass(s.w, fate, s.visits[0], s.r);
      ScrapeTrackedWithin(s.w, fate, s.visits[0], s.r);
      EndSpares(w, e);
  }

  // ---- How a page ends -------------------------------------------------------------------------------------

  /** A page finishes without a digest exactly when it lists no card, and else with its own. If it is not the
      recorded page, its first card then names a set, which is the one reported. */
  lemma FinishedPageIs(w: World, fate: Fate, v: Visit, r: Report)
    requires Sound(w) && ScrapeSet(w, fate, v, r).ending.Finished?
    ensures
      var ending := ScrapeSet(w, fate, v, r).ending;
      && ending.htmlHash == (if v.page.cards == [] then None else Some(Sha256(v.page)))
      && (v.page.cards == [] ==> ending.primary.None?)
      && (v.page.cards != [] && StoredHash(w, v.set_.series) != Some(Sha256(v.page)) ==>
            ending.primary.Some? && Names(v.page.cards[0].code, ending.primary.value))
  {
    hide Call, WritePage, Sound;
    var cards := v.page.cards;
    var a := Call(w, fate, Query);
    var b := Call(a.w, fate, Query);
    LookUpSeesStoredHash(w, fate, v.set_.series);
    if StoredHash(w, v.set_.series).Some? { StoredHashHasCards(w, v.set_.series); }
    if cards != [] && SetIdFromCode(cards[0].code).Some? {
      var primary := SetIdFromCode(cards[0].code).value;
      SetIdIsTheDashedPrefix(cards[0].code, primary);
      WrittenEnding(b.w, fate, v, primary, r.(seen := r.seen + |cards|));
    }
  }

  /** The telemetry row of a finished page carries the set its first card names, walked or skipped. */
  lemma RecordedRowNamesItsSet(w: World, fate: Fate, v: Visit, r: Report, reg: Registry)
    requires SeriesUnique(w.sets) && Posted(w, reg) && Unvisited(w, r.runId, v.set_.series)
    requires v.page.cards != [] && RowWritten(w, fate, v, r) && ScrapeTracked(w, fate, v, r).ending.Finished?
    ensures
      var q := ScrapeTracked(w, fate, v, r).w;
      var k := (r.runId, v.set_.series);
      k in q.runSets && q.runSets[k].setId.Some? && Names(v.page.cards[0].code, q.runSets[k].setId.value)
  {
    hide Call, ScrapeSet, PagePosted, SeriesUnique;
    var a := Call(w, fate, OpenRunSet(r.runId, v.set_.series));
    VisitRow(w, fate, v, r);
    VisitLookUps(w, fate, v, r, v.set_.series);
    OpeningKeepsPosted(w, fate, v, r, reg);
    FinishedPageNamesIts(a.w, fate, v, r, reg);
    SetIdIsTheDashedPrefix(v.page.cards[0].code, Primary(v).value);
  }

  lemma OpeningKeepsPosted(w: World, fate: Fate, v: Visit, r: Report, reg: Registry)
    requires Posted(w, reg) && Unvisited(w, r.runId, v.set_.series)
    ensures Posted(Call(w, fate, OpenRunSet(r.runId, v.set_.series)).w, reg)
  {
    hide Call, PagePosted;
    var a := Call(w, fate, OpenRunSet(r.runId, v.set_.series)).w;
    forall s ensures StoredHash(a, s) == StoredHash(w, s) && a.sets == w.sets { VisitLookUps(w, fate, v, r, s); }
  }
}
