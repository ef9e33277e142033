/** The card rows that a page, a pass, a run or a history actually writes, acknowledged or not, and the exact
    condition under which skipping an earlier page still agrees with walking it. */
module Writes {
  import opened Schema
  import opened Parse
  import opened Statements
  import opened Engine
  import opened Integrity
  import opened Frames
  import opened Events
  import opened HashSkip

  // ---- Where a page's cards start to be written ----------------------------------------------------------

  /** The state a page's card loop starts from, and the page's primary set. */
  datatype Loop = Loop(w: World, primary: string)

  ghost function LoopStart(w: World, fate: Fate, v: Visit): Option<Loop> {
    var a := Call(w, fate, Query);
    var b := Call(a.w, fate, Query);
    if a.reply != Ok || b.reply != Ok || StoredHash(b.w, v.set_.series) == Some(Sha256(v.page)) then None
    else if v.page.cards == [] || SetIdFromCode(v.page.cards[0].code).None? then None
    else WriteStart(b.w, fate, v, SetIdFromCode(v.page.cards[0].code).value)
  }

  ghost function WriteStart(w: World, fate: Fate, v: Visit, primary: string): Option<Loop> {
    var a := Call(w, fate, UpsertSet(primary, v.set_));
    var b := EnsureSets(a.w, fate, SecondaryIds(v.page.cards, primary));
    if a.reply != Ok || b.reply != Ok then None else Some(Loop(b.w, primary))
  }

  ghost function VisitStart(w: World, fate: Fate, v: Visit, r: Report): Option<Loop> {
    var a := Call(w, fate, OpenRunSet(r.runId, v.set_.series));
    if a.reply == Gone then None else LoopStart(a.w, fate, v)
  }

  /** The progress of a page is that of its card loop; a page without one leaves the cards and their counts. */
  ghost predicate FollowsLoop(w: World, fate: Fate, v: Visit, r: Report, start: Option<Loop>, p: Progress) {
    match start
    case None =>
      p.w.cards == w.cards && p.report.inserted == r.inserted && p.report.updated == r.updated
    case Some(l) =>
      var c := UpsertCards(l.w, fate, l.primary, v.page.cards, r.(seen := r.seen + |v.page.cards|));
      l.w.cards == w.cards && p.w.cards == c.w.cards && p.report == c.report && (p.ending.Finished? <==> c.reply == Ok)
  }

  lemma WriteFollowsLoop(w: World, fate: Fate, v: Visit, primary: string, r: Report)
    ensures
      FollowsLoop(w, fate, v, r, WriteStart(w, fate, v, primary),
                  WritePage(w, fate, v, primary, r.(seen := r.seen + |v.page.cards|)))
  {
    hide Call;
    var a := Call(w, fate, UpsertSet(primary, v.set_));
    CallLeavesCards(w, fate, UpsertSet(primary, v.set_));
    EnsureSetsWithin(a.w, fate, SecondaryIds(v.page.cards, primary), 0);
  }

  lemma PageFollowsLoop(w: World, fate: Fate, v: Visit, r: Report)
    ensures FollowsLoop(w, fate, v, r, LoopStart(w, fate, v), ScrapeSet(w, fate, v, r))
  {
    hide Call, WritePage, WriteStart;
    var cards := v.page.cards;
    var a := Call(w, fate, Query);
    var b := Call(a.w, fate, Query);
    LookUpWithin(w, fate, 0, {});
    if a.reply == Ok && b.reply == Ok {
      if StoredHash(b.w, v.set_.series) == Some(Sha256(v.page)) {
        SkipPageLeavesCatalogue(b.w, fate, v, r);
      } else if cards != [] && SetIdFromCode(cards[0].code).Some? {
        WriteFollowsLoop(b.w, fate, v, SetIdFromCode(cards[0].code).value, r);
      }
    }
  }

  /** The same for a visit with its telemetry, whose calls leave cards and counts alone. */
  lemma VisitFollowsLoop(w: World, fate: Fate, v: Visit, r: Report)
    ensures
      var q := ScrapeTracked(w, fate, v, r);
      var start := VisitStart(w, fate, v, r);
      match start
      case None => q.w.cards == w.cards && q.report.inserted == r.inserted && q.report.updated == r.updated
      case Some(l) =>
        var c := UpsertCards(l.w, fate, l.primary, v.page.cards, r.(seen := r.seen + |v.page.cards|));
        && l.w.cards == w.cards && q.w.cards == c.w.cards
        && q.report.inserted == c.report.inserted && q.report.updated == c.report.updated
        && (q.ending.Finished? ==> c.reply == Ok)
  {
    hide Call, ScrapeSet, LoopStart;
    var open := OpenRunSet(r.runId, v.set_.series);
    var a := Call(w, fate, open);
    CallLeavesCatalogue(w, fate, open);
    if a.reply != Gone {
      PageFollowsLoop(a.w, fate, v, r);
      CloseTrackedWithin(ScrapeSet(a.w, fate, v, r), fate, v, r);
    }
  }

  // ---- What is written -----------------------------------------------------------------------------------

  /** The cards of a loop whose upserts are carried out: it goes on while they are acknowledged. */
  ghost function UpsertWrites(w: World, fate: Fate, primary: string, cards: seq<ParsedCard>): seq<ParsedCard>
    decreases |cards|
  {
    if cards == [] then []
    else
      var s := UpsertCard(SetIdOr(cards[0].code, primary), cards[0]);
      var a := Call(w, fate, s);
      (if Applies(w, fate, s) then [cards[0]] else []) +
      if a.reply == Ok then UpsertWrites(a.w, fate, primary, cards[1..]) else []
  }

  ghost function VisitWrites(w: World, fate: Fate, v: Visit, r: Report): seq<ParsedCard> {
    match VisitStart(w, fate, v, r)
    case None => []
    case Some(l) => UpsertWrites(l.w, fate, l.primary, v.page.cards)
  }

  ghost function PassWrites(w: World, fate: Fate, visits: seq<Visit>, r: Report): seq<ParsedCard>
    decreases |visits|
  {
    if visits == [] then []
    else
      var p := ScrapeTracked(w, fate, visits[0], r);
      VisitWrites(w, fate, visits[0], r) +
      if p.ending == Abandoned then [] else PassWrites(p.w, fate, visits[1..], p.report)
  }

  ghost function EventWrites(w: World, e: Event): seq<ParsedCard> {
    match StartOf(w, e)
    case None => []
    case Some(s) => PassWrites(s.w, e.fate, s.visits, s.r)
  }

  ghost function HistoryWrites(w: World, events: seq<Event>): seq<ParsedCard>
    decreases |events|
  {
    if events == [] then [] else EventWrites(w, events[0]) + HistoryWrites(After(w, events[0]), events[1..])
  }

  lemma {:induction false} OverwriteConcat(m: Payloads, a: seq<ParsedCard>, b: seq<ParsedCard>)
    ensures Overwrite(m, a + b) == Overwrite(Overwrite(m, a), b)
    decreases |a|
  {
    if a == [] {
      assert a + b == b;
    } else {
      assert (a + b)[1..] == a[1..] + b;
      OverwriteConcat(m[a[0].code := a[0]], a[1..], b);
    }
  }

  lemma AppliedUpsert(w: World, fate: Fate, setId: string, c: ParsedCard)
    requires Hashed(w.cards)
    ensures
      var s := UpsertCard(setId, c);
      var a := Call(w, fate, s);
      && Hashed(a.w.cards) && (a.reply == Ok ==> Applies(w, fate, s))
      && PayloadsOf(a.w.cards) == if Applies(w, fate, s) then PayloadsOf(w.cards)[c.code := c] else PayloadsOf(w.cards)
  {
    hide Effect;
    ArriveKeeps(w, fate);
    CardExecute(Arrive(w, fate), setId, c, fate(w.step).now);
  }

  /** A loop writes the first cards of its page, all of them when it ends well, and leaves the payloads that
      overwriting with just those leaves. */
  lemma {:induction false} UpsertsOverwrite(w: World, fate: Fate, primary: string, cards: seq<ParsedCard>, r: Report)
    requires Hashed(w.cards)
    ensures
      var p := UpsertCards(w, fate, primary, cards, r);
      var writes := UpsertWrites(w, fate, primary, cards);
      && Hashed(p.w.cards) && PayloadsOf(p.w.cards) == Overwrite(PayloadsOf(w.cards), writes)
      && writes <= cards && (p.reply == Ok ==> writes == cards)
    decreases |cards|
  {
    hide Call, Applies;
    if cards != [] {
      var c := cards[0];
      var s := UpsertCard(SetIdOr(c.code, primary), c);
      var a := Call(w, fate, s);
      AppliedUpsert(w, fate, s.setId, c);
      if a.reply == Ok {
        UpsertsOverwrite(a.w, fate, primary, cards[1..], Count(r, OutcomeOf(w.cards, c)));
        assert [c] + cards[1..] == cards;
        OverwriteConcat(PayloadsOf(w.cards), [c], UpsertWrites(a.w, fate, primary, cards[1..]));
      }
      assert [c][1..] == [];
      assert Overwrite(PayloadsOf(w.cards), [c]) == Overwrite(PayloadsOf(w.cards)[c.code := c], []);
    }
  }

  lemma VisitOverwrites(w: World, fate: Fate, v: Visit, r: Report)
    requires Hashed(w.cards)
    ensures
      var q := ScrapeTracked(w, fate, v, r);
      var writes := VisitWrites(w, fate, v, r);
      && Hashed(q.w.cards) && PayloadsOf(q.w.cards) == Overwrite(PayloadsOf(w.cards), writes)
      && writes <= v.page.cards && (VisitStart(w, fate, v, r).Some? && q.ending.Finished? ==> writes == v.page.cards)
  {
    hide Call, ScrapeTracked, VisitStart;
    VisitFollowsLoop(w, fate, v, r);
    match VisitStart(w, fate, v, r)
    case None =>
    case Some(l) => UpsertsOverwrite(l.w, fate, l.primary, v.page.cards, r.(seen := r.seen + |v.page.cards|));
  }

  lemma {:induction false} PassOverwrites(w: World, fate: Fate, visits: seq<Visit>, r: Report)
    requires Hashed(w.cards)
    ensures
      var p := ScrapeAll(w, fate, visits, r);
      Hashed(p.w.cards) && PayloadsOf(p.w.cards) == Overwrite(PayloadsOf(w.cards), PassWrites(w, fate, visits, r))
    decreases |visits|
  {
    hide ScrapeTracked, VisitWrites;
    if visits != [] {
      var q := ScrapeTracked(w, fate, visits[0], r);
      VisitOverwrites(w, fate, visits[0], r);
      var rest := if q.ending == Abandoned then [] else PassWrites(q.w, fate, visits[1..], q.report);
      OverwriteConcat(PayloadsOf(w.cards), VisitWrites(w, fate, visits[0], r), rest);
      if q.ending != Abandoned { PassOverwrites(q.w, fate, visits[1..], q.report); }
    }
  }

  lemma EventOverwrites(w: World, e: Event)
    requires Hashed(w.cards)
    ensures Hashed(After(w, e).cards)
    ensures PayloadsOf(After(w, e).cards) == Overwrite(PayloadsOf(w.cards), EventWrites(w, e))
  {
    hide After, StartOf, ScrapeAll, PassWrites;
    match StartOf(w, e)
    case None => NoStartSpares(w, e);
    case Some(s) =>
      StartSpares(w, e);
      PassOverwrites(s.w, e.fate, s.visits, s.r);
      EndSpares(w, e);
  }

  /** Over every history, whatever fails, is lost or abandoned: the payloads at its end are those at its start
      overwritten with the writes that were carried out. */
  lemma {:induction false} HistoryOverwrites(w: World, events: seq<Event>)
    requires Hashed(w.cards)
    ensures PayloadsOf(History(w, events).cards) == Overwrite(PayloadsOf(w.cards), HistoryWrites(w, events))
    ensures Hashed(History(w, events).cards)
    decreases |events|
  {
    hide After, EventWrites;
    if events != [] {
      EventOverwrites(w, events[0]);
      HistoryOverwrites(After(w, events[0]), events[1..]);
      OverwriteConcat(PayloadsOf(w.cards), EventWrites(w, events[0]), HistoryWrites(After(w, events[0]), events[1..]));
    }
  }

  // ---- Exactly when a skip still agrees with a walk ------------------------------------------------------

  /** The last of these writes to each of the page's codes, where there is one, left the page's payload. */
  predicate LeaveAlone(writes: seq<ParsedCard>, page: Page) {
    forall code :: code in Final(page.cards) && code in Final(writes) ==> Final(writes)[code] == Final(page.cards)[code]
  }

  /** A skip changes no card. A successful walk in its place would change no payload either if and only if,
      since the page was last imprinted, no write left another payload on one of its codes. The history in
      between is any, with visits that fail, lose replies or are dropped half-way. */
  lemma SkipAgreesAfterHistoryIff(w: World, events: seq<Event>, fate: Fate, v: Visit, primary: string, r: Report)
    requires Hashed(w.cards) && Imprinted(w.cards, v.page)
    requires StoredHash(History(w, events), v.set_.series) == Some(Sha256(v.page))
    requires UpsertCards(History(w, events), fate, primary, v.page.cards, r).reply == Ok
    ensures
      var w' := History(w, events);
      var walked := UpsertCards(w', fate, primary, v.page.cards, r);
      && ScrapeSet(w', fate, v, r).w.cards == w'.cards
      && (PayloadsOf(walked.w.cards) == PayloadsOf(w'.cards) <==> LeaveAlone(HistoryWrites(w, events), v.page))
  {
    hide Call, ScrapeSet, UpsertWrites;
    var w' := History(w, events);
    HistoryOverwrites(w, events);
    SkipLeavesCatalogue(w', fate, v, r);
    UpsertsOverwrite(w', fate, primary, v.page.cards, r);
    SkipAgreesIff(PayloadsOf(w.cards), v.page, HistoryWrites(w, events));
  }

  /** Without any such starting point: over every history from empty tables, a skip agrees with a successful walk
      if and only if the last write to each code of the page, and there is one, left the page's payload. */
  lemma SkipAgreesIffLastWritesHold(events: seq<Event>, fate: Fate, v: Visit, primary: string, r: Report)
    requires StoredHash(History(EMPTY, events), v.set_.series) == Some(Sha256(v.page))
    requires UpsertCards(History(EMPTY, events), fate, primary, v.page.cards, r).reply == Ok
    ensures
      var w := History(EMPTY, events);
      var walked := UpsertCards(w, fate, primary, v.page.cards, r);
      && ScrapeSet(w, fate, v, r).w.cards == w.cards
      && (PayloadsOf(walked.w.cards) == PayloadsOf(w.cards) <==>
            Holds(Final(HistoryWrites(EMPTY, events)), Final(v.page.cards)))
  {
    hide Call, ScrapeSet, UpsertWrites;
    var w := History(EMPTY, events);
    assert PayloadsOf(EMPTY.cards) == map[];
    HistoryOverwrites(EMPTY, events);
    SkipLeavesCatalogue(w, fate, v, r);
    UpsertsOverwrite(w, fate, primary, v.page.cards, r);
    OverwriteFixedIff(PayloadsOf(w.cards), v.page.cards);
  }

  /** The same counted from the walk that last imprinted the page, in the middle of a run: what matters is
      what the rest of that run and the history after it wrote. */
  lemma SkipAgreesSinceWalkIff(
    w: World, fate: Fate, v: Visit, r: Report, rest: seq<Visit>, closed: World, events: seq<Event>)
    requires Hashed(w.cards) && Unvisited(w, r.runId, v.set_.series)
    requires StoredHash(w, v.set_.series) != Some(Sha256(v.page))
    requires
      var q := ScrapeTracked(w, fate, v, r);
      && q.ending.Finished? && q.ending.htmlHash.Some?
      && closed.cards == ScrapeAll(q.w, fate, rest, q.report).w.cards
    ensures
      var q := ScrapeTracked(w, fate, v, r);
      Imprinted(History(closed, events).cards, v.page) <==>
        LeaveAlone(PassWrites(q.w, fate, rest, q.report) + HistoryWrites(closed, events), v.page)
  {
    hide Effect, ScrapeSet, ScrapeAll;
    var a := Call(w, fate, OpenRunSet(r.runId, v.set_.series));
    var q := ScrapeTracked(w, fate, v, r);
    VisitLookUps(w, fate, v, r, v.set_.series);
    FinishedPageIsImprinted(a.w, fate, v, r);
    VisitStoredHash(w, fate, v, r);
    VisitOverwrites(w, fate, v, r);
    PassOverwrites(q.w, fate, rest, q.report);
    HistoryOverwrites(closed, events);
    OverwriteConcat(PayloadsOf(q.w.cards), PassWrites(q.w, fate, rest, q.report), HistoryWrites(closed, events));
    SkipAgreesIff(PayloadsOf(q.w.cards), v.page, PassWrites(q.w, fate, rest, q.report) + HistoryWrites(closed, events));
  }
}
