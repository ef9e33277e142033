/** When skipping a page by its digest agrees with walking it. */
module HashSkip {
  import opened Schema
  import opened Parse
  import opened Statements
  import opened Engine
  import opened Integrity
  import opened Frames
  import opened Events

  type Payloads = map<string, ParsedCard>

  function PayloadsOf(cards: map<string, CardRow>): Payloads {
    map code | code in cards :: cards[code].card
  }

  /** The reference meaning of walking cards: the last write to a code wins. */
  function Overwrite(m: Payloads, cards: seq<ParsedCard>): Payloads
    decreases |cards|
  {
    if cards == [] then m else Overwrite(m[cards[0].code := cards[0]], cards[1..])
  }

  /** The payload each code of a page ends up with. */
  function Final(cards: seq<ParsedCard>): Payloads {
    Overwrite(map[], cards)
  }

  ghost predicate Hashed(cards: map<string, CardRow>) {
    forall code :: code in cards ==> cards[code].payloadHash == Sha256(cards[code].card)
  }

  /** Walking the page again would change no payload. */
  ghost predicate Imprinted(cards: map<string, CardRow>, page: Page) {
    Overwrite(PayloadsOf(cards), page.cards) == PayloadsOf(cards)
  }

  // ---- Overwriting -----------------------------------------------------------------------------------

  lemma {:induction false} OverwriteSplits(m: Payloads, cards: seq<ParsedCard>)
    ensures Overwrite(m, cards) == m + Final(cards)
    decreases |cards|
  {
    if cards != [] {
      var c := cards[0];
      OverwriteSplits(m[c.code := c], cards[1..]);
      OverwriteSplits(map[c.code := c], cards[1..]);
    }
  }

  lemma {:induction false} FinalKeys(cards: seq<ParsedCard>)
    ensures Final(cards).Keys == Codes(cards)
    ensures forall code :: code in Final(cards) ==> Final(cards)[code].code == code
    decreases |cards|
  {
    if cards != [] {
      var c := cards[0];
      OverwriteSplits(map[c.code := c], cards[1..]);
      FinalKeys(cards[1..]);
      assert Codes(cards) == {c.code} + Codes(cards[1..]) by {
        assert forall x :: x in cards <==> x == c || x in cards[1..];
      }
    }
  }

  ghost predicate Holds(m: Payloads, f: Payloads) {
    forall code :: code in f ==> code in m && m[code] == f[code]
  }

  lemma OverwriteFixedIff(m: Payloads, cards: seq<ParsedCard>)
    ensures Overwrite(m, cards) == m <==> Holds(m, Final(cards))
  {
    OverwriteSplits(m, cards);
    var f := Final(cards);
    if m + f == m {
      forall code | code in f ensures code in m && m[code] == f[code] {
        assert (m + f)[code] == f[code];
      }
    }
  }

  lemma ImprintedFrame(cards: map<string, CardRow>, cards': map<string, CardRow>, page: Page)
    requires forall code :: code in Codes(page.cards) ==>
      (code in cards <==> code in cards') && (code in cards ==> cards'[code] == cards[code])
    ensures Imprinted(cards, page) <==> Imprinted(cards', page)
  {
    OverwriteFixedIff(PayloadsOf(cards), page.cards);
    OverwriteFixedIff(PayloadsOf(cards'), page.cards);
    FinalKeys(page.cards);
  }

  lemma OverwriteImprints(m: Payloads, cards: seq<ParsedCard>)
    ensures Overwrite(Overwrite(m, cards), cards) == Overwrite(m, cards)
  {
    OverwriteSplits(m, cards);
    OverwriteSplits(Overwrite(m, cards), cards);
  }

  /** Exactly when a skip still agrees with a walk: after a walk of the page, and any writes since, walking
      it again changes nothing if and only if the last write to each of its codes left the page's payload. */
  lemma SkipAgreesIff(m: Payloads, page: Page, since: seq<ParsedCard>)
    requires Overwrite(m, page.cards) == m
    ensures
      Overwrite(Overwrite(m, since), page.cards) == Overwrite(m, since) <==>
      forall code :: code in Final(page.cards) && code in Final(since) ==> Final(since)[code] == Final(page.cards)[code]
  {
    OverwriteFixedIff(m, page.cards);
    OverwriteSplits(m, since);
    OverwriteFixedIff(Overwrite(m, since), page.cards);
  }

  // ---- Upserts mean overwriting ----------------------------------------------------------------------

  lemma {:induction false} UpsertCardsOverwrite(w: World, fate: Fate, primary: string, cards: seq<ParsedCard>, r: Report)
    requires Hashed(w.cards)
    ensures
      var p := UpsertCards(w, fate, primary, cards, r);
      Hashed(p.w.cards) && (p.reply == Ok ==> PayloadsOf(p.w.cards) == Overwrite(PayloadsOf(w.cards), cards))
    decreases |cards|
  {
    if cards != [] {
      var c := cards[0];
      var a := Call(w, fate, UpsertCard(SetIdOr(c.code, primary), c));
      CardCall(w, fate, SetIdOr(c.code, primary), c);
      if a.reply == Ok {
        UpsertCardsOverwrite(a.w, fate, primary, cards[1..], Count(r, OutcomeOf(w.cards, c)));
      }
    }
  }

  /** A card upsert either leaves the cards alone or stores the card's payload under its code, and it
      does the latter when it succeeds; it rewrites no row that already holds the payload. */
  lemma CardCall(w: World, fate: Fate, setId: string, c: ParsedCard)
    requires Hashed(w.cards)
    ensures
      var a := Call(w, fate, UpsertCard(setId, c));
      && Hashed(a.w.cards)
      && (a.w.cards == w.cards || PayloadsOf(a.w.cards) == PayloadsOf(w.cards)[c.code := c])
      && (a.reply == Ok ==> PayloadsOf(a.w.cards) == PayloadsOf(w.cards)[c.code := c])
      && (c.code in w.cards && w.cards[c.code].card == c ==> a.w.cards == w.cards)
  {
    hide Effect;
    ArriveKeeps(w, fate);
    CardExecute(Arrive(w, fate), setId, c, fate(w.step).now);
  }

  lemma CardExecute(w: World, setId: string, c: ParsedCard, now: int)
    requires Hashed(w.cards)
    ensures
      var a := Execute(w, UpsertCard(setId, c), now);
      && Hashed(a.w.cards)
      && (a.w.cards == w.cards || PayloadsOf(a.w.cards) == PayloadsOf(w.cards)[c.code := c])
      && (a.reply == Ok ==> PayloadsOf(a.w.cards) == PayloadsOf(w.cards)[c.code := c])
      && (c.code in w.cards && w.cards[c.code].card == c ==> a.w.cards == w.cards)
  {
    assert PayloadsOf(CardsAfter(w.cards, setId, c, now)) == PayloadsOf(w.cards)[c.code := c];
  }

  // ---- One visit -------------------------------------------------------------------------------------

  lemma WrittenPageIsImprinted(w: World, fate: Fate, v: Visit, primary: string, r: Report)
    requires Hashed(w.cards)
    ensures
      var p := WritePage(w, fate, v, primary, r);
      p.ending.Finished? ==> p.ending.htmlHash == Some(Sha256(v.page)) && Imprinted(p.w.cards, v.page)
  {
    var cards := v.page.cards;
    var a := Call(w, fate, UpsertSet(primary, v.set_));
    assert a.w.cards == w.cards;
    if a.reply == Ok {
      var ids := SecondaryIds(cards, primary);
      var b := EnsureSets(a.w, fate, ids);
      EnsureSetsWithin(a.w, fate, ids, 0);
      if b.reply == Ok {
        UpsertCardsOverwrite(b.w, fate, primary, cards, r);
        OverwriteImprints(PayloadsOf(b.w.cards), cards);
      }
    }
  }

  lemma WalkedPageIsImprinted(w: World, fate: Fate, v: Visit, r: Report)
    requires Hashed(w.cards)
    ensures
      var p := WalkPage(w, fate, v, r);
      p.ending.Finished? && p.ending.htmlHash.Some? ==>
        p.ending.htmlHash == Some(Sha256(v.page)) && Imprinted(p.w.cards, v.page)
  {
    hide Effect, WritePage;
    var cards := v.page.cards;
    if cards != [] && SetIdFromCode(cards[0].code).Some? {
      WrittenPageIsImprinted(w, fate, v, SetIdFromCode(cards[0].code).value, r.(seen := r.seen + |cards|));
    }
  }

  lemma LookUpSeesStoredHash(w: World, fate: Fate, series: string)
    ensures
      var b := Call(Call(w, fate, Query).w, fate, Query);
      && b.w.cards == w.cards && b.w.sets == w.sets
      && StoredHash(b.w, series) == StoredHash(w, series) && Newest(b.w, series) == Newest(w, series)
  {
    LookUpWithin(w, fate, 0, {});
    LookUpFrame(w, Call(Call(w, fate, Query).w, fate, Query).w, series);
  }

  /** A visit that finishes with a digest leaves its page imprinted, walked or skipped. */
  lemma FinishedPageIsImprinted(w: World, fate: Fate, v: Visit, r: Report)
    requires Hashed(w.cards)
    requires StoredHash(w, v.set_.series) == Some(Sha256(v.page)) ==> Imprinted(w.cards, v.page)
    ensures
      var p := ScrapeSet(w, fate, v, r);
      p.ending.Finished? && p.ending.htmlHash.Some? ==>
        p.ending.htmlHash == Some(Sha256(v.page)) && Imprinted(p.w.cards, v.page)
  {
    var b := Call(Call(w, fate, Query).w, fate, Query);
    LookUpSeesStoredHash(w, fate, v.set_.series);
    WalkedPageIsImprinted(b.w, fate, v, r);
    LookUpSeesStoredHash(b.w, fate, v.set_.series);
  }

  lemma SkipLeavesCatalogue(w: World, fate: Fate, v: Visit, r: Report)
    requires StoredHash(w, v.set_.series) == Some(Sha256(v.page))
    ensures ScrapeSet(w, fate, v, r).w.cards == w.cards && ScrapeSet(w, fate, v, r).w.sets == w.sets
  {
    var a := Call(w, fate, Query);
    var b := Call(a.w, fate, Query);
    LookUpSeesStoredHash(w, fate, v.set_.series);
    assert a.w.cards == w.cards && a.w.sets == w.sets;
    if a.reply == Ok && b.reply == Ok {
      SkipPageLeavesCatalogue(b.w, fate, v, r);
      assert ScrapeSet(w, fate, v, r) == SkipPage(b.w, fate, v, r);
    }
  }

  lemma SkipPageLeavesCatalogue(w: World, fate: Fate, v: Visit, r: Report)
    ensures SkipPage(w, fate, v, r).w.cards == w.cards && SkipPage(w, fate, v, r).w.sets == w.sets
  {
    LookUpWithin(w, fate, 0, {});
  }

  // ---- What a visit records --------------------------------------------------------------------------

  /** Opening the row and working on the page do not disturb the look-ups of any series. */
  lemma VisitLookUps(w: World, fate: Fate, v: Visit, r: Report, series: string)
    requires Unvisited(w, r.runId, v.set_.series)
    ensures
      var a := Call(w, fate, OpenRunSet(r.runId, v.set_.series));
      var p := ScrapeSet(a.w, fate, v, r);
      && a.w.cards == w.cards && a.w.sets == w.sets && |a.w.runs| == |p.w.runs| == |w.runs|
      && !IsOk(a.w, (r.runId, v.set_.series)) && !IsOk(p.w, (r.runId, v.set_.series))
      && StoredHash(a.w, series) == StoredHash(p.w, series) == StoredHash(w, series)
      && Newest(a.w, series) == Newest(p.w, series) == Newest(w, series)
  {
    var key := (r.runId, v.set_.series);
    var open := OpenRunSet(r.runId, v.set_.series);
    var a := Call(w, fate, open);
    CallLeavesCatalogue(w, fate, open);
    CallWithin(w, fate, open, r.runId, {v.set_.series}, {});
    OpenedRowIsNotOk(w, fate, r.runId, v.set_.series);
    forall k: (nat, string) ensures SameOk(w, a.w, k) { assert k == key || !(k.0 == key.0 && k.1 in {key.1}); }
    LookUpFrame(w, a.w, series);
    ScrapeSetWithin(a.w, fate, v, r, r.runId);
    assert SameOk(a.w, ScrapeSet(a.w, fate, v, r).w, key);
    LookUpFrame(a.w, ScrapeSet(a.w, fate, v, r).w, series);
  }

  lemma OpenedRowIsNotOk(w: World, fate: Fate, run: nat, series: string)
    requires (run, series) !in w.runSets
    ensures !IsOk(Call(w, fate, OpenRunSet(run, series)).w, (run, series))
  {
  }

  /** The newest run comes first in the look-ups. */
  lemma NewestRunFirst(w: World, run: nat, series: string, hashedOnly: bool)
    requires |w.runs| == run + 1
    ensures
      var k := (run, series);
      NewestOk(w, series, |w.runs|, hashedOnly) ==
        if IsOk(w, k) && (hashedOnly ==> w.runSets[k].htmlHash.Some?) then Some(w.runSets[k])
        else NewestOk(w, series, run, hashedOnly)
  {
  }

  lemma CloseRecords(p: Progress, fate: Fate, v: Visit, r: Report)
    requires p.ending != Abandoned && |p.w.runs| == r.runId + 1 && !IsOk(p.w, (r.runId, v.set_.series))
    ensures
      var q := CloseTracked(p, fate, v, r).w;
      var key := (r.runId, v.set_.series);
      && (IsOk(q, key) ==>
          && p.ending.Finished? && q.runSets[key].htmlHash == p.ending.htmlHash
          && q.runSets[key].seen == p.report.seen - r.seen
          && q.runSets[key].unmodified == p.report.unmodified - r.unmodified)
      && (p.ending.Finished? && key in p.w.runSets && TakesEffect(fate(p.w.step).outcome) ==> IsOk(q, key))
  {
  }

  /** After a visit, the stored digest of its series is the one before it, or the one the visit finished
      with, recorded by an applied close. */
  lemma VisitStoredHash(w: World, fate: Fate, v: Visit, r: Report)
    requires Unvisited(w, r.runId, v.set_.series)
    ensures
      var s := v.set_.series;
      var a := Call(w, fate, OpenRunSet(r.runId, s));
      var p := ScrapeSet(a.w, fate, v, r);
      var q := ScrapeTracked(w, fate, v, r);
      && (StoredHash(q.w, s) == StoredHash(w, s)
          || (a.reply != Gone && p.ending.Finished? && p.ending.htmlHash.Some? && StoredHash(q.w, s) == p.ending.htmlHash))
      && (a.reply == Gone ==> q.w == a.w)
      && (a.reply != Gone ==> q.w.cards == p.w.cards)
      && |q.w.runs| == |w.runs|
  {
    var s := v.set_.series;
    var key := (r.runId, s);
    var a := Call(w, fate, OpenRunSet(r.runId, s));
    var p := ScrapeSet(a.w, fate, v, r);
    VisitLookUps(w, fate, v, r, s);
    if a.reply != Gone && p.ending != Abandoned {
      var q := CloseTracked(p, fate, v, r).w;
      CloseTrackedWithin(p, fate, v, r);
      CloseRecords(p, fate, v, r);
      NewestRunFirst(p.w, r.runId, s, true);
      NewestRunFirst(q, r.runId, s, true);
      NewestOkFrame(p.w, q, s, r.runId, true);
    }
  }

  // ---- Every skip of a history is faithful -----------------------------------------------------------

  type Owner = string -> string

  /** Every stored digest is of a page whose walk would change nothing, and whose codes its series owns. */
  ghost predicate Synced(w: World, owner: Owner) {
    forall s :: StoredHash(w, s).Some? ==>
      Imprinted(w.cards, StoredHash(w, s).value.of) && Owned(StoredHash(w, s).value.of, s, owner)
  }

  /** The pages of different series list different codes: each code is listed by its owner only. */
  ghost predicate Owned(page: Page, series: string, owner: Owner) {
    forall c :: c in page.cards ==> owner(c.code) == series
  }

  /** A visit that wrote cards recorded its page's digest. */
  ghost predicate Recorded(w: World, w': World, v: Visit) {
    w'.cards == w.cards || StoredHash(w', v.set_.series) == Some(Sha256(v.page))
  }

  lemma VisitKeepsSynced(w: World, fate: Fate, v: Visit, r: Report, owner: Owner)
    requires Sound(w) && Synced(w, owner) && Unvisited(w, r.runId, v.set_.series)
    requires Owned(v.page, v.set_.series, owner) && Recorded(w, ScrapeTracked(w, fate, v, r).w, v)
    ensures Synced(ScrapeTracked(w, fate, v, r).w, owner)
  {
    var q := ScrapeTracked(w, fate, v, r).w;
    VisitStoredHash(w, fate, v, r);
    forall s | StoredHash(q, s).Some?
      ensures Imprinted(q.cards, StoredHash(q, s).value.of) && Owned(StoredHash(q, s).value.of, s, owner)
    {
      if s == v.set_.series {
        VisitSyncsOwnSeries(w, fate, v, r, owner);
      } else {
        ScrapeTrackedWithin(w, fate, v, r);
        LookUpFrame(w, q, s);
        var page := StoredHash(w, s).value.of;
        forall code | code in Codes(page.cards) ensures code !in Codes(v.page.cards) {}
        ImprintedFrame(w.cards, q.cards, page);
      }
    }
  }

  lemma VisitSyncsOwnSeries(w: World, fate: Fate, v: Visit, r: Report, owner: Owner)
    requires Sound(w) && Synced(w, owner) && Unvisited(w, r.runId, v.set_.series)
    requires Owned(v.page, v.set_.series, owner) && Recorded(w, ScrapeTracked(w, fate, v, r).w, v)
    ensures
      var q := ScrapeTracked(w, fate, v, r).w;
      var stored := StoredHash(q, v.set_.series);
      stored.Some? ==> Imprinted(q.cards, stored.value.of) && Owned(stored.value.of, v.set_.series, owner)
  {
    var s := v.set_.series;
    var a := Call(w, fate, OpenRunSet(r.runId, s));
    var q := ScrapeTracked(w, fate, v, r).w;
    VisitStoredHash(w, fate, v, r);
    VisitLookUps(w, fate, v, r, s);
    FinishedPageIsImprinted(a.w, fate, v, r);
    if StoredHash(q, s) == StoredHash(w, s) && q.cards != w.cards {
      SkipLeavesCatalogue(a.w, fate, v, r);
      assert false;
    }
  }

  lemma {:induction false} PassKeepsSynced(w: World, fate: Fate, visits: seq<Visit>, r: Report, owner: Owner)
    requires Sound(w) && Synced(w, owner)
    requires DistinctSeries(visits) && AllUnvisited(w, r.runId, visits) && Throughout(w, fate, visits, r, Recorded)
    requires forall v :: v in visits ==> Owned(v.page, v.set_.series, owner)
    ensures Synced(ScrapeAll(w, fate, visits, r).w, owner)
    decreases |visits|
  {
    if visits != [] {
      var p := ScrapeTracked(w, fate, visits[0], r);
      assert visits[0] in visits;
      VisitKeepsSynced(w, fate, visits[0], r, owner);
      ScrapeTrackedKeeps(w, fate, visits[0], r);
      NextIsUnvisited(w, fate, visits, r);
      if p.ending != Abandoned {
        PassKeepsSynced(p.w, fate, visits[1..], p.report, owner);
      }
    }
  }

  lemma SparingKeepsSynced(w: World, w': World, owner: Owner)
    requires RunSetsSound(w) && Synced(w, owner) && Spares(w, w') && |w.runs| <= |w'.runs| <= |w.runs| + 1
    ensures Synced(w', owner)
  {
    forall s ensures StoredHash(w', s) == StoredHash(w, s) {
      if |w'.runs| == |w.runs| { LookUpFrame(w, w', s); } else { NewRunFrame(w, w', s); }
    }
  }

  /** The dropdown of the event names each series once, and its pages list only codes their series own. */
  ghost predicate Tidy(e: Event, owner: Owner) {
    DistinctSeries(VisitsOf(e)) && forall v :: v in VisitsOf(e) ==> Owned(v.page, v.set_.series, owner)
  }

  lemma EventKeepsSynced(w: World, e: Event, owner: Owner)
    requires Sound(w) && Synced(w, owner) && Tidy(e, owner) && EventThroughout(w, e, Recorded)
    ensures Synced(After(w, e), owner)
  {
    match StartOf(w, e)
    case None =>
      NoStartSpares(w, e);
      SparingKeepsSynced(w, After(w, e), owner);
    case Some(s) =>
      StartSpares(w, e);
      StartIsSound(w, e);
      StartIsUnvisited(w, e);
      SparingKeepsSynced(w, s.w, owner);
      PassKeepsSynced(s.w, e.fate, s.visits, s.r, owner);
      EndSpares(w, e);
      SparingKeepsSynced(PassOf(s, e.fate).w, After(w, e), owner);
  }

  /** Over every history of tidy events in which each visit that writes cards records its digest, with any
      failures, lost replies, abandoned calls and interleaved clean-ups besides. */
  lemma {:induction false} HistoryStaysSynced(w: World, events: seq<Event>, owner: Owner)
    requires Sound(w) && Synced(w, owner)
    requires HistoryThroughout(w, events, Recorded) && forall e :: e in events ==> Tidy(e, owner)
    ensures Synced(History(w, events), owner)
    decreases |events|
  {
    if events != [] {
      assert events[0] in events;
      EventKeepsSynced(w, events[0], owner);
      AfterKeeps(w, events[0]);
      HistoryStaysSynced(After(w, events[0]), events[1..], owner);
    }
  }

  /** The hash skip refines the full walk: after any such history, when a page is skipped by its digest
      the cards stay as they are, and walking every card of it instead, successfully, would have left every
      payload the same. */
  lemma SkipRefinesWalk(events: seq<Event>, owner: Owner, fate: Fate, v: Visit, primary: string, r: Report)
    requires HistoryThroughout(EMPTY, events, Recorded) && forall e :: e in events ==> Tidy(e, owner)
    requires StoredHash(History(EMPTY, events), v.set_.series) == Some(Sha256(v.page))
    ensures
      var w := History(EMPTY, events);
      var walked := UpsertCards(w, fate, primary, v.page.cards, r);
      && ScrapeSet(w, fate, v, r).w.cards == w.cards
      && (walked.reply == Ok ==> PayloadsOf(walked.w.cards) == PayloadsOf(w.cards))
  {
    var w := History(EMPTY, events);
    HistoryStaysSynced(EMPTY, events, owner);
    HistoryKeeps(EMPTY, events);
    SkipLeavesCatalogue(w, fate, v, r);
    UpsertCardsOverwrite(w, fate, primary, v.page.cards, r);
  }

  // ---- Which visits record their digest --------------------------------------------------------------

  /** Every call made between two states succeeds, unless the database rejects it. */
  ghost predicate Calm(w: World, w': World, fate: Fate) {
    forall t: nat :: w.step <= t < w'.step ==> fate(t).outcome == Done
  }

  lemma {:induction false} UpsertCardsSteps(w: World, fate: Fate, primary: string, cards: seq<ParsedCard>, r: Report)
    ensures UpsertCards(w, fate, primary, cards, r).w.step >= w.step
    decreases |cards|
  {
    if cards != [] {
      var a := Call(w, fate, UpsertCard(SetIdOr(cards[0].code, primary), cards[0]));
      UpsertCardsSteps(a.w, fate, primary, cards[1..], Count(r, OutcomeOf(w.cards, cards[0])));
    }
  }

  lemma {:induction false} CalmUpsertsSucceed(w: World, fate: Fate, primary: string, cards: seq<ParsedCard>, r: Report)
    requires forall c :: c in cards ==> SetIdOr(c.code, primary) in w.sets
    requires Calm(w, UpsertCards(w, fate, primary, cards, r).w, fate)
    ensures UpsertCards(w, fate, primary, cards, r).reply == Ok
    decreases |cards|
  {
    if cards != [] {
      var c := cards[0];
      var a := Call(w, fate, UpsertCard(SetIdOr(c.code, primary), c));
      var r' := Count(r, OutcomeOf(w.cards, c));
      CallKeeps(w, fate, UpsertCard(SetIdOr(c.code, primary), c));
      UpsertCardsSteps(a.w, fate, primary, cards[1..], r');
      assert fate(w.step).outcome == Done;
      CalmUpsertsSucceed(a.w, fate, primary, cards[1..], r');
    }
  }

  lemma {:induction false} EnsureSetsSteps(w: World, fate: Fate, ids: seq<string>)
    ensures EnsureSets(w, fate, ids).w.step >= w.step
    decreases |ids|
  {
    if ids != [] { EnsureSetsSteps(Call(w, fate, EnsureSet(ids[0])).w, fate, ids[1..]); }
  }

  /** Without failing calls, a page is either written to its end or leaves the cards alone. */
  lemma CalmWriteIsAllOrNothing(w: World, fate: Fate, v: Visit, primary: string, r: Report)
    requires Calm(w, WritePage(w, fate, v, primary, r).w, fate)
    ensures
      var p := WritePage(w, fate, v, primary, r);
      p.w.step >= w.step && (p.w.cards == w.cards || p.ending == Finished(Some(primary), Some(Sha256(v.page))))
  {
    var cards := v.page.cards;
    var a := Call(w, fate, UpsertSet(primary, v.set_));
    assert a.w.cards == w.cards;
    if a.reply == Ok {
      var ids := SecondaryIds(cards, primary);
      var b := EnsureSets(a.w, fate, ids);
      EnsureSetsWithin(a.w, fate, ids, 0);
      EnsureSetsSteps(a.w, fate, ids);
      if b.reply == Ok {
        SetsArePresent(w, fate, v, primary);
        UpsertCardsSteps(b.w, fate, primary, cards, r);
        CalmUpsertsSucceed(b.w, fate, primary, cards, r);
      }
    }
  }

  lemma CalmWalkIsAllOrNothing(w: World, fate: Fate, v: Visit, r: Report)
    requires Calm(w, WalkPage(w, fate, v, r).w, fate)
    ensures
      var p := WalkPage(w, fate, v, r);
      p.w.step >= w.step && (p.w.cards == w.cards || (p.ending.Finished? && p.ending.htmlHash == Some(Sha256(v.page))))
  {
    hide Effect, WritePage;
    var cards := v.page.cards;
    if cards != [] && SetIdFromCode(cards[0].code).Some? {
      CalmWriteIsAllOrNothing(w, fate, v, SetIdFromCode(cards[0].code).value, r.(seen := r.seen + |cards|));
    } else {
      assert WalkPage(w, fate, v, r).w == w;
    }
  }

  lemma LookUpSteps(w: World, fate: Fate)
    ensures
      var a := Call(w, fate, Query).w;
      a.step == w.step + 1 && Call(a, fate, Query).w.step == w.step + 2
  {
  }

  lemma CalmScrapeIsAllOrNothing(w: World, fate: Fate, v: Visit, r: Report)
    requires Calm(w, ScrapeSet(w, fate, v, r).w, fate)
    ensures
      var p := ScrapeSet(w, fate, v, r);
      p.w.step >= w.step && (p.w.cards == w.cards || (p.ending.Finished? && p.ending.htmlHash == Some(Sha256(v.page))))
  {
    hide Call, WalkPage;
    var a := Call(w, fate, Query);
    var b := Call(a.w, fate, Query);
    LookUpWithin(w, fate, 0, {});
    LookUpSteps(w, fate);
    if a.reply == Ok && b.reply == Ok {
      if StoredHash(b.w, v.set_.series) == Some(Sha256(v.page)) {
        LookUpWithin(b.w, fate, 0, {});
        LookUpSteps(b.w, fate);
      } else {
        CalmWalkIsAllOrNothing(b.w, fate, v, r);
      }
    }
  }

  lemma FinishedVisitIsStored(p: Progress, fate: Fate, v: Visit, r: Report)
    requires p.ending.Finished? && p.ending.htmlHash.Some? && |p.w.runs| == r.runId + 1
    requires (r.runId, v.set_.series) in p.w.runSets && !IsOk(p.w, (r.runId, v.set_.series))
    requires fate(p.w.step).outcome == Done
    ensures StoredHash(CloseTracked(p, fate, v, r).w, v.set_.series) == p.ending.htmlHash
  {
    CloseRecords(p, fate, v, r);
    CloseTrackedWithin(p, fate, v, r);
    NewestRunFirst(CloseTracked(p, fate, v, r).w, r.runId, v.set_.series, true);
  }

  /** A visit none of whose calls fails records its digest, if it writes any card at all. */
  lemma UninterruptedVisitIsRecorded(w: World, fate: Fate, v: Visit, r: Report)
    requires Unvisited(w, r.runId, v.set_.series)
    requires Calm(w, ScrapeTracked(w, fate, v, r).w, fate)
    ensures Recorded(w, ScrapeTracked(w, fate, v, r).w, v)
  {
    hide ScrapeSet;
    var a := Call(w, fate, OpenRunSet(r.runId, v.set_.series));
    var p := ScrapeSet(a.w, fate, v, r);
    var q := ScrapeTracked(w, fate, v, r);
    VisitLookUps(w, fate, v, r, v.set_.series);
    if a.reply != Gone {
      assert q == CloseTracked(p, fate, v, r);
      CloseTrackedWithin(p, fate, v, r);
      assert p.w.step <= q.w.step;
      CalmScrapeIsAllOrNothing(a.w, fate, v, r);
      if p.ending.Finished? && p.ending.htmlHash.Some? {
        OpenedRowIsThere(w, fate, r.runId, v.set_.series);
        ScrapeSetWithin(a.w, fate, v, r, r.runId);
        FinishedVisitIsStored(p, fate, v, r);
      }
    }
  }

  lemma OpenedRowIsThere(w: World, fate: Fate, run: nat, series: string)
    requires fate(w.step).outcome == Done
    ensures (run, series) in Call(w, fate, OpenRunSet(run, series)).w.runSets
  {
  }
}
