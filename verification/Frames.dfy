/** What a page, or a whole pass over the dropdown, leaves alone: other pages' telemetry rows, other
    pages' cards, and earlier runs. */
module Frames {
  import opened Schema
  import opened Parse
  import opened Statements
  import opened Engine
  import opened Integrity

  function Codes(cards: seq<ParsedCard>): set<string> {
    set c | c in cards :: c.code
  }

  /** Rows of earlier runs change only by the stale-run cleanup. */
  ghost predicate RunsCleaned(a: seq<RunRow>, b: seq<RunRow>) {
    |a| == |b| && forall i :: 0 <= i < |a| ==>
      b[i] == a[i] || (a[i].status == Running && b[i].status == Failed && b[i].totals == a[i].totals)
  }

  ghost predicate IsOk(w: World, k: (nat, string)) {
    k in w.runSets && w.runSets[k].status == SetOk
  }

  /** The row is `ok` before exactly when it is after, and unless it was still running it is the same row. */
  ghost predicate SameOk(w: World, w': World, k: (nat, string)) {
    && (IsOk(w, k) <==> IsOk(w', k))
    && (k in w.runSets && w.runSets[k].status != SetRunning ==> k in w'.runSets && w'.runSets[k] == w.runSets[k])
  }

  /** Between `w` and `w'`, only telemetry rows of `run` for the given series became or ceased to be `ok`
      or were added, none was removed, and only cards with the given codes changed. */
  ghost predicate Within(w: World, w': World, run: nat, series: set<string>, codes: set<string>) {
    && RunsCleaned(w.runs, w'.runs)
    && w.runSets.Keys <= w'.runSets.Keys
    && (forall k: (nat, string) :: !(k.0 == run && k.1 in series) ==> SameOk(w, w', k) && (k in w'.runSets ==> k in w.runSets))
    && (forall code :: code !in codes ==>
        (code in w.cards <==> code in w'.cards) && (code in w.cards ==> w'.cards[code] == w.cards[code]))
  }

  lemma WithinIsReflexive(w: World, run: nat, series: set<string>, codes: set<string>)
    ensures Within(w, w, run, series, codes)
  {
  }

  lemma WithinIsTransitive(a: World, b: World, c: World, run: nat, series: set<string>, codes: set<string>)
    requires Within(a, b, run, series, codes) && Within(b, c, run, series, codes)
    ensures Within(a, c, run, series, codes)
  {
    forall k: (nat, string) | !(k.0 == run && k.1 in series)
      ensures SameOk(a, c, k) && (k in c.runSets ==> k in a.runSets)
    {
      assert SameOk(a, b, k) && SameOk(b, c, k);
    }
  }

  lemma WithinGrows(
    a: World, b: World, run: nat, series: set<string>, series': set<string>, codes: set<string>, codes': set<string>)
    requires Within(a, b, run, series, codes) && series <= series' && codes <= codes'
    ensures Within(a, b, run, series', codes')
  {
    forall k: (nat, string) | !(k.0 == run && k.1 in series')
      ensures SameOk(a, b, k) && (k in b.runSets ==> k in a.runSets)
    {
      assert !(k.0 == run && k.1 in series);
    }
  }

  ghost predicate Confined(s: Stmt, run: nat, series: set<string>, codes: set<string>) {
    match s
    case OpenRun => false
    case CloseRun(_) => false
    case OpenRunSet(n, x) => n == run && x in series
    case CloseRunSet(n, x, _, _, _, _, _) => n == run && x in series
    case UpsertCard(_, card) => card.code in codes
    case _ => true
  }

  lemma ExecuteWithin(w: World, s: Stmt, now: int, run: nat, series: set<string>, codes: set<string>)
    requires Confined(s, run, series, codes)
    ensures Within(w, Execute(w, s, now).w, run, series, codes)
  {
  }

  lemma CallWithin(w: World, fate: Fate, s: Stmt, run: nat, series: set<string>, codes: set<string>)
    requires Confined(s, run, series, codes)
    ensures Within(w, Call(w, fate, s).w, run, series, codes)
  {
    var v := Arrive(w, fate);
    ArriveWithin(w, fate, run, series, codes);
    ExecuteWithin(v, s, fate(w.step).now, run, series, codes);
    WithinIsTransitive(w, v, Execute(v, s, fate(w.step).now).w, run, series, codes);
  }

  lemma ArriveWithin(w: World, fate: Fate, run: nat, series: set<string>, codes: set<string>)
    ensures Within(w, Arrive(w, fate), run, series, codes)
  {
  }

  lemma {:induction false} EnsureSetsWithin(w: World, fate: Fate, ids: seq<string>, run: nat)
    ensures Within(w, EnsureSets(w, fate, ids).w, run, {}, {})
    ensures EnsureSets(w, fate, ids).w.cards == w.cards
    decreases |ids|
  {
    if ids != [] {
      var a := Call(w, fate, EnsureSet(ids[0]));
      CallWithin(w, fate, EnsureSet(ids[0]), run, {}, {});
      if a.reply == Ok {
        EnsureSetsWithin(a.w, fate, ids[1..], run);
        WithinIsTransitive(w, a.w, EnsureSets(a.w, fate, ids[1..]).w, run, {}, {});
      }
    }
  }

  lemma {:induction false} UpsertCardsWithin(
    w: World, fate: Fate, primary: string, cards: seq<ParsedCard>, r: Report, run: nat, codes: set<string>)
    requires Codes(cards) <= codes
    ensures Within(w, UpsertCards(w, fate, primary, cards, r).w, run, {}, codes)
    decreases |cards|
  {
    if cards != [] {
      var c := cards[0];
      var s := UpsertCard(SetIdOr(c.code, primary), c);
      var a := Call(w, fate, s);
      assert c.code in Codes(cards);
      CallWithin(w, fate, s, run, {}, codes);
      if a.reply == Ok {
        forall x | x in Codes(cards[1..]) ensures x in codes { assert x in Codes(cards); }
        UpsertCardsWithin(a.w, fate, primary, cards[1..], Count(r, OutcomeOf(w.cards, c)), run, codes);
        WithinIsTransitive(w, a.w, UpsertCards(w, fate, primary, cards, r).w, run, {}, codes);
      }
    }
  }

  lemma WritePageWithin(w: World, fate: Fate, v: Visit, primary: string, r: Report, run: nat)
    ensures Within(w, WritePage(w, fate, v, primary, r).w, run, {}, Codes(v.page.cards))
  {
    var cards, codes := v.page.cards, Codes(v.page.cards);
    var a := Call(w, fate, UpsertSet(primary, v.set_));
    CallWithin(w, fate, UpsertSet(primary, v.set_), run, {}, codes);
    if a.reply == Ok {
      var b := EnsureSets(a.w, fate, SecondaryIds(cards, primary));
      EnsureSetsWithin(a.w, fate, SecondaryIds(cards, primary), run);
      WithinGrows(a.w, b.w, run, {}, {}, {}, codes);
      WithinIsTransitive(w, a.w, b.w, run, {}, codes);
      if b.reply == Ok {
        UpsertCardsWithin(b.w, fate, primary, cards, r, run, codes);
        WithinIsTransitive(w, b.w, UpsertCards(b.w, fate, primary, cards, r).w, run, {}, codes);
      }
    }
  }

  lemma WalkPageWithin(w: World, fate: Fate, v: Visit, r: Report, run: nat)
    ensures Within(w, WalkPage(w, fate, v, r).w, run, {}, Codes(v.page.cards))
  {
    var cards := v.page.cards;
    WithinIsReflexive(w, run, {}, Codes(cards));
    if cards != [] && SetIdFromCode(cards[0].code).Some? {
      var primary := SetIdFromCode(cards[0].code).value;
      WritePageWithin(w, fate, v, primary, r.(seen := r.seen + |cards|), run);
    } else {
      assert WalkPage(w, fate, v, r).w == w;
    }
  }

  /** Telemetry and clean-up statements leave the catalogue alone. */
  lemma CallLeavesCatalogue(w: World, fate: Fate, s: Stmt)
    requires !s.UpsertSet? && !s.EnsureSet? && !s.UpsertCard?
    ensures Call(w, fate, s).w.cards == w.cards && Call(w, fate, s).w.sets == w.sets
  {
    hide Effect;
    ArriveKeeps(w, fate);
    ExecuteLeavesCatalogue(Arrive(w, fate), s, fate(w.step).now);
  }

  lemma ExecuteLeavesCatalogue(w: World, s: Stmt, now: int)
    requires !s.UpsertCard?
    ensures Execute(w, s, now).w.cards == w.cards
    ensures !s.UpsertSet? && !s.EnsureSet? ==> Execute(w, s, now).w.sets == w.sets
  {
  }

  lemma CallLeavesCards(w: World, fate: Fate, s: Stmt)
    requires !s.UpsertCard?
    ensures Call(w, fate, s).w.cards == w.cards
  {
    hide Effect;
    ArriveKeeps(w, fate);
    ExecuteLeavesCatalogue(Arrive(w, fate), s, fate(w.step).now);
  }

  lemma LookUpWithin(w: World, fate: Fate, run: nat, codes: set<string>)
    ensures
      var a := Call(w, fate, Query);
      var b := Call(a.w, fate, Query);
      && Within(w, a.w, run, {}, codes) && Within(w, b.w, run, {}, codes)
      && a.w.cards == b.w.cards == w.cards && a.w.sets == b.w.sets == w.sets
  {
    var a := Call(w, fate, Query);
    CallWithin(w, fate, Query, run, {}, codes);
    CallWithin(a.w, fate, Query, run, {}, codes);
    WithinIsTransitive(w, a.w, Call(a.w, fate, Query).w, run, {}, codes);
    CallLeavesCatalogue(w, fate, Query);
    CallLeavesCatalogue(a.w, fate, Query);
  }

  lemma ScrapeSetWithin(w: World, fate: Fate, v: Visit, r: Report, run: nat)
    ensures Within(w, ScrapeSet(w, fate, v, r).w, run, {}, Codes(v.page.cards))
  {
    var codes := Codes(v.page.cards);
    var a := Call(w, fate, Query);
    var b := Call(a.w, fate, Query);
    LookUpWithin(w, fate, run, codes);
    if a.reply == Ok && b.reply == Ok {
      LookUpWithin(b.w, fate, run, codes);
      WalkPageWithin(b.w, fate, v, r, run);
      WithinIsTransitive(w, b.w, ScrapeSet(w, fate, v, r).w, run, {}, codes);
    }
  }

  lemma ScrapeTrackedWithin(w: World, fate: Fate, v: Visit, r: Report)
    ensures Within(w, ScrapeTracked(w, fate, v, r).w, r.runId, {v.set_.series}, Codes(v.page.cards))
  {
    var run, series, codes := r.runId, {v.set_.series}, Codes(v.page.cards);
    var open := OpenRunSet(run, v.set_.series);
    var a := Call(w, fate, open);
    CallWithin(w, fate, open, run, series, codes);
    if a.reply != Gone {
      var p := ScrapeSet(a.w, fate, v, r);
      ScrapeSetWithin(a.w, fate, v, r, run);
      WithinGrows(a.w, p.w, run, {}, series, codes, codes);
      WithinIsTransitive(w, a.w, p.w, run, series, codes);
      CloseTrackedWithin(p, fate, v, r);
      WithinIsTransitive(w, p.w, CloseTracked(p, fate, v, r).w, run, series, codes);
    }
  }

  lemma CloseTrackedWithin(p: Progress, fate: Fate, v: Visit, r: Report)
    ensures Within(p.w, CloseTracked(p, fate, v, r).w, r.runId, {v.set_.series}, Codes(v.page.cards))
    ensures CloseTracked(p, fate, v, r).w.cards == p.w.cards && CloseTracked(p, fate, v, r).w.sets == p.w.sets
  {
    if p.ending != Abandoned {
      var s := ClosingStatement(p, v, r);
      CallWithin(p.w, fate, s, r.runId, {v.set_.series}, Codes(v.page.cards));
      CallLeavesCatalogue(p.w, fate, s);
    }
  }

  // ---- Passes ----------------------------------------------------------------------------------------

  ghost function SeriesOf(visits: seq<Visit>): set<string> {
    set v | v in visits :: v.set_.series
  }

  ghost function AllCodes(visits: seq<Visit>): set<string> {
    set v, c | v in visits && c in v.page.cards :: c.code
  }

  lemma {:induction false} ScrapeAllWithin(
    w: World, fate: Fate, visits: seq<Visit>, r: Report, series: set<string>, codes: set<string>)
    requires SeriesOf(visits) <= series && AllCodes(visits) <= codes
    ensures Within(w, ScrapeAll(w, fate, visits, r).w, r.runId, series, codes)
    decreases |visits|
  {
    if visits != [] {
      var v := visits[0];
      var p := ScrapeTracked(w, fate, v, r);
      assert v in visits;
      ScrapeTrackedWithin(w, fate, v, r);
      ScrapeTrackedCountsSet(w, fate, v, r);
      assert v.set_.series in SeriesOf(visits);
      forall x | x in Codes(v.page.cards) ensures x in codes { assert x in AllCodes(visits); }
      WithinGrows(w, p.w, r.runId, {v.set_.series}, series, Codes(v.page.cards), codes);
      if p.ending != Abandoned {
        SubVisits(visits);
        ScrapeAllWithin(p.w, fate, visits[1..], p.report, series, codes);
        WithinIsTransitive(w, p.w, ScrapeAll(w, fate, visits, r).w, r.runId, series, codes);
      }
    }
  }

  lemma SubVisits(visits: seq<Visit>)
    requires visits != []
    ensures SeriesOf(visits[1..]) <= SeriesOf(visits) && AllCodes(visits[1..]) <= AllCodes(visits)
  {
    forall v | v in visits[1..] ensures v in visits {}
  }

  // ---- Look-ups --------------------------------------------------------------------------------------

  /** The look-ups see only `ok` rows of their own series. */
  lemma {:induction false} NewestOkFrame(w: World, w': World, series: string, below: nat, hashedOnly: bool)
    requires forall k: (nat, string) :: k.1 == series && k.0 < below ==> SameOk(w, w', k)
    ensures NewestOk(w', series, below, hashedOnly) == NewestOk(w, series, below, hashedOnly)
  {
    if below > 0 {
      assert SameOk(w, w', (below - 1, series));
      NewestOkFrame(w, w', series, below - 1, hashedOnly);
    }
  }

  lemma LookUpFrame(w: World, w': World, series: string)
    requires |w.runs| == |w'.runs|
    requires forall k: (nat, string) :: k.1 == series ==> SameOk(w, w', k)
    ensures StoredHash(w', series) == StoredHash(w, series) && Newest(w', series) == Newest(w, series)
  {
    NewestOkFrame(w, w', series, |w.runs|, true);
    NewestOkFrame(w, w', series, |w.runs|, false);
  }

  /** A new run, which has no telemetry rows yet, does not disturb the look-ups. */
  lemma NewRunFrame(w: World, w': World, series: string)
    requires RunSetsSound(w) && |w'.runs| == |w.runs| + 1
    requires forall k: (nat, string) :: k.1 == series ==> SameOk(w, w', k)
    ensures StoredHash(w', series) == StoredHash(w, series) && Newest(w', series) == Newest(w, series)
  {
    assert SameOk(w, w', (|w.runs|, series));
    NewestOkFrame(w, w', series, |w.runs|, true);
    NewestOkFrame(w, w', series, |w.runs|, false);
  }
}
