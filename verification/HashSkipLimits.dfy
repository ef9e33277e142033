/** Where the hash skip and the full walk part: an attempt that writes cards without recording its digest. */
module HashSkipLimits {
  import opened Schema
  import opened Statements
  import opened Engine
  import opened Frames
  import opened Events
  import opened HashSkip
  import opened Writes

  /** After one more visit of a series, however it ends, the stored digest is that of the page visited or still
      the earlier one's; and skipping the earlier page then agrees with walking it if and only if the cards
      the visit got to write agree with it. Those are the first few of its page, all of them when it is walked
      and finishes. */
  lemma VisitSkipIff(w: World, fate: Fate, v: Visit, r: Report, prior: Page)
    requires Hashed(w.cards) && Unvisited(w, r.runId, v.set_.series)
    requires StoredHash(w, v.set_.series) == Some(Sha256(prior)) && Imprinted(w.cards, prior)
    ensures
      var q := ScrapeTracked(w, fate, v, r);
      var writes := VisitWrites(w, fate, v, r);
      && StoredHash(q.w, v.set_.series) in {Some(Sha256(prior)), Some(Sha256(v.page))}
      && writes <= v.page.cards && (VisitStart(w, fate, v, r).Some? && q.ending.Finished? ==> writes == v.page.cards)
      && (Imprinted(q.w.cards, prior) <==> LeaveAlone(writes, prior))
  {
    hide Effect, ScrapeTracked, ScrapeSet, VisitWrites;
    var a := Call(w, fate, OpenRunSet(r.runId, v.set_.series));
    VisitStoredHash(w, fate, v, r);
    VisitLookUps(w, fate, v, r, v.set_.series);
    FinishedPageIsImprinted(a.w, fate, v, r);
    VisitOverwrites(w, fate, v, r);
    SkipAgreesIff(PayloadsOf(w.cards), prior, VisitWrites(w, fate, v, r));
  }

  /** A series visited again in the same run, as a dropdown with a repeated value would have it: reopening its
      row takes back what the first visit recorded, so a page is then judged by what earlier runs recorded.
      A page those recorded is skipped, whatever the first visit wrote. */
  lemma RevisitForgetsDigest(w: World, fate: Fate, v: Visit, r: Report)
    requires |w.runs| == r.runId + 1 && TakesEffect(fate(w.step).outcome)
    requires NewestOk(w, v.set_.series, r.runId, true).Some?
    ensures
      var a := Call(w, fate, OpenRunSet(r.runId, v.set_.series)).w;
      var recorded := NewestOk(w, v.set_.series, r.runId, true).value.htmlHash;
      && StoredHash(a, v.set_.series) == recorded
      && (recorded == Some(Sha256(v.page)) ==> ScrapeSet(a, fate, v, r).w.cards == w.cards)
  {
    var s := v.set_.series;
    var a := Call(w, fate, OpenRunSet(r.runId, s)).w;
    CallWithin(w, fate, OpenRunSet(r.runId, s), r.runId, {s}, {});
    CallLeavesCatalogue(w, fate, OpenRunSet(r.runId, s));
    assert !IsOk(a, (r.runId, s));
    NewestRunFirst(a, r.runId, s, true);
    NewestOkFrame(w, a, s, r.runId, true);
    if StoredHash(a, s) == Some(Sha256(v.page)) { SkipLeavesCatalogue(a, fate, v, r); }
  }
}
