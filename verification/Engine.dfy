/** The scrape engine as functions from tables to tables. Every call may succeed, fail, lose its reply
    or be abandoned, as the oracle `fate` says; an abandoned call ends everything at once. */
module Engine {
  import opened Schema
  import opened Parse
  import opened Statements

  /** How the work on one page ends: with the primary set id and page digest to record, with an error,
      or abandoned. */
  datatype Ending = Finished(primary: Option<string>, htmlHash: Option<Digest<Page>>) | Errored | Abandoned

  datatype Progress = Progress(w: World, report: Report, ending: Ending)

  function EndingOf(reply: Reply): Ending
  {
    if reply == Gone then Abandoned else Errored
  }

  // ---- The two look-ups on recorded pages -------------------------------------------------------

  /** The newest `ok` row of a series among the runs before `below` that satisfies the hash filter. */
  function NewestOk(w: World, series: string, below: nat, hashedOnly: bool): Option<RunSetRow> {
    if below == 0 then None
    else
      var k := (below - 1, series);
      if k in w.runSets && w.runSets[k].status == SetOk && (hashedOnly ==> w.runSets[k].htmlHash.Some?)
      then Some(w.runSets[k])
      else NewestOk(w, series, below - 1, hashedOnly)
  }

  function StoredHash(w: World, series: string): Option<Digest<Page>> {
    match NewestOk(w, series, |w.runs|, true) case Some(row) => row.htmlHash case None => None
  }

  /** The newest `ok` row of the series, with or without a digest. */
  function Newest(w: World, series: string): Option<RunSetRow> {
    NewestOk(w, series, |w.runs|, false)
  }

  /** The card count of the newest `ok` row. Unlike the hash look-up it does not ask for a digest. */
  function LastSeen(w: World, series: string): int {
    match Newest(w, series) case Some(row) => row.seen case None => 0
  }

  ghost function PrimaryOf(sets: map<string, SetRow>, series: string): Option<string> {
    if exists id :: id in sets && sets[id].series == series then
      var id :| id in sets && sets[id].series == series;
      Some(id)
    else None
  }

  // ---- One page ----------------------------------------------------------------------------------

  datatype UpsertOutcome = Inserted | Updated | Unmodified

  function OutcomeOf(cards: map<string, CardRow>, card: ParsedCard): UpsertOutcome {
    if card.code !in cards then Inserted
    else if Differs(cards[card.code], card) then Updated
    else Unmodified
  }

  function Count(r: Report, o: UpsertOutcome): Report {
    match o
    case Inserted => r.(inserted := r.inserted + 1)
    case Updated => r.(updated := r.updated + 1)
    case Unmodified => r.(unmodified := r.unmodified + 1)
  }

  ghost function EnsureSets(w: World, fate: Fate, ids: seq<string>): Answer
    decreases |ids|
  {
    if ids == [] then Answer(w, Ok)
    else
      var a := Call(w, fate, EnsureSet(ids[0]));
      if a.reply != Ok then a else EnsureSets(a.w, fate, ids[1..])
  }

  datatype Walked = Walked(w: World, report: Report, reply: Reply)

  ghost function UpsertCards(w: World, fate: Fate, primary: string, cards: seq<ParsedCard>, r: Report): Walked
    decreases |cards|
  {
    if cards == [] then Walked(w, r, Ok)
    else
      var c := cards[0];
      var a := Call(w, fate, UpsertCard(SetIdOr(c.code, primary), c));
      if a.reply != Ok then Walked(a.w, r, a.reply)
      else UpsertCards(a.w, fate, primary, cards[1..], Count(r, OutcomeOf(w.cards, c)))
  }

  /** Writing a page whose first card names the primary set: the sets first, then every card. */
  ghost function WritePage(w: World, fate: Fate, v: Visit, primary: string, r: Report): Progress {
    var cards := v.page.cards;
    var a := Call(w, fate, UpsertSet(primary, v.set_));
    if a.reply != Ok then Progress(a.w, r, EndingOf(a.reply))
    else
      var b := EnsureSets(a.w, fate, SecondaryIds(cards, primary));
      if b.reply != Ok then Progress(b.w, r, EndingOf(b.reply))
      else
        var c := UpsertCards(b.w, fate, primary, cards, r);
        Progress(c.w, c.report,
                 if c.reply == Ok then Finished(Some(primary), Some(Sha256(v.page))) else EndingOf(c.reply))
  }

  ghost function WalkPage(w: World, fate: Fate, v: Visit, r: Report): Progress {
    var cards := v.page.cards;
    if cards == [] then Progress(w, r, Finished(None, None))
    else
      match SetIdFromCode(cards[0].code)
      case None => Progress(w, r, Errored)
      case Some(primary) => WritePage(w, fate, v, primary, r.(seen := r.seen + |cards|))
  }

  ghost function SkipPage(w: World, fate: Fate, v: Visit, r: Report): Progress {
    var a := Call(w, fate, Query);
    if a.reply != Ok then Progress(a.w, r, EndingOf(a.reply))
    else
      var n := LastSeen(a.w, v.set_.series);
      var r' := r.(seen := r.seen + n, unmodified := r.unmodified + n);
      var b := Call(a.w, fate, Query);
      Progress(b.w, r',
               if b.reply == Ok then Finished(PrimaryOf(b.w.sets, v.set_.series), Some(Sha256(v.page)))
               else EndingOf(b.reply))
  }

  ghost function ScrapeSet(w: World, fate: Fate, v: Visit, r: Report): Progress {
    var a := Call(w, fate, Query);
    if a.reply != Ok then Progress(a.w, r, EndingOf(a.reply))
    else
      var b := Call(a.w, fate, Query);
      if b.reply != Ok then Progress(b.w, r, EndingOf(b.reply))
      else if StoredHash(b.w, v.set_.series) == Some(Sha256(v.page)) then SkipPage(b.w, fate, v, r)
      else WalkPage(b.w, fate, v, r)
  }

  /** The telemetry row of a visit is opened before and closed after it; failing telemetry is ignored. */
  ghost function ScrapeTracked(w: World, fate: Fate, v: Visit, r: Report): Progress {
    var a := Call(w, fate, OpenRunSet(r.runId, v.set_.series));
    if a.reply == Gone then Progress(a.w, r, Abandoned)
    else CloseTracked(ScrapeSet(a.w, fate, v, r), fate, v, r)
  }

  function ClosingStatement(p: Progress, v: Visit, r: Report): Stmt
    requires p.ending != Abandoned
  {
    var seen, same := p.report.seen - r.seen, p.report.unmodified - r.unmodified;
    match p.ending
    case Errored => CloseRunSet(r.runId, v.set_.series, None, seen, same, None, SetFailed)
    case Finished(primary, htmlHash) => CloseRunSet(r.runId, v.set_.series, primary, seen, same, htmlHash, SetOk)
  }

  ghost function CloseTracked(p: Progress, fate: Fate, v: Visit, r: Report): Progress {
    if p.ending == Abandoned then p
    else
      var c := Call(p.w, fate, ClosingStatement(p, v, r));
      Progress(c.w,
               if p.ending == Errored then p.report else p.report.(setsOk := p.report.setsOk + 1),
               if c.reply == Gone then Abandoned else p.ending)
  }

  // ---- A whole run -------------------------------------------------------------------------------

  datatype Pass = Pass(w: World, report: Report, abandoned: bool)

  ghost function ScrapeAll(w: World, fate: Fate, visits: seq<Visit>, r: Report): Pass
    decreases |visits|
  {
    if visits == [] then Pass(w, r, false)
    else
      var p := ScrapeTracked(w, fate, visits[0], r);
      if p.ending == Abandoned then Pass(p.w, p.report, true)
      else ScrapeAll(p.w, fate, visits[1..], p.report)
  }

  /** How a run ends: it may not open, be abandoned, fail to be closed, or be closed. */
  datatype RunEnd = NotOpened | RunAbandoned | NotClosed | Closed

  datatype Run = Run(w: World, report: Report, end: RunEnd)

  function Fresh(id: nat): Report {
    Report(id, 0, 0, 0, 0, 0, 0, Running)
  }

  function StatusOf(r: Report): RunStatus {
    if r.setsOk == r.setsTotal && r.setsTotal > 0 then Success
    else if r.setsOk > 0 then Partial
    else Failed
  }

  ghost function Close(w: World, fate: Fate, r: Report): Run {
    var c := Call(w, fate, CloseRun(r));
    Run(c.w, r, match c.reply case Ok => Closed case Err => NotClosed case Gone => RunAbandoned)
  }

  /** Creating the image directory and opening the run. */
  ghost function Begin(w: World, fate: Fate): Answer {
    var d := Call(w, fate, Query);
    if d.reply != Ok then d else Call(d.w, fate, OpenRun)
  }

  function NotBegun(a: Answer): Run {
    Run(a.w, Fresh(0), if a.reply == Gone then RunAbandoned else NotOpened)
  }

  /** `index` is the dropdown with the pages behind it; it is missing when the index cannot be parsed. */
  ghost function RunOnce(w: World, fate: Fate, index: Option<seq<Visit>>): Run {
    var o := Begin(w, fate);
    if o.reply != Ok then NotBegun(o) else RunOpened(o.w, fate, index, Fresh(|o.w.runs| - 1))
  }

  ghost function RunOpened(w: World, fate: Fate, index: Option<seq<Visit>>, r: Report): Run {
    var i := Call(w, fate, Query);
    if i.reply == Gone then Run(i.w, r, RunAbandoned)
    else if i.reply == Err || index.None? then Close(i.w, fate, r.(status := Failed))
    else
      var p := ScrapeAll(i.w, fate, index.value, r.(setsTotal := |index.value|));
      if p.abandoned then Run(p.w, p.report, RunAbandoned)
      else Close(p.w, fate, p.report.(status := StatusOf(p.report)))
  }

  function SingleVisit(series: string, page: Page): Visit {
    Visit(ParsedSet(series, series, series), page)
  }

  /** The run of a single dropdown entry, whose series also serves as its name and label. */
  ghost function RunOne(w: World, fate: Fate, series: string, page: Page): Run {
    var o := Begin(w, fate);
    if o.reply != Ok then NotBegun(o)
    else
      var p := ScrapeTracked(o.w, fate, SingleVisit(series, page), Fresh(|o.w.runs| - 1).(setsTotal := 1));
      if p.ending == Abandoned then Run(p.w, p.report, RunAbandoned)
      else Close(p.w, fate, p.report.(status := if p.report.setsOk == 1 then Success else Failed))
  }

  /** The stale-run cleanup of a starting process; a failing first statement keeps the second from running. */
  ghost function CleanupStaleRuns(w: World, fate: Fate): Answer {
    var a := Call(w, fate, CleanRuns);
    if a.reply != Ok then a else Call(a.w, fate, CleanSets)
  }

  // ---- Histories ---------------------------------------------------------------------------------

  datatype Event =
    | FullRun(fate: Fate, index: Option<seq<Visit>>)
    | SingleRun(fate: Fate, series: string, page: Page)
    | Cleanup(fate: Fate)

  ghost function After(w: World, e: Event): World {
    match e
    case FullRun(fate, index) => RunOnce(w, fate, index).w
    case SingleRun(fate, series, page) => RunOne(w, fate, series, page).w
    case Cleanup(fate) => CleanupStaleRuns(w, fate).w
  }

  ghost function History(w: World, events: seq<Event>): World
    decreases |events|
  {
    if events == [] then w else History(After(w, events[0]), events[1..])
  }
}
