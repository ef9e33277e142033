/** The SQL statements of the scraper, their effect on the tables, and the calls that carry them out. */
module Statements {
  import opened Schema

  datatype Stmt =
    | OpenRun
    | CloseRun(report: Report)
    | OpenRunSet(run: nat, series: string)
    | CloseRunSet(run: nat, series: string, primary: Option<string>, seen: int, unmodified: int,
                  htmlHash: Option<Digest<Page>>, status: SetStatus)
    | UpsertSet(id: string, set_: ParsedSet)
    | EnsureSet(id: string)
    | UpsertCard(setId: string, card: ParsedCard)
    | Query
    | CleanRuns
    | CleanSets

  /** What a caller learns: success, an error, or nothing because its future is gone. */
  datatype Reply = Ok | Err | Gone

  datatype Answer = Answer(w: World, reply: Reply)

  function OrElse<T>(o: Option<T>, d: T): T {
    match o case Some(v) => v case None => d
  }

  /** Another set already holds this series. */
  predicate Taken(sets: map<string, SetRow>, id: string, series: string) {
    exists other :: other in sets && other != id && sets[other].series == series
  }

  /** The series a set row holds after `upsert_set`: only a placeholder, equal to the id, gives way. */
  function PromotedSeries(sets: map<string, SetRow>, id: string, series: string): string {
    if id in sets && sets[id].series != id then sets[id].series else series
  }

  predicate BreaksUnique(w: World, s: Stmt) {
    match s
    case UpsertSet(id, set_) => Taken(w.sets, id, PromotedSeries(w.sets, id, set_.series))
    case EnsureSet(id) => id !in w.sets && Taken(w.sets, id, id)
    case _ => false
  }

  predicate Differs(row: CardRow, card: ParsedCard) {
    row.payloadHash != Sha256(card) || row.card.imageVersion != card.imageVersion
  }

  /** An upsert only checks the reference to its set when it writes it. */
  predicate BreaksForeignKey(w: World, s: Stmt) {
    match s
    case UpsertCard(setId, card) =>
      setId !in w.sets && (card.code !in w.cards || (Differs(w.cards[card.code], card) && w.cards[card.code].setId != setId))
    case _ => false
  }

  function CleanRun(row: RunRow, now: int): RunRow {
    if row.status != Running then row
    else row.(status := Failed, finishedAt := Some(OrElse(row.finishedAt, now)))
  }

  function CleanRunSet(row: RunSetRow, now: int): RunSetRow {
    if row.status != SetRunning then row
    else row.(status := SetFailed, finishedAt := Some(OrElse(row.finishedAt, now)))
  }

  function CardsAfter(cards: map<string, CardRow>, setId: string, card: ParsedCard, now: int): map<string, CardRow> {
    if card.code !in cards then
      cards[card.code := CardRow(setId, card, Sha256(card), now, now)]
    else if Differs(cards[card.code], card) then
      cards[card.code := CardRow(setId, card, Sha256(card), cards[card.code].firstSeen, now)]
    else cards
  }

  function SetsAfterUpsert(sets: map<string, SetRow>, id: string, s: ParsedSet, now: int): map<string, SetRow> {
    var created := if id in sets then sets[id].createdAt else now;
    sets[id := SetRow(PromotedSeries(sets, id, s.series), s.name, s.displayLabel, created, now)]
  }

  function Effect(w: World, s: Stmt, now: int): World {
    match s
    case OpenRun => w.(runs := w.runs + [RunRow(Running, now, None, None)])
    case CloseRun(report) =>
      if report.runId < |w.runs| then
        w.(runs := w.runs[report.runId :=
          w.runs[report.runId].(status := report.status, finishedAt := Some(now), totals := Some(report))])
      else w
    case OpenRunSet(run, series) =>
      w.(runSets := w.runSets[(run, series) := RunSetRow(SetRunning, None, 0, 0, None, now, None)])
    case CloseRunSet(run, series, primary, seen, unmodified, htmlHash, status) =>
      if (run, series) in w.runSets then
        w.(runSets := w.runSets[(run, series) :=
          RunSetRow(status, primary, seen, unmodified, htmlHash, w.runSets[(run, series)].startedAt, Some(now))])
      else w
    case UpsertSet(id, set_) => w.(sets := SetsAfterUpsert(w.sets, id, set_, now))
    case EnsureSet(id) =>
      if id in w.sets then w else w.(sets := w.sets[id := SetRow(id, id, id, now, now)])
    case UpsertCard(setId, card) => w.(cards := CardsAfter(w.cards, setId, card, now))
    case Query => w
    case CleanRuns => w.(runs := seq(|w.runs|, i requires 0 <= i < |w.runs| => CleanRun(w.runs[i], now)))
    case CleanSets => w.(runSets := map k | k in w.runSets :: CleanRunSet(w.runSets[k], now))
  }

  /** A statement the database carries out, unless it breaks a constraint. */
  function Execute(w: World, s: Stmt, now: int): Answer {
    if BreaksUnique(w, s) then Answer(w.(uniqueErrors := w.uniqueErrors + 1), Err)
    else if BreaksForeignKey(w, s) then Answer(w.(fkErrors := w.fkErrors + 1), Err)
    else Answer(Effect(w, s, now), Ok)
  }

  /** The tables as a call finds them: one step later, after any cleanup that got in first. */
  function Arrive(w: World, fate: Fate): World {
    var m := fate(w.step);
    var a := if m.cleanRuns then Effect(w, CleanRuns, m.now) else w;
    var b := if m.cleanSets then Effect(a, CleanSets, m.now) else a;
    b.(step := w.step + 1)
  }

  function Call(w: World, fate: Fate, s: Stmt): Answer {
    var m := fate(w.step);
    var v := Arrive(w, fate);
    match m.outcome
    case Done => Execute(v, s, m.now)
    case Lost => Answer(Execute(v, s, m.now).w, Err)
    case Refused => Answer(v, Err)
    case Dropped => Answer(v, Gone)
    case Severed => Answer(Execute(v, s, m.now).w, Gone)
  }

  /** The statement is carried out and not rejected, whether or not its caller learns of it. */
  predicate Applies(w: World, fate: Fate, s: Stmt) {
    TakesEffect(fate(w.step).outcome) && Execute(Arrive(w, fate), s, fate(w.step).now).reply == Ok
  }
}
