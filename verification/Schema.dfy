/** The values the scraper moves around and the rows it stores.
    A SHA-256 digest is represented by its preimage: digests are equal exactly when the hashed values are. */
module Schema {
  datatype Option<+T> = None | Some(value: T)

  datatype Digest<T> = Sha256(of: T)

  /** One option of the sets dropdown. */
  datatype ParsedSet = ParsedSet(series: string, name: string, displayLabel: string)

  /** One card of a page. `details` stands for the descriptive columns, which are only ever copied. */
  datatype ParsedCard = ParsedCard(code: string, imageFile: string, imageVersion: string, details: string)

  /** A fetched page: its raw text, and the cards the parser finds in that text. */
  datatype Page = Page(markup: string, cards: seq<ParsedCard>)

  /** A dropdown entry together with the page its fetch returns. */
  datatype Visit = Visit(set_: ParsedSet, page: Page)

  datatype CardRow = CardRow(
    setId: string, card: ParsedCard, payloadHash: Digest<ParsedCard>, firstSeen: int, updatedAt: int)

  datatype SetRow = SetRow(series: string, name: string, displayLabel: string, createdAt: int, updatedAt: int)

  datatype RunStatus = Running | Success | Partial | Failed

  /** The running totals of a scrape, and what `scrape_runs` stores of them when the run is closed. */
  datatype Report = Report(
    runId: nat, setsTotal: int, setsOk: int,
    seen: int, inserted: int, updated: int, unmodified: int, status: RunStatus)

  datatype RunRow = RunRow(status: RunStatus, startedAt: int, finishedAt: Option<int>, totals: Option<Report>)

  datatype SetStatus = SetRunning | SetOk | SetFailed

  datatype RunSetRow = RunSetRow(
    status: SetStatus, setId: Option<string>, seen: int, unmodified: int,
    htmlHash: Option<Digest<Page>>, startedAt: int, finishedAt: Option<int>)

  /** The four tables. Run ids are assigned in insertion order, so a run's id is its index in `runs`.
      `step` counts the calls made so far; the last two fields count statements the database rejected. */
  datatype World = World(
    cards: map<string, CardRow>,
    sets: map<string, SetRow>,
    runs: seq<RunRow>,
    runSets: map<(nat, string), RunSetRow>,
    step: nat,
    fkErrors: nat,
    uniqueErrors: nat)

  const EMPTY: World := World(map[], map[], [], map[], 0, 0, 0)

  /** What becomes of one call: it succeeds; it fails without effect; it takes effect but its reply is lost;
      the caller's future is dropped while waiting for it, and it has no effect; or it is dropped and the
      database carries the statement out all the same. */
  datatype Outcome = Done | Refused | Lost | Dropped | Severed

  predicate TakesEffect(o: Outcome) {
    o in {Done, Lost, Severed}
  }

  /** The circumstances of one call: the clock, whether a starting process runs either statement of the
      stale-run cleanup just before it, and what becomes of the call. */
  datatype Moment = Moment(now: int, cleanRuns: bool, cleanSets: bool, outcome: Outcome)

  type Fate = nat -> Moment
}
