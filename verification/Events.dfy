/** The shape of every event of a history: calls that spare the catalogue and the recorded pages, around a
    pass over the event's visits. */
module Events {
  import opened Schema
  import opened Statements
  import opened Engine
  import opened Integrity
  import opened Frames

  /** The catalogue and the `ok` telemetry rows are as before, no telemetry row was added or removed, and no
      statement was rejected for a series already taken. */
  ghost predicate Spares(w: World, w': World) {
    && w'.cards == w.cards && w'.sets == w.sets && w'.uniqueErrors == w.uniqueErrors
    && (forall k :: SameOk(w, w', k))
    && w'.runSets.Keys == w.runSets.Keys
  }

  lemma SparesIsTransitive(a: World, b: World, c: World)
    requires Spares(a, b) && Spares(b, c)
    ensures Spares(a, c)
  {
    forall k ensures SameOk(a, c, k) { assert SameOk(a, b, k) && SameOk(b, c, k); }
  }

  predicate AboutRuns(s: Stmt) {
    s in {OpenRun, Query, CleanRuns, CleanSets} || s.CloseRun?
  }

  lemma ExecuteSpares(w: World, s: Stmt, now: int)
    requires AboutRuns(s)
    ensures Spares(w, Execute(w, s, now).w)
  {
  }

  lemma ArriveSpares(w: World, fate: Fate)
    ensures Spares(w, Arrive(w, fate))
  {
  }

  lemma CallSpares(w: World, fate: Fate, s: Stmt)
    requires AboutRuns(s)
    ensures Spares(w, Call(w, fate, s).w)
  {
    var v := Arrive(w, fate);
    ArriveSpares(w, fate);
    ExecuteSpares(v, s, fate(w.step).now);
    SparesIsTransitive(w, v, Execute(v, s, fate(w.step).now).w);
  }

  lemma QueryKeepsRuns(w: World, fate: Fate)
    ensures |Call(w, fate, Query).w.runs| == |w.runs|
  {
  }

  lemma OpeningAddsRun(w: World, fate: Fate)
    ensures
      var a := Call(w, fate, OpenRun);
      |w.runs| <= |a.w.runs| <= |w.runs| + 1 && (a.reply == Ok ==> |a.w.runs| == |w.runs| + 1)
  {
  }

  lemma BeginSpares(w: World, fate: Fate)
    ensures
      var o := Begin(w, fate);
      && Spares(w, o.w) && |w.runs| <= |o.w.runs| <= |w.runs| + 1 && (o.reply == Ok ==> |o.w.runs| == |w.runs| + 1)
  {
    hide Call;
    var d := Call(w, fate, Query);
    QueryKeepsRuns(w, fate);
    OpeningAddsRun(d.w, fate);
    CallSpares(w, fate, Query);
    CallSpares(d.w, fate, OpenRun);
    SparesIsTransitive(w, d.w, Call(d.w, fate, OpenRun).w);
  }

  lemma CloseSpares(w: World, fate: Fate, r: Report)
    ensures Spares(w, Close(w, fate, r).w) && |Close(w, fate, r).w.runs| == |w.runs|
  {
    CallSpares(w, fate, CloseRun(r));
  }

  /** The tables and totals an event's visits start from, and the visits, if the event gets that far. */
  datatype Start = Start(w: World, r: Report, visits: seq<Visit>)

  ghost function StartOf(w: World, e: Event): Option<Start> {
    match e
    case FullRun(fate, index) =>
      var o := Begin(w, fate);
      var i := Call(o.w, fate, Query);
      if o.reply == Ok && i.reply == Ok && index.Some? then
        Some(Start(i.w, Fresh(|o.w.runs| - 1).(setsTotal := |index.value|), index.value))
      else None
    case SingleRun(fate, series, page) =>
      var o := Begin(w, fate);
      if o.reply == Ok then Some(Start(o.w, Fresh(|o.w.runs| - 1).(setsTotal := 1), [SingleVisit(series, page)]))
      else None
    case Cleanup(_) => None
  }

  /** What the visits of an event leave, before its run is closed. */
  ghost function PassOf(s: Start, fate: Fate): Pass {
    ScrapeAll(s.w, fate, s.visits, s.r)
  }

  lemma SinglePass(w: World, fate: Fate, v: Visit, r: Report)
    ensures
      var p := ScrapeTracked(w, fate, v, r);
      ScrapeAll(w, fate, [v], r) == Pass(p.w, p.report, p.ending == Abandoned)
  {
    assert [v][1..] == [];
  }

  lemma StartSpares(w: World, e: Event)
    requires StartOf(w, e).Some?
    ensures
      var s := StartOf(w, e).value;
      Spares(w, s.w) && |s.w.runs| == |w.runs| + 1 && s.r.runId == |w.runs|
  {
    var o := Begin(w, e.fate);
    BeginSpares(w, e.fate);
    if e.FullRun? {
      CallSpares(o.w, e.fate, Query);
      SparesIsTransitive(w, o.w, Call(o.w, e.fate, Query).w);
    }
  }

  /** A full run whose pass was not abandoned ends with the call that closes it. */
  lemma EndCall(w: World, fate: Fate, index: Option<seq<Visit>>, s: Start)
    requires StartOf(w, FullRun(fate, index)) == Some(s) && !PassOf(s, fate).abandoned
    ensures
      var p := PassOf(s, fate);
      After(w, FullRun(fate, index)) == Call(p.w, fate, CloseRun(p.report.(status := StatusOf(p.report)))).w
  {
  }

  lemma EndSpares(w: World, e: Event)
    requires StartOf(w, e).Some?
    ensures
      var p := PassOf(StartOf(w, e).value, e.fate);
      Spares(p.w, After(w, e)) && |After(w, e).runs| == |p.w.runs|
  {
    var s := StartOf(w, e).value;
    var p := PassOf(s, e.fate);
    match e
    case FullRun(fate, index) => CloseSpares(p.w, fate, p.report.(status := StatusOf(p.report)));
    case SingleRun(fate, series, page) =>
      SinglePass(s.w, fate, SingleVisit(series, page), s.r);
      CloseSpares(p.w, fate, p.report.(status := if p.report.setsOk == 1 then Success else Failed));
  }

  lemma UnscrapedSpares(w: World, fate: Fate, index: Option<seq<Visit>>, r: Report)
    requires Call(w, fate, Query).reply != Ok || index.None?
    ensures
      var x := RunOpened(w, fate, index, r);
      Spares(w, x.w) && |x.w.runs| == |w.runs|
  {
    var i := Call(w, fate, Query);
    CallSpares(w, fate, Query);
    if i.reply != Gone {
      CloseSpares(i.w, fate, r.(status := Failed));
      SparesIsTransitive(w, i.w, RunOpened(w, fate, index, r).w);
    }
  }

  lemma CleanupSpares(w: World, fate: Fate)
    ensures
      var c := CleanupStaleRuns(w, fate);
      Spares(w, c.w) && |c.w.runs| == |w.runs|
  {
    var a := Call(w, fate, CleanRuns);
    CallSpares(w, fate, CleanRuns);
    if a.reply == Ok {
      CallSpares(a.w, fate, CleanSets);
      SparesIsTransitive(w, a.w, Call(a.w, fate, CleanSets).w);
    }
  }

  lemma NoStartSpares(w: World, e: Event)
    requires StartOf(w, e).None?
    ensures Spares(w, After(w, e)) && |w.runs| <= |After(w, e).runs| <= |w.runs| + 1
  {
    hide Call, Begin;
    match e {
      case FullRun(fate, index) =>
        var o := Begin(w, fate);
        BeginSpares(w, fate);
        if o.reply == Ok {
          UnscrapedSpares(o.w, fate, index, Fresh(|o.w.runs| - 1));
          SparesIsTransitive(w, o.w, After(w, e));
        } else {
          assert After(w, e) == o.w;
        }
      case SingleRun(fate, series, page) =>
        BeginSpares(w, fate);
        assert After(w, e) == Begin(w, fate).w;
      case Cleanup(fate) => CleanupSpares(w, fate);
    }
  }

  // ---- Conditions on every visit of a history --------------------------------------------------------

  /** The visited series has no telemetry row yet in the newest run. */
  ghost predicate Unvisited(w: World, run: nat, series: string) {
    |w.runs| == run + 1 && (run, series) !in w.runSets
  }

  ghost predicate DistinctSeries(visits: seq<Visit>) {
    forall i, j :: 0 <= i < j < |visits| ==> visits[i].set_.series != visits[j].set_.series
  }

  ghost predicate AllUnvisited(w: World, run: nat, visits: seq<Visit>) {
    |w.runs| == run + 1 && forall v :: v in visits ==> (run, v.set_.series) !in w.runSets
  }

  /** A condition on the tables before and after a visit. */
  type VisitCondition = (World, World, Visit) -> bool

  ghost predicate Throughout(w: World, fate: Fate, visits: seq<Visit>, r: Report, p: VisitCondition)
    decreases |visits|
  {
    visits != [] ==>
      var q := ScrapeTracked(w, fate, visits[0], r);
      p(w, q.w, visits[0]) && (q.ending != Abandoned ==> Throughout(q.w, fate, visits[1..], q.report, p))
  }

  ghost predicate EventThroughout(w: World, e: Event, p: VisitCondition) {
    match StartOf(w, e)
    case None => true
    case Some(s) => Throughout(s.w, e.fate, s.visits, s.r, p)
  }

  ghost predicate HistoryThroughout(w: World, events: seq<Event>, p: VisitCondition)
    decreases |events|
  {
    events != [] ==> EventThroughout(w, events[0], p) && HistoryThroughout(After(w, events[0]), events[1..], p)
  }

  function VisitsOf(e: Event): seq<Visit> {
    match e
    case FullRun(_, index) => (match index case Some(visits) => visits case None => [])
    case SingleRun(_, series, page) => [SingleVisit(series, page)]
    case Cleanup(_) => []
  }

  lemma NextIsUnvisited(w: World, fate: Fate, visits: seq<Visit>, r: Report)
    requires visits != [] && DistinctSeries(visits) && AllUnvisited(w, r.runId, visits)
    ensures
      var p := ScrapeTracked(w, fate, visits[0], r);
      DistinctSeries(visits[1..]) && AllUnvisited(p.w, p.report.runId, visits[1..])
  {
    ScrapeTrackedWithin(w, fate, visits[0], r);
    ScrapeTrackedCountsSet(w, fate, visits[0], r);
    var p := ScrapeTracked(w, fate, visits[0], r);
    forall v | v in visits[1..] ensures (r.runId, v.set_.series) !in p.w.runSets {
      var i :| 0 <= i < |visits[1..]| && visits[1..][i] == v;
      assert visits[i + 1] == v && v in visits;
      var k := (r.runId, v.set_.series);
      assert !(k.0 == r.runId && k.1 in {visits[0].set_.series});
    }
  }

  lemma StartIsUnvisited(w: World, e: Event)
    requires RunSetsSound(w) && StartOf(w, e).Some?
    ensures
      var s := StartOf(w, e).value;
      AllUnvisited(s.w, s.r.runId, s.visits)
  {
    StartSpares(w, e);
    var s := StartOf(w, e).value;
    forall v | v in s.visits ensures (s.r.runId, v.set_.series) !in s.w.runSets {
      assert (s.r.runId, v.set_.series) !in w.runSets;
    }
  }

  /** The tables are sound wherever an event's visits start and stop. */
  lemma StartIsSound(w: World, e: Event)
    requires Sound(w) && StartOf(w, e).Some?
    ensures
      var s := StartOf(w, e).value;
      Sound(s.w) && Sound(PassOf(s, e.fate).w)
  {
    var s := StartOf(w, e).value;
    BeginKeeps(w, e.fate);
    if e.FullRun? { CallKeeps(Begin(w, e.fate).w, e.fate, Query); }
    StartSpares(w, e);
    ScrapeAllKeeps(s.w, e.fate, s.visits, s.r);
  }

  /** A run reports what its pass over the dropdown counted, from zero, and the status it closes with. */
  lemma RunReport(w: World, fate: Fate, visits: seq<Visit>)
    ensures
      var x := RunOnce(w, fate, Some(visits));
      match StartOf(w, FullRun(fate, Some(visits)))
      case None => x.report == Fresh(x.report.runId).(status := x.report.status) && x.report.status in {Running, Failed}
      case Some(s) =>
        var p := PassOf(s, fate);
        && s.r == Fresh(s.r.runId).(setsTotal := |visits|)
        && (p.abandoned ==> x.end == RunAbandoned && x.report == p.report)
        && (!p.abandoned ==> x.report == p.report.(status := StatusOf(p.report)))
  {
    hide Call, Begin, ScrapeAll;
    var o := Begin(w, fate);
    BeginSpares(w, fate);
    if o.reply == Ok { OpenedReport(o.w, fate, visits, Fresh(|o.w.runs| - 1)); }
  }

  lemma OpenedReport(w: World, fate: Fate, visits: seq<Visit>, r: Report)
    ensures
      var i := Call(w, fate, Query);
      var x := RunOpened(w, fate, Some(visits), r);
      var p := ScrapeAll(i.w, fate, visits, r.(setsTotal := |visits|));
      if i.reply == Gone then x.report == r
      else if i.reply == Err then x.report == r.(status := Failed)
      else if p.abandoned then x.report == p.report && x.end == RunAbandoned
      else x.report == p.report.(status := StatusOf(p.report))
  {
    hide Call, ScrapeAll;
  }

  lemma SingleRunReport(w: World, fate: Fate, series: string, page: Page)
    ensures
      var x := RunOne(w, fate, series, page);
      match StartOf(w, SingleRun(fate, series, page))
      case None => x.report == Fresh(0)
      case Some(s) =>
        && s.r == Fresh(s.r.runId).(setsTotal := 1) && s.visits == [SingleVisit(series, page)]
        && x.report == PassOf(s, fate).report.(status := x.report.status)
  {
    hide Call, Begin, ScrapeTracked;
    var o := Begin(w, fate);
    BeginSpares(w, fate);
    if o.reply == Ok {
      SinglePass(o.w, fate, SingleVisit(series, page), Fresh(|o.w.runs| - 1).(setsTotal := 1));
    }
  }

  // ---- Passes that finish every page -----------------------------------------------------------------

  lemma {:induction false} SetsOkIsBounded(w: World, fate: Fate, visits: seq<Visit>, r: Report)
    ensures ScrapeAll(w, fate, visits, r).report.setsOk <= r.setsOk + |visits|
    decreases |visits|
  {
    if visits != [] {
      var p := ScrapeTracked(w, fate, visits[0], r);
      ScrapeTrackedCountsSet(w, fate, visits[0], r);
      if p.ending != Abandoned { SetsOkIsBounded(p.w, fate, visits[1..], p.report); }
    }
  }

  /** A pass that was not abandoned and counts every set as done. */
  ghost predicate AllDone(w: World, fate: Fate, visits: seq<Visit>, r: Report) {
    var p := ScrapeAll(w, fate, visits, r);
    !p.abandoned && p.report.setsOk == r.setsOk + |visits|
  }

  lemma DoneStepByStep(w: World, fate: Fate, visits: seq<Visit>, r: Report)
    requires visits != [] && AllDone(w, fate, visits, r)
    ensures
      var p := ScrapeTracked(w, fate, visits[0], r);
      p.ending.Finished? && AllDone(p.w, fate, visits[1..], p.report)
  {
    var p := ScrapeTracked(w, fate, visits[0], r);
    ScrapeTrackedCountsSet(w, fate, visits[0], r);
    SetsOkIsBounded(p.w, fate, visits[1..], p.report);
  }
}
