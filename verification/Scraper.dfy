/** The scraper as it runs: tables and a report updated in place, one awaited call after another. Every
    method is proved to do exactly what the engine's functions say, so what is proved of those holds here. */
module Scraper {
  import opened Schema
  import opened Parse
  import opened Statements
  import opened Engine
  import opened Integrity
  import opened RunTable

  class Session {
    var cards: map<string, CardRow>
    var sets: map<string, SetRow>
    var runs: seq<RunRow>
    var runSets: map<(nat, string), RunSetRow>
    var step: nat
    var fkErrors: nat
    var uniqueErrors: nat
    var report: Report

    function Tables(): World
      reads this
    {
      World(cards, sets, runs, runSets, step, fkErrors, uniqueErrors)
    }

    constructor ()
      ensures Tables() == EMPTY && report == Fresh(0)
    {
      cards, sets, runs, runSets := map[], map[], [], map[];
      step, fkErrors, uniqueErrors := 0, 0, 0;
      report := Fresh(0);
    }

    // ---- Calls -------------------------------------------------------------------------------------

    method CleanRunRows(now: int)
      modifies this`runs
      ensures Tables() == Effect(old(Tables()), CleanRuns, now)
      ensures forall i :: 0 <= i < |runs| && old(runs)[i].status == Running ==>
        && runs[i].status == Failed
        && runs[i].finishedAt == if old(runs)[i].finishedAt.Some? then old(runs)[i].finishedAt else Some(now)
    {
      var i := 0;
      while i < |runs|
        invariant i <= |runs| == |old(runs)|
        invariant forall j :: 0 <= j < |runs| ==> runs[j] == if j < i then CleanRun(old(runs)[j], now) else old(runs)[j]
      {
        if runs[i].status == Running {
          runs := runs[i := runs[i].(status := Failed, finishedAt := Some(OrElse(runs[i].finishedAt, now)))];
        }
        i := i + 1;
      }
    }

    method CleanRunSetRows(now: int)
      modifies this`runSets
      ensures Tables() == Effect(old(Tables()), CleanSets, now)
      ensures forall k :: k in runSets && old(runSets)[k].status == SetRunning ==>
        && runSets[k].status == SetFailed
        && runSets[k].finishedAt == if old(runSets)[k].finishedAt.Some? then old(runSets)[k].finishedAt else Some(now)
    {
      var todo := runSets.Keys;
      while todo != {}
        invariant runSets.Keys == old(runSets).Keys && todo <= runSets.Keys
        invariant forall k :: k in runSets ==>
          runSets[k] == if k in todo then old(runSets)[k] else CleanRunSet(old(runSets)[k], now)
        decreases |todo|
      {
        var k :| k in todo;
        todo := todo - {k};
        var row := runSets[k];
        if row.status == SetRunning {
          runSets := runSets[k := row.(status := SetFailed, finishedAt := Some(OrElse(row.finishedAt, now)))];
        }
      }
    }

    function Reaction(o: Outcome): Reply {
      match o case Done => Ok case Dropped => Gone case Severed => Gone case _ => Err
    }

    /** A statement the database rejects is an error to whoever still waits for it. */
    function Rejected(reply: Reply): Reply {
      if reply == Gone then Gone else Err
    }

    /** The start of every call: whatever cleanup gets in first. */
    method Await(fate: Fate) returns (m: Moment)
      modifies this`runs, this`runSets, this`step
      ensures m == fate(old(step)) && Tables() == Arrive(old(Tables()), fate)
    {
      m := fate(step);
      if m.cleanRuns { CleanRunRows(m.now); }
      if m.cleanSets { CleanRunSetRows(m.now); }
      step := step + 1;
    }

    method Select(fate: Fate) returns (reply: Reply)
      modifies this`runs, this`runSets, this`step
      ensures Answer(Tables(), reply) == Call(old(Tables()), fate, Query)
    {
      var m := Await(fate);
      reply := Reaction(m.outcome);
    }

    method OpenRunRow(fate: Fate) returns (reply: Reply)
      modifies this`runs, this`runSets, this`step
      ensures Answer(Tables(), reply) == Call(old(Tables()), fate, OpenRun)
    {
      var m := Await(fate);
      if TakesEffect(m.outcome) {
        runs := runs + [RunRow(Running, m.now, None, None)];
      }
      reply := Reaction(m.outcome);
    }

    method CloseRunRow(fate: Fate) returns (reply: Reply)
      modifies this`runs, this`runSets, this`step
      ensures Answer(Tables(), reply) == Call(old(Tables()), fate, CloseRun(report))
    {
      var m := Await(fate);
      var id := report.runId;
      if TakesEffect(m.outcome) && id < |runs| {
        runs := runs[id := runs[id].(status := report.status, finishedAt := Some(m.now), totals := Some(report))];
      }
      reply := Reaction(m.outcome);
    }

    method OpenSetRow(fate: Fate, run: nat, series: string) returns (reply: Reply)
      modifies this`runs, this`runSets, this`step
      ensures Answer(Tables(), reply) == Call(old(Tables()), fate, OpenRunSet(run, series))
    {
      var m := Await(fate);
      if TakesEffect(m.outcome) {
        runSets := runSets[(run, series) := RunSetRow(SetRunning, None, 0, 0, None, m.now, None)];
      }
      reply := Reaction(m.outcome);
    }

    method CloseSetRow(fate: Fate, run: nat, series: string, primary: Option<string>, seen: int, unmodified: int,
                       htmlHash: Option<Digest<Page>>, status: SetStatus)
      returns (reply: Reply)
      modifies this`runs, this`runSets, this`step
      ensures Answer(Tables(), reply) ==
        Call(old(Tables()), fate, CloseRunSet(run, series, primary, seen, unmodified, htmlHash, status))
    {
      var m := Await(fate);
      if TakesEffect(m.outcome) && (run, series) in runSets {
        var row := runSets[(run, series)];
        runSets := runSets[(run, series) := row.(
          finishedAt := Some(m.now), setId := primary, seen := seen, unmodified := unmodified,
          htmlHash := htmlHash, status := status)];
      }
      reply := Reaction(m.outcome);
    }

    method UpsertSetRow(fate: Fate, id: string, s: ParsedSet) returns (reply: Reply)
      modifies this`sets, this`uniqueErrors, this`runs, this`runSets, this`step
      ensures Answer(Tables(), reply) == Call(old(Tables()), fate, UpsertSet(id, s))
    {
      var m := Await(fate);
      reply := Reaction(m.outcome);
      if TakesEffect(m.outcome) {
        if id !in sets {
          if exists other :: other in sets && other != id && sets[other].series == s.series {
            uniqueErrors := uniqueErrors + 1;
            reply := Rejected(reply);
          } else {
            sets := sets[id := SetRow(s.series, s.name, s.displayLabel, m.now, m.now)];
          }
        } else {
          var series := if sets[id].series == id then s.series else sets[id].series;
          if exists other :: other in sets && other != id && sets[other].series == series {
            uniqueErrors := uniqueErrors + 1;
            reply := Rejected(reply);
          } else {
            sets := sets[id :=
              sets[id].(series := series, name := s.name, displayLabel := s.displayLabel, updatedAt := m.now)];
          }
        }
      }
    }

    method EnsureSetRow(fate: Fate, id: string) returns (reply: Reply)
      modifies this`sets, this`uniqueErrors, this`runs, this`runSets, this`step
      ensures Answer(Tables(), reply) == Call(old(Tables()), fate, EnsureSet(id))
    {
      var m := Await(fate);
      reply := Reaction(m.outcome);
      if TakesEffect(m.outcome) && id !in sets {
        if exists other :: other in sets && other != id && sets[other].series == id {
          uniqueErrors := uniqueErrors + 1;
          reply := Rejected(reply);
        } else {
          sets := sets[id := SetRow(id, id, id, m.now, m.now)];
        }
      }
    }

    method UpsertCardRow(fate: Fate, setId: string, card: ParsedCard) returns (reply: Reply, outcome: UpsertOutcome)
      modifies this`cards, this`fkErrors, this`runs, this`runSets, this`step
      ensures Answer(Tables(), reply) == Call(old(Tables()), fate, UpsertCard(setId, card))
      ensures outcome == OutcomeOf(old(cards), card)
    {
      var m := Await(fate);
      reply := Reaction(m.outcome);
      var hash := Sha256(card);
      if card.code !in cards {
        outcome := Inserted;
        if TakesEffect(m.outcome) {
          if setId in sets {
            cards := cards[card.code := CardRow(setId, card, hash, m.now, m.now)];
          } else {
            fkErrors := fkErrors + 1;
            reply := Rejected(reply);
          }
        }
      } else {
        var row := cards[card.code];
        if row.payloadHash != hash || row.card.imageVersion != card.imageVersion {
          outcome := Updated;
          if TakesEffect(m.outcome) {
            if setId in sets || row.setId == setId {
              cards := cards[card.code := row.(setId := setId, card := card, payloadHash := hash, updatedAt := m.now)];
            } else {
              fkErrors := fkErrors + 1;
              reply := Rejected(reply);
            }
          }
        } else {
          outcome := Unmodified;
        }
      }
    }

    // ---- One page ----------------------------------------------------------------------------------

    method EnsureSetRows(fate: Fate, ids: seq<string>) returns (reply: Reply)
      modifies this`sets, this`uniqueErrors, this`runs, this`runSets, this`step
      ensures Answer(Tables(), reply) == EnsureSets(old(Tables()), fate, ids)
    {
      reply := Ok;
      var i := 0;
      while i < |ids| && reply == Ok
        invariant i <= |ids|
        invariant EnsureSets(old(Tables()), fate, ids) ==
          if reply == Ok then EnsureSets(Tables(), fate, ids[i..]) else Answer(Tables(), reply)
      {
        assert ids[i..][0] == ids[i] && ids[i..][1..] == ids[i + 1..];
        reply := EnsureSetRow(fate, ids[i]);
        i := i + 1;
      }
    }

    method CountOutcome(outcome: UpsertOutcome)
      modifies this`report
      ensures report == Count(old(report), outcome)
    {
      match outcome {
        case Inserted => report := report.(inserted := report.inserted + 1);
        case Updated => report := report.(updated := report.updated + 1);
        case Unmodified => report := report.(unmodified := report.unmodified + 1);
      }
    }

    method UpsertCardRows(fate: Fate, primary: string, list: seq<ParsedCard>) returns (reply: Reply)
      modifies this`cards, this`fkErrors, this`runs, this`runSets, this`step, this`report
      ensures Walked(Tables(), report, reply) == UpsertCards(old(Tables()), fate, primary, list, old(report))
    {
      reply := Ok;
      var i := 0;
      while i < |list| && reply == Ok
        invariant i <= |list|
        invariant UpsertCards(old(Tables()), fate, primary, list, old(report)) ==
          if reply == Ok then UpsertCards(Tables(), fate, primary, list[i..], report) else Walked(Tables(), report, reply)
      {
        ghost var w, r, rest := Tables(), report, list[i..];
        var card := list[i];
        assert rest[0] == card && rest[1..] == list[i + 1..];
        var outcome;
        reply, outcome := UpsertCardRow(fate, SetIdOr(card.code, primary), card);
        if reply == Ok { CountOutcome(outcome); }
        assert UpsertCards(w, fate, primary, rest, r) ==
          if reply == Ok then UpsertCards(Tables(), fate, primary, rest[1..], report) else Walked(Tables(), report, reply);
        i := i + 1;
      }
    }

    method WriteOnePage(fate: Fate, v: Visit, primary: string) returns (ending: Ending)
      modifies this
      ensures Progress(Tables(), report, ending) == WritePage(old(Tables()), fate, v, primary, old(report))
    {
      var list := v.page.cards;
      var reply := UpsertSetRow(fate, primary, v.set_);
      if reply != Ok { return EndingOf(reply); }
      reply := EnsureSetRows(fate, SecondaryIds(list, primary));
      if reply != Ok { return EndingOf(reply); }
      reply := UpsertCardRows(fate, primary, list);
      if reply != Ok { return EndingOf(reply); }
      return Finished(Some(primary), Some(Sha256(v.page)));
    }

    method WalkOnePage(fate: Fate, v: Visit) returns (ending: Ending)
      modifies this
      ensures Progress(Tables(), report, ending) == WalkPage(old(Tables()), fate, v, old(report))
      ensures Keeps(old(Tables()), Tables())
    {
      hide Effect, WritePage;
      WalkPageKeeps(Tables(), fate, v, report);
      var list := v.page.cards;
      if list == [] { return Finished(None, None); }
      var primary := SetIdFromCode(list[0].code);
      if primary.None? { return Errored; }
      report := report.(seen := report.seen + |list|);
      ending := WriteOnePage(fate, v, primary.value);
    }

    method SkipOnePage(fate: Fate, v: Visit) returns (ending: Ending)
      requires SeriesUnique(sets)
      modifies this
      ensures Progress(Tables(), report, ending) == SkipPage(old(Tables()), fate, v, old(report))
    {
      var reply := Select(fate);
      if reply != Ok { return EndingOf(reply); }
      var lastSeen := LastSeen(Tables(), v.set_.series);
      report := report.(seen := report.seen + lastSeen, unmodified := report.unmodified + lastSeen);
      reply := Select(fate);
      if reply != Ok { return EndingOf(reply); }
      var primary: Option<string> := None;
      if exists id :: id in sets && sets[id].series == v.set_.series {
        var id :| id in sets && sets[id].series == v.set_.series;
        primary := Some(id);
      }
      return Finished(primary, Some(Sha256(v.page)));
    }

    method ScrapeOneSet(fate: Fate, v: Visit) returns (ending: Ending)
      requires SeriesUnique(sets)
      modifies this
      ensures Progress(Tables(), report, ending) == ScrapeSet(old(Tables()), fate, v, old(report))
    {
      var reply := Select(fate);
      if reply != Ok { return EndingOf(reply); }
      reply := Select(fate);
      if reply != Ok { return EndingOf(reply); }
      if StoredHash(Tables(), v.set_.series) == Some(Sha256(v.page)) {
        ending := SkipOnePage(fate, v);
      } else {
        ending := WalkOnePage(fate, v);
      }
    }

    method ScrapeSetTracked(fate: Fate, v: Visit) returns (ending: Ending)
      requires SeriesUnique(sets)
      modifies this
      ensures Progress(Tables(), report, ending) == ScrapeTracked(old(Tables()), fate, v, old(report))
    {
      var before := report;
      var reply := OpenSetRow(fate, before.runId, v.set_.series);
      if reply == Gone { return Abandoned; }
      ending := ScrapeOneSet(fate, v);
      if ending != Abandoned { ending := CloseVisit(fate, v, before, ending); }
    }

    method CloseVisit(fate: Fate, v: Visit, before: Report, ended: Ending) returns (ending: Ending)
      requires ended != Abandoned
      modifies this
      ensures Progress(Tables(), report, ending) ==
        CloseTracked(Progress(old(Tables()), old(report), ended), fate, v, before)
    {
      hide Call;
      var series := v.set_.series;
      var seen, same := report.seen - before.seen, report.unmodified - before.unmodified;
      var reply;
      match ended {
        case Finished(primary, htmlHash) =>
          report := report.(setsOk := report.setsOk + 1);
          reply := CloseSetRow(fate, before.runId, series, primary, seen, same, htmlHash, SetOk);
        case Errored =>
          reply := CloseSetRow(fate, before.runId, series, None, seen, same, None, SetFailed);
      }
      ending := if reply == Gone then Abandoned else ended;
    }

    // ---- Runs --------------------------------------------------------------------------------------

    method ScrapeSets(fate: Fate, visits: seq<Visit>) returns (abandoned: bool)
      requires Sound(Tables()) && report.runId < |runs|
      modifies this
      ensures Pass(Tables(), report, abandoned) == ScrapeAll(old(Tables()), fate, visits, old(report))
    {
      abandoned := false;
      var i := 0;
      while i < |visits| && !abandoned
        invariant i <= |visits|
        invariant !abandoned ==> Sound(Tables()) && report.runId < |runs|
        invariant ScrapeAll(old(Tables()), fate, visits, old(report)) ==
          if abandoned then Pass(Tables(), report, true) else ScrapeAll(Tables(), fate, visits[i..], report)
      {
        ghost var w, r := Tables(), report;
        assert visits[i..][0] == visits[i] && visits[i..][1..] == visits[i + 1..];
        ScrapeTrackedKeeps(w, fate, visits[i], r);
        ScrapeTrackedCountsSet(w, fate, visits[i], r);
        var ending := ScrapeSetTracked(fate, visits[i]);
        abandoned := ending == Abandoned;
        i := i + 1;
      }
    }

    method CloseCurrentRun(fate: Fate, status: RunStatus) returns (end: RunEnd)
      modifies this
      ensures Run(Tables(), report, end) == Close(old(Tables()), fate, old(report).(status := status))
    {
      report := report.(status := status);
      var reply := CloseRunRow(fate);
      end := match reply case Ok => Closed case Err => NotClosed case Gone => RunAbandoned;
    }

    method OpenCurrentRun(fate: Fate) returns (reply: Reply)
      modifies this
      ensures Answer(Tables(), reply) == Begin(old(Tables()), fate)
      ensures report == if reply == Ok then Fresh(|runs| - 1) else Fresh(0)
    {
      report := Fresh(0);
      reply := Select(fate);
      if reply == Ok {
        reply := OpenRunRow(fate);
        if reply == Ok { report := Fresh(|runs| - 1); }
      }
    }

    method ScrapeEverything(fate: Fate, index: Option<seq<Visit>>) returns (end: RunEnd)
      requires Sound(Tables())
      modifies this
      ensures Run(Tables(), report, end) == RunOnce(old(Tables()), fate, index)
      ensures Sound(Tables()) && Evolves(old(Tables()), Tables()) && Leaves(old(Tables()), Run(Tables(), report, end))
    {
      hide Effect, ScrapeAll, Close;
      ghost var w := Tables();
      RunOnceKeeps(w, fate, index);
      RunLeaves(w, fate, index);
      BeginKeeps(w, fate);
      var reply := OpenCurrentRun(fate);
      if reply == Gone { return RunAbandoned; }
      if reply == Err { return NotOpened; }
      CallKeeps(Tables(), fate, Query);
      reply := Select(fate);
      if reply == Gone { return RunAbandoned; }
      if reply == Err || index.None? {
        end := CloseCurrentRun(fate, Failed);
        return;
      }
      report := report.(setsTotal := |index.value|);
      var abandoned := ScrapeSets(fate, index.value);
      if abandoned { return RunAbandoned; }
      var status :=
        if report.setsOk == report.setsTotal && report.setsTotal > 0 then Success
        else if report.setsOk > 0 then Partial
        else Failed;
      end := CloseCurrentRun(fate, status);
    }

    method ScrapeOneSeries(fate: Fate, series: string, page: Page) returns (end: RunEnd)
      requires Sound(Tables())
      modifies this
      ensures Run(Tables(), report, end) == RunOne(old(Tables()), fate, series, page)
      ensures Sound(Tables()) && Evolves(old(Tables()), Tables()) && Leaves(old(Tables()), Run(Tables(), report, end))
    {
      hide Effect, ScrapeTracked, Close;
      RunOneKeeps(Tables(), fate, series, page);
      SingleRunLeaves(Tables(), fate, series, page);
      BeginKeeps(Tables(), fate);
      var reply := OpenCurrentRun(fate);
      if reply == Gone { return RunAbandoned; }
      if reply == Err { return NotOpened; }
      report := report.(setsTotal := 1);
      var ending := ScrapeSetTracked(fate, SingleVisit(series, page));
      if ending == Abandoned { return RunAbandoned; }
      end := CloseCurrentRun(fate, if report.setsOk == 1 then Success else Failed);
    }

    method CleanRunsCall(fate: Fate) returns (reply: Reply)
      modifies this`runs, this`runSets, this`step
      ensures Answer(Tables(), reply) == Call(old(Tables()), fate, CleanRuns)
    {
      var m := Await(fate);
      if TakesEffect(m.outcome) { CleanRunRows(m.now); }
      reply := Reaction(m.outcome);
    }

    method CleanSetsCall(fate: Fate) returns (reply: Reply)
      modifies this`runs, this`runSets, this`step
      ensures Answer(Tables(), reply) == Call(old(Tables()), fate, CleanSets)
    {
      var m := Await(fate);
      if TakesEffect(m.outcome) { CleanRunSetRows(m.now); }
      reply := Reaction(m.outcome);
    }

    method CleanUpStaleRuns(fate: Fate) returns (reply: Reply)
      modifies this`runs, this`runSets, this`step
      ensures Answer(Tables(), reply) == CleanupStaleRuns(old(Tables()), fate)
    {
      reply := CleanRunsCall(fate);
      if reply == Ok {
        reply := CleanSetsCall(fate);
      }
    }
  }
}
