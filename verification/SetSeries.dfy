/** How `source_series` settles: each set's is written once, never collides, and does not depend on the
    order in which pages are visited. */
module SetSeries {
  import opened Schema
  import opened Parse
  import opened Statements
  import opened Engine
  import opened Integrity
  import opened Frames
  import opened Events
  import opened HashSkip

  type SeriesMap = map<string, string>

  function SeriesMapOf(sets: map<string, SetRow>): SeriesMap {
    map id | id in sets :: sets[id].series
  }

  // ---- Written once ------------------------------------------------------------------------------------

  /** The states a sequence of calls goes through. */
  ghost function Calls(w: World, fate: Fate, stmts: seq<Stmt>): seq<World>
    ensures |Calls(w, fate, stmts)| == |stmts| + 1 && Calls(w, fate, stmts)[0] == w
    decreases |stmts|
  {
    if stmts == [] then [w] else [w] + Calls(Call(w, fate, stmts[0]).w, fate, stmts[1..])
  }

  /** How often the series of a set changes along a sequence of states. */
  ghost function Changes(ws: seq<World>, id: string): nat {
    if |ws| < 2 then 0
    else
      (if id in ws[0].sets && id in ws[1].sets && ws[0].sets[id].series != ws[1].sets[id].series then 1 else 0)
      + Changes(ws[1..], id)
  }

  lemma CallKeepsSeries(w: World, fate: Fate, s: Stmt, id: string)
    requires id in w.sets
    ensures
      var sets := Call(w, fate, s).w.sets;
      id in sets && (sets[id].series == w.sets[id].series || w.sets[id].series == id)
  {
    hide Effect;
    ArriveLeavesSets(w, fate);
    ExecuteKeepsSeries(Arrive(w, fate), s, fate(w.step).now, id);
  }

  lemma ExecuteKeepsSeries(w: World, s: Stmt, now: int, id: string)
    requires id in w.sets
    ensures
      var sets := Execute(w, s, now).w.sets;
      id in sets && (sets[id].series == w.sets[id].series || w.sets[id].series == id)
  {
  }

  /** Over any sequence of statements, whatever becomes of each, a set stays, and its series changes at most
      once: from its own placeholder, to a value it keeps. */
  lemma {:induction false} SeriesIsWrittenOnce(w: World, fate: Fate, stmts: seq<Stmt>, id: string)
    requires id in w.sets
    ensures
      var ws := Calls(w, fate, stmts);
      && id in ws[|stmts|].sets
      && Changes(ws, id) <= (if w.sets[id].series == id then 1 else 0)
      && (w.sets[id].series != id ==> ws[|stmts|].sets[id].series == w.sets[id].series)
    decreases |stmts|
  {
    if stmts != [] {
      var w' := Call(w, fate, stmts[0]).w;
      CallKeepsSeries(w, fate, stmts[0], id);
      SeriesIsWrittenOnce(w', fate, stmts[1..], id);
      assert Calls(w, fate, stmts)[1..] == Calls(w', fate, stmts[1..]);
    }
  }

  // ---- What a set row says --------------------------------------------------------------------------------

  /** An acknowledged upsert of a set stores the dropdown's name and label, keeps the creation time, and leaves
      every other set alone. */
  lemma UpsertTellsEffect(w: World, fate: Fate, id: string, set_: ParsedSet)
    requires Call(w, fate, UpsertSet(id, set_)).reply == Ok
    ensures
      var sets := Call(w, fate, UpsertSet(id, set_)).w.sets;
      && id in sets && sets == w.sets[id := sets[id]]
      && sets[id].name == set_.name && sets[id].displayLabel == set_.displayLabel
      && sets[id].series == (if id in w.sets && w.sets[id].series != id then w.sets[id].series else set_.series)
      && sets[id].createdAt == (if id in w.sets then w.sets[id].createdAt else fate(w.step).now)
      && sets[id].updatedAt == fate(w.step).now
  {
    hide BreaksUnique;
    ArriveLeavesSets(w, fate);
  }

  /** An acknowledged placeholder is named and labelled by its id; a set that was there is not touched. */
  lemma EnsureTellsEffect(w: World, fate: Fate, id: string)
    requires Call(w, fate, EnsureSet(id)).reply == Ok
    ensures
      var sets := Call(w, fate, EnsureSet(id)).w.sets;
      && id in sets && sets == w.sets[id := sets[id]]
      && (if id in w.sets then sets[id] == w.sets[id]
          else sets[id].series == sets[id].name == sets[id].displayLabel == id)
  {
    hide BreaksUnique;
    ArriveLeavesSets(w, fate);
  }

  lemma {:induction false} EnsureSetsLeaveRows(w: World, fate: Fate, ids: seq<string>, id: string)
    requires id in w.sets && EnsureSets(w, fate, ids).reply == Ok
    ensures id in EnsureSets(w, fate, ids).w.sets && EnsureSets(w, fate, ids).w.sets[id] == w.sets[id]
    decreases |ids|
  {
    hide Call;
    if ids != [] {
      EnsureTellsEffect(w, fate, ids[0]);
      EnsureSetsLeaveRows(Call(w, fate, EnsureSet(ids[0])).w, fate, ids[1..], id);
    }
  }

  /** A page walked to its end leaves its primary set with the name and label of its dropdown entry. */
  lemma WalkedSetIsDescribed(w: World, fate: Fate, v: Visit, primary: string, r: Report)
    requires WritePage(w, fate, v, primary, r).ending.Finished?
    ensures
      var sets := WritePage(w, fate, v, primary, r).w.sets;
      primary in sets && sets[primary].name == v.set_.name && sets[primary].displayLabel == v.set_.displayLabel
  {
    hide Call;
    var a := Call(w, fate, UpsertSet(primary, v.set_));
    var ids := SecondaryIds(v.page.cards, primary);
    UpsertTellsEffect(w, fate, primary, v.set_);
    EnsureSetsLeaveRows(a.w, fate, ids, primary);
    UpsertCardsKeepSets(EnsureSets(a.w, fate, ids).w, fate, primary, v.page.cards, r);
  }

  // ---- Never colliding -----------------------------------------------------------------------------------

  /** The set ids in use, and the series each of them has on the site. */
  datatype Registry = Registry(ids: set<string>, seriesOf: string -> string) {
    /** Ids and series do not mix, and no two sets share a series. */
    ghost predicate Stable() {
      && (forall a, b :: a in ids && b in ids && seriesOf(a) == seriesOf(b) ==> a == b)
      && (forall a, b :: a in ids && b in ids ==> seriesOf(a) != b)
    }
  }

  ghost predicate Conforms(sets: map<string, SetRow>, reg: Registry) {
    forall id :: id in sets ==> id in reg.ids && sets[id].series in {id, reg.seriesOf(id)}
  }

  /** The page belongs to the set its first card names, and refers to known sets. */
  ghost predicate PageConforms(v: Visit, reg: Registry) {
    v.page.cards != [] ==>
      match SetIdFromCode(v.page.cards[0].code)
      case None => true
      case Some(primary) =>
        && primary in reg.ids && reg.seriesOf(primary) == v.set_.series
        && forall id :: Refers(v.page.cards, id) ==> id in reg.ids
  }

  lemma SetCall(w: World, fate: Fate, s: Stmt, reg: Registry)
    requires reg.Stable() && Conforms(w.sets, reg)
    requires (s.UpsertSet? && s.id in reg.ids && s.set_.series == reg.seriesOf(s.id)) || (s.EnsureSet? && s.id in reg.ids)
    ensures
      var a := Call(w, fate, s);
      var m, id := SeriesMapOf(w.sets), s.id;
      && Conforms(a.w.sets, reg) && a.w.uniqueErrors == w.uniqueErrors
      && (a.reply == Ok ==>
          SeriesMapOf(a.w.sets) == if s.UpsertSet? then m[id := reg.seriesOf(id)] else if id in m then m else m[id := id])
  {
    hide Effect, BreaksUnique;
    var v := Arrive(w, fate);
    ArriveLeavesSets(w, fate);
    ExecuteConforms(v, s, fate(w.step).now, reg);
  }

  lemma ArriveLeavesSets(w: World, fate: Fate)
    ensures Arrive(w, fate).sets == w.sets && Arrive(w, fate).uniqueErrors == w.uniqueErrors
  {
  }

  lemma ExecuteConforms(v: World, s: Stmt, now: int, reg: Registry)
    requires reg.Stable() && Conforms(v.sets, reg)
    requires (s.UpsertSet? && s.id in reg.ids && s.set_.series == reg.seriesOf(s.id)) || (s.EnsureSet? && s.id in reg.ids)
    ensures
      var a := Execute(v, s, now);
      var m, id := SeriesMapOf(v.sets), s.id;
      && a.reply == Ok && Conforms(a.w.sets, reg) && a.w.uniqueErrors == v.uniqueErrors
      && SeriesMapOf(a.w.sets) == if s.UpsertSet? then m[id := reg.seriesOf(id)] else if id in m then m else m[id := id]
  {
    hide Effect, BreaksUnique;
    if s.UpsertSet? { UpsertConforms(v, s.id, s.set_, now, reg); } else { EnsureConforms(v, s.id, now, reg); }
  }

  lemma UpsertConforms(v: World, id: string, set_: ParsedSet, now: int, reg: Registry)
    requires reg.Stable() && Conforms(v.sets, reg) && id in reg.ids && set_.series == reg.seriesOf(id)
    ensures
      var a := Execute(v, UpsertSet(id, set_), now);
      && a.reply == Ok && Conforms(a.w.sets, reg) && a.w.uniqueErrors == v.uniqueErrors
      && SeriesMapOf(a.w.sets) == SeriesMapOf(v.sets)[id := reg.seriesOf(id)]
  {
    assert PromotedSeries(v.sets, id, set_.series) == set_.series;
    assert !Taken(v.sets, id, set_.series);
  }

  lemma EnsureConforms(v: World, id: string, now: int, reg: Registry)
    requires reg.Stable() && Conforms(v.sets, reg) && id in reg.ids
    ensures
      var a := Execute(v, EnsureSet(id), now);
      var m := SeriesMapOf(v.sets);
      && a.reply == Ok && Conforms(a.w.sets, reg) && a.w.uniqueErrors == v.uniqueErrors
      && SeriesMapOf(a.w.sets) == if id in m then m else m[id := id]
  {
    hide Execute, Taken;
    IdIsFree(v, id, reg);
    EnsureExecutes(v, id, now);
    if id !in v.sets {
      assert SeriesMapOf(v.sets[id := SetRow(id, id, id, now, now)]) == SeriesMapOf(v.sets)[id := id];
    }
  }

  lemma IdIsFree(v: World, id: string, reg: Registry)
    requires reg.Stable() && Conforms(v.sets, reg) && id in reg.ids
    ensures !Taken(v.sets, id, id)
  {
  }

  lemma EnsureExecutes(v: World, id: string, now: int)
    requires !Taken(v.sets, id, id)
    ensures Execute(v, EnsureSet(id), now) ==
      Answer(if id in v.sets then v else v.(sets := v.sets[id := SetRow(id, id, id, now, now)]), Ok)
  {
  }

  lemma OtherCall(w: World, fate: Fate, s: Stmt)
    requires !s.UpsertSet? && !s.EnsureSet?
    ensures Call(w, fate, s).w.sets == w.sets && Call(w, fate, s).w.uniqueErrors == w.uniqueErrors
  {
    hide Effect;
    ArriveLeavesSets(w, fate);
    ExecuteLeavesSets(Arrive(w, fate), s, fate(w.step).now);
  }

  lemma ExecuteLeavesSets(w: World, s: Stmt, now: int)
    requires !s.UpsertSet? && !s.EnsureSet?
    ensures Execute(w, s, now).w.sets == w.sets && Execute(w, s, now).w.uniqueErrors == w.uniqueErrors
  {
  }

  lemma {:induction false} EnsureSetsConform(w: World, fate: Fate, ids: seq<string>, reg: Registry)
    requires reg.Stable() && Conforms(w.sets, reg) && forall id :: id in ids ==> id in reg.ids
    ensures
      var a := EnsureSets(w, fate, ids);
      && Conforms(a.w.sets, reg) && a.w.uniqueErrors == w.uniqueErrors
      && (a.reply == Ok ==> SeriesMapOf(a.w.sets) == Reserve(SeriesMapOf(w.sets), set id | id in ids))
    decreases |ids|
  {
    if ids != [] {
      var a := Call(w, fate, EnsureSet(ids[0]));
      SetCall(w, fate, EnsureSet(ids[0]), reg);
      if a.reply == Ok {
        EnsureSetsConform(a.w, fate, ids[1..], reg);
        ReserveSplits(SeriesMapOf(w.sets), ids);
      }
    }
  }

  /** Placeholders for the ids that have no series yet. */
  function Reserve(m: SeriesMap, ids: set<string>): SeriesMap {
    map id | id in m.Keys + ids :: if id in m then m[id] else id
  }

  lemma ReserveSplits(m: SeriesMap, ids: seq<string>)
    requires ids != []
    ensures
      var m' := if ids[0] in m then m else m[ids[0] := ids[0]];
      Reserve(m', set id | id in ids[1..]) == Reserve(m, set id | id in ids)
  {
    assert forall id :: id in ids <==> id == ids[0] || id in ids[1..];
  }

  lemma {:induction false} UpsertCardsKeepSets(w: World, fate: Fate, primary: string, cards: seq<ParsedCard>, r: Report)
    ensures
      var p := UpsertCards(w, fate, primary, cards, r);
      p.w.sets == w.sets && p.w.uniqueErrors == w.uniqueErrors
    decreases |cards|
  {
    if cards != [] {
      var s := UpsertCard(SetIdOr(cards[0].code, primary), cards[0]);
      OtherCall(w, fate, s);
      UpsertCardsKeepSets(Call(w, fate, s).w, fate, primary, cards[1..], Count(r, OutcomeOf(w.cards, cards[0])));
    }
  }

  function IdsOf(cards: seq<ParsedCard>): set<string> {
    set c | c in cards && SetIdFromCode(c.code).Some? :: SetIdFromCode(c.code).value
  }

  /** The series after a page is written: its primary set has the page's, the others at least a placeholder. */
  function Post(m: SeriesMap, cards: seq<ParsedCard>, primary: string, reg: Registry): SeriesMap {
    Reserve(m[primary := reg.seriesOf(primary)], IdsOf(cards))
  }

  lemma WritePageConforms(w: World, fate: Fate, v: Visit, primary: string, r: Report, reg: Registry)
    requires reg.Stable() && Conforms(w.sets, reg) && PageConforms(v, reg)
    requires v.page.cards != [] && SetIdFromCode(v.page.cards[0].code) == Some(primary)
    ensures
      var p := WritePage(w, fate, v, primary, r);
      && Conforms(p.w.sets, reg) && p.w.uniqueErrors == w.uniqueErrors
      && (p.ending.Finished? ==> SeriesMapOf(p.w.sets) == Post(SeriesMapOf(w.sets), v.page.cards, primary, reg))
  {
    var cards := v.page.cards;
    var a := Call(w, fate, UpsertSet(primary, v.set_));
    SetCall(w, fate, UpsertSet(primary, v.set_), reg);
    if a.reply == Ok {
      var ids := SecondaryIds(cards, primary);
      EnsureSetsConform(a.w, fate, ids, reg);
      var b := EnsureSets(a.w, fate, ids);
      if b.reply == Ok {
        UpsertCardsKeepSets(b.w, fate, primary, cards, r);
        forall id ensures id in ids <==> id != primary && id in IdsOf(cards) {
          assert Refers(cards, id) <==> id in IdsOf(cards);
        }
      }
    }
  }

  lemma WalkPageConforms(w: World, fate: Fate, v: Visit, r: Report, reg: Registry)
    requires reg.Stable() && Conforms(w.sets, reg) && PageConforms(v, reg)
    ensures
      var p := WalkPage(w, fate, v, r);
      && Conforms(p.w.sets, reg) && p.w.uniqueErrors == w.uniqueErrors
      && (p.ending.Finished? ==> SeriesMapOf(p.w.sets) == PostVisit(SeriesMapOf(w.sets), v, reg))
      && (p.ending.Finished? && p.ending.htmlHash.Some? ==> Primary(v).Some? && p.ending.htmlHash == Some(Sha256(v.page)))
  {
    hide Call, WritePage, Conforms, Post;
    var cards := v.page.cards;
    if cards != [] && SetIdFromCode(cards[0].code).Some? {
      var primary, r' := SetIdFromCode(cards[0].code).value, r.(seen := r.seen + |cards|);
      WritePageConforms(w, fate, v, primary, r', reg);
      WrittenEnding(w, fate, v, primary, r');
      assert WalkPage(w, fate, v, r) == WritePage(w, fate, v, primary, r');
    } else {
      assert WalkPage(w, fate, v, r).w == w;
    }
  }

  /** The set a page belongs to: the one its first card names. */
  function Primary(v: Visit): Option<string> {
    if v.page.cards == [] then None else SetIdFromCode(v.page.cards[0].code)
  }

  /** What a finished visit makes of the series, whether its page was walked or skipped. */
  function PostVisit(m: SeriesMap, v: Visit, reg: Registry): SeriesMap {
    match Primary(v)
    case None => m
    case Some(primary) => Post(m, v.page.cards, primary, reg)
  }

  // ---- Independent of page order ---------------------------------------------------------------------------

  /** Every page whose digest is stored has been posted: its sets are there, and its primary set has its
      series. */
  ghost predicate Posted(w: World, reg: Registry) {
    forall s :: StoredHash(w, s).Some? ==> PagePosted(w.sets, s, StoredHash(w, s).value.of, reg)
  }

  ghost predicate PagePosted(sets: map<string, SetRow>, series: string, page: Page, reg: Registry) {
    && page.cards != []
    && match SetIdFromCode(page.cards[0].code)
       case None => false
       case Some(primary) =>
         && primary in sets && primary in reg.ids && sets[primary].series == reg.seriesOf(primary) == series
         && forall id :: id in IdsOf(page.cards) ==> id in sets
  }

  lemma PostedPageIsPosted(m: SeriesMap, sets: map<string, SetRow>, v: Visit, reg: Registry)
    requires m == SeriesMapOf(sets) && PagePosted(sets, v.set_.series, v.page, reg)
    ensures PostVisit(m, v, reg) == m
  {
  }

  lemma PostingPosts(m: SeriesMap, sets: map<string, SetRow>, v: Visit, reg: Registry)
    requires SeriesMapOf(sets) == PostVisit(m, v, reg) && Primary(v).Some? && PageConforms(v, reg)
    ensures PagePosted(sets, v.set_.series, v.page, reg)
  {
    var primary := Primary(v).value;
    assert SeriesMapOf(sets).Keys == sets.Keys;
    forall id | id in IdsOf(v.page.cards) ensures id in sets { assert id in PostVisit(m, v, reg); }
    assert primary in PostVisit(m, v, reg);
  }

  /** Posted pages stay posted: sets stay, and a series that is not a placeholder is final. */
  lemma PagePostedFrame(w: World, w': World, series: string, page: Page, reg: Registry)
    requires reg.Stable() && Evolves(w, w') && PagePosted(w.sets, series, page, reg)
    ensures PagePosted(w'.sets, series, page, reg)
  {
    var primary := SetIdFromCode(page.cards[0].code).value;
    assert w.sets[primary].series != primary;
  }

  lemma ScrapeSetConforms(w: World, fate: Fate, v: Visit, r: Report, reg: Registry)
    requires reg.Stable() && Conforms(w.sets, reg) && PageConforms(v, reg)
    requires StoredHash(w, v.set_.series) == Some(Sha256(v.page)) ==> PagePosted(w.sets, v.set_.series, v.page, reg)
    ensures
      var p := ScrapeSet(w, fate, v, r);
      && Conforms(p.w.sets, reg) && p.w.uniqueErrors == w.uniqueErrors
      && (p.ending.Finished? ==> SeriesMapOf(p.w.sets) == PostVisit(SeriesMapOf(w.sets), v, reg))
      && (p.ending.Finished? && p.ending.htmlHash.Some? ==>
          p.ending.htmlHash == Some(Sha256(v.page)) && PagePosted(p.w.sets, v.set_.series, v.page, reg))
  {
    var a := Call(w, fate, Query);
    var b := Call(a.w, fate, Query);
    OtherCall(w, fate, Query);
    OtherCall(a.w, fate, Query);
    LookUpSeesStoredHash(w, fate, v.set_.series);
    if a.reply == Ok && b.reply == Ok {
      if StoredHash(b.w, v.set_.series) == Some(Sha256(v.page)) {
        SkipConforms(b.w, fate, v, r);
        PostedPageIsPosted(SeriesMapOf(w.sets), w.sets, v, reg);
        assert ScrapeSet(w, fate, v, r) == SkipPage(b.w, fate, v, r);
      } else {
        var p := WalkPage(b.w, fate, v, r);
        assert ScrapeSet(w, fate, v, r) == p;
        WalkPageConforms(b.w, fate, v, r, reg);
        if p.ending.Finished? && p.ending.htmlHash.Some? { PostingPosts(SeriesMapOf(w.sets), p.w.sets, v, reg); }
      }
    }
  }

  lemma SkipConforms(w: World, fate: Fate, v: Visit, r: Report)
    ensures SkipPage(w, fate, v, r).w.sets == w.sets && SkipPage(w, fate, v, r).w.uniqueErrors == w.uniqueErrors
  {
    OtherCall(w, fate, Query);
    OtherCall(Call(w, fate, Query).w, fate, Query);
  }

  lemma VisitConforms(w: World, fate: Fate, v: Visit, r: Report, reg: Registry)
    requires Sound(w) && reg.Stable() && Conforms(w.sets, reg) && Posted(w, reg)
    requires PageConforms(v, reg) && Unvisited(w, r.runId, v.set_.series)
    ensures
      var q := ScrapeTracked(w, fate, v, r);
      && Conforms(q.w.sets, reg) && q.w.uniqueErrors == w.uniqueErrors && Posted(q.w, reg)
      && (q.ending.Finished? ==> SeriesMapOf(q.w.sets) == PostVisit(SeriesMapOf(w.sets), v, reg))
  {
    var s := v.set_.series;
    var open := OpenRunSet(r.runId, s);
    var a := Call(w, fate, open);
    var p := ScrapeSet(a.w, fate, v, r);
    var q := ScrapeTracked(w, fate, v, r);
    OtherCall(w, fate, open);
    VisitLookUps(w, fate, v, r, s);
    ScrapeSetConforms(a.w, fate, v, r, reg);
    if a.reply != Gone && p.ending != Abandoned { OtherCall(p.w, fate, ClosingStatement(p, v, r)); }
    ScrapeTrackedCountsSet(w, fate, v, r);
    ScrapeTrackedKeeps(w, fate, v, r);
    VisitStoredHash(w, fate, v, r);
    ScrapeTrackedWithin(w, fate, v, r);
    forall x | StoredHash(q.w, x).Some?
      ensures PagePosted(q.w.sets, x, StoredHash(q.w, x).value.of, reg)
    {
      if x != s { LookUpFrame(w, q.w, x); }
      if StoredHash(q.w, x) == StoredHash(w, x) {
        PagePostedFrame(w, q.w, x, StoredHash(w, x).value.of, reg);
      }
    }
  }

  function Members(visits: seq<Visit>): set<Visit> {
    set v | v in visits
  }

  ghost function Primaries(visits: set<Visit>): set<string> {
    set v | v in visits && Primary(v).Some? :: Primary(v).value
  }

  ghost function Named(visits: set<Visit>): set<string> {
    set v, id | v in visits && Primary(v).Some? && id in IdsOf(v.page.cards) :: id
  }

  /** Primary sets get their series, named ones at least a placeholder. */
  ghost function PostNames(m: SeriesMap, primaries: set<string>, named: set<string>, reg: Registry): SeriesMap {
    map id | id in m.Keys + named + primaries ::
      if id in primaries then reg.seriesOf(id) else if id in m then m[id] else id
  }

  /** The series after visiting pages, as a function of which pages there are. */
  ghost function PostAll(m: SeriesMap, visits: set<Visit>, reg: Registry): SeriesMap {
    PostNames(m, Primaries(visits), Named(visits), reg)
  }

  lemma PostNamesTwice(m: SeriesMap, p1: set<string>, n1: set<string>, p2: set<string>, n2: set<string>, reg: Registry)
    ensures PostNames(PostNames(m, p1, n1, reg), p2, n2, reg) == PostNames(m, p1 + p2, n1 + n2, reg)
  {
  }

  lemma NamesSplit(visits: seq<Visit>)
    requires visits != []
    ensures
      var v, rest, all := visits[0], Members(visits[1..]), Members(visits);
      && Primaries(all) == (if Primary(v).Some? then {Primary(v).value} else {}) + Primaries(rest)
      && Named(all) == (if Primary(v).Some? then IdsOf(v.page.cards) else {}) + Named(rest)
  {
    assert forall v :: v in Members(visits) <==> v == visits[0] || v in Members(visits[1..]);
  }

  lemma PostVisitNames(m: SeriesMap, v: Visit, p: set<string>, n: set<string>, reg: Registry)
    requires if Primary(v).Some? then p == {Primary(v).value} && n == IdsOf(v.page.cards) else p == {} && n == {}
    ensures PostVisit(m, v, reg) == PostNames(m, p, n, reg)
  {
    if Primary(v).Some? {
      var m' := m[Primary(v).value := reg.seriesOf(Primary(v).value)];
      assert m'.Keys == m.Keys + p;
    }
  }

  lemma PostAllSplits(m: SeriesMap, visits: seq<Visit>, reg: Registry)
    requires visits != []
    ensures PostAll(PostVisit(m, visits[0], reg), Members(visits[1..]), reg) == PostAll(m, Members(visits), reg)
  {
    NamesSplit(visits);
    var v, rest := visits[0], Members(visits[1..]);
    var p := if Primary(v).Some? then {Primary(v).value} else {};
    var n := if Primary(v).Some? then IdsOf(v.page.cards) else {};
    PostVisitNames(m, v, p, n, reg);
    PostNamesTwice(m, p, n, Primaries(rest), Named(rest), reg);
  }

  lemma {:induction false} PassConforms(w: World, fate: Fate, visits: seq<Visit>, r: Report, reg: Registry)
    requires Sound(w) && reg.Stable() && Conforms(w.sets, reg) && Posted(w, reg)
    requires DistinctSeries(visits) && AllUnvisited(w, r.runId, visits)
    requires forall v :: v in visits ==> PageConforms(v, reg)
    ensures
      var p := ScrapeAll(w, fate, visits, r);
      && Conforms(p.w.sets, reg) && p.w.uniqueErrors == w.uniqueErrors && Posted(p.w, reg)
      && (AllDone(w, fate, visits, r) ==> SeriesMapOf(p.w.sets) == PostAll(SeriesMapOf(w.sets), Members(visits), reg))
    decreases |visits|
  {
    if visits != [] {
      var q := ScrapeTracked(w, fate, visits[0], r);
      assert visits[0] in visits;
      VisitConforms(w, fate, visits[0], r, reg);
      ScrapeTrackedKeeps(w, fate, visits[0], r);
      NextIsUnvisited(w, fate, visits, r);
      PostAllSplits(SeriesMapOf(w.sets), visits, reg);
      if AllDone(w, fate, visits, r) { DoneStepByStep(w, fate, visits, r); }
      if q.ending != Abandoned { PassConforms(q.w, fate, visits[1..], q.report, reg); }
    }
  }

  lemma SparingKeepsPosted(w: World, w': World, reg: Registry)
    requires RunSetsSound(w) && Posted(w, reg) && Spares(w, w') && |w.runs| <= |w'.runs| <= |w.runs| + 1
    ensures Posted(w', reg)
  {
    forall s ensures StoredHash(w', s) == StoredHash(w, s) {
      if |w'.runs| == |w.runs| { LookUpFrame(w, w', s); } else { NewRunFrame(w, w', s); }
    }
  }

  lemma EventConforms(w: World, e: Event, reg: Registry)
    requires Sound(w) && reg.Stable() && Conforms(w.sets, reg) && Posted(w, reg)
    requires DistinctSeries(VisitsOf(e)) && forall v :: v in VisitsOf(e) ==> PageConforms(v, reg)
    ensures Conforms(After(w, e).sets, reg) && Posted(After(w, e), reg) && After(w, e).uniqueErrors == w.uniqueErrors
  {
    hide After, Conforms, Posted, PageConforms, PostAll, Call;
    match StartOf(w, e)
    case None =>
      NoStartSpares(w, e);
      SparingKeepsPosted(w, After(w, e), reg);
    case Some(s) =>
      StartSpares(w, e);
      StartIsSound(w, e);
      StartIsUnvisited(w, e);
      SparingKeepsPosted(w, s.w, reg);
      PassConforms(s.w, e.fate, s.visits, s.r, reg);
      EndSpares(w, e);
      SparingKeepsPosted(PassOf(s, e.fate).w, After(w, e), reg);
  }

  lemma {:induction false} HistoryConforms(w: World, events: seq<Event>, reg: Registry)
    requires Sound(w) && reg.Stable() && Conforms(w.sets, reg) && Posted(w, reg)
    requires forall e :: e in events ==>
      DistinctSeries(VisitsOf(e)) && forall v :: v in VisitsOf(e) ==> PageConforms(v, reg)
    ensures Conforms(History(w, events).sets, reg) && Posted(History(w, events), reg)
    ensures History(w, events).uniqueErrors == w.uniqueErrors
    decreases |events|
  {
    hide After, Conforms, Posted, PageConforms;
    if events != [] {
      assert events[0] in events;
      EventConforms(w, events[0], reg);
      AfterKeeps(w, events[0]);
      HistoryConforms(After(w, events[0]), events[1..], reg);
    }
  }

  lemma NothingPosted(reg: Registry)
    ensures Conforms(EMPTY.sets, reg) && Posted(EMPTY, reg) && Sound(EMPTY)
  {
  }

  /** A page that finishes is recorded under the set its first card names, whether it was walked, which derives
      the set from the page, or skipped, which looks the set up by its series. */
  lemma FinishedPageNamesItsSet(events: seq<Event>, fate: Fate, v: Visit, r: Report, reg: Registry)
    requires reg.Stable()
    requires forall x :: x in events ==>
      DistinctSeries(VisitsOf(x)) && forall u :: u in VisitsOf(x) ==> PageConforms(u, reg)
    ensures
      var p := ScrapeSet(History(EMPTY, events), fate, v, r);
      p.ending.Finished? && v.page.cards != [] ==> p.ending.primary.Some? && p.ending.primary == Primary(v)
  {
    hide ScrapeSet, PageConforms;
    var w := History(EMPTY, events);
    NothingPosted(reg);
    HistoryKeeps(EMPTY, events);
    HistoryConforms(EMPTY, events, reg);
    FinishedPageNamesIts(w, fate, v, r, reg);
  }

  lemma FinishedPageNamesIts(w: World, fate: Fate, v: Visit, r: Report, reg: Registry)
    requires SeriesUnique(w.sets) && Posted(w, reg)
    ensures
      var p := ScrapeSet(w, fate, v, r);
      p.ending.Finished? && v.page.cards != [] ==> p.ending.primary.Some? && p.ending.primary == Primary(v)
  {
    hide Call, WritePage, SkipPage, PagePosted, SeriesUnique;
    var a := Call(w, fate, Query);
    var b := Call(a.w, fate, Query);
    LookUpSeesStoredHash(w, fate, v.set_.series);
    if a.reply == Ok && b.reply == Ok {
      if StoredHash(b.w, v.set_.series) == Some(Sha256(v.page)) {
        SkippedPageNamesItsSet(b.w, fate, v, r, reg);
      } else if v.page.cards != [] && Primary(v).Some? {
        WrittenEnding(b.w, fate, v, Primary(v).value, r.(seen := r.seen + |v.page.cards|));
      }
    }
  }

  lemma SkippedPageNamesItsSet(w: World, fate: Fate, v: Visit, r: Report, reg: Registry)
    requires SeriesUnique(w.sets) && PagePosted(w.sets, v.set_.series, v.page, reg)
    ensures
      var p := SkipPage(w, fate, v, r);
      p.ending.Finished? ==> p.ending.primary.Some? && p.ending.primary == Primary(v)
  {
    hide Call;
    SkipConforms(w, fate, v, r);
    assert Primary(v).value in w.sets && w.sets[Primary(v).value].series == v.set_.series;
    OtherCall(w, fate, Query);
    OtherCall(Call(w, fate, Query).w, fate, Query);
  }

  /** With ids and series apart, and series and primary sets one-to-one and stable, no statement of any history
      is rejected for a series already taken, inside its passes or around them. */
  lemma SeriesNeverCollide(events: seq<Event>, reg: Registry)
    requires reg.Stable()
    requires forall x :: x in events ==>
      DistinctSeries(VisitsOf(x)) && forall v :: v in VisitsOf(x) ==> PageConforms(v, reg)
    ensures History(EMPTY, events).uniqueErrors == 0
  {
    NothingPosted(reg);
    HistoryKeeps(EMPTY, events);
    HistoryConforms(EMPTY, events, reg);
  }

  /** A run that counts every set as done leaves the series that its set of pages determines. */
  lemma RunPosts(w: World, fate: Fate, visits: seq<Visit>, reg: Registry)
    requires Sound(w) && reg.Stable() && Conforms(w.sets, reg) && Posted(w, reg)
    requires DistinctSeries(visits) && forall v :: v in visits ==> PageConforms(v, reg)
    requires
      var x := RunOnce(w, fate, Some(visits));
      x.end != RunAbandoned && x.report.setsOk == |visits| > 0
    ensures SeriesMapOf(RunOnce(w, fate, Some(visits)).w.sets) == PostAll(SeriesMapOf(w.sets), Members(visits), reg)
  {
    var e := FullRun(fate, Some(visits));
    RunReport(w, fate, visits);
    var s := StartOf(w, e).value;
    StartSpares(w, e);
    StartIsSound(w, e);
    StartIsUnvisited(w, e);
    SparingKeepsPosted(w, s.w, reg);
    PassConforms(s.w, fate, s.visits, s.r, reg);
    EndSpares(w, e);
  }

  /** The final series do not depend on the order of the pages, nor on which of them are skipped: two runs
      from the same tables over the same pages in any two orders, each counting every set as done, agree. */
  lemma SeriesIgnorePageOrder(
    events: seq<Event>, fate1: Fate, fate2: Fate, visits1: seq<Visit>, visits2: seq<Visit>, reg: Registry)
    requires reg.Stable()
    requires forall e :: e in events ==>
      DistinctSeries(VisitsOf(e)) && forall v :: v in VisitsOf(e) ==> PageConforms(v, reg)
    requires DistinctSeries(visits1) && DistinctSeries(visits2) && forall v :: v in visits1 <==> v in visits2
    requires forall v :: v in visits1 ==> PageConforms(v, reg)
    requires
      var w := History(EMPTY, events);
      var x, y := RunOnce(w, fate1, Some(visits1)), RunOnce(w, fate2, Some(visits2));
      && x.end != RunAbandoned && x.report.setsOk == |visits1| > 0
      && y.end != RunAbandoned && y.report.setsOk == |visits2| > 0
    ensures
      var w := History(EMPTY, events);
      var x, y := RunOnce(w, fate1, Some(visits1)), RunOnce(w, fate2, Some(visits2));
      SeriesMapOf(x.w.sets) == SeriesMapOf(y.w.sets)
  {
    hide RunOnce, Conforms, Posted, PageConforms, PostAll, Sound, Evolves;
    var w := History(EMPTY, events);
    NothingPosted(reg);
    HistoryKeeps(EMPTY, events);
    HistoryConforms(EMPTY, events, reg);
    RunPosts(w, fate1, visits1, reg);
    RunPosts(w, fate2, visits2, reg);
    assert Members(visits1) == Members(visits2);
  }
}
