/** Keyset pagination of the catalogue: what a client that follows `next_cursor` to the end receives, over a
    fixed list of matching codes in ascending order. */
module Pagination {
  import opened Schema
  import opened Text

  const DEFAULT_LIMIT := 50
  const MAX_LIMIT := 200

  function Limit(limit: Option<int>): nat {
    match limit
    case None => DEFAULT_LIMIT
    case Some(n) => if n < 1 then 1 else if n > MAX_LIMIT then MAX_LIMIT else n
  }

  /** `code > cursor`. */
  function After(codes: seq<string>, cursor: Option<string>): seq<string> {
    if codes == [] || cursor.None? || Below(cursor.value, codes[0]) then codes else After(codes[1..], cursor)
  }

  datatype CardPage = CardPage(items: seq<string>, next: Option<string>)

  /** One page: of the rows fetched, one more than the limit, the last is taken off and becomes the cursor.
      With `mended`, the cursor is the last row kept instead. */
  function PageOf(codes: seq<string>, cursor: Option<string>, limit: nat, mended: bool): CardPage
    requires limit > 0
  {
    var rest := After(codes, cursor);
    if |rest| <= limit then CardPage(rest, None)
    else CardPage(rest[..limit], Some(if mended then rest[limit - 1] else rest[limit]))
  }

  method ListCards(codes: seq<string>, cursor: Option<string>, limit: Option<int>) returns (page: CardPage)
    ensures page == PageOf(codes, cursor, Limit(limit), false)
    ensures |page.items| <= 200 && (limit.None? ==> |page.items| <= 50)
    ensures limit.Some? && 1 <= limit.value <= 200 ==> |page.items| <= limit.value
    ensures page.next.Some? ==>
      |page.items| == if limit.None? then 50 else if limit.value < 1 then 1 else if limit.value > 200 then 200 else limit.value
  {
    var n := if limit.None? then DEFAULT_LIMIT else limit.value;
    n := if n < 1 then 1 else if n > MAX_LIMIT then MAX_LIMIT else n;
    var rows := After(codes, cursor);
    rows := if |rows| > n + 1 then rows[..n + 1] else rows;
    var next := None;
    if |rows| > n {
      next := Some(rows[|rows| - 1]);
      rows := rows[..|rows| - 1];
    }
    page := CardPage(rows, next);
  }

  // ---- Following the cursors ------------------------------------------------------------------------------

  /** The cursor that leaves `codes[p..]` to come. */
  function CursorAt(codes: seq<string>, p: nat): Option<string>
    requires p <= |codes|
  {
    if p == 0 then None else Some(codes[p - 1])
  }

  lemma {:induction false} AfterCursor(codes: seq<string>, p: nat)
    requires Ascending(codes) && p <= |codes|
    ensures After(codes, CursorAt(codes, p)) == codes[p..]
  {
    if p > 0 {
      var rest := codes[1..];
      BelowIsTotal(codes[p - 1], codes[0]);
      if p == 1 {
        if rest != [] { assert Below(codes[0], codes[1]); }
      } else {
        assert Below(codes[0], codes[p - 1]);
        assert rest[p - 2] == codes[p - 1];
        AfterCursor(rest, p - 1);
      }
    }
  }

  lemma {:induction false} AfterIsSuffix(codes: seq<string>, cursor: Option<string>) returns (p: nat)
    ensures p <= |codes| && After(codes, cursor) == codes[p..]
  {
    if codes == [] || cursor.None? || Below(cursor.value, codes[0]) {
      p := 0;
    } else {
      p := AfterIsSuffix(codes[1..], cursor);
      p := p + 1;
    }
  }

  lemma NextMovesOn(codes: seq<string>, cursor: Option<string>, limit: nat, mended: bool)
    requires Ascending(codes) && limit > 0 && PageOf(codes, cursor, limit, mended).next.Some?
    ensures |After(codes, PageOf(codes, cursor, limit, mended).next)| < |After(codes, cursor)|
  {
    var p := AfterIsSuffix(codes, cursor);
    AfterCursor(codes, p + limit + if mended then 0 else 1);
  }

  /** The pages received by a client that starts at `cursor` and follows every `next`. */
  function Walk(codes: seq<string>, cursor: Option<string>, limit: nat, mended: bool): seq<CardPage>
    requires Ascending(codes) && limit > 0
    decreases |After(codes, cursor)|
  {
    var page := PageOf(codes, cursor, limit, mended);
    if page.next.None? then [page]
    else
      NextMovesOn(codes, cursor, limit, mended);
      [page] + Walk(codes, page.next, limit, mended)
  }

  function Emitted(pages: seq<CardPage>): seq<string> {
    if pages == [] then [] else pages[0].items + Emitted(pages[1..])
  }

  // ---- What the code's cursor emits -------------------------------------------------------------------------

  predicate Skipped(i: nat, limit: nat) {
    i % (limit + 1) == limit
  }

  /** Every row but each `limit + 1`-st, counting from index `p`. */
  function Kept(codes: seq<string>, p: nat, limit: nat): seq<string>
    requires p <= |codes|
    decreases |codes| - p
  {
    if p == |codes| then []
    else (if Skipped(p, limit) then [] else [codes[p]]) + Kept(codes, p + 1, limit)
  }

  lemma {:induction false} KeptIsThere(codes: seq<string>, p: nat, limit: nat)
    requires p <= |codes|
    ensures forall x :: x in Kept(codes, p, limit) ==> exists i :: p <= i < |codes| && codes[i] == x && !Skipped(i, limit)
    decreases |codes| - p
  {
    hide Skipped;
    if p < |codes| { KeptIsThere(codes, p + 1, limit); }
  }

  lemma {:induction false} KeptIsAll(codes: seq<string>, p: nat, i: nat, limit: nat)
    requires p <= i < |codes| && !Skipped(i, limit)
    ensures codes[i] in Kept(codes, p, limit)
    decreases |codes| - p
  {
    hide Skipped;
    if p < i { KeptIsAll(codes, p + 1, i, limit); }
  }

  lemma {:induction false} KeptIsAscending(codes: seq<string>, p: nat, limit: nat)
    requires Ascending(codes) && p <= |codes|
    ensures Ascending(Kept(codes, p, limit))
    decreases |codes| - p
  {
    hide Skipped;
    if p < |codes| {
      var rest := Kept(codes, p + 1, limit);
      KeptIsAscending(codes, p + 1, limit);
      KeptIsThere(codes, p + 1, limit);
      forall j | 0 <= j < |rest| ensures Below(codes[p], rest[j]) { assert rest[j] in rest; }
    }
  }

  lemma KeptIs(codes: seq<string>, i: nat, limit: nat)
    requires Ascending(codes) && i < |codes|
    ensures codes[i] in Kept(codes, 0, limit) <==> !Skipped(i, limit)
  {
    hide Skipped;
    if !Skipped(i, limit) {
      KeptIsAll(codes, 0, i, limit);
    } else if codes[i] in Kept(codes, 0, limit) {
      KeptIsThere(codes, 0, limit);
      var j :| 0 <= j < |codes| && codes[j] == codes[i] && !Skipped(j, limit);
      AscendingIsDistinct(codes, i, j);
    }
  }

  lemma AscendingIsDistinct(codes: seq<string>, i: nat, j: nat)
    requires Ascending(codes) && i < |codes| && j < |codes| && codes[i] == codes[j]
    ensures i == j
  {
    BelowIsTotal(codes[i], codes[j]);
  }

  /** `x` lies in the `q`-th block of `m`. */
  lemma InBlock(q: nat, m: nat, x: nat)
    requires q * m <= x < q * m + m
    ensures x / m == q && x % m == x - q * m
  {
    var d := x / m;
    assert x == d * m + x % m;
    assert (q - d) * m == q * m - d * m;
    if q > d { AtLeast(q - d, m); }
    assert (d - q) * m == d * m - q * m;
    if d > q { AtLeast(d - q, m); }
  }

  lemma AtLeast(a: nat, m: nat)
    requires a >= 1
    ensures a * m >= m
  {
    assert a * m == (a - 1) * m + m;
  }

  /** A block that begins at `p`: up to `limit` rows are kept, and the next is skipped. */
  ghost predicate BlockAt(p: nat, limit: nat) {
    (forall i :: p <= i < p + limit ==> !Skipped(i, limit)) && Skipped(p + limit, limit)
  }

  lemma BlocksBegin(q: nat, limit: nat)
    ensures BlockAt(q * (limit + 1), limit)
  {
    var p := q * (limit + 1);
    forall i | p <= i <= p + limit ensures Skipped(i, limit) <==> i == p + limit { InBlock(q, limit + 1, i); }
  }

  lemma {:induction false} KeptBlock(codes: seq<string>, p: nat, k: nat, limit: nat)
    requires BlockAt(p, limit) && k <= limit && p + k <= |codes|
    ensures Kept(codes, p, limit) == codes[p..p + k] + Kept(codes, p + k, limit)
    decreases k
  {
    hide Skipped;
    if k > 0 {
      KeptBlock(codes, p, k - 1, limit);
      assert codes[p..p + k] == codes[p..p + k - 1] + [codes[p + k - 1]];
    }
  }

  lemma KeptSkips(codes: seq<string>, p: nat, limit: nat)
    requires p < |codes| && Skipped(p, limit)
    ensures Kept(codes, p, limit) == Kept(codes, p + 1, limit)
  {
    hide Skipped;
    assert [] + Kept(codes, p + 1, limit) == Kept(codes, p + 1, limit);
  }

  lemma KeptBlockEnd(codes: seq<string>, p: nat, limit: nat)
    requires BlockAt(p, limit) && p + limit < |codes|
    ensures Kept(codes, p, limit) == codes[p..p + limit] + Kept(codes, p + limit + 1, limit)
  {
    hide Skipped, Kept;
    KeptBlock(codes, p, limit, limit);
    KeptSkips(codes, p + limit, limit);
  }

  lemma {:induction false} WalkFrom(codes: seq<string>, q: nat, p: nat, limit: nat)
    requires Ascending(codes) && limit > 0 && p == q * (limit + 1) <= |codes|
    ensures
      var pages := Walk(codes, CursorAt(codes, p), limit, false);
      q + |pages| == |codes| / (limit + 1) + 1 && Emitted(pages) == Kept(codes, p, limit)
    decreases |codes| - p
  {
    AfterCursor(codes, p);
    BlocksBegin(q, limit);
    var page := PageOf(codes, CursorAt(codes, p), limit, false);
    if |codes| - p <= limit {
      KeptBlock(codes, p, |codes| - p, limit);
      InBlock(q, limit + 1, |codes|);
      assert Emitted([page]) == page.items;
    } else {
      var p' := p + limit + 1;
      assert p' == (q + 1) * (limit + 1);
      assert page.next == CursorAt(codes, p');
      WalkFrom(codes, q + 1, p', limit);
      WalkUnfolds(codes, p, limit);
      KeptBlockEnd(codes, p, limit);
    }
  }

  lemma WalkUnfolds(codes: seq<string>, p: nat, limit: nat)
    requires Ascending(codes) && limit > 0 && p + limit < |codes|
    ensures
      var rest := Walk(codes, CursorAt(codes, p + limit + 1), limit, false);
      var pages := Walk(codes, CursorAt(codes, p), limit, false);
      |pages| == 1 + |rest| && Emitted(pages) == codes[p..p + limit] + Emitted(rest)
  {
    AfterCursor(codes, p);
    var page := PageOf(codes, CursorAt(codes, p), limit, false);
    var rest := Walk(codes, page.next, limit, false);
    assert page.next == CursorAt(codes, p + limit + 1) && page.items == codes[p..p + limit];
    assert Walk(codes, CursorAt(codes, p), limit, false) == [page] + rest;
    assert ([page] + rest)[1..] == rest;
  }

  /** Following the cursors ends after floor(n / (limit + 1)) + 1 pages, in strictly ascending order, having
      emitted exactly the rows whose index is not one less than a multiple of `limit + 1`. */
  lemma WalkSkipsEveryCursorRow(codes: seq<string>, limit: nat)
    requires Ascending(codes) && limit > 0
    ensures
      var pages := Walk(codes, None, limit, false);
      && |pages| == |codes| / (limit + 1) + 1
      && Ascending(Emitted(pages)) && (forall x :: x in Emitted(pages) ==> x in codes)
      && (forall i :: 0 <= i < |codes| ==> (codes[i] in Emitted(pages) <==> i % (limit + 1) != limit))
  {
    WalkFrom(codes, 0, 0, limit);
    KeptIsAscending(codes, 0, limit);
    KeptIsThere(codes, 0, limit);
    forall i | 0 <= i < |codes| ensures codes[i] in Kept(codes, 0, limit) <==> !Skipped(i, limit) {
      KeptIs(codes, i, limit);
    }
  }

  /** So the client sees every matching row exactly when they fit on one page. */
  lemma WalkIsCompleteIff(codes: seq<string>, limit: nat)
    requires Ascending(codes) && limit > 0
    ensures Emitted(Walk(codes, None, limit, false)) == codes <==> |codes| <= limit
  {
    WalkSkipsEveryCursorRow(codes, limit);
    if |codes| <= limit {
      AfterCursor(codes, 0);
      assert codes[0..] == codes;
    } else {
      InBlock(0, limit + 1, limit);
      assert codes[limit] !in Emitted(Walk(codes, None, limit, false));
      assert codes[limit] in codes;
    }
  }

  // ---- A cursor taken from the last row kept -----------------------------------------------------------------

  lemma {:induction false} MendedWalkFrom(codes: seq<string>, p: nat, limit: nat)
    requires Ascending(codes) && limit > 0 && p <= |codes|
    ensures Emitted(Walk(codes, CursorAt(codes, p), limit, true)) == codes[p..]
    decreases |codes| - p
  {
    AfterCursor(codes, p);
    var page := PageOf(codes, CursorAt(codes, p), limit, true);
    if |codes| - p <= limit {
      assert Emitted([page]) == page.items;
    } else {
      assert page.next == CursorAt(codes, p + limit);
      MendedWalkFrom(codes, p + limit, limit);
      var rest := Walk(codes, page.next, limit, true);
      assert Walk(codes, CursorAt(codes, p), limit, true) == [page] + rest;
      assert ([page] + rest)[1..] == rest;
      assert codes[p..] == codes[p..p + limit] + codes[p + limit..];
    }
  }

  /** With the last kept row as the cursor, every matching row is emitted once, in order. */
  lemma MendedWalkIsComplete(codes: seq<string>, limit: nat)
    requires Ascending(codes) && limit > 0
    ensures Emitted(Walk(codes, None, limit, true)) == codes
  {
    MendedWalkFrom(codes, 0, limit);
    assert codes[0..] == codes;
  }
}
