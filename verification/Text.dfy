/** The order of strings by their characters, and strictly ascending lists of strings. */
module Text {
  predicate Below(a: string, b: string) {
    if b == "" then false
    else if a == "" then true
    else a[0] < b[0] || (a[0] == b[0] && Below(a[1..], b[1..]))
  }

  lemma {:induction false} BelowIsTotal(a: string, b: string)
    ensures a == b || Below(a, b) || Below(b, a)
    ensures !(Below(a, b) && Below(b, a)) && (a == b ==> !Below(a, b))
  {
    if a != "" && b != "" {
      BelowIsTotal(a[1..], b[1..]);
      assert a == [a[0]] + a[1..] && b == [b[0]] + b[1..];
    }
  }

  lemma {:induction false} BelowIsTransitive(a: string, b: string, c: string)
    requires Below(a, b) && Below(b, c)
    ensures Below(a, c)
  {
    if a != "" && a[0] == b[0] == c[0] {
      BelowIsTransitive(a[1..], b[1..], c[1..]);
    }
  }

  /** What the order is: the first difference decides, and a proper prefix comes before what it begins. */
  lemma {:induction false} BelowIsFirstDifference(a: string, b: string)
    ensures Below(a, b) <==>
      a < b || exists k: nat :: k < |a| && k < |b| && a[..k] == b[..k] && a[k] < b[k]
  {
    if a != "" && b != "" {
      var x, y := a[1..], b[1..];
      assert a == [a[0]] + x && b == [b[0]] + y;
      if a[0] < b[0] {
        assert a[..0] == b[..0];
      } else if a[0] == b[0] {
        BelowIsFirstDifference(x, y);
        if k: nat :| k < |x| && k < |y| && x[..k] == y[..k] && x[k] < y[k] {
          assert a[..k + 1] == [a[0]] + x[..k] && b[..k + 1] == [b[0]] + y[..k];
          assert a[k + 1] == x[k] && b[k + 1] == y[k];
        }
        if k: nat :| k < |a| && k < |b| && a[..k] == b[..k] && a[k] < b[k] {
          assert k > 0;
          assert x[..k - 1] == a[..k][1..] && y[..k - 1] == b[..k][1..];
          assert x[k - 1] == a[k] && y[k - 1] == b[k];
        }
      } else {
        forall k: nat | 0 < k < |a| && k < |b| ensures a[..k] != b[..k] { assert a[..k][0] != b[..k][0]; }
      }
    }
  }

  /** Strictly ascending: every element is below every later one. */
  ghost predicate Ascending(s: seq<string>) {
    forall i, j :: 0 <= i < j < |s| ==> Below(s[i], s[j])
  }

  /** Insertion into a sorted set kept as an ascending list. */
  function Insert(x: string, s: seq<string>): (r: seq<string>)
    ensures forall y :: y in r <==> y == x || y in s
  {
    if s == [] then [x]
    else if x == s[0] then s
    else if Below(x, s[0]) then [x] + s
    else [s[0]] + Insert(x, s[1..])
  }

  lemma {:induction false} InsertKeepsAscending(x: string, s: seq<string>)
    requires Ascending(s)
    ensures Ascending(Insert(x, s))
  {
    if s != [] && x != s[0] {
      BelowIsTotal(x, s[0]);
      if Below(x, s[0]) {
        forall j | 0 < j < |s| ensures Below(x, s[j]) { BelowIsTransitive(x, s[0], s[j]); }
      } else {
        InsertKeepsAscending(x, s[1..]);
        var t := Insert(x, s[1..]);
        forall j | 0 <= j < |t| ensures Below(s[0], t[j]) { assert t[j] in t; }
      }
    }
  }

  function Remove(x: string, s: seq<string>): (r: seq<string>)
    ensures forall y :: y in r <==> y != x && y in s
  {
    if s == [] then [] else (if s[0] == x then [] else [s[0]]) + Remove(x, s[1..])
  }

  lemma {:induction false} RemoveKeepsAscending(x: string, s: seq<string>)
    requires Ascending(s)
    ensures Ascending(Remove(x, s))
  {
    if s != [] {
      RemoveKeepsAscending(x, s[1..]);
      var t := Remove(x, s[1..]);
      forall j | 0 <= j < |t| ensures Below(s[0], t[j]) { assert t[j] in t; }
    }
  }
}
