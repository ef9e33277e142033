/** Deriving set ids from card codes, and the ordered set of ids a page refers to. */
module Parse {
  import opened Schema
  import opened Text

  /** The index of the first dash, or the length when there is none. */
  function DashAt(code: string): (k: nat)
    ensures k <= |code| && (forall i :: 0 <= i < k ==> code[i] != '-') && (k < |code| ==> code[k] == '-')
  {
    if code == [] || code[0] == '-' then 0
    else
      1 + DashAt(code[1..])
  }

  function SetIdFromCode(code: string): Option<string> {
    var k := DashAt(code);
    if k == |code| || k == 0 then None else Some(code[..k])
  }

  /** The derived set id is the non-empty, dash-free prefix that a dash follows, when there is one. */
  lemma SetIdIsTheDashedPrefix(code: string, p: string)
    ensures SetIdFromCode(code) == Some(p) <==> p != "" && '-' !in p && p + "-" <= code
  {
    var k := DashAt(code);
    if k < |code| && code[..k] == p {
      assert code == code[..k] + [code[k]] + code[k + 1..];
    }
    if '-' !in p && p + "-" <= code {
      assert code[|p|] == (p + "-")[|p|] == '-';
      assert forall i :: 0 <= i < |p| ==> p[i] in p && code[i] == (p + "-")[i] == p[i];
      assert |p| == k;
      assert p == (p + "-")[..|p|] == code[..|p|];
    }
  }

  predicate Refers(cards: seq<ParsedCard>, id: string) {
    exists c :: c in cards && SetIdFromCode(c.code) == Some(id)
  }

  function CollectIds(cards: seq<ParsedCard>, into: seq<string>): (r: seq<string>)
    ensures forall id :: id in r <==> id in into || Refers(cards, id)
  {
    if cards == [] then into
    else
      var next := match SetIdFromCode(cards[0].code) case Some(id) => Insert(id, into) case None => into;
      assert forall c :: c in cards <==> c == cards[0] || c in cards[1..];
      CollectIds(cards[1..], next)
  }

  /** The set ids a page refers to besides its primary one, in set order. */
  function SecondaryIds(cards: seq<ParsedCard>, primary: string): (r: seq<string>)
    ensures forall id :: id in r <==> id != primary && Refers(cards, id)
  {
    Remove(primary, CollectIds(cards, []))
  }

  /** The set a card belongs to: the one its code names, else the page's primary one. */
  function SetIdOr(code: string, primary: string): string {
    match SetIdFromCode(code) case Some(id) => id case None => primary
  }

  lemma {:induction false} CollectKeepsAscending(cards: seq<ParsedCard>, into: seq<string>)
    requires Ascending(into)
    ensures Ascending(CollectIds(cards, into))
  {
    if cards != [] {
      match SetIdFromCode(cards[0].code)
      case Some(id) =>
        InsertKeepsAscending(id, into);
        CollectKeepsAscending(cards[1..], Insert(id, into));
      case None => CollectKeepsAscending(cards[1..], into);
    }
  }

  /** The secondary ids come out in set order, each once, and are exactly the ids other than the primary
      one that some card's code names. */
  lemma SecondaryIdsAreSorted(cards: seq<ParsedCard>, primary: string)
    ensures Ascending(SecondaryIds(cards, primary))
    ensures forall id :: id in SecondaryIds(cards, primary) <==> id != primary && Refers(cards, id)
  {
    CollectKeepsAscending(cards, []);
    RemoveKeepsAscending(primary, CollectIds(cards, []));
  }
}
