/** Text of page elements: collapsing white space, and the value that follows a heading. */
module Labels {
  /** The Unicode White_Space characters. */
  predicate IsSpace(c: char) {
    || '\U{9}' <= c <= '\U{D}' || c == ' ' || c == '\U{85}' || c == '\U{A0}' || c == '\U{1680}'
    || '\U{2000}' <= c <= '\U{200A}' || c == '\U{2028}' || c == '\U{2029}' || c == '\U{202F}'
    || c == '\U{205F}' || c == '\U{3000}'
  }

  predicate Blank(s: string) {
    forall i :: 0 <= i < |s| ==> IsSpace(s[i])
  }

  predicate IsWord(w: string) {
    w != "" && forall i :: 0 <= i < |w| ==> !IsSpace(w[i])
  }

  /** The words of a text, split at runs of white space. */
  function Words(s: string): (ws: seq<string>)
    ensures s != "" && !IsSpace(s[0]) ==> ws != []
    ensures forall i :: 0 <= i < |ws| ==> IsWord(ws[i])
  {
    if s == "" then []
    else if IsSpace(s[0]) then Words(s[1..])
    else if |s| == 1 || IsSpace(s[1]) then [[s[0]]] + Words(s[1..])
    else
      var rest := Words(s[1..]);
      [[s[0]] + rest[0]] + rest[1..]
  }

  function Join(ws: seq<string>): string {
    if ws == [] then "" else if |ws| == 1 then ws[0] else ws[0] + " " + Join(ws[1..])
  }

  function Collapse(s: string): string {
    Join(Words(s))
  }

  function TrimStart(s: string): string {
    if s != "" && IsSpace(s[0]) then TrimStart(s[1..]) else s
  }

  function TrimEnd(s: string): string
    decreases |s|
  {
    if s != "" && IsSpace(s[|s| - 1]) then TrimEnd(s[..|s| - 1]) else s
  }

  function Trim(s: string): string {
    TrimEnd(TrimStart(s))
  }

  /** The Unicode White_Space characters, one by one. */
  lemma SpacesAre(c: char)
    ensures IsSpace(c) <==>
      c in "\t\n\U{B}\U{C}\r \U{85}\U{A0}\U{1680}\U{2000}\U{2001}\U{2002}\U{2003}\U{2004}\U{2005}\U{2006}\U{2007}" +
           "\U{2008}\U{2009}\U{200A}\U{2028}\U{2029}\U{202F}\U{205F}\U{3000}"
  {
  }

  /** Neither end of the text is white space. */
  predicate Tight(s: string) {
    s != "" ==> !IsSpace(s[0]) && !IsSpace(s[|s| - 1])
  }

  lemma {:induction false} TrimStartIs(s: string) returns (lead: string)
    ensures Blank(lead) && s == lead + TrimStart(s)
    ensures TrimStart(s) != "" ==> !IsSpace(TrimStart(s)[0])
  {
    lead := "";
    if s != "" && IsSpace(s[0]) {
      lead := TrimStartIs(s[1..]);
      lead := [s[0]] + lead;
      assert s == [s[0]] + s[1..];
    }
  }

  lemma {:induction false} TrimEndIs(s: string) returns (trail: string)
    ensures Blank(trail) && s == TrimEnd(s) + trail
    ensures TrimEnd(s) != "" ==> !IsSpace(TrimEnd(s)[|TrimEnd(s)| - 1])
    decreases |s|
  {
    trail := "";
    if s != "" && IsSpace(s[|s| - 1]) {
      trail := TrimEndIs(s[..|s| - 1]);
      trail := trail + [s[|s| - 1]];
      assert s == s[..|s| - 1] + [s[|s| - 1]];
    }
  }

  /** Trimming takes white space, and nothing else, off both ends, and all there is. */
  lemma TrimIs(s: string) returns (lead: string, trail: string)
    ensures Blank(lead) && Blank(trail) && s == lead + Trim(s) + trail && Tight(Trim(s))
  {
    lead := TrimStartIs(s);
    trail := TrimEndIs(TrimStart(s));
    assert TrimStart(s) == Trim(s) + trail;
    if Trim(s) != "" { assert TrimStart(s)[0] == Trim(s)[0]; }
  }

  /** `heading` is the text of the element's heading, empty if it has none; `full` that of the whole element. */
  function ValueAfterHeading(heading: string, full: string): string {
    var h, f := Collapse(heading), Collapse(full);
    Trim(if h <= f then f[|h|..] else f)
  }

  // ---- Words of a concatenation -----------------------------------------------------------------------

  /** The words of two texts read on from one another: separate, or glued at the seam. */
  function Glue(a: seq<string>, b: seq<string>, glued: bool): seq<string> {
    if glued && a != [] && b != [] then a[..|a| - 1] + [a[|a| - 1] + b[0]] + b[1..] else a + b
  }

  predicate Glued(a: string, b: string) {
    a != "" && b != "" && !IsSpace(a[|a| - 1]) && !IsSpace(b[0])
  }

  lemma {:induction false} WordsOfConcat(a: string, b: string)
    ensures Words(a + b) == Glue(Words(a), Words(b), Glued(a, b))
  {
    if a == "" {
      assert a + b == b;
    } else {
      var rest := a[1..];
      assert (a + b)[1..] == rest + b;
      WordsOfConcat(rest, b);
      if rest == "" {
        assert rest + b == b;
      } else {
        assert (rest + b)[0] == rest[0] == a[1] == (a + b)[1];
        assert Glued(rest, b) == Glued(a, b);
        PrependedGlue(a[0], Words(rest), Words(b), Glued(a, b), IsSpace(a[1]));
        if !IsSpace(a[0]) && !IsSpace(a[1]) {
          assert Words(rest) != [];
        } else if !IsSpace(a[0]) {
          assert Words(a) == [[a[0]]] + Words(rest);
          assert Words(a + b) == [[a[0]]] + Words(rest + b);
          LastOfBlank(rest, b);
        }
      }
    }
  }

  /** A text that does not end in white space has a word, so a seam can only glue to a word of its own. */
  lemma {:induction false} LastOfBlank(a: string, b: string)
    ensures Glued(a, b) ==> Words(a) != []
  {
    if a != "" && IsSpace(a[0]) { LastOfBlank(a[1..], b); }
  }

  /** Putting a character in front commutes with reading on, whether it is a word of its own or not. */
  lemma PrependedGlue(c: char, a: seq<string>, b: seq<string>, glued: bool, apart: bool)
    ensures apart && (glued ==> a != []) ==> [[c]] + Glue(a, b, glued) == Glue([[c]] + a, b, glued)
    ensures !apart && a != [] ==>
      [[c] + Glue(a, b, glued)[0]] + Glue(a, b, glued)[1..] == Glue([[c] + a[0]] + a[1..], b, glued)
  {
    if apart && (glued ==> a != []) { PrependedApart(c, a, b, glued); }
    if !apart && a != [] { PrependedJoined(c, a, b, glued); }
  }

  lemma PrependedApart(c: char, a: seq<string>, b: seq<string>, glued: bool)
    requires glued ==> a != []
    ensures [[c]] + Glue(a, b, glued) == Glue([[c]] + a, b, glued)
  {
    if glued && b != [] {
      assert ([[c]] + a)[..|a|] == [[c]] + a[..|a| - 1];
    }
  }

  /** A list of words with a character put in front of the first of them. */
  function Lengthened(c: char, ws: seq<string>): seq<string>
    requires ws != []
  {
    [[c] + ws[0]] + ws[1..]
  }

  lemma LengthenedConcat(c: char, a: seq<string>, b: seq<string>)
    requires a != []
    ensures Lengthened(c, a + b) == Lengthened(c, a) + b
  {
    assert (a + b)[1..] == a[1..] + b;
  }

  lemma PrependedJoined(c: char, a: seq<string>, b: seq<string>, glued: bool)
    requires a != []
    ensures Lengthened(c, Glue(a, b, glued)) == Glue(Lengthened(c, a), b, glued)
  {
    if !glued || b == [] {
      LengthenedConcat(c, a, b);
    } else if |a| == 1 {
      GluedSingle(c, a[0], b);
      assert a == [a[0]];
    } else {
      GluedLonger(c, a, b);
    }
  }

  lemma GluedSingle(c: char, w: string, b: seq<string>)
    requires b != []
    ensures Lengthened(c, Glue([w], b, true)) == Glue(Lengthened(c, [w]), b, true)
  {
    LengthenedConcat(c, [w + b[0]], b[1..]);
    assert [c] + (w + b[0]) == ([c] + w) + b[0];
    assert Glue([w], b, true) == [w + b[0]] + b[1..];
    assert Glue([[c] + w], b, true) == [([c] + w) + b[0]] + b[1..];
  }

  lemma GluedLonger(c: char, a: seq<string>, b: seq<string>)
    requires |a| > 1 && b != []
    ensures Lengthened(c, Glue(a, b, true)) == Glue(Lengthened(c, a), b, true)
  {
    var n, last := |a| - 1, [a[|a| - 1] + b[0]] + b[1..];
    LengthenedConcat(c, a[..n], last);
    assert Glue(a, b, true) == a[..n] + last;
    assert Lengthened(c, a)[..n] == Lengthened(c, a[..n]) && Lengthened(c, a)[n] == a[n];
    assert Glue(Lengthened(c, a), b, true) == Lengthened(c, a)[..n] + last;
  }

  lemma {:induction false} JoinOfConcat(a: seq<string>, b: seq<string>)
    requires a != [] && b != []
    ensures Join(a + b) == Join(a) + " " + Join(b)
  {
    if |a| == 1 {
      assert (a + b)[1..] == b;
    } else {
      assert (a + b)[1..] == a[1..] + b;
      JoinOfConcat(a[1..], b);
    }
  }

  lemma {:induction false} JoinOfGlued(a: seq<string>, b: seq<string>)
    requires a != [] && b != []
    ensures Join(Glue(a, b, true)) == Join(a) + Join(b)
  {
    if |a| == 1 {
      assert Glue(a, b, true) == [a[0] + b[0]] + b[1..];
      if |b| > 1 { assert Join(b) == b[0] + " " + Join(b[1..]); }
    } else {
      assert Glue(a, b, true)[1..] == Glue(a[1..], b, true);
      JoinOfGlued(a[1..], b);
    }
  }

  // ---- Collapsing -----------------------------------------------------------------------------------------

  lemma {:induction false} WordsOfWord(w: string)
    requires IsWord(w)
    ensures Words(w) == [w]
  {
    if |w| > 1 {
      WordsOfWord(w[1..]);
      assert [w[0]] + w[1..] == w;
    } else {
      assert w == [w[0]] && w[1..] == "";
    }
  }

  lemma {:induction false} WordsOfJoin(ws: seq<string>)
    requires forall i :: 0 <= i < |ws| ==> IsWord(ws[i])
    ensures Words(Join(ws)) == ws
  {
    if |ws| == 1 {
      WordsOfWord(ws[0]);
    } else if ws != [] {
      WordsOfWord(ws[0]);
      WordsOfJoin(ws[1..]);
      var tail := " " + Join(ws[1..]);
      assert tail[1..] == Join(ws[1..]);
      assert ws[0] + " " + Join(ws[1..]) == ws[0] + tail;
      WordsOfConcat(ws[0], tail);
    }
  }

  /** Collapsing keeps the words of a text in their order, and a collapsed text collapses to itself. */
  lemma CollapseKeepsWords(s: string)
    ensures Words(Collapse(s)) == Words(s) && Collapse(Collapse(s)) == Collapse(s)
  {
    WordsOfJoin(Words(s));
  }

  /** Two texts collapse alike exactly when they have the same words. */
  lemma CollapseIsCanonical(s: string, t: string)
    ensures Collapse(s) == Collapse(t) <==> Words(s) == Words(t)
  {
    WordsOfJoin(Words(s));
    WordsOfJoin(Words(t));
  }

  lemma {:induction false} JoinHasNoEdgeSpace(ws: seq<string>)
    requires forall i :: 0 <= i < |ws| ==> IsWord(ws[i])
    ensures ws != [] ==> Join(ws) != "" && !IsSpace(Join(ws)[0]) && !IsSpace(Join(ws)[|Join(ws)| - 1])
  {
    if |ws| > 1 { JoinHasNoEdgeSpace(ws[1..]); }
  }

  lemma TrimOfCollapsed(s: string)
    ensures Trim(Collapse(s)) == Collapse(s) && Trim(" " + Collapse(s)) == Collapse(s)
  {
    JoinHasNoEdgeSpace(Words(s));
    assert (" " + Collapse(s))[1..] == Collapse(s);
  }

  // ---- The value after a heading ----------------------------------------------------------------------

  lemma {:induction false} BlankHasNoWords(lead: string, s: string)
    requires Blank(lead)
    ensures Words(lead + s) == Words(s)
  {
    if lead == "" {
      assert lead + s == s;
    } else {
      assert (lead + s)[1..] == lead[1..] + s;
      BlankHasNoWords(lead[1..], s);
    }
  }

  /** Whatever white space precedes, separates or follows them, or none, and whatever the heading: of an element
      whose text is a heading followed by a value, the collapsed value is what remains. */
  lemma HeadingIsStripped(lead: string, heading: string, value: string)
    requires Blank(lead)
    ensures ValueAfterHeading(heading, lead + (heading + value)) == Collapse(value)
  {
    BlankHasNoWords(lead, heading + value);
    LeadingHeadingIsStripped(heading, value);
  }

  lemma LeadingHeadingIsStripped(heading: string, value: string)
    ensures ValueAfterHeading(heading, heading + value) == Collapse(value)
  {
    hide IsSpace, Words, TrimStart, TrimEnd;
    var a, b := Words(heading), Words(value);
    var h, f := Collapse(heading), Collapse(heading + value);
    WordsOfConcat(heading, value);
    LastOfBlank(heading, value);
    TrimOfCollapsed(value);
    if a == [] {
      assert a + b == b && f == Join(b) && f[|h|..] == f;
    } else if b == [] {
      assert Glue(a, b, Glued(heading, value)) == a && f[|h|..] == Join(b);
    } else if Glued(heading, value) {
      JoinOfGlued(a, b);
      assert f[|h|..] == Join(b);
    } else {
      JoinOfConcat(a, b);
      assert f == h + (" " + Join(b)) && f[|h|..] == " " + Join(b);
    }
  }

  /** An element that does not begin with its heading keeps its whole collapsed text. */
  lemma OtherTextIsKept(heading: string, full: string)
    requires !(Collapse(heading) <= Collapse(full))
    ensures ValueAfterHeading(heading, full) == Collapse(full)
  {
    TrimOfCollapsed(full);
  }
}
