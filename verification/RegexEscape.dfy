/** Escaping a search needle for a regular expression, and what the pattern built from it matches. Patterns
    are read as PostgreSQL's advanced regular expressions read them; which characters count as word
    characters is a parameter. */
module RegexEscape {
  predicate IsMeta(c: char) {
    c in ".^$*+?()[]{}|\\"
  }

  function Escape(s: string): string {
    if s == "" then "" else (if IsMeta(s[0]) then ['\\', s[0]] else [s[0]]) + Escape(s[1..])
  }

  method EscapeNeedle(s: string) returns (out: string)
    ensures out == Escape(s)
  {
    out := "";
    for i := 0 to |s|
      invariant out + Escape(s[i..]) == Escape(s)
    {
      assert s[i..][1..] == s[i + 1..];
      ghost var before := out;
      if IsMeta(s[i]) {
        out := out + ['\\'];
      }
      out := out + [s[i]];
      assert out == before + if IsMeta(s[i]) then ['\\', s[i]] else [s[i]];
    }
  }

  // ---- Reading a pattern ------------------------------------------------------------------------------------

  /** A backslash before anything but a letter or a digit makes it literal; `\y` is a word boundary; other
      escapes, operators and a backslash at the end are not looked into. */
  datatype Token = Literal(c: char) | Boundary | Operator(c: char) | Class(c: char) | Dangling

  predicate IsAlphanumeric(c: char) {
    '0' <= c <= '9' || 'A' <= c <= 'Z' || 'a' <= c <= 'z'
  }

  /** The characters that are not themselves: quantifiers and bounds, groups and brackets, anchors, the
      alternative and the wildcard. */
  predicate IsOperator(c: char) {
    || c == '*' || c == '+' || c == '?' || c == '{' || c == '}'
    || c == '(' || c == ')' || c == '[' || c == ']'
    || c == '^' || c == '$' || c == '|' || c == '.'
  }

  function Lex(p: string): seq<Token> {
    if p == "" then []
    else if p[0] != '\\' then [if IsOperator(p[0]) then Operator(p[0]) else Literal(p[0])] + Lex(p[1..])
    else if |p| == 1 then [Dangling]
    else [if p[1] == 'y' then Boundary else if IsAlphanumeric(p[1]) then Class(p[1]) else Literal(p[1])] + Lex(p[2..])
  }

  function Literals(s: string): (ts: seq<Token>)
    ensures |ts| == |s| && forall i :: 0 <= i < |s| ==> ts[i] == Literal(s[i])
  {
    if s == "" then [] else [Literal(s[0])] + Literals(s[1..])
  }

  function Unescape(p: string): string {
    if p == "" then "" else if p[0] == '\\' && |p| > 1 then [p[1]] + Unescape(p[2..]) else [p[0]] + Unescape(p[1..])
  }

  /** The escaped needle, as a pattern, is exactly the needle's characters. */
  lemma {:induction false} EscapeIsLiteral(s: string)
    ensures Lex(Escape(s)) == Literals(s) && Unescape(Escape(s)) == s
  {
    if s != "" {
      EscapeIsLiteral(s[1..]);
      var rest := Escape(s[1..]);
      if IsMeta(s[0]) {
        assert (['\\', s[0]] + rest)[2..] == rest;
      } else {
        assert ([s[0]] + rest)[1..] == rest;
      }
    }
  }

  lemma EscapeIsInjective(s: string, t: string)
    ensures Escape(s) == Escape(t) <==> s == t
  {
    EscapeIsLiteral(s);
    EscapeIsLiteral(t);
  }

  lemma {:induction false} EscapeDistributes(s: string, t: string)
    ensures Escape(s + t) == Escape(s) + Escape(t)
  {
    if s == "" {
      assert s + t == t;
    } else {
      assert (s + t)[1..] == s[1..] + t;
      EscapeDistributes(s[1..], t);
    }
  }

  // ---- What the pattern matches -----------------------------------------------------------------------------

  predicate AtBoundary(word: char -> bool, text: string, i: nat)
    requires i <= |text|
  {
    (i > 0 && word(text[i - 1])) != (i < |text| && word(text[i]))
  }

  predicate Plain(ts: seq<Token>) {
    forall i :: 0 <= i < |ts| ==> ts[i].Literal? || ts[i].Boundary?
  }

  /** Matching a pattern of literals and boundaries at position `i`. */
  predicate MatchAt(word: char -> bool, ts: seq<Token>, text: string, i: nat)
    requires Plain(ts) && i <= |text|
  {
    if ts == [] then true
    else if ts[0].Boundary? then AtBoundary(word, text, i) && MatchAt(word, ts[1..], text, i)
    else i < |text| && text[i] == ts[0].c && MatchAt(word, ts[1..], text, i + 1)
  }

  function SearchPattern(needle: string): string {
    "\\y" + Escape(needle)
  }

  predicate OccursAt(needle: string, text: string, i: nat) {
    i + |needle| <= |text| && text[i..i + |needle|] == needle
  }

  lemma {:induction false} LiteralsMatch(word: char -> bool, s: string, text: string, i: nat)
    requires i <= |text|
    ensures MatchAt(word, Literals(s), text, i) <==> OccursAt(s, text, i)
  {
    if s != "" {
      assert Literals(s)[1..] == Literals(s[1..]);
      if i < |text| {
        LiteralsMatch(word, s[1..], text, i + 1);
        if i + |s| <= |text| { OccursStep(s, text, i); }
      }
    }
  }

  /** A needle occurs where its first character does, followed by the rest of it. */
  lemma OccursStep(s: string, text: string, i: nat)
    requires s != "" && i + |s| <= |text|
    ensures OccursAt(s, text, i) <==> text[i] == s[0] && OccursAt(s[1..], text, i + 1)
  {
    var here, next := text[i..i + |s|], text[i + 1..i + 1 + |s[1..]|];
    assert here[0] == text[i] && here[1..] == next;
    assert s == [s[0]] + s[1..] && here == [here[0]] + here[1..];
  }

  lemma PatternIsPlain(needle: string)
    ensures Lex(SearchPattern(needle)) == [Boundary] + Literals(needle) && Plain(Lex(SearchPattern(needle)))
  {
    EscapeIsLiteral(needle);
    assert SearchPattern(needle)[2..] == Escape(needle);
  }

  ghost predicate Found(word: char -> bool, needle: string, text: string) {
    PatternIsPlain(needle);
    exists i: nat :: i <= |text| && MatchAt(word, Lex(SearchPattern(needle)), text, i)
  }

  /** The pattern is found exactly where the needle occurs at a word boundary. */
  lemma FoundIffAtBoundary(word: char -> bool, needle: string, text: string)
    ensures Found(word, needle, text) <==>
      exists i: nat :: i <= |text| && OccursAt(needle, text, i) && AtBoundary(word, text, i)
  {
    PatternIsPlain(needle);
    var ts := Lex(SearchPattern(needle));
    assert ts[1..] == Literals(needle);
    forall i: nat | i <= |text|
      ensures MatchAt(word, ts, text, i) <==> OccursAt(needle, text, i) && AtBoundary(word, text, i)
    {
      LiteralsMatch(word, needle, text, i);
    }
    if Found(word, needle, text) {
      var i: nat :| i <= |text| && MatchAt(word, ts, text, i);
      assert OccursAt(needle, text, i) && AtBoundary(word, text, i);
    }
    if i: nat :| i <= |text| && OccursAt(needle, text, i) && AtBoundary(word, text, i) {
      assert MatchAt(word, ts, text, i);
    }
  }

  predicate WordStartsAt(word: char -> bool, text: string, i: nat) {
    i < |text| && word(text[i]) && (i == 0 || !word(text[i - 1]))
  }

  /** A needle that begins with a word character is found exactly in the texts that have a word beginning with
      it; any other needle, exactly in those where it directly follows a word. */
  lemma FoundIffWordStart(word: char -> bool, needle: string, text: string)
    requires needle != ""
    ensures word(needle[0]) ==>
      (Found(word, needle, text) <==> exists i: nat :: OccursAt(needle, text, i) && WordStartsAt(word, text, i))
    ensures !word(needle[0]) ==>
      (Found(word, needle, text) <==> exists i: nat :: OccursAt(needle, text, i) && 0 < i <= |text| && word(text[i - 1]))
  {
    FoundIffAtBoundary(word, needle, text);
    forall i: nat | OccursAt(needle, text, i) ensures i < |text| && text[i] == needle[0] {
      assert text[i..i + |needle|][0] == needle[0];
    }
  }
}
