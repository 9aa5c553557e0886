/** HTML escaping: five chained replacements. */
module Escape {
  import opened Text

  /** `str::replace` of one character. */
  function Replace(s: string, c: char, with: string): string {
    if s == [] then [] else (if s[0] == c then with else [s[0]]) + Replace(s[1..], c, with)
  }

  function EscapeHtml(value: string): string {
    var amp := Replace(value, '&', "&amp;");
    var lt := Replace(amp, '<', "&lt;");
    var gt := Replace(lt, '>', "&gt;");
    var quot := Replace(gt, '"', "&quot;");
    Replace(quot, '\'', "&#39;")
  }

  /** What each character means in HTML text. */
  function EscapeChar(c: char): string {
    if c == '&' then "&amp;"
    else if c == '<' then "&lt;"
    else if c == '>' then "&gt;"
    else if c == '"' then "&quot;"
    else if c == '\'' then "&#39;"
    else [c]
  }

  function EscapeEach(value: string): string {
    if value == [] then [] else EscapeChar(value[0]) + EscapeEach(value[1..])
  }

  lemma {:induction false} ReplaceAppend(a: string, b: string, c: char, with: string)
    ensures Replace(a + b, c, with) == Replace(a, c, with) + Replace(b, c, with)
  {
    if a == [] {
      assert a + b == b;
    } else {
      assert (a + b)[1..] == a[1..] + b;
      ReplaceAppend(a[1..], b, c, with);
    }
  }

  lemma EscapeAppend(a: string, b: string)
    ensures EscapeHtml(a + b) == EscapeHtml(a) + EscapeHtml(b)
  {
    ReplaceAppend(a, b, '&', "&amp;");
    var a1, b1 := Replace(a, '&', "&amp;"), Replace(b, '&', "&amp;");
    ReplaceAppend(a1, b1, '<', "&lt;");
    var a2, b2 := Replace(a1, '<', "&lt;"), Replace(b1, '<', "&lt;");
    ReplaceAppend(a2, b2, '>', "&gt;");
    var a3, b3 := Replace(a2, '>', "&gt;"), Replace(b2, '>', "&gt;");
    ReplaceAppend(a3, b3, '"', "&quot;");
    var a4, b4 := Replace(a3, '"', "&quot;"), Replace(b3, '"', "&quot;");
    ReplaceAppend(a4, b4, '\'', "&#39;");
  }

  /** A replacement leaves a string alone that does not contain its character. */
  lemma {:induction false} ReplaceNothing(s: string, c: char, with: string)
    requires c !in s
    ensures Replace(s, c, with) == s
  {
    if s != [] {
      ReplaceNothing(s[1..], c, with);
    }
  }

  /** A character that a replacement is not looking for passes through it. */
  lemma ReplaceOther(c: char, x: char, with: string)
    ensures Replace([c], x, with) == if c == x then with else [c]
  {
    assert [c][1..] == [];
    assert Replace([], x, with) == [];
    assert with + [] == with;
  }

  /** No replacement touches what an earlier one produced. */
  lemma EscapeSingle(c: char)
    ensures EscapeHtml([c]) == EscapeChar(c)
  {
    ReplaceOther(c, '&', "&amp;");
    ReplaceOther(c, '<', "&lt;");
    ReplaceOther(c, '>', "&gt;");
    ReplaceOther(c, '"', "&quot;");
    ReplaceOther(c, '\'', "&#39;");
    var e := EscapeChar(c);
    if e != [c] {
      assert '<' !in e && '>' !in e && '"' !in e && '\'' !in e;
      ReplaceNothing(e, '<', "&lt;");
      ReplaceNothing(e, '>', "&gt;");
      ReplaceNothing(e, '"', "&quot;");
      ReplaceNothing(e, '\'', "&#39;");
    }
  }

  /** The chain of replacements, each applied to the whole result of the one before, equals escaping character by character. */
  lemma {:induction false} ChainIsPerCharacter(value: string)
    ensures EscapeHtml(value) == EscapeEach(value)
  {
    if value != [] {
      assert value == [value[0]] + value[1..];
      EscapeAppend([value[0]], value[1..]);
      EscapeSingle(value[0]);
      ChainIsPerCharacter(value[1..]);
    }
  }

  // ----- Escaping loses nothing and lets no markup through -----

  /** The character that `s` starts with once entities are read, and how much of `s` it takes. */
  function Leading(s: string): (r: (char, nat))
    requires s != []
    ensures 0 < r.1 <= |s|
  {
    if StartsWith(s, "&amp;") then ('&', 5)
    else if StartsWith(s, "&lt;") then ('<', 4)
    else if StartsWith(s, "&gt;") then ('>', 4)
    else if StartsWith(s, "&quot;") then ('"', 6)
    else if StartsWith(s, "&#39;") then ('\'', 5)
    else (s[0], 1)
  }

  function Unescape(s: string): string
    decreases |s|
  {
    if s == [] then [] else [Leading(s).0] + Unescape(s[Leading(s).1..])
  }

  lemma NotAPrefix(s: string, prefix: string, k: nat)
    requires k < |s| && k < |prefix| && s[k] != prefix[k]
    ensures !StartsWith(s, prefix)
  {
    if |prefix| <= |s| {
      assert s[..|prefix|][k] == s[k];
    }
  }

  lemma EntityLeads(c: char, s: string)
    requires StartsWith(s, EscapeChar(c)) && EscapeChar(c) != [c]
    ensures Leading(s) == (c, |EscapeChar(c)|)
  {
    assert s[1] == s[..|EscapeChar(c)|][1];
    if s[1] != 'a' { NotAPrefix(s, "&amp;", 1); }
    if s[1] != 'l' { NotAPrefix(s, "&lt;", 1); }
    if s[1] != 'g' { NotAPrefix(s, "&gt;", 1); }
    if s[1] != 'q' { NotAPrefix(s, "&quot;", 1); }
  }

  lemma OrdinaryLeads(c: char, s: string)
    requires s != [] && s[0] == c && EscapeChar(c) == [c]
    ensures Leading(s) == (c, 1)
  {
    assert c != '&';
    NotAPrefix(s, "&amp;", 0);
    NotAPrefix(s, "&lt;", 0);
    NotAPrefix(s, "&gt;", 0);
    NotAPrefix(s, "&quot;", 0);
    NotAPrefix(s, "&#39;", 0);
  }

  lemma UnescapeFirst(c: char, rest: string)
    ensures Unescape(EscapeChar(c) + rest) == [c] + Unescape(rest)
  {
    var e := EscapeChar(c);
    var s := e + rest;
    assert s[..|e|] == e && s[|e|..] == rest;
    if e == [c] {
      OrdinaryLeads(c, s);
    } else {
      EntityLeads(c, s);
    }
  }

  lemma {:induction false} UnescapeUndoesEscape(value: string)
    ensures Unescape(EscapeHtml(value)) == value
  {
    ChainIsPerCharacter(value);
    if value != [] {
      ChainIsPerCharacter(value[1..]);
      UnescapeFirst(value[0], EscapeEach(value[1..]));
      UnescapeUndoesEscape(value[1..]);
    }
  }

  /** Different values never look the same in the mail, and none of them contains a character that could open or close markup. */
  lemma EscapeIsInjectiveAndInert(a: string, b: string)
    ensures EscapeHtml(a) == EscapeHtml(b) ==> a == b
    ensures forall c | c in EscapeHtml(a) :: c != '<' && c != '>' && c != '"' && c != '\''
  {
    UnescapeUndoesEscape(a);
    UnescapeUndoesEscape(b);
    ChainIsPerCharacter(a);
    EachIsInert(a);
  }

  lemma {:induction false} EachIsInert(value: string)
    ensures forall c | c in EscapeEach(value) :: c != '<' && c != '>' && c != '"' && c != '\''
  {
    if value != [] {
      EachIsInert(value[1..]);
    }
  }
}
