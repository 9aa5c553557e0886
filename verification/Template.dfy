/** The reminder mail: a one-pass scanner over `{{…}}` tags, against the meaning of the template it scans. */
module Template {
  import opened Text
  import Escape

  const TITLE := "Event reminder"
  const LOGO_URL := "https://solace.onl/favicon-192x192.png"

  datatype Content = Content(
    summary: string,
    eventDate: string,
    eventTime: string,
    timeUntil: string,
    duration: string,
    eventUrl: string,
    calendarUrl: string,
    settingsUrl: string,
    privacyUrl: string)

  function Value(content: Content, name: string): string {
    match name
    case "EventTitle" => TITLE
    case "Summary" => content.summary
    case "EventDate" => content.eventDate
    case "EventTime" => content.eventTime
    case "TimeUntilEvent" => content.timeUntil
    case "Duration" => content.duration
    case "EventUrl" => content.eventUrl
    case "CalendarUrl" => content.calendarUrl
    case "SettingsUrl" => content.settingsUrl
    case "PrivacyUrl" => content.privacyUrl
    case "LogoUrl" => LOGO_URL
    case _ => ""
  }

  type Values = string -> string

  // ----- What a template means -----

  datatype Leaf = Words(words: string) | Field(name: string)

  datatype Piece = Plain(leaf: Leaf) | If(name: string, body: seq<Leaf>)

  function RenderLeaf(leaf: Leaf, value: Values): string {
    match leaf
    case Words(words) => words
    case Field(name) => Escape.EscapeHtml(value(name))
  }

  function RenderLeaves(leaves: seq<Leaf>, value: Values): string {
    if leaves == [] then "" else RenderLeaf(leaves[0], value) + RenderLeaves(leaves[1..], value)
  }

  function RenderPiece(piece: Piece, value: Values): string {
    match piece
    case Plain(leaf) => RenderLeaf(leaf, value)
    case If(name, body) => if value(name) == "" then "" else RenderLeaves(body, value)
  }

  /** Fields are escaped, and a block is kept only when its field is set. */
  function Render(pieces: seq<Piece>, value: Values): string {
    if pieces == [] then "" else RenderPiece(pieces[0], value) + Render(pieces[1..], value)
  }

  // ----- How a template is written -----

  function Tag(tag: string): string {
    "{{" + tag + "}}"
  }

  function PrintLeaf(leaf: Leaf): string {
    match leaf
    case Words(words) => words
    case Field(name) => Tag("." + name)
  }

  /** The leaves, with `after` written behind them. */
  function PrintLeaves(leaves: seq<Leaf>, after: string): string {
    if leaves == [] then after else PrintLeaf(leaves[0]) + PrintLeaves(leaves[1..], after)
  }

  function PrintPiece(piece: Piece, after: string): string {
    match piece
    case Plain(leaf) => PrintLeaf(leaf) + after
    case If(name, body) => Tag("if ." + name) + PrintLeaves(body, Tag("end") + after)
  }

  /** The pieces, with `after` written behind them. */
  function Print(pieces: seq<Piece>, after: string): string {
    if pieces == [] then after else PrintPiece(pieces[0], Print(pieces[1..], after))
  }

  predicate GoodName(name: string) {
    '{' !in name && '}' !in name
  }

  /** No tag opens inside `words`, not even one that borrows the first brace of what follows. */
  ghost predicate Fits(words: string, after: string) {
    forall i: nat | i < |words| :: !OccursAt(words + after, "{{", i)
  }

  ghost predicate WellFormedLeaf(leaf: Leaf, after: string) {
    match leaf
    case Words(words) => Fits(words, after)
    case Field(name) => GoodName(name)
  }

  ghost predicate WellFormedLeaves(leaves: seq<Leaf>, after: string) {
    leaves == [] || (WellFormedLeaf(leaves[0], PrintLeaves(leaves[1..], after)) && WellFormedLeaves(leaves[1..], after))
  }

  ghost predicate WellFormedPiece(piece: Piece, after: string) {
    match piece
    case Plain(leaf) => WellFormedLeaf(leaf, after)
    case If(name, body) => GoodName(name) && WellFormedLeaves(body, Tag("end") + after)
  }

  ghost predicate WellFormed(pieces: seq<Piece>, after: string) {
    pieces == [] || (WellFormedPiece(pieces[0], Print(pieces[1..], after)) && WellFormed(pieces[1..], after))
  }

  // ----- The scanner -----

  /** What follows the next `{{end}}`, or nothing when there is none. */
  function PastEnd(rest: string): (r: string)
    ensures |r| <= |rest|
  {
    match Find(rest, "{{end}}")
    case None => ""
    case Some(end) => rest[end + 7..]
  }

  /** Where the tag opening at `start` closes, counted from `start`. */
  function CloseOf(rest: string, start: nat): (r: Option<nat>)
    requires OccursAt(rest, "{{", start)
    ensures r.Some? ==> 2 <= r.value && start + r.value + 2 <= |rest|
  {
    assert rest[start..][0] == rest[start..start + 2][0] == '{';
    assert rest[start..][1] == rest[start..start + 2][1] == '{';
    var r := Find(rest[start..], "}}");
    assert r.Some? ==> rest[start..][r.value..r.value + 2][0] == '}';
    assert r.Some? ==> rest[start..][r.value] == '}';
    r
  }

  /** What a tag puts into the mail by itself. */
  function Emitted(tag: string, value: Values): string {
    if !StartsWith(tag, "if .") && StartsWith(tag, ".") then Escape.EscapeHtml(value(tag[1..])) else ""
  }

  /** Where the scan goes on after a tag: past the next `{{end}}` for a block whose field is not set. */
  function Onward(tag: string, after: string, value: Values): (r: string)
    ensures |r| <= |after|
  {
    if StartsWith(tag, "if .") && value(tag[4..]) == "" then PastEnd(after) else after
  }

  datatype Cut = NoTag | Unclosed(before: string) | Tagged(before: string, tag: string, after: string)

  /** The remainder around the tag that opens at `start`. */
  function CutAt(rest: string, start: nat): (cut: Cut)
    requires OccursAt(rest, "{{", start)
    ensures cut.Tagged? ==> |cut.after| < |rest|
  {
    var close := CloseOf(rest, start);
    if close.None? then Unclosed(rest[..start])
    else Tagged(rest[..start], rest[start + 2..start + close.value], rest[start + close.value + 2..])
  }

  /** The remainder around its first tag. */
  function NextTag(rest: string): (cut: Cut)
    ensures cut.Tagged? ==> |cut.after| < |rest|
  {
    var found := Find(rest, "{{");
    if found.None? then NoTag else CutAt(rest, found.value)
  }

  /** What the loop adds to the mail for a template remainder. */
  function Scan(rest: string, value: Values): string
    decreases |rest|
  {
    match NextTag(rest)
    case NoTag => rest
    case Unclosed(before) => before + rest
    case Tagged(before, tag, after) => before + Emitted(tag, value) + Scan(Onward(tag, after, value), value)
  }

  lemma Regroup(a: string, b: string, c: string, d: string)
    ensures a + (b + c + d) == a + b + c + d
  {
  }

  /** One turn of the loop moves text from the remainder's scan into the mail. */
  lemma ScanThroughTag(html: string, rest: string, value: Values)
    requires NextTag(rest).Tagged?
    ensures
      var cut := NextTag(rest);
      html + Scan(rest, value)
      == html + cut.before + Emitted(cut.tag, value) + Scan(Onward(cut.tag, cut.after, value), value)
  {
    var cut := NextTag(rest);
    Regroup(html, cut.before, Emitted(cut.tag, value), Scan(Onward(cut.tag, cut.after, value), value));
  }

  lemma ScanUnclosed(html: string, rest: string, value: Values)
    requires NextTag(rest).Unclosed?
    ensures html + Scan(rest, value) == html + NextTag(rest).before + rest
  {
  }

  /** The loop's three kinds of tag: a block, a field, and one that prints nothing, such as `{{end}}`. */
  method VisitTag(html: string, tag: string, after: string, value: Values) returns (html': string, rest: string)
    ensures html' == html + Emitted(tag, value) && rest == Onward(tag, after, value)
  {
    html', rest := html, after;
    if StartsWith(tag, "if .") {
      if value(tag[4..]) == "" {
        rest := PastEnd(after);
      }
    } else if StartsWith(tag, ".") {
      html' := html + Escape.EscapeHtml(value(tag[1..]));
    }
  }

  method Html(template: string, value: Values) returns (html: string)
    ensures html == Scan(template, value)
  {
    html := "";
    var rest := template;
    var cut := NextTag(rest);
    while !cut.NoTag?
      invariant cut == NextTag(rest)
      invariant html + Scan(rest, value) == Scan(template, value)
      decreases |rest|
    {
      ghost var html0 := html;
      html := html + cut.before;
      if cut.Unclosed? {
        ScanUnclosed(html0, rest, value);
        break;
      }
      ScanThroughTag(html0, rest, value);
      html, rest := VisitTag(html, cut.tag, cut.after, value);
      cut := NextTag(rest);
    }
    html := html + rest;
  }

  // ----- Scanning printed templates -----

  lemma OccursShift(a: string, b: string, pattern: string, i: nat)
    ensures OccursAt(a + b, pattern, |a| + i) <==> OccursAt(b, pattern, i)
  {
    if i + |pattern| <= |b| {
      assert (a + b)[|a| + i..|a| + i + |pattern|] == b[i..i + |pattern|];
    }
  }

  lemma OccursHas(s: string, pattern: string, i: nat, k: nat)
    requires OccursAt(s, pattern, i) && k < |pattern|
    ensures s[i + k] == pattern[k]
  {
    assert s[i..i + |pattern|][k] == s[i + k];
  }

  lemma FindShift(a: string, b: string, pattern: string)
    requires forall i: nat | i < |a| :: !OccursAt(a + b, pattern, i)
    requires |pattern| > 0
    ensures Find(b, pattern).None? ==> Find(a + b, pattern).None?
    ensures Find(b, pattern).Some? ==> Find(a + b, pattern) == Some(|a| + Find(b, pattern).value)
  {
    forall j: nat
      ensures j >= |a| ==> (OccursAt(a + b, pattern, j) <==> OccursAt(b, pattern, j - |a|))
    {
      if j >= |a| {
        OccursShift(a, b, pattern, j - |a|);
      }
    }
    var f := Find(b, pattern);
    if f.Some? {
      assert OccursAt(a + b, pattern, |a| + f.value);
      FindFromIs(a + b, pattern, 0, |a| + f.value);
    }
  }

  lemma TagComesFirst(tag: string, after: string)
    requires '}' !in tag
    ensures NextTag(Tag(tag) + after) == Tagged("", tag, after)
  {
    var s := Tag(tag) + after;
    var n := |tag| + 2;
    assert OccursAt(s, "{{", 0);
    FindFromIs(s, "{{", 0, 0);
    forall j: nat | j < n
      ensures !OccursAt(s, "}}", j)
    {
      assert s[j] != '}';
      if OccursAt(s, "}}", j) {
        OccursHas(s, "}}", j, 0);
      }
    }
    assert s[n..n + 2] == "}}";
    FindFromIs(s, "}}", 0, n);
    assert s[0..] == s;
    assert s[2..n] == tag && s[n + 2..] == after && s[..0] == "";
  }

  function Prepend(words: string, cut: Cut): Cut {
    match cut
    case NoTag => NoTag
    case Unclosed(before) => Unclosed(words + before)
    case Tagged(before, tag, after) => Tagged(words + before, tag, after)
  }

  lemma CutShift(words: string, after: string, start: nat)
    requires OccursAt(after, "{{", start)
    ensures OccursAt(words + after, "{{", |words| + start)
    ensures CutAt(words + after, |words| + start) == Prepend(words, CutAt(after, start))
  {
    OccursShift(words, after, "{{", start);
    var s, at := words + after, |words| + start;
    assert s[at..] == after[start..];
    assert s[..at] == words + after[..start];
    var close := CloseOf(after, start);
    if close.Some? {
      assert s[at + 2..at + close.value] == after[start + 2..start + close.value];
      assert s[at + close.value + 2..] == after[start + close.value + 2..];
    }
  }

  lemma WordsComeFirst(words: string, after: string)
    requires Fits(words, after)
    ensures NextTag(words + after) == Prepend(words, NextTag(after))
  {
    FindShift(words, after, "{{");
    var found := Find(after, "{{");
    if found.Some? {
      CutShift(words, after, found.value);
    }
  }

  lemma ScanWords(words: string, after: string, value: Values)
    requires Fits(words, after) && !NextTag(after).Unclosed?
    ensures !NextTag(words + after).Unclosed?
    ensures Scan(words + after, value) == words + Scan(after, value)
  {
    WordsComeFirst(words, after);
    var cut := NextTag(after);
    if cut.Tagged? {
      ScanThroughTag(words, after, value);
      assert Scan(words + after, value)
        == (words + cut.before) + Emitted(cut.tag, value) + Scan(Onward(cut.tag, cut.after, value), value);
    }
  }

  lemma FieldTag(name: string, after: string, value: Values)
    ensures Emitted("." + name, value) == Escape.EscapeHtml(value(name))
    ensures Onward("." + name, after, value) == after
  {
    var tag := "." + name;
    if |tag| >= 4 {
      assert tag[..4][0] == '.' && "if ."[0] == 'i';
    }
    assert tag[..1] == "." && tag[1..] == name;
  }

  lemma IfTag(name: string, after: string, value: Values)
    ensures Emitted("if ." + name, value) == ""
    ensures Onward("if ." + name, after, value) == if value(name) == "" then PastEnd(after) else after
  {
    var tag := "if ." + name;
    assert tag[..4] == "if ." && tag[4..] == name;
  }

  lemma EndTag(after: string, value: Values)
    ensures Emitted("end", value) == "" && Onward("end", after, value) == after
  {
    assert "end"[..1][0] == 'e';
  }

  lemma ScanOpening(rest: string, tag: string, after: string, value: Values)
    requires NextTag(rest) == Tagged("", tag, after)
    ensures Scan(rest, value) == Emitted(tag, value) + Scan(Onward(tag, after, value), value)
  {
    assert "" + Emitted(tag, value) == Emitted(tag, value);
  }

  lemma ScanTag(tag: string, after: string, value: Values)
    requires '}' !in tag
    ensures !NextTag(Tag(tag) + after).Unclosed?
    ensures Scan(Tag(tag) + after, value) == Emitted(tag, value) + Scan(Onward(tag, after, value), value)
  {
    TagComesFirst(tag, after);
    ScanOpening(Tag(tag) + after, tag, after, value);
  }

  lemma ScanLeaf(leaf: Leaf, after: string, value: Values)
    requires WellFormedLeaf(leaf, after) && !NextTag(after).Unclosed?
    ensures !NextTag(PrintLeaf(leaf) + after).Unclosed?
    ensures Scan(PrintLeaf(leaf) + after, value) == RenderLeaf(leaf, value) + Scan(after, value)
  {
    match leaf
    case Words(words) =>
      ScanWords(words, after, value);
    case Field(name) =>
      ScanTag("." + name, after, value);
      FieldTag(name, after, value);
  }

  lemma {:induction false} ScanLeaves(leaves: seq<Leaf>, after: string, value: Values)
    requires WellFormedLeaves(leaves, after) && !NextTag(after).Unclosed?
    ensures !NextTag(PrintLeaves(leaves, after)).Unclosed?
    ensures Scan(PrintLeaves(leaves, after), value) == RenderLeaves(leaves, value) + Scan(after, value)
  {
    if leaves != [] {
      ScanLeaves(leaves[1..], after, value);
      ScanLeaf(leaves[0], PrintLeaves(leaves[1..], after), value);
    }
  }

  // ----- Skipping a block -----

  lemma PastEndShift(a: string, b: string)
    requires forall i: nat | i < |a| :: !OccursAt(a + b, "{{end}}", i)
    ensures PastEnd(a + b) == PastEnd(b)
  {
    FindShift(a, b, "{{end}}");
    var f := Find(b, "{{end}}");
    if f.Some? {
      assert (a + b)[|a| + f.value + 7..] == b[f.value + 7..];
    }
  }

  lemma EndStartsWithBraces(s: string, i: nat)
    requires OccursAt(s, "{{end}}", i)
    ensures OccursAt(s, "{{", i) && s[i + 2] == 'e'
  {
    OccursHas(s, "{{end}}", i, 0);
    OccursHas(s, "{{end}}", i, 1);
    OccursHas(s, "{{end}}", i, 2);
    assert s[i..i + 2] == "{{";
  }

  /** No leaf hides an `{{end}}`, so skipping a block never stops inside it. */
  lemma SkipLeaf(leaf: Leaf, after: string)
    requires WellFormedLeaf(leaf, after)
    ensures PastEnd(PrintLeaf(leaf) + after) == PastEnd(after)
  {
    var a := PrintLeaf(leaf);
    var s := a + after;
    forall i: nat | i < |a|
      ensures !OccursAt(s, "{{end}}", i)
    {
      if OccursAt(s, "{{end}}", i) {
        EndStartsWithBraces(s, i);
        OccursHas(s, "{{", i, 0);
        OccursHas(s, "{{", i, 1);
        assert s[i] == a[i];
        assert leaf.Field? ==> a[2] == '.' && s[2] == '.' && forall k | 3 <= k < |a| :: a[k] != '{';
        assert false;
      }
    }
    PastEndShift(a, after);
  }

  lemma {:induction false} SkipLeaves(leaves: seq<Leaf>, after: string)
    requires WellFormedLeaves(leaves, Tag("end") + after)
    ensures PastEnd(PrintLeaves(leaves, Tag("end") + after)) == after
  {
    if leaves == [] {
      var s := Tag("end") + after;
      assert Tag("end") == "{{end}}";
      assert s[0..7] == "{{end}}" && s[7..] == after;
      FindFromIs(s, "{{end}}", 0, 0);
    } else {
      SkipLeaves(leaves[1..], after);
      SkipLeaf(leaves[0], PrintLeaves(leaves[1..], Tag("end") + after));
    }
  }

  lemma ScanIfTag(name: string, inner: string, value: Values)
    requires GoodName(name)
    ensures !NextTag(Tag("if ." + name) + inner).Unclosed?
    ensures Scan(Tag("if ." + name) + inner, value) == Scan(if value(name) == "" then PastEnd(inner) else inner, value)
  {
    ScanTag("if ." + name, inner, value);
    IfTag(name, inner, value);
  }

  lemma ScanEnd(after: string, value: Values)
    ensures !NextTag(Tag("end") + after).Unclosed?
    ensures Scan(Tag("end") + after, value) == Scan(after, value)
  {
    ScanTag("end", after, value);
    EndTag(after, value);
  }

  lemma ScanIf(name: string, body: seq<Leaf>, after: string, value: Values)
    requires WellFormedPiece(If(name, body), after)
    ensures !NextTag(PrintPiece(If(name, body), after)).Unclosed?
    ensures Scan(PrintPiece(If(name, body), after), value) == RenderPiece(If(name, body), value) + Scan(after, value)
  {
    ScanIfTag(name, PrintLeaves(body, Tag("end") + after), value);
    if value(name) == "" {
      SkipLeaves(body, after);
    } else {
      ScanEnd(after, value);
      ScanLeaves(body, Tag("end") + after, value);
    }
  }

  /** The last piece is a tag or a block, so no text runs on into what follows. */
  predicate EndsWithTag(pieces: seq<Piece>) {
    pieces != [] && !(pieces[|pieces| - 1].Plain? && pieces[|pieces| - 1].leaf.Words?)
  }

  /** The scan goes through printed pieces and on to what follows them; only text that runs into an open tag could disturb it. */
  lemma {:induction false} ScanPieces(pieces: seq<Piece>, after: string, value: Values)
    requires WellFormed(pieces, after) && (EndsWithTag(pieces) || pieces == [] || !NextTag(after).Unclosed?)
    ensures pieces != [] || !NextTag(after).Unclosed? ==> !NextTag(Print(pieces, after)).Unclosed?
    ensures Scan(Print(pieces, after), value) == Render(pieces, value) + Scan(after, value)
    decreases |pieces|
  {
    if pieces != [] {
      var rest := pieces[1..];
      ScanPieces(rest, after, value);
      match pieces[0]
      case Plain(Words(words)) => ScanLeaf(pieces[0].leaf, Print(rest, after), value);
      case Plain(Field(name)) => ScanFieldPiece(name, Print(rest, after), value);
      case If(name, body) => ScanIf(name, body, Print(rest, after), value);
    }
  }

  lemma ScanFieldPiece(name: string, after: string, value: Values)
    requires GoodName(name)
    ensures !NextTag(PrintLeaf(Field(name)) + after).Unclosed?
    ensures Scan(PrintLeaf(Field(name)) + after, value) == RenderLeaf(Field(name), value) + Scan(after, value)
  {
    ScanTag("." + name, after, value);
    FieldTag(name, after, value);
  }

  /** Scanning a printed template renders the tree it was printed from. */
  lemma ScanPrinted(pieces: seq<Piece>, value: Values)
    requires WellFormed(pieces, "")
    ensures Scan(Print(pieces, ""), value) == Render(pieces, value)
  {
    assert !OccursAt("", "{{", 0);
    ScanPieces(pieces, "", value);
  }

  /**
   * The mail for a printed template is the rendering of the tree it was printed from, for every set of values.
   */
  method ReminderHtml(template: string, content: Content) returns (html: string)
    ensures forall pieces | WellFormed(pieces, "") && Print(pieces, "") == template ::
      html == Render(pieces, name => Value(content, name))
  {
    html := Html(template, name => Value(content, name));
    forall pieces | WellFormed(pieces, "") && Print(pieces, "") == template
      ensures html == Render(pieces, name => Value(content, name))
    {
      ScanPrinted(pieces, name => Value(content, name));
    }
  }

  /** Each name in a template shows its own value, escaped, and any other name shows nothing. */
  lemma EachNameShowsItsValue(content: Content, name: string)
    ensures var shown := Render([Plain(Field(name))], n => Value(content, n));
            var value := match name
              case "EventTitle" => "Event reminder"
              case "Summary" => content.summary
              case "EventDate" => content.eventDate
              case "EventTime" => content.eventTime
              case "TimeUntilEvent" => content.timeUntil
              case "Duration" => content.duration
              case "EventUrl" => content.eventUrl
              case "CalendarUrl" => content.calendarUrl
              case "SettingsUrl" => content.settingsUrl
              case "PrivacyUrl" => content.privacyUrl
              case "LogoUrl" => "https://solace.onl/favicon-192x192.png"
              case _ => "";
            shown == Escape.EscapeEach(value)
  {
    Escape.ChainIsPerCharacter(Value(content, name));
    var pieces, values := [Plain(Field(name))], n => Value(content, n);
    assert pieces[1..] == [];
    assert Render(pieces, values) == RenderPiece(pieces[0], values) + "";
  }

  /** Written out: text comes out as it is, a field escaped, and a block exactly when its field is not empty. */
  lemma TagsAsWritten(words: string, name: string, value: Values)
    requires GoodName(name) && '{' !in words
    ensures Scan(words, value) == words
    ensures Scan("{{." + name + "}}", value) == Escape.EscapeEach(value(name))
    ensures Scan("{{if ." + name + "}}" + words + "{{end}}", value) == if value(name) == "" then "" else words
  {
    BracelessFits(words, "");
    ScanOne(Plain(Words(words)), words, value);
    FieldAsWritten(name, value);
    BlockAsWritten(words, name, value);
  }

  lemma FieldAsWritten(name: string, value: Values)
    requires GoodName(name)
    ensures Scan("{{." + name + "}}", value) == Escape.EscapeEach(value(name))
  {
    var printed := "{{." + name + "}}";
    assert PrintLeaf(Field(name)) + "" == printed;
    ScanOne(Plain(Field(name)), printed, value);
    Escape.ChainIsPerCharacter(value(name));
  }

  lemma BlockAsWritten(words: string, name: string, value: Values)
    requires GoodName(name) && '{' !in words
    ensures Scan("{{if ." + name + "}}" + words + "{{end}}", value) == if value(name) == "" then "" else words
  {
    var printed, block := "{{if ." + name + "}}" + words + "{{end}}", If(name, [Words(words)]);
    BracelessFits(words, "{{end}}");
    assert Tag("end") + "" == "{{end}}";
    assert WellFormedPiece(block, "");
    PrintedBlock(name, words);
    ScanOne(block, printed, value);
    assert RenderLeaves([Words(words)], value) == words + RenderLeaves([Words(words)][1..], value) == words;
  }

  lemma PrintedBlock(name: string, words: string)
    ensures PrintPiece(If(name, [Words(words)]), "") == "{{if ." + name + "}}" + words + "{{end}}"
  {
    assert Tag("end") + "" == "{{end}}";
    assert PrintLeaves([Words(words)], "{{end}}") == words + PrintLeaves([Words(words)][1..], "{{end}}") == words + "{{end}}";
    assert Tag("if ." + name) == "{{if ." + name + "}}";
  }

  lemma BracelessFits(words: string, after: string)
    requires '{' !in words && (after == "" || after == "{{end}}")
    ensures Fits(words, after) && WellFormedLeaves([Words(words)], after)
  {
    forall i: nat | i < |words|
      ensures !OccursAt(words + after, "{{", i)
    {
      if OccursAt(words + after, "{{", i) {
        OccursHas(words + after, "{{", i, 0);
      }
    }
    assert PrintLeaves([Words(words)][1..], after) == after;
  }

  lemma ScanOne(piece: Piece, printed: string, value: Values)
    requires WellFormedPiece(piece, "") && PrintPiece(piece, "") == printed
    ensures Scan(printed, value) == RenderPiece(piece, value)
  {
    assert [piece][1..] == [];
    assert Print([piece], "") == printed && WellFormed([piece], "");
    ScanPrinted([piece], value);
    assert Render([piece], value) == RenderPiece(piece, value) + "";
  }

  // ----- Templates that are not well formed -----

  /** Text, then a tag that opens and never closes. */
  ghost predicate NeverCloses(words: string, tail: string) {
    Fits(words, "{{" + tail) && forall i: nat :: !OccursAt("{{" + tail, "}}", i)
  }

  lemma OpenTag(words: string, tail: string)
    requires NeverCloses(words, tail)
    ensures NextTag(words + ("{{" + tail)) == Unclosed(words)
  {
    var open := "{{" + tail;
    assert open[0..2] == "{{";
    FindFromIs(open, "{{", 0, 0);
    assert open[0..] == open && open[..0] == "";
    assert NextTag(open) == Unclosed("");
    WordsComeFirst(words, open);
    assert words + "" == words;
  }

  /**
   * Whatever well-formed template comes before it, a tag that never closes ends the loop after the text since the last tag
   * was pushed, and then the whole remainder is pushed again: that text shows twice. The remainder comes out as written
   * exactly when there is no such text.
   */
  lemma UnclosedTagRepeatsItsText(pieces: seq<Piece>, words: string, tail: string, value: Values)
    requires NeverCloses(words, tail) && WellFormed(pieces, words + ("{{" + tail)) && (pieces == [] || EndsWithTag(pieces))
    ensures
      var remainder := words + ("{{" + tail);
      && Scan(Print(pieces, remainder), value) == Render(pieces, value) + words + remainder
      && (Scan(Print(pieces, remainder), value) == Render(pieces, value) + remainder <==> words == "")
  {
    var remainder := words + ("{{" + tail);
    OpenTag(words, tail);
    ScanPieces(pieces, remainder, value);
    ScanUnclosed("", remainder, value);
    Twice(Render(pieces, value), words, remainder);
  }

  lemma Twice(rendered: string, words: string, remainder: string)
    ensures rendered + (words + remainder) == rendered + words + remainder
    ensures rendered + words + remainder == rendered + remainder <==> words == ""
  {
    assert |rendered + words + remainder| == |rendered + remainder| + |words|;
    if words == "" {
      assert rendered + words == rendered;
    }
  }
}
