/** The comment scanner for Go and CSS, against a machine that reads one character at a time; and the line index. */
module Comments {
  import opened Text

  datatype Range = Range(pos: nat, end: nat, block: bool)

  // ----- The reference: a machine with one character of memory -----

  datatype Mode =
    | Code
    | Slash(pos: nat)
    | Quoted(close: char)
    | Escaped(close: char)
    | Line(pos: nat)
    | Block(pos: nat, star: bool)

  predicate IsQuote(c: char) {
    c == '"' || c == '\'' || c == '`'
  }

  function NextInCode(c: char, p: nat): Mode {
    if IsQuote(c) then Quoted(c) else if c == '/' then Slash(p) else Code
  }

  /** Only backtick strings span lines, and only they have no escapes. */
  function Next(mode: Mode, c: char, p: nat): Mode {
    match mode
    case Code => NextInCode(c, p)
    case Slash(pos) => if c == '/' then Line(pos) else if c == '*' then Block(pos, false) else NextInCode(c, p)
    case Quoted(close) =>
      if c == close || (close != '`' && c == '\n') then Code
      else if c == '\\' && close != '`' then Escaped(close)
      else mode
    case Escaped(close) => Quoted(close)
    case Line(pos) => if c == '\n' then Code else mode
    case Block(pos, star) => if star && c == '/' then Code else Block(pos, c == '*')
  }

  /** The comment that ends when the machine reads `c` at `p`: a line comment before it, a block comment with it. */
  function Ends(mode: Mode, c: char, p: nat): seq<Range> {
    match mode
    case Line(pos) => if c == '\n' then [Range(pos, p, false)] else []
    case Block(pos, star) => if star && c == '/' then [Range(pos, p + 1, true)] else []
    case _ => []
  }

  function EndsAtEof(mode: Mode, n: nat): seq<Range> {
    match mode
    case Line(pos) => [Range(pos, n, false)]
    case Block(pos, _) => [Range(pos, n, true)]
    case _ => []
  }

  /** The comments that end when the machine reads on from `p`. */
  function Machine(text: string, p: nat, mode: Mode): seq<Range>
    requires p <= |text|
    decreases |text| - p
  {
    if p == |text| then EndsAtEof(mode, p)
    else Ends(mode, text[p], p) + Machine(text, p + 1, Next(mode, text[p], p))
  }

  // ----- Jumping ahead agrees with reading every character -----

  lemma ReadsOn(text: string, p: nat, mode: Mode, next: Mode)
    requires p < |text| && Ends(mode, text[p], p) == [] && Next(mode, text[p], p) == next
    ensures Machine(text, p, mode) == Machine(text, p + 1, next)
  {
  }

  lemma Closes(text: string, p: nat, mode: Mode, comment: Range)
    requires p < |text| && Ends(mode, text[p], p) == [comment] && Next(mode, text[p], p) == Code
    ensures Machine(text, p, mode) == [comment] + Machine(text, p + 1, Code)
  {
  }

  lemma {:induction false} LineRuns(text: string, pos: nat, p: nat, end: nat)
    requires p <= end <= |text| && forall i | p <= i < end :: text[i] != '\n'
    ensures Machine(text, p, Line(pos)) == Machine(text, end, Line(pos))
    decreases end - p
  {
    if p < end {
      LineRuns(text, pos, p + 1, end);
    }
  }

  /** A line comment is read up to the newline, which the machine then reads as code. */
  lemma LineEnds(text: string, pos: nat, end: nat)
    requires pos + 2 <= end <= |text| && text[pos] == text[pos + 1] == '/'
    requires forall i | pos + 2 <= i < end :: text[i] != '\n'
    requires end < |text| ==> text[end] == '\n'
    ensures Machine(text, pos, Code) == [Range(pos, end, false)] + Machine(text, end, Code)
  {
    ReadsOn(text, pos, Code, Slash(pos));
    ReadsOn(text, pos + 1, Slash(pos), Line(pos));
    LineRuns(text, pos, pos + 2, end);
    if end < |text| {
      Closes(text, end, Line(pos), Range(pos, end, false));
      ReadsOn(text, end, Code, Code);
    }
  }

  lemma {:induction false} BlockRuns(text: string, pos: nat, from: nat, p: nat, end: nat)
    requires from <= p <= end <= |text|
    requires forall i | from <= i < end - 1 :: !(text[i] == '*' && text[i + 1] == '/')
    ensures Machine(text, p, Block(pos, p > from && text[p - 1] == '*'))
         == Machine(text, end, Block(pos, end > from && text[end - 1] == '*'))
    decreases end - p
  {
    if p < end {
      assert p > from && text[p - 1] == '*' ==> text[p] != '/' by {
        var i := p - 1;
        assert from <= i < end - 1 ==> !(text[i] == '*' && text[i + 1] == '/');
      }
      BlockRuns(text, pos, from, p + 1, end);
    }
  }

  predicate CloseAt(text: string, i: nat) {
    i + 1 < |text| && text[i] == '*' && text[i + 1] == '/'
  }

  lemma BlockEnds(text: string, pos: nat, end: nat)
    requires pos + 2 <= end && CloseAt(text, end) && forall i | pos + 2 <= i < end :: !CloseAt(text, i)
    requires text[pos] == '/' && text[pos + 1] == '*'
    ensures Machine(text, pos, Code) == [Range(pos, end + 2, true)] + Machine(text, end + 2, Code)
  {
    ReadsOn(text, pos, Code, Slash(pos));
    ReadsOn(text, pos + 1, Slash(pos), Block(pos, false));
    assert forall i | pos + 2 <= i < end :: !(text[i] == '*' && text[i + 1] == '/') by {
      forall i | pos + 2 <= i < end
        ensures !(text[i] == '*' && text[i + 1] == '/')
      {
        assert !CloseAt(text, i);
      }
    }
    BlockRuns(text, pos, pos + 2, pos + 2, end + 1);
    Closes(text, end + 1, Block(pos, true), Range(pos, end + 2, true));
  }

  lemma BlockNeverEnds(text: string, pos: nat)
    requires pos + 2 <= |text| && forall i | pos + 2 <= i < |text| :: !CloseAt(text, i)
    requires text[pos] == '/' && text[pos + 1] == '*'
    ensures Machine(text, pos, Code) == [Range(pos, |text|, true)] + Machine(text, |text|, Code)
  {
    ReadsOn(text, pos, Code, Slash(pos));
    ReadsOn(text, pos + 1, Slash(pos), Block(pos, false));
    forall i | pos + 2 <= i < |text| - 1
      ensures !(text[i] == '*' && text[i + 1] == '/')
    {
      assert !CloseAt(text, i);
    }
    BlockRuns(text, pos, pos + 2, pos + 2, |text|);
  }

  /** A slash that opens no comment might as well not have been read. */
  lemma OrdinaryCharacter(text: string, p: nat)
    requires p < |text| && !IsQuote(text[p])
    requires text[p] == '/' && p + 1 < |text| ==> text[p + 1] != '/' && text[p + 1] != '*'
    ensures Machine(text, p, Code) == Machine(text, p + 1, Code)
  {
  }

  function Clamp(text: string, i: nat): nat {
    if i < |text| then i else |text|
  }

  /** `char === '"'…`: from behind an opening quote to behind the end of the string. */
  method SkipString(text: string, open: nat) returns (i: nat)
    requires open < |text| && IsQuote(text[open])
    ensures open < i
    ensures Machine(text, open, Code) == Machine(text, Clamp(text, i), Code)
  {
    var close := text[open];
    ReadsOn(text, open, Code, Quoted(close));
    i := open + 1;
    while i < |text| && text[i] != close && (close == '`' || text[i] != '\n')
      invariant open < i
      invariant Machine(text, open, Code) == Machine(text, Clamp(text, i), Quoted(close))
    {
      if text[i] == '\\' && close != '`' {
        ReadsOn(text, i, Quoted(close), Escaped(close));
        i := i + 1;
        if i < |text| {
          ReadsOn(text, i, Escaped(close), Quoted(close));
        }
      } else {
        ReadsOn(text, i, Quoted(close), Quoted(close));
      }
      i := i + 1;
    }
    if i < |text| {
      ReadsOn(text, i, Quoted(close), Code);
    }
    i := i + 1;
  }

  lemma FirstNewline(text: string, from: nat)
    requires from <= |text|
    ensures
      var found := FindFrom(text, "\n", from);
      var stop := if found.Some? then found.value else |text|;
      && from <= stop <= |text|
      && (forall i | from <= i < stop :: text[i] != '\n')
      && (stop < |text| ==> text[stop] == '\n')
  {
    var found := FindFrom(text, "\n", from);
    var stop := if found.Some? then found.value else |text|;
    forall i | from <= i < stop
      ensures text[i] != '\n'
    {
      assert text[i..i + 1] == [text[i]];
      assert !OccursAt(text, "\n", i);
    }
    if found.Some? {
      assert text[stop..stop + 1] == [text[stop]];
    }
  }

  lemma FirstClose(text: string, from: nat)
    requires from <= |text|
    ensures
      var found := FindFrom(text, "*/", from);
      if found.Some? then from <= found.value && CloseAt(text, found.value) && forall i | from <= i < found.value :: !CloseAt(text, i)
      else forall i | from <= i < |text| :: !CloseAt(text, i)
  {
    var found := FindFrom(text, "*/", from);
    forall i: nat
      ensures OccursAt(text, "*/", i) <==> CloseAt(text, i)
    {
      if i + 1 < |text| {
        assert text[i..i + 2] == [text[i], text[i + 1]];
        assert "*/"[0] == '*' && "*/"[1] == '/';
      }
    }
  }

  method LineEndAfter(text: string, pos: nat) returns (stop: nat)
    requires pos + 1 < |text| && text[pos] == text[pos + 1] == '/'
    ensures pos < stop <= |text|
    ensures Machine(text, pos, Code) == [Range(pos, stop, false)] + Machine(text, stop, Code)
  {
    var end := FindFrom(text, "\n", pos);
    stop := if end.Some? then end.value else |text|;
    FirstNewline(text, pos);
    LineEnds(text, pos, stop);
  }

  method BlockEndAfter(text: string, pos: nat) returns (stop: nat)
    requires pos + 1 < |text| && text[pos] == '/' && text[pos + 1] == '*'
    ensures pos < stop <= |text|
    ensures Machine(text, pos, Code) == [Range(pos, stop, true)] + Machine(text, stop, Code)
  {
    var end := FindFrom(text, "*/", pos + 2);
    stop := if end.Some? then end.value + 2 else |text|;
    FirstClose(text, pos + 2);
    if end.Some? {
      BlockEnds(text, pos, end.value);
    } else {
      BlockNeverEnds(text, pos);
    }
  }

  lemma Regroup(ranges: seq<Range>, r: Range, later: seq<Range>)
    ensures ranges + ([r] + later) == ranges + [r] + later
  {
  }

  method ScanCStyleComments(text: string) returns (ranges: seq<Range>)
    ensures ranges == Machine(text, 0, Code)
  {
    ranges := [];
    var i: nat := 0;
    while i < |text|
      invariant ranges + Machine(text, Clamp(text, i), Code) == Machine(text, 0, Code)
      decreases |text| - i
    {
      var c := text[i];
      if IsQuote(c) {
        i := SkipString(text, i);
      } else if c == '/' && i + 1 < |text| && text[i + 1] == '/' {
        var end := LineEndAfter(text, i);
        Regroup(ranges, Range(i, end, false), Machine(text, end, Code));
        ranges := ranges + [Range(i, end, false)];
        i := end;
      } else if c == '/' && i + 1 < |text| && text[i + 1] == '*' {
        var stop := BlockEndAfter(text, i);
        Regroup(ranges, Range(i, stop, true), Machine(text, stop, Code));
        ranges := ranges + [Range(i, stop, true)];
        i := stop;
      } else {
        OrdinaryCharacter(text, i);
        i := i + 1;
      }
    }
  }

  // ----- Tokens: what the text is made of -----

  /** The backslashes right before `p`, from `lo` on. */
  function Backslashes(text: string, lo: nat, p: nat): nat
    requires p <= |text|
  {
    if p > lo && text[p - 1] == '\\' then 1 + Backslashes(text, lo, p - 1) else 0
  }

  /** The string that opens at `open` can end at `i`: at its quote or the end of the line, unless an odd run of backslashes escapes it. */
  predicate CanEnd(text: string, open: nat, i: nat)
    requires open < i < |text|
  {
    if text[open] == '`' then text[i] == '`'
    else (text[i] == text[open] || text[i] == '\n') && Backslashes(text, open + 1, i) % 2 == 0
  }

  /** `text[p..end]` is a string: it ends with its first chance, or with the text. */
  ghost predicate IsString(text: string, p: nat, end: nat) {
    && p < end <= |text| && (text[p] == '"' || text[p] == '\'' || text[p] == '`')
    && (forall i | p < i < end - 1 :: !CanEnd(text, p, i))
    && (end == |text| || (p + 1 < end && CanEnd(text, p, end - 1)))
  }

  /** One character of code: it opens no string and no comment. */
  ghost predicate IsPlain(text: string, p: nat) {
    && p < |text| && text[p] != '"' && text[p] != '\'' && text[p] != '`'
    && (text[p] == '/' ==> p + 1 == |text| || (text[p + 1] != '/' && text[p + 1] != '*'))
  }

  /** `text[p..end]` is one token of a text read as code up to `p`, and `found` the comment it is, if it is one. */
  ghost predicate IsToken(text: string, p: nat, end: nat, found: seq<Range>) {
    || (found == [] && end == p + 1 && IsPlain(text, p))
    || (found == [] && IsString(text, p, end))
    || (exists block :: found == [Range(p, end, block)] && IsComment(text, Range(p, end, block)))
  }

  /** What the machine knows inside a string with escapes: whether the next character is escaped. */
  function InString(text: string, open: nat, p: nat): Mode
    requires open < p <= |text|
  {
    if Backslashes(text, open + 1, p) % 2 == 0 then Quoted(text[open]) else Escaped(text[open])
  }

  lemma StringGoesOn(text: string, open: nat, p: nat)
    requires open < p < |text| && (text[open] == '"' || text[open] == '\'') && !CanEnd(text, open, p)
    ensures Next(InString(text, open, p), text[p], p) == InString(text, open, p + 1)
  {
    assert Backslashes(text, open + 1, p + 1) == if text[p] == '\\' then 1 + Backslashes(text, open + 1, p) else 0;
  }

  lemma {:induction false} QuotedRuns(text: string, open: nat, p: nat)
    requires open < p <= |text| && (text[open] == '"' || text[open] == '\'')
    requires forall i | open < i < p :: !CanEnd(text, open, i)
    ensures Machine(text, open, Code) == Machine(text, p, InString(text, open, p))
    decreases p
  {
    if p == open + 1 {
      ReadsOn(text, open, Code, Quoted(text[open]));
    } else {
      QuotedRuns(text, open, p - 1);
      StringGoesOn(text, open, p - 1);
      ReadsOn(text, p - 1, InString(text, open, p - 1), InString(text, open, p));
    }
  }

  lemma {:induction false} BacktickRuns(text: string, open: nat, p: nat)
    requires open < p <= |text| && text[open] == '`' && forall i | open < i < p :: !CanEnd(text, open, i)
    ensures Machine(text, open, Code) == Machine(text, p, Quoted('`'))
    decreases p
  {
    if p == open + 1 {
      ReadsOn(text, open, Code, Quoted('`'));
    } else {
      BacktickRuns(text, open, p - 1);
      assert !CanEnd(text, open, p - 1);
    }
  }

  /** Nothing in a string is a comment. */
  lemma StringIsRead(text: string, p: nat, end: nat)
    requires IsString(text, p, end)
    ensures Machine(text, p, Code) == Machine(text, end, Code)
  {
    var closed := p + 1 < end && CanEnd(text, p, end - 1);
    var last := if closed then end - 1 else end;
    if text[p] == '`' {
      BacktickRuns(text, p, last);
    } else {
      QuotedRuns(text, p, last);
    }
  }

  lemma CommentIsRead(text: string, r: Range)
    requires IsComment(text, r)
    ensures Machine(text, r.pos, Code) == [r] + Machine(text, r.end, Code)
  {
    if !r.block {
      LineEnds(text, r.pos, r.end);
    } else if r.pos + 4 <= r.end && CloseAt(text, r.end - 2) {
      BlockEnds(text, r.pos, r.end - 2);
    } else {
      BlockNeverEnds(text, r.pos);
    }
  }

  /** The scan reports a token exactly when it is a comment, and goes on behind it. */
  lemma TokenIsRead(text: string, p: nat, end: nat, found: seq<Range>)
    requires IsToken(text, p, end, found)
    ensures p < end <= |text| && Machine(text, p, Code) == found + Machine(text, end, Code)
  {
    if found != [] {
      CommentIsRead(text, found[0]);
    } else if IsPlain(text, p) && end == p + 1 {
      OrdinaryCharacter(text, p);
    } else {
      StringIsRead(text, p, end);
    }
  }

  lemma {:induction false} StringHasAnEnd(text: string, p: nat, from: nat) returns (end: nat)
    requires p < from <= |text| && (text[p] == '"' || text[p] == '\'' || text[p] == '`')
    requires forall i | p < i < from :: !CanEnd(text, p, i)
    ensures IsString(text, p, end)
    decreases |text| - from
  {
    if from == |text| {
      end := from;
    } else if CanEnd(text, p, from) {
      end := from + 1;
    } else {
      end := StringHasAnEnd(text, p, from + 1);
    }
  }

  lemma LineCommentThere(text: string, p: nat) returns (end: nat)
    requires p + 1 < |text| && text[p] == '/' && text[p + 1] == '/'
    ensures IsComment(text, Range(p, end, false))
  {
    FirstNewline(text, p);
    var newline := FindFrom(text, "\n", p);
    end := if newline.Some? then newline.value else |text|;
  }

  lemma BlockCommentThere(text: string, p: nat) returns (end: nat)
    requires p + 1 < |text| && text[p] == '/' && text[p + 1] == '*'
    ensures IsComment(text, Range(p, end, true))
  {
    FirstClose(text, p + 2);
    var close := FindFrom(text, "*/", p + 2);
    end := if close.Some? then close.value + 2 else |text|;
    forall i | p + 2 <= i < end - 2
      ensures !(text[i] == '*' && text[i + 1] == '/')
    {
      assert !CloseAt(text, i);
    }
  }

  /** Every text falls into tokens. */
  lemma TokenThere(text: string, p: nat) returns (end: nat, found: seq<Range>)
    requires p < |text|
    ensures IsToken(text, p, end, found)
  {
    found := [];
    if IsPlain(text, p) {
      end := p + 1;
    } else if text[p] != '/' {
      end := StringHasAnEnd(text, p, p + 1);
    } else if text[p + 1] == '/' {
      end := LineCommentThere(text, p);
      found := [Range(p, end, false)];
    } else {
      end := BlockCommentThere(text, p);
      found := [Range(p, end, true)];
    }
  }

  // ----- What is reported -----

  /** `text[r.pos..r.end]` is a whole comment: it opens as one, and ends at its first chance or with the text. */
  ghost predicate IsComment(text: string, r: Range) {
    && r.pos + 2 <= r.end <= |text|
    && text[r.pos] == '/'
    && if r.block then
         && text[r.pos + 1] == '*'
         && (forall i | r.pos + 2 <= i < r.end - 2 :: !(text[i] == '*' && text[i + 1] == '/'))
         && (r.end == |text| || (r.pos + 4 <= r.end && text[r.end - 2] == '*' && text[r.end - 1] == '/'))
       else
         && text[r.pos + 1] == '/'
         && (forall i | r.pos <= i < r.end :: text[i] != '\n')
         && (r.end < |text| ==> text[r.end] == '\n')
  }

  ghost predicate InOrder(ranges: seq<Range>, from: nat) {
    && (forall k | 0 <= k < |ranges| :: from <= ranges[k].pos)
    && (forall k, l | 0 <= k < l < |ranges| :: ranges[k].end <= ranges[l].pos)
  }

  /** What the machine remembers is true of the text behind it. */
  ghost predicate Remembers(text: string, p: nat, mode: Mode) {
    && p <= |text|
    && match mode
       case Slash(pos) => pos + 1 == p && text[pos] == '/'
       case Line(pos) => pos + 2 <= p && text[pos] == text[pos + 1] == '/' && forall i | pos <= i < p :: text[i] != '\n'
       case Block(pos, star) =>
         && pos + 2 <= p && text[pos] == '/' && text[pos + 1] == '*'
         && (forall i | pos + 2 <= i < p - 1 :: !(text[i] == '*' && text[i + 1] == '/'))
         && (star <==> p > pos + 2 && text[p - 1] == '*')
       case _ => true
  }

  function StartOf(mode: Mode, p: nat): nat {
    match mode
    case Slash(pos) => pos
    case Line(pos) => pos
    case Block(pos, _) => pos
    case _ => p
  }

  lemma RemembersOn(text: string, p: nat, mode: Mode)
    requires p < |text| && Remembers(text, p, mode)
    ensures Remembers(text, p + 1, Next(mode, text[p], p))
    ensures StartOf(mode, p) <= StartOf(Next(mode, text[p], p), p + 1)
    ensures forall r | r in Ends(mode, text[p], p) ::
      StartOf(mode, p) <= r.pos && r.end <= StartOf(Next(mode, text[p], p), p + 1) && IsComment(text, r)
  {
  }

  lemma OneMoreInOrder(ended: seq<Range>, later: seq<Range>, from: nat, middle: nat)
    requires |ended| <= 1 && from <= middle && InOrder(later, middle)
    requires forall r | r in ended :: from <= r.pos && r.end <= middle
    ensures InOrder(ended + later, from)
  {
  }

  lemma {:induction false} MachineReportsComments(text: string, p: nat, mode: Mode)
    requires Remembers(text, p, mode)
    ensures InOrder(Machine(text, p, mode), StartOf(mode, p))
    ensures forall r | r in Machine(text, p, mode) :: IsComment(text, r)
    decreases |text| - p
  {
    if p < |text| {
      var next := Next(mode, text[p], p);
      RemembersOn(text, p, mode);
      MachineReportsComments(text, p + 1, next);
      OneMoreInOrder(Ends(mode, text[p], p), Machine(text, p + 1, next), StartOf(mode, p), StartOf(next, p + 1));
    }
  }

  /** Every range is a comment of the text, and the ranges ascend without overlap. */
  lemma RangesAreDisjointComments(text: string)
    ensures InOrder(Machine(text, 0, Code), 0)
    ensures forall r | r in Machine(text, 0, Code) :: IsComment(text, r)
  {
    MachineReportsComments(text, 0, Code);
  }

  // ----- Line numbers -----

  /** Newlines among the first `n` characters. */
  function Newlines(text: string, n: nat): nat
    requires n <= |text|
  {
    if n == 0 then 0 else Newlines(text, n - 1) + if text[n - 1] == '\n' then 1 else 0
  }

  /** Newlines before a position that may lie outside the text. */
  function NewlinesBefore(text: string, pos: int): nat {
    Newlines(text, if pos < 0 then 0 else if pos < |text| then pos else |text|)
  }

  /** Where the lines of the first `n` characters start. */
  function Starts(text: string, n: nat): (r: seq<nat>)
    requires n <= |text|
    ensures |r| == 1 + Newlines(text, n)
    ensures forall k | 0 <= k < |r| :: r[k] <= n
    ensures forall k, l | 0 <= k < l < |r| :: r[k] < r[l]
  {
    if n == 0 then [0] else Starts(text, n - 1) + if text[n - 1] == '\n' then [n] else []
  }

  /** Reading on adds only line starts further on. */
  lemma {:induction false} StartsGrow(text: string, m: nat, n: nat)
    requires m <= n <= |text|
    ensures Starts(text, m) <= Starts(text, n)
    ensures forall k | |Starts(text, m)| <= k < |Starts(text, n)| :: m < Starts(text, n)[k]
    decreases n - m
  {
    if m < n {
      StartsGrow(text, m, n - 1);
    }
  }

  method LineStarts(text: string) returns (starts: seq<nat>)
    ensures starts == Starts(text, |text|)
  {
    starts := [0];
    for i := 0 to |text|
      invariant starts == Starts(text, i)
    {
      if text[i] == '\n' {
        starts := starts + [i + 1];
      }
    }
  }

  /** The binary search over line starts counts the newlines before the position, for every position. */
  method LineOf(text: string, starts: seq<nat>, pos: int) returns (line: nat)
    requires starts == Starts(text, |text|)
    ensures line == 1 + NewlinesBefore(text, pos)
  {
    ghost var m := if pos < 0 then 0 else if pos < |text| then pos else |text|;
    StartsGrow(text, m, |text|);
    ghost var last := Newlines(text, m);
    assert Starts(text, m)[last] == starts[last];
    var low, high := 0, |starts| - 1;
    while low < high
      invariant 0 <= low <= last <= high < |starts|
    {
      var mid := (low + high + 1) / 2;
      if starts[mid] <= pos {
        low := mid;
      } else {
        high := mid - 1;
      }
    }
    line := low + 1;
  }

  lemma {:induction false} NoNewlines(text: string, m: nat, n: nat)
    requires m <= n <= |text| && forall i | m <= i < n :: text[i] != '\n'
    ensures Newlines(text, m) == Newlines(text, n)
  {
    if m < n {
      NoNewlines(text, m, n - 1);
    }
  }

  /** A line comment starts and ends on one line. */
  lemma LineCommentsStayOnOneLine(text: string, r: Range)
    requires r in Machine(text, 0, Code) && !r.block
    ensures NewlinesBefore(text, r.pos) == NewlinesBefore(text, r.end - 1)
  {
    RangesAreDisjointComments(text);
    NoNewlines(text, r.pos, r.end - 1);
  }
}
