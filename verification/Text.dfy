/** Strings as the two languages of the repository see them: sequences of Unicode scalar values. */
module Text {

  datatype Option<+T> = None | Some(value: T) {
    predicate IsFailure() {
      None?
    }

    function PropagateFailure<U>(): Option<U>
      requires None?
    {
      None
    }

    function Extract(): T
      requires Some?
    {
      value
    }
  }

  /** The Unicode White_Space property, which Rust's `trim` strips. */
  predicate IsWhitespace(c: char) {
    || '\U{09}' <= c <= '\U{0D}'
    || c == ' '
    || c == '\U{85}'
    || c == '\U{A0}'
    || c == '\U{1680}'
    || '\U{2000}' <= c <= '\U{200A}'
    || c == '\U{2028}'
    || c == '\U{2029}'
    || c == '\U{202F}'
    || c == '\U{205F}'
    || c == '\U{3000}'
  }

  function TrimStart(s: string): string {
    if s != [] && IsWhitespace(s[0]) then TrimStart(s[1..]) else s
  }

  function TrimEnd(s: string): string {
    if s != [] && IsWhitespace(s[|s| - 1]) then TrimEnd(s[..|s| - 1]) else s
  }

  function Trim(s: string): string {
    TrimEnd(TrimStart(s))
  }

  /** Trimming takes whitespace off both ends, all of it, and nothing else. */
  lemma TrimIsExact(s: string) returns (before: nat, after: nat)
    ensures before + after <= |s| && Trim(s) == s[before..|s| - after]
    ensures forall i | 0 <= i < before || |s| - after <= i < |s| :: IsWhitespace(s[i])
    ensures Trim(s) != [] ==> !IsWhitespace(s[before]) && !IsWhitespace(s[|s| - after - 1])
  {
    before := TrimStartIsExact(s);
    after := TrimEndIsExact(s[before..]);
  }

  lemma {:induction false} TrimStartIsExact(s: string) returns (before: nat)
    ensures before <= |s| && TrimStart(s) == s[before..]
    ensures forall i | 0 <= i < before :: IsWhitespace(s[i])
    ensures before < |s| ==> !IsWhitespace(s[before])
  {
    before := 0;
    if s != [] && IsWhitespace(s[0]) {
      var more := TrimStartIsExact(s[1..]);
      before := more + 1;
    }
  }

  lemma {:induction false} TrimEndIsExact(s: string) returns (after: nat)
    ensures after <= |s| && TrimEnd(s) == s[..|s| - after]
    ensures forall i | |s| - after <= i < |s| :: IsWhitespace(s[i])
    ensures after < |s| ==> !IsWhitespace(s[|s| - after - 1])
  {
    after := 0;
    if s != [] && IsWhitespace(s[|s| - 1]) {
      var more := TrimEndIsExact(s[..|s| - 1]);
      after := more + 1;
    }
  }

  /** How many bytes UTF-8 spends on a scalar value. */
  function Utf8Width(c: char): (n: nat)
    ensures 1 <= n <= 4
  {
    var code := c as int;
    if code < 0x80 then 1 else if code < 0x800 then 2 else if code < 0x1_0000 then 3 else 4
  }

  /** Rust's `str::len`: the UTF-8 length in bytes. */
  function ByteLength(s: string): (n: nat)
    ensures |s| <= n
  {
    if s == [] then 0 else Utf8Width(s[0]) + ByteLength(s[1..])
  }

  lemma {:induction false} ByteLengthAppend(a: string, b: string)
    ensures ByteLength(a + b) == ByteLength(a) + ByteLength(b)
  {
    if a == [] {
      assert a + b == b;
    } else {
      assert (a + b)[1..] == a[1..] + b;
      ByteLengthAppend(a[1..], b);
    }
  }

  predicate StartsWith(s: string, prefix: string) {
    |prefix| <= |s| && s[..|prefix|] == prefix
  }

  ghost predicate OccursAt(s: string, pattern: string, i: nat) {
    i + |pattern| <= |s| && s[i..i + |pattern|] == pattern
  }

  /** The first occurrence of `pattern` at or after `from`: `str::find` and `String.indexOf`. */
  function FindFrom(s: string, pattern: string, from: nat): (r: Option<nat>)
    requires from <= |s|
    ensures r.Some? ==> from <= r.value && OccursAt(s, pattern, r.value)
    ensures r.Some? ==> forall j: nat :: from <= j < r.value ==> !OccursAt(s, pattern, j)
    ensures r.None? ==> forall j: nat :: from <= j ==> !OccursAt(s, pattern, j)
    decreases |s| - from
  {
    if from + |pattern| > |s| then None
    else if s[from..from + |pattern|] == pattern then Some(from)
    else FindFrom(s, pattern, from + 1)
  }

  function Find(s: string, pattern: string): (r: Option<nat>)
    ensures r.Some? ==> OccursAt(s, pattern, r.value)
    ensures r.Some? ==> forall j: nat :: j < r.value ==> !OccursAt(s, pattern, j)
    ensures r.None? ==> forall j: nat :: !OccursAt(s, pattern, j)
  {
    FindFrom(s, pattern, 0)
  }

  /** Whatever satisfies the first-occurrence property is what `FindFrom` returns. */
  lemma FindFromIs(s: string, pattern: string, from: nat, i: nat)
    requires from <= i && from <= |s|
    requires OccursAt(s, pattern, i)
    requires forall j: nat :: from <= j < i ==> !OccursAt(s, pattern, j)
    ensures FindFrom(s, pattern, from) == Some(i)
  {
    var r := FindFrom(s, pattern, from);
    assert r.Some?;
  }
}
