/** The APNs collapse id: a prefix and an id, cut to 64 bytes without splitting a character. */
module CollapseId {
  import opened Text

  const MAX_BYTES: nat := 64

  type Byte = n: nat | n < 256

  /** The UTF-8 form of one scalar value (section 3 of RFC 3629). */
  function EncodeChar(c: char): (bytes: seq<Byte>)
    ensures |bytes| == Utf8Width(c)
    ensures !IsContinuation(bytes[0])
    ensures forall i | 1 <= i < |bytes| :: IsContinuation(bytes[i])
  {
    var n := c as int;
    if n < 0x80 then [n]
    else if n < 0x800 then [0xC0 + n / 0x40, 0x80 + n % 0x40]
    else if n < 0x1_0000 then [0xE0 + n / 0x1000, 0x80 + n / 0x40 % 0x40, 0x80 + n % 0x40]
    else [0xF0 + n / 0x4_0000, 0x80 + n / 0x1000 % 0x40, 0x80 + n / 0x40 % 0x40, 0x80 + n % 0x40]
  }

  function Encode(s: string): (bytes: seq<Byte>)
    ensures |bytes| == ByteLength(s)
  {
    if s == [] then [] else EncodeChar(s[0]) + Encode(s[1..])
  }

  predicate IsContinuation(b: Byte) {
    0x80 <= b < 0xC0
  }

  /** `str::is_char_boundary`. */
  predicate IsCharBoundary(bytes: seq<Byte>, index: nat) {
    index == 0 || index == |bytes| || (index < |bytes| && !IsContinuation(bytes[index]))
  }

  lemma {:induction false} EncodeAppend(a: string, b: string)
    ensures Encode(a + b) == Encode(a) + Encode(b)
  {
    if a == [] {
      assert a + b == b;
    } else {
      assert (a + b)[1..] == a[1..] + b;
      EncodeAppend(a[1..], b);
    }
  }

  /** Where whole characters end is exactly where the bytes may be cut. */
  lemma {:induction false} BoundariesAreCharacterEnds(s: string, index: nat) returns (k: nat)
    requires index <= |Encode(s)| && IsCharBoundary(Encode(s), index)
    ensures k <= |s| && ByteLength(s[..k]) == index && Encode(s)[..index] == Encode(s[..k])
  {
    if index == 0 {
      k := 0;
    } else {
      var first, rest := EncodeChar(s[0]), s[1..];
      var width := |first|;
      assert forall i | 0 <= i < width :: Encode(s)[i] == first[i];
      var below: nat := index - width;
      assert IsCharBoundary(Encode(rest), below) by {
        if 0 < below < |Encode(rest)| {
          assert Encode(s)[index] == Encode(rest)[below];
        }
      }
      var j := BoundariesAreCharacterEnds(rest, below);
      k := j + 1;
      assert s[..k][1..] == rest[..j];
      assert Encode(s)[..index] == first + Encode(rest)[..below];
    }
  }

  lemma {:induction false} CharacterEndsAreBoundaries(s: string, k: nat)
    requires k <= |s|
    ensures ByteLength(s[..k]) <= |Encode(s)| && IsCharBoundary(Encode(s), ByteLength(s[..k]))
    ensures Encode(s)[..ByteLength(s[..k])] == Encode(s[..k])
  {
    assert s == s[..k] + s[k..];
    EncodeAppend(s[..k], s[k..]);
    if k < |s| {
      assert Encode(s[k..])[0] == EncodeChar(s[k])[0];
    } else {
      assert s[..k] == s;
    }
  }

  /** Among four neighbouring indices one is a boundary: no character is longer than four bytes. */
  lemma {:induction false} BoundaryWithinThree(s: string, index: nat) returns (cut: nat)
    requires index <= |Encode(s)|
    ensures cut <= index < cut + 4 && IsCharBoundary(Encode(s), cut)
  {
    if index == 0 {
      cut := 0;
    } else {
      var width := |EncodeChar(s[0])|;
      if index < width {
        cut := 0;
      } else {
        var rest := s[1..];
        var below := BoundaryWithinThree(rest, index - width);
        cut := below + width;
        if 0 < cut < |Encode(s)| {
          if below < |Encode(rest)| {
            assert Encode(s)[cut] == Encode(rest)[below];
            if below == 0 {
              assert Encode(rest)[0] == EncodeChar(rest[0])[0];
            }
          }
        }
      }
    }
  }

  /**
   * The cut-off value is the UTF-8 of whole characters of the text, and of as many as fit: one character more
   * would not fit, and no more than three bytes of room stay unused when anything is cut.
   */
  method Build(prefix: string, id: string) returns (bytes: seq<Byte>, ghost kept: nat)
    ensures kept <= |(prefix + Trim(id))| && bytes == Encode((prefix + Trim(id))[..kept])
    ensures |bytes| <= 64
    ensures forall k | kept < k <= |(prefix + Trim(id))| :: ByteLength((prefix + Trim(id))[..k]) > 64
    ensures kept < |(prefix + Trim(id))| ==> 61 <= |bytes|
  {
    ghost var text := prefix + Trim(id);
    bytes := Encode(prefix + Trim(id));
    if |bytes| > MAX_BYTES {
      var end := MAX_BYTES;
      ghost var nearest := BoundaryWithinThree(text, MAX_BYTES);
      while !IsCharBoundary(bytes, end)
        invariant nearest <= end <= MAX_BYTES
        invariant forall i | end < i <= MAX_BYTES :: !IsCharBoundary(bytes, i)
        decreases end
      {
        end := end - 1;
      }
      kept := BoundariesAreCharacterEnds(text, end);
      LongestFit(text, kept, end);
      bytes := bytes[..end];
    } else {
      kept := |text|;
      assert text[..kept] == text;
    }
  }

  /** No boundary between the cut and the limit means no longer run of characters fits. */
  lemma LongestFit(text: string, kept: nat, end: nat)
    requires kept <= |text| && ByteLength(text[..kept]) == end <= MAX_BYTES < |Encode(text)|
    requires forall i | end < i <= MAX_BYTES :: !IsCharBoundary(Encode(text), i)
    ensures forall k | kept < k <= |text| :: ByteLength(text[..k]) > MAX_BYTES
  {
    forall k | kept < k <= |text|
      ensures ByteLength(text[..k]) > MAX_BYTES
    {
      CharacterEndsAreBoundaries(text, k);
      assert text[..k] == text[..kept] + text[kept..k];
      ByteLengthAppend(text[..kept], text[kept..k]);
    }
  }
}
