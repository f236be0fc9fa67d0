/**
 * Bounded truncation of UTF-8 text (src/analysis/redaction.rs).
 *
 * A Rust string is a byte sequence that follows the grammar of section 4 of RFC 3629; the model
 * works on those bytes, so that "ends on a character boundary" is a theorem and not a type.
 */
module Redaction {

  type Byte = b: int | 0 <= b < 256

  predicate IsTail(b: Byte) {
    0x80 <= b <= 0xBF
  }

  /** Length of the first character of s by the grammar UTF8-1 .. UTF8-4, or 0 when there is none. */
  function CharLength(s: seq<Byte>): (n: nat)
    ensures n <= 4 && n <= |s|
    ensures forall k :: 1 <= k < n ==> IsTail(s[k])
    ensures n > 0 ==> !IsTail(s[0])
  {
    if |s| >= 1 && s[0] <= 0x7F then 1
    else if |s| >= 2 && 0xC2 <= s[0] <= 0xDF && IsTail(s[1]) then 2
    else if |s| >= 3 && IsTail(s[2])
            && (|| (s[0] == 0xE0 && 0xA0 <= s[1] <= 0xBF)
                || (0xE1 <= s[0] <= 0xEC && IsTail(s[1]))
                || (s[0] == 0xED && 0x80 <= s[1] <= 0x9F)
                || (0xEE <= s[0] <= 0xEF && IsTail(s[1]))) then 3
    else if |s| >= 4 && IsTail(s[2]) && IsTail(s[3])
            && (|| (s[0] == 0xF0 && 0x90 <= s[1] <= 0xBF)
                || (0xF1 <= s[0] <= 0xF3 && IsTail(s[1]))
                || (s[0] == 0xF4 && 0x80 <= s[1] <= 0x8F)) then 4
    else 0
  }

  predicate WellFormed(s: seq<Byte>) {
    s == [] || (CharLength(s) > 0 && WellFormed(s[CharLength(s)..]))
  }

  /** The bytes of the ellipsis U+2026 followed by "[truncated]". */
  const TRUNCATION_SUFFIX: seq<Byte> :=
    [0xE2, 0x80, 0xA6, 0x5B, 0x74, 0x72, 0x75, 0x6E, 0x63, 0x61, 0x74, 0x65, 0x64, 0x5D]

  /** `str::is_char_boundary`: both ends, and every byte that does not continue a character. */
  predicate IsCharBoundary(s: seq<Byte>, i: nat)
    requires i <= |s|
  {
    i == 0 || i == |s| || !IsTail(s[i])
  }

  function SuffixFor(maximum: nat): seq<Byte> {
    if |TRUNCATION_SUFFIX| <= maximum then TRUNCATION_SUFFIX else []
  }

  /** The cut the source promises: the last character boundary that leaves room for the suffix. */
  ghost predicate IsCut(s: seq<Byte>, maximum: nat, cut: nat)
    requires maximum < |s|
  {
    var room := maximum - |SuffixFor(maximum)|;
    && cut <= room
    && IsCharBoundary(s, cut)
    && forall i: nat :: cut < i <= room ==> !IsCharBoundary(s, i)
  }

  method TruncateUtf8(input: seq<Byte>, maximum: nat) returns (output: seq<Byte>)
    requires WellFormed(input)
    ensures WellFormed(output) && |output| <= maximum
    ensures |input| <= maximum ==> output == input
    ensures |input| > maximum ==>
              exists cut: nat :: IsCut(input, maximum, cut) && output == input[..cut] + SuffixFor(maximum)
    ensures |input| > maximum ==> maximum - 3 <= |output|
  {
    if |input| <= maximum {
      return input;
    }
    var suffix := if |TRUNCATION_SUFFIX| <= maximum then TRUNCATION_SUFFIX else [];
    var boundary := maximum - |suffix|;
    while boundary > 0 && !IsCharBoundary(input, boundary)
      invariant 0 <= boundary <= maximum - |suffix|
      invariant forall i: nat :: boundary < i <= maximum - |suffix| ==> !IsCharBoundary(input, i)
    {
      boundary := boundary - 1;
    }
    output := input[..boundary] + suffix;
    CutKeepsCharacters(input, boundary);
    SuffixIsWellFormed();
    ConcatWellFormed(input[..boundary], suffix);
    BoundaryWithinThree(input, maximum - |suffix|);
    assert IsCut(input, maximum, boundary);
  }

  lemma SuffixIsWellFormed()
    ensures WellFormed(TRUNCATION_SUFFIX)
  {
    var ascii := TRUNCATION_SUFFIX[3..];
    AsciiIsWellFormed(ascii);
    assert CharLength(TRUNCATION_SUFFIX) == 3;
  }

  lemma {:induction false} AsciiIsWellFormed(s: seq<Byte>)
    requires forall b :: b in s ==> b <= 0x7F
    ensures WellFormed(s)
  {
    if s != [] {
      assert s[0] in s;
      assert forall b :: b in s[1..] ==> b in s;
      AsciiIsWellFormed(s[1..]);
    }
  }

  lemma CharLengthOfPrefix(s: seq<Byte>, t: seq<Byte>)
    requires 0 < CharLength(s)
    ensures CharLength(s + t) == CharLength(s)
    ensures forall k :: CharLength(s) <= k <= |s| ==> CharLength(s[..k]) == CharLength(s)
  {
  }

  lemma {:induction false} ConcatWellFormed(s: seq<Byte>, t: seq<Byte>)
    requires WellFormed(s) && WellFormed(t)
    ensures WellFormed(s + t)
  {
    hide CharLength;
    if s == [] {
      assert s + t == t;
    } else {
      var n := CharLength(s);
      CharLengthOfPrefix(s, t);
      ConcatWellFormed(s[n..], t);
      assert (s + t)[n..] == s[n..] + t;
    }
  }

  /** Cutting well-formed text at any boundary leaves well-formed text on both sides. */
  lemma {:induction false} CutKeepsCharacters(s: seq<Byte>, i: nat)
    requires WellFormed(s) && i <= |s| && IsCharBoundary(s, i)
    ensures WellFormed(s[..i]) && WellFormed(s[i..])
  {
    hide CharLength;
    if i == 0 {
      assert s[0..] == s;
    } else {
      var n := CharLength(s);
      assert n <= i;
      CutKeepsCharacters(s[n..], i - n);
      assert s[..i][n..] == s[n..][..i - n];
      assert s[i..] == s[n..][i - n..];
      CharLengthOfPrefix(s, []);
    }
  }

  /** No character is longer than four bytes: a boundary lies within three bytes below any position. */
  lemma {:induction false} BoundaryWithinThree(s: seq<Byte>, i: nat)
    requires WellFormed(s) && i <= |s|
    ensures exists j :: i - 3 <= j <= i && 0 <= j && IsCharBoundary(s, j)
  {
    hide CharLength;
    if i < 4 {
      assert IsCharBoundary(s, 0);
    } else {
      var n := CharLength(s);
      BoundaryWithinThree(s[n..], i - n);
      var j :| i - n - 3 <= j <= i - n && 0 <= j && IsCharBoundary(s[n..], j);
      assert IsCharBoundary(s, j + n) by {
        if 0 < j < |s| - n {
          assert s[n..][j] == s[j + n];
        } else if j == 0 && n < |s| {
          assert CharLength(s[n..]) > 0;
          assert s[n..][0] == s[n];
        }
      }
    }
  }

  /** Truncating a second time at the same limit, or at a larger one, changes nothing. */
  method TruncateTwice(input: seq<Byte>, maximum: nat, later: nat) returns (once: seq<Byte>, twice: seq<Byte>)
    requires WellFormed(input) && maximum <= later
    ensures twice == once
    ensures |once| <= maximum
  {
    once := TruncateUtf8(input, maximum);
    twice := TruncateUtf8(once, later);
  }
}
