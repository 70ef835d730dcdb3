/**
 * `String.prototype.trim` as the edit dialog uses it: strip the longest run of
 * white space at each end. White space is the ECMAScript WhiteSpace and
 * LineTerminator characters (section 12.2 and 12.3 of ECMA-262): tab, the
 * vertical tab, form feed, space, no-break space, the byte order mark, every
 * other Unicode space separator (category Zs), line feed, carriage return, and
 * the line and paragraph separators.
 */
module JsText {

  predicate IsWhitespace(c: char)
    ensures IsWhitespace(c) ==> (c as int) < 0x1_0000
  {
    || c == '\t' || c == '\n' || c == '\U{000B}' || c == '\U{000C}' || c == '\r'
    || c == ' ' || c == '\U{00A0}' || c == '\U{1680}'
    || ('\U{2000}' <= c <= '\U{200A}')
    || c == '\U{2028}' || c == '\U{2029}' || c == '\U{202F}' || c == '\U{205F}'
    || c == '\U{3000}' || c == '\U{FEFF}'
  }

  /** Every character of `s` is white space (vacuously so for the empty string). */
  predicate AllWhitespace(s: string)
  {
    forall i :: 0 <= i < |s| ==> IsWhitespace(s[i])
  }

  /** The length of the longest all-white-space prefix of `s`. */
  function LeadingWhitespace(s: string): (n: nat)
    ensures n <= |s|
    ensures forall i :: 0 <= i < n ==> IsWhitespace(s[i])
    ensures n < |s| ==> !IsWhitespace(s[n])
  {
    if s != [] && IsWhitespace(s[0]) then 1 + LeadingWhitespace(s[1..]) else 0
  }

  /** The length of the longest all-white-space suffix of `s`. */
  function TrailingWhitespace(s: string): (n: nat)
    ensures n <= |s|
    ensures forall i :: |s| - n <= i < |s| ==> IsWhitespace(s[i])
    ensures n < |s| ==> !IsWhitespace(s[|s| - 1 - n])
  {
    if s != [] && IsWhitespace(s[|s| - 1]) then 1 + TrailingWhitespace(s[..|s| - 1]) else 0
  }

  /** `s.trim()`: the white space at both ends removed. */
  function Trim(s: string): (r: string)
    ensures |r| <= |s|
    ensures r == [] <==> AllWhitespace(s)
    ensures r != [] ==> !IsWhitespace(r[0]) && !IsWhitespace(r[|r| - 1])
  {
    var a := LeadingWhitespace(s);
    var rest := s[a..];
    var b := TrailingWhitespace(rest);
    if a == |s| then
      assert s == s[..a];
      []
    else
      assert s == s[..a] + rest;
      assert b < |rest| by {
        assert !IsWhitespace(rest[0]);
      }
      var r := rest[..|rest| - b];
      assert r[0] == rest[0];
      r
  }

  /** What `Trim` removes is white space at the two ends, and nothing else. */
  lemma TrimRemovesOnlyEdgeWhitespace(s: string)
    ensures exists i, j :: 0 <= i <= j <= |s| && Trim(s) == s[i..j]
                          && AllWhitespace(s[..i]) && AllWhitespace(s[j..])
  {
    var a := LeadingWhitespace(s);
    var rest := s[a..];
    var b := TrailingWhitespace(rest);
    assert AllWhitespace(s[..a]);
    if a == |s| {
      assert Trim(s) == s[a..a];
      assert AllWhitespace(s[a..]);
    } else {
      var j := |s| - b;
      assert Trim(s) == rest[..|rest| - b];
      assert rest[..|rest| - b] == s[a..j];
      assert AllWhitespace(s[j..]) by {
        forall k | 0 <= k < |s[j..]| ensures IsWhitespace(s[j..][k]) {
          assert s[j..][k] == rest[|rest| - b + k];
        }
      }
      assert Trim(s) == s[a..j];
    }
  }

  /** A string with white space at neither end is its own trim. */
  lemma TrimOfTrimmed(s: string)
    requires s == [] || (!IsWhitespace(s[0]) && !IsWhitespace(s[|s| - 1]))
    ensures Trim(s) == s
  {
    if s != [] {
      assert LeadingWhitespace(s) == 0;
      assert s[0..] == s;
      assert TrailingWhitespace(s) == 0;
    }
  }

  /** Trimming twice is trimming once. */
  lemma TrimIdempotent(s: string)
    ensures Trim(Trim(s)) == Trim(s)
  {
    TrimOfTrimmed(Trim(s));
  }
}
