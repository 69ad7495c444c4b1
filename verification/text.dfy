/** Text handling shared by both scrapers: JavaScript's
    `String.prototype.trim`, and the club suffix appended to scraped team
    names. */
module Text {

  /** Appended to every scraped team name so that it follows the naming of
      the team-information table ("Arsenal" becomes "Arsenal FC"). */
  const ClubSuffix: string := " FC"

  /** The characters `trim` removes: ECMAScript's WhiteSpace (tab, vertical
      tab, form feed, space, no-break space, byte order mark and the other
      Unicode space separators) and LineTerminator (line feed, carriage
      return, line separator, paragraph separator). Characters that other
      languages' trims also strip — next line, the information separators,
      the zero-width space and the Mongolian vowel separator — are kept. */
  predicate IsWhiteSpace(c: char): (b: bool)
    ensures b ==> c as int <= 0x20 || 0xA0 <= c as int <= 0x3000 || c == '\U{FEFF}'
    ensures b && c as int < 0x80 ==> c == ' ' || '\t' <= c <= '\r'
    ensures c == '\U{0085}' || '\U{001C}' <= c <= '\U{001F}' || c == '\U{180E}' || c == '\U{200B}' ==> !b
    ensures c == ' ' || '\t' <= c <= '\r' || c == '\U{00A0}' || c == '\U{2028}' || c == '\U{2029}' || c == '\U{FEFF}' ==> b
  {
    || c == '\t' || c == '\n' || c == '\U{000B}' || c == '\U{000C}' || c == '\r'
    || c == ' ' || c == '\U{00A0}' || c == '\U{1680}'
    || ('\U{2000}' <= c <= '\U{200A}')
    || c == '\U{2028}' || c == '\U{2029}' || c == '\U{202F}' || c == '\U{205F}'
    || c == '\U{3000}' || c == '\U{FEFF}'
  }

  predicate AllWhiteSpace(s: string) {
    forall i :: 0 <= i < |s| ==> IsWhiteSpace(s[i])
  }

  /** Neither end of `s` is white space. */
  predicate IsTrimmed(s: string) {
    s == [] || (!IsWhiteSpace(s[0]) && !IsWhiteSpace(s[|s| - 1]))
  }

  /** `t` occurs in `s` at offset `lo` with nothing but white space before
      and after it. */
  ghost predicate FramedBy(s: string, lo: int, t: string) {
    && 0 <= lo <= |s| - |t|
    && (forall i :: 0 <= i < |t| ==> t[i] == s[lo + i])
    && AllWhiteSpace(s[..lo])
    && AllWhiteSpace(s[lo + |t|..])
  }

  /** A scraped name after normalisation: a trimmed, non-empty text
      followed by the club suffix. */
  predicate IsClubName(t: string) {
    && |t| > |ClubSuffix|
    && t[|t| - |ClubSuffix|..] == ClubSuffix
    && IsTrimmed(t[..|t| - |ClubSuffix|])
  }

  /** The number of white-space characters `s` starts with. */
  function LeadingSpace(s: string): (n: nat)
    ensures n <= |s|
    ensures forall i :: 0 <= i < n ==> IsWhiteSpace(s[i])
    ensures n < |s| ==> !IsWhiteSpace(s[n])
  {
    if |s| > 0 && IsWhiteSpace(s[0]) then
      var n := LeadingSpace(s[1..]);
      assert forall i :: 1 <= i <= n ==> s[1..][i - 1] == s[i];
      n + 1
    else 0
  }

  /** The length of `s` without the white space it ends with. */
  function ContentEnd(s: string): (m: nat)
    ensures m <= |s|
    ensures forall i :: m <= i < |s| ==> IsWhiteSpace(s[i])
    ensures 0 < m ==> !IsWhiteSpace(s[m - 1])
  {
    if |s| > 0 && IsWhiteSpace(s[|s| - 1]) then ContentEnd(s[..|s| - 1]) else |s|
  }

  /** `s.trim()`: `s` without its leading and trailing white space. */
  function Trim(s: string): (r: string)
    ensures |r| <= |s|
    ensures IsTrimmed(r)
    ensures r == [] <==> AllWhiteSpace(s)
  {
    var lo, hi := LeadingSpace(s), ContentEnd(s);
    if lo < hi then
      assert !IsWhiteSpace(s[lo]);
      s[lo..hi]
    else
      []
  }

  /** What `trim` returns sits in its input between white space. */
  lemma TrimFramed(s: string)
    ensures exists lo :: FramedBy(s, lo, Trim(s))
  {
    var lo, hi := LeadingSpace(s), ContentEnd(s);
    if lo < hi {
      assert FramedBy(s, lo, Trim(s));
    } else {
      assert FramedBy(s, 0, Trim(s));
    }
  }

  /** A framed trimmed text starts at the first and ends at the last
      character of `s` that is not white space. */
  lemma FramedBounds(s: string, lo: int, t: string)
    requires FramedBy(s, lo, t) && IsTrimmed(t) && t != []
    ensures !IsWhiteSpace(s[lo]) && !IsWhiteSpace(s[lo + |t| - 1])
    ensures forall i :: 0 <= i < |s| && !IsWhiteSpace(s[i]) ==> lo <= i < lo + |t|
  {
    assert s[lo] == t[0];
    assert s[lo + |t| - 1] == t[|t| - 1];
  }

  /** `trim` is characterised by what it returns: the one trimmed text that
      sits in the input between white space. */
  lemma TrimUnique(s: string, lo: int, t: string)
    requires FramedBy(s, lo, t) && IsTrimmed(t)
    ensures Trim(s) == t
  {
    var r := Trim(s);
    TrimFramed(s);
    var lo' :| FramedBy(s, lo', r);
    if t == [] {
      forall i | 0 <= i < |s|
        ensures IsWhiteSpace(s[i])
      {
        if i < lo {
          assert s[..lo][i] == s[i];
        } else {
          assert s[lo..][i - lo] == s[i];
        }
      }
    } else {
      FramedBounds(s, lo, t);
      assert r != [];
      FramedBounds(s, lo', r);
      assert lo == lo' && |t| == |r|;
    }
  }

  /** A text with no white space at either end is left as it is. */
  lemma TrimmedIsFixed(s: string)
    requires IsTrimmed(s)
    ensures Trim(s) == s
  {
    assert FramedBy(s, 0, s) by {
      assert s[0..|s|] == s;
    }
    TrimUnique(s, 0, s);
  }

  /** Trimming twice is trimming once. */
  lemma TrimIdempotent(s: string)
    ensures Trim(Trim(s)) == Trim(s)
  {
    TrimmedIsFixed(Trim(s));
  }
}
