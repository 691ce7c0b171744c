/**
 The string_view operations the server uses: searching, trimming optional whitespace and
 comparing without case. A byte of a message is a `char`; the definitions hold for every
 char, so in particular for the 256 byte values.
 */
module Text {
  /** Result of a search that found nothing, std::string_view::npos. */
  const NPOS: int := -1

  const CRLF: string := "\r\n"
  const BLANK_LINE: string := "\r\n\r\n"

  ghost predicate Occurs(s: string, pattern: string, i: int) {
    0 <= i && i + |pattern| <= |s| && s[i..i + |pattern|] == pattern
  }

  /** find(pattern, from): the first occurrence at or after `from`. */
  function Find(s: string, pattern: string, from: nat): (r: int)
    ensures r == NPOS || (from <= r && Occurs(s, pattern, r))
    ensures forall i :: from <= i && (r == NPOS || i < r) ==> !Occurs(s, pattern, i)
    decreases |s| - from
  {
    if from + |pattern| > |s| then NPOS
    else if s[from..from + |pattern|] == pattern then from
    else Find(s, pattern, from + 1)
  }

  /** find(c, from) for a single character. */
  function FindChar(s: string, c: char, from: nat): (r: int)
    ensures r == NPOS || (from <= r < |s| && s[r] == c)
    ensures forall i :: from <= i < |s| && (r == NPOS || i < r) ==> s[i] != c
    decreases |s| - from
  {
    if from >= |s| then NPOS
    else if s[from] == c then from
    else FindChar(s, c, from + 1)
  }

  /** Searching a suffix is searching from where it begins. */
  lemma FindCharShift(s: string, c: char, pos: nat)
    requires pos <= |s|
    ensures FindChar(s[pos..], c, 0) == if FindChar(s, c, pos) == NPOS then NPOS else FindChar(s, c, pos) - pos
  {
    var a, b := FindChar(s[pos..], c, 0), FindChar(s, c, pos);
    if a != NPOS {
      assert s[pos + a] == c;
    }
    if b != NPOS {
      assert s[pos..][b - pos] == c;
    }
  }

  /** What lies between the separators. */
  function SplitOn(s: string, c: char): (r: seq<string>)
    ensures r != []
    decreases |s|
  {
    var at := FindChar(s, c, 0);
    if at == NPOS then [s] else [s[..at]] + SplitOn(s[at + 1..], c)
  }

  predicate IsOws(c: char) {
    c == ' ' || c == '\t'
  }

  predicate AllOws(s: string) {
    forall i :: 0 <= i < |s| ==> IsOws(s[i])
  }

  /** find_first_not_of(" \t"), with the length standing for npos. */
  function FirstNonOws(s: string, from: nat): (r: nat)
    requires from <= |s|
    ensures from <= r <= |s|
    ensures forall i :: from <= i < r ==> IsOws(s[i])
    ensures r < |s| ==> !IsOws(s[r])
    decreases |s| - from
  {
    if from < |s| && IsOws(s[from]) then FirstNonOws(s, from + 1) else from
  }

  /** One past find_last_not_of(" \t"). */
  function EndNonOws(s: string, to: nat): (r: nat)
    requires to <= |s|
    ensures r <= to
    ensures forall i :: r <= i < to ==> IsOws(s[i])
    ensures r > 0 ==> !IsOws(s[r - 1])
  {
    if to > 0 && IsOws(s[to - 1]) then EndNonOws(s, to - 1) else to
  }

  function Trim(s: string): (r: string)
    ensures r != [] ==> !IsOws(r[0]) && !IsOws(r[|r| - 1])
  {
    var a := FirstNonOws(s, 0);
    if a == |s| then [] else
      var b := EndNonOws(s, |s|);
      assert a < b;
      s[a..b]
  }

  predicate Trimmed(s: string) {
    s != [] ==> !IsOws(s[0]) && !IsOws(s[|s| - 1])
  }

  /** Trimming is the inverse of padding with optional whitespace. */
  lemma TrimPadded(left: string, s: string, right: string)
    requires AllOws(left) && AllOws(right) && Trimmed(s)
    ensures Trim(left + s + right) == s
  {
    var t := left + s + right;
    var a, b := FirstNonOws(t, 0), EndNonOws(t, |t|);
    if s == [] {
      assert a == |t|;
    } else {
      assert t[|left|] == s[0] && t[|left| + |s| - 1] == s[|s| - 1];
      assert a == |left| && b == |left| + |s|;
      assert t[a..b] == s;
    }
  }

  lemma TrimIdentity(s: string)
    requires Trimmed(s)
    ensures Trim(s) == s
  {
    TrimPadded([], s, []);
    assert [] + s + [] == s;
  }

  /** A string is its trimmed form between two runs of whitespace. */
  lemma TrimSplit(s: string) returns (left: string, right: string)
    ensures AllOws(left) && AllOws(right) && s == left + Trim(s) + right
  {
    var a := FirstNonOws(s, 0);
    if a == |s| {
      left, right := s, [];
    } else {
      var b := EndNonOws(s, |s|);
      left, right := s[..a], s[b..];
      assert s == s[..a] + s[a..b] + s[b..];
    }
  }

  /** std::tolower in the C locale. */
  function ToLower(c: char): char {
    if 'A' <= c <= 'Z' then c - 'A' + 'a' else c
  }

  function Lower(s: string): (r: string)
    ensures |r| == |s|
    ensures forall i :: 0 <= i < |s| ==> r[i] == ToLower(s[i])
  {
    seq(|s|, i requires 0 <= i < |s| => ToLower(s[i]))
  }

  predicate IsLower(s: string) {
    forall i :: 0 <= i < |s| ==> !('A' <= s[i] <= 'Z')
  }

  lemma LowerIsLower(s: string)
    ensures IsLower(Lower(s))
  {
  }

  lemma LowerIdentity(s: string)
    requires IsLower(s)
    ensures Lower(s) == s
  {
  }

  predicate EqualsIgnoreCase(a: string, b: string) {
    Lower(a) == Lower(b)
  }
}
