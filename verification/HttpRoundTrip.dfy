/** Printing a request and parsing it again. */
module HttpRoundTrip {
  import opened Wrappers
  import opened Text
  import opened HttpTypes
  import opened HttpParser
  import opened HttpParserFraming
  import HttpFields

  predicate NoCr(s: string) {
    '\r' !in s
  }

  // ---------------------------------------------------------------------------------------
  // Cutting what was joined

  predicate Solid(lines: seq<string>) {
    forall i :: 0 <= i < |lines| ==> lines[i] != [] && NoCr(lines[i])
  }

  /** Bytes in front do not make a blank line where there was none. */
  lemma BlankShift(p: string, t: string, i: nat)
    requires !IsBlank(t, i)
    ensures !IsBlank(p + t, |p| + i)
  {
    if i + 4 <= |t| {
      var s := p + t;
      assert s[|p| + i] == t[i] && s[|p| + i + 1] == t[i + 1] && s[|p| + i + 2] == t[i + 2] && s[|p| + i + 3] == t[i + 3];
    }
  }

  /** No blank line begins inside a line, nor at its end when something follows. */
  lemma NoBlankInLine(a: string, t: string, i: nat)
    requires NoCr(a) && i < |a| + 2 && (i >= |a| ==> t != [] && t[0] != '\r')
    ensures !IsBlank(a + CRLF + t, i)
  {
    var s := a + CRLF + t;
    if i < |a| {
      assert s[i] == a[i];
    } else if i == |a| {
      assert s[|a| + 2] == t[0];
    } else {
      assert s[i] == '\n';
    }
  }

  /** The blank line after the last line is the first one. */
  lemma {:induction false} NoBlankBefore(a: string, lines: seq<string>, tail: string, i: nat)
    requires NoCr(a) && Solid(lines) && i < |a| + |Join(lines)|
    ensures !IsBlank(a + CRLF + Join(lines) + CRLF + tail, i)
    decreases |lines|
  {
    hide IsBlank;
    var t := Join(lines) + CRLF + tail;
    assert a + CRLF + Join(lines) + CRLF + tail == a + CRLF + t;
    if i < |a| {
      NoBlankInLine(a, t, i);
    } else {
      assert lines[0][0] in lines[0];
      assert t == lines[0] + CRLF + Join(lines[1..]) + CRLF + tail;
      if i < |a| + 2 {
        NoBlankInLine(a, t, i);
      } else {
        NoBlankBefore(lines[0], lines[1..], tail, i - |a| - 2);
        BlankShift(a + CRLF, t, i - |a| - 2);
      }
    }
  }

  lemma BlankFound(a: string, lines: seq<string>, tail: string)
    requires NoCr(a) && Solid(lines)
    ensures Find(a + CRLF + Join(lines) + CRLF + tail, BLANK_LINE, 0) == |a| + |Join(lines)|
  {
    hide Find, Join;
    var s, e := a + CRLF + Join(lines) + CRLF + tail, |a| + |Join(lines)|;
    forall i | 0 <= i < e ensures !Occurs(s, BLANK_LINE, i) {
      NoBlankBefore(a, lines, tail, i);
      BlankOccurs(s, i);
    }
    BlankAtEnd(a, lines, tail);
    BlankOccurs(s, e);
  }

  lemma BlankAtEnd(a: string, lines: seq<string>, tail: string)
    ensures IsBlank(a + CRLF + Join(lines) + CRLF + tail, |a| + |Join(lines)|)
  {
    var s := a + CRLF + Join(lines) + CRLF + tail;
    var b := a + CRLF + Join(lines);
    JoinEnds(lines);
    assert b[|b| - 2..] == CRLF by {
      if lines != [] {
        assert b[|b| - 2..] == Join(lines)[|Join(lines)| - 2..];
      }
    }
    assert b[|b| - 2] == b[|b| - 2..][0] && b[|b| - 1] == b[|b| - 2..][1];
    assert s == b + CRLF + tail;
  }

  lemma {:induction false} JoinEnds(lines: seq<string>)
    ensures lines != [] ==> |Join(lines)| >= 2 && Join(lines)[|Join(lines)| - 2..] == CRLF
    decreases |lines|
  {
    if lines != [] {
      JoinEnds(lines[1..]);
      var j, k := Join(lines), Join(lines[1..]);
      if lines[1..] == [] {
        assert j == lines[0] + CRLF;
      } else {
        assert j[|j| - 2..] == k[|k| - 2..];
      }
    }
  }

  lemma LineFound(pre: string, a: string, tail: string)
    requires NoCr(a)
    ensures Find(pre + a + CRLF + tail, CRLF, |pre|) == |pre| + |a|
  {
    hide Find;
    var s, e := pre + a + CRLF + tail, |pre| + |a|;
    forall i | |pre| <= i < e ensures !Occurs(s, CRLF, i) {
      LineOccurs(s, i);
      assert s[i] == a[i - |pre|];
    }
    LineOccurs(s, e);
  }

  /** The loop finds the lines that were joined. */
  lemma {:induction false} LinesOfJoin(pre: string, lines: seq<string>)
    requires Solid(lines)
    ensures Lines(pre + Join(lines), |pre|) == lines
    decreases |lines|
  {
    hide Lines, Find;
    var x := pre + Join(lines);
    LinesFrom(x, |pre|);
    if lines != [] {
      var a, rest := lines[0], lines[1..];
      LineFound(pre, a, Join(rest));
      assert x == pre + a + CRLF + Join(rest);
      assert x == (pre + a + CRLF) + Join(rest);
      LinesOfJoin(pre + a + CRLF, rest);
      assert x[|pre|..|pre| + |a|] == a;
      assert lines == [a] + rest;
    }
  }

  // ---------------------------------------------------------------------------------------
  // The request line and the field lines

  lemma CharFound(pre: string, a: string, c: char, tail: string)
    requires c !in a
    ensures FindChar(pre + a + [c] + tail, c, |pre|) == |pre| + |a|
  {
    hide FindChar;
    var s := pre + a + [c] + tail;
    assert s[|pre| + |a|] == c;
    forall i | |pre| <= i < |pre| + |a| ensures s[i] != c {
      assert s[i] == a[i - |pre|];
    }
  }

  lemma LineParses(m: string, t: string, v: string)
    requires IsValidFieldName(m) && t != [] && AllVchar(t) && IsVersion(v)
    ensures ParseRequestLine(m + " " + t + " " + v) == Some(RequestLine(m, t, v))
    ensures NoCr(m + " " + t + " " + v)
  {
    hide FindChar, IsVersion, AllVchar, IsValidFieldName;
    var line := m + " " + t + " " + v;
    VersionChars(v);
    WordChars(m, t, v);
    CharFound([], m, ' ', t + " " + v);
    assert line == [] + m + [' '] + (t + " " + v);
    CharFound(m + " ", t, ' ', v);
    assert line == (m + " ") + t + [' '] + v;
    assert line[..|m|] == m && line[|m| + 1..|m| + 1 + |t|] == t && line[|m| + |t| + 2..] == v;
  }

  lemma WordChars(m: string, t: string, v: string)
    requires IsValidFieldName(m)
    requires AllVchar(t) && AllVchar(v)
    ensures m != [] && ' ' !in m && ' ' !in t && '\r' !in m && '\r' !in t && '\r' !in v
  {
    assert forall i :: 0 <= i < |m| ==> IsTchar(m[i]);
    assert forall i :: 0 <= i < |t| ==> IsVchar(t[i]);
    assert forall i :: 0 <= i < |v| ==> IsVchar(v[i]);
  }

  lemma VersionChars(v: string)
    requires IsVersion(v)
    ensures v != [] && AllVchar(v)
  {
    assert v == v[..5] + [v[5], v[6], v[7]];
  }

  function FieldLine(name: string, value: string): string {
    name + ": " + value
  }

  /** A field the parser stores as it stands. */
  predicate Canonical(name: string, value: string) {
    && IsValidFieldName(name) && IsLower(name) && name != "transfer-encoding"
    && IsValidFieldValue(value) && Trimmed(value) && |FieldLine(name, value)| <= MAX_HEADER_LINE
  }

  lemma FieldLineClean(name: string, value: string)
    requires IsValidFieldName(name) && IsValidFieldValue(value)
    ensures FieldLine(name, value) != [] && NoCr(FieldLine(name, value)) && ':' !in name
    ensures IsValidFieldValue(" " + value)
  {
    assert forall i :: 0 <= i < |name| ==> IsTchar(name[i]);
    assert ':' !in name && '\r' !in name;
    assert forall i :: 0 <= i < |value| ==> IsFieldChar(value[i]);
    assert '\r' !in value;
    assert forall i :: 0 <= i < |" " + value| ==> IsFieldChar((" " + value)[i]);
  }

  /** Any valid field is stored under its lowercase name with its value trimmed. */
  lemma AnyFieldParses(name: string, value: string)
    requires IsValidFieldName(name) && IsValidFieldValue(value) && Lower(name) != "transfer-encoding"
    requires |FieldLine(name, value)| <= MAX_HEADER_LINE
    ensures ParseLine(FieldLine(name, value)) == Some(Field(Lower(name), Trim(value)))
  {
    hide Trim, FindChar, IsValidFieldName, IsValidFieldValue;
    var line := FieldLine(name, value);
    FieldLineClean(name, value);
    CharFound([], name, ':', " " + value);
    assert line == [] + name + [':'] + (" " + value);
    assert line[..|name|] == name && line[|name| + 1..] == " " + value;
    HttpFields.TrimSpace(value);
  }

  lemma FieldParses(name: string, value: string)
    requires Canonical(name, value)
    ensures ParseLine(FieldLine(name, value)) == Some(Field(name, value))
    ensures FieldLine(name, value) != [] && NoCr(FieldLine(name, value))
  {
    hide Trim, ParseLine;
    FieldLineClean(name, value);
    LowerIdentity(name);
    TrimIdentity(value);
    AnyFieldParses(name, value);
  }

  /** `names` lists the fields of `h`, each once, in any order. */
  predicate Listing(names: seq<string>, h: Headers) {
    && (forall i, j :: 0 <= i < j < |names| ==> names[i] != names[j])
    && (forall i :: 0 <= i < |names| ==> names[i] in h)
    && (forall n :: n in h ==> n in names)
  }

  /** The lines of the named fields, in the given order. */
  function FieldLines(h: Headers, names: seq<string>): seq<string>
    requires forall i :: 0 <= i < |names| ==> names[i] in h
  {
    seq(|names|, i requires 0 <= i < |names| => FieldLine(names[i], h[names[i]]))
  }

  function Restrict(h: Headers, names: seq<string>): Headers {
    map n | n in h && n in names :: h[n]
  }

  /** The lines of one more field. */
  lemma FieldLinesLast(h: Headers, names: seq<string>)
    requires names != [] && forall i :: 0 <= i < |names| ==> names[i] in h
    ensures var front, last := names[..|names| - 1], names[|names| - 1];
            FieldLines(h, names) == FieldLines(h, front) + [FieldLine(last, h[last])]
  {
  }

  lemma RestrictLast(h: Headers, names: seq<string>)
    requires names != [] && (forall i :: 0 <= i < |names| ==> names[i] in h)
    requires forall i, j :: 0 <= i < j < |names| ==> names[i] != names[j]
    ensures var front, last := names[..|names| - 1], names[|names| - 1];
            last !in Restrict(h, front) && Restrict(h, front)[last := h[last]] == Restrict(h, names)
  {
  }

  lemma {:induction false} FieldsFold(h: Headers, names: seq<string>)
    requires forall i :: 0 <= i < |names| ==> names[i] in h && Canonical(names[i], h[names[i]])
    requires forall i, j :: 0 <= i < j < |names| ==> names[i] != names[j]
    requires |names| <= MAX_HEADERS
    ensures HeadersOf(FieldLines(h, names)) == Some(Restrict(h, names))
    decreases |names|
  {
    hide ParseLine, Canonical, FieldLines, Restrict, FieldLine, HeadersOf;
    if names == [] {
      NothingNamed(h);
    } else {
      var front, last := names[..|names| - 1], names[|names| - 1];
      FieldsFold(h, front);
      FieldLinesLast(h, names);
      FieldParses(last, h[last]);
      OneMoreLine(FieldLines(h, front), FieldLine(last, h[last]), Restrict(h, front), []);
      FieldLinesSize(h, front);
      RestrictLast(h, names);
    }
  }

  lemma NothingNamed(h: Headers)
    ensures HeadersOf(FieldLines(h, [])) == Some(Restrict(h, []))
  {
    assert Restrict(h, []) == map[];
  }

  lemma FieldLinesSize(h: Headers, names: seq<string>)
    requires forall i :: 0 <= i < |names| ==> names[i] in h
    ensures |FieldLines(h, names)| == |names|
  {
  }

  // ---------------------------------------------------------------------------------------
  // The round trip

  /** A request within the parser's limits whose Content-Length, if any, is its body's. */
  predicate WellFormed(r: HttpRequest) {
    && IsValidFieldName(r.method_) && r.path != [] && AllVchar(r.path)
    && IsVersion(r.version) && |r.method_| + |r.path| + 10 <= MAX_REQUEST_LINE
    && |r.headers| <= MAX_HEADERS && (forall n :: n in r.headers ==> Canonical(n, r.headers[n]))
    && ContentLength(r.headers) == Some(|r.body|)
  }

  function Print(r: HttpRequest, names: seq<string>): string
    requires forall i :: 0 <= i < |names| ==> names[i] in r.headers
  {
    r.method_ + " " + r.path + " " + r.version + CRLF + Join(FieldLines(r.headers, names)) + CRLF + r.body
  }

  /** A composed head parses to its parts. */
  lemma HeadParses(a: string, lines: seq<string>, line: RequestLine, h: Headers)
    requires NoCr(a) && Solid(lines) && |a| <= MAX_REQUEST_LINE
    requires ParseRequestLine(a) == Some(line) && HeadersOf(lines) == Some(h) && ContentLength(h).Some?
    ensures ParseHead(a + CRLF + Join(lines) + CRLF) == Some(Head(line, h, ContentLength(h).value))
  {
    hide ParseRequestLine, HeadersOf, ContentLength, Lines, Find, Join;
    var section := a + CRLF + Join(lines) + CRLF;
    LineFound([], a, Join(lines) + CRLF);
    assert section == [] + a + CRLF + (Join(lines) + CRLF);
    assert section[..|a|] == a && section[|a| + 2..|section| - 2] == Join(lines);
    LinesOfJoin([], lines);
    assert [] + Join(lines) == Join(lines);
  }

  /** For every well-formed request, every order of its fields and whatever bytes follow: what
      was printed is parsed back, and exactly its bytes are consumed. */
  lemma RoundTrip(r: HttpRequest, names: seq<string>, more: string)
    requires WellFormed(r) && Listing(names, r.headers)
    ensures Parse(Print(r, names) + more) == Success(r, |Print(r, names)|)
  {
    hide ParseHead, Find, Join, ParseRequestLine, HeadersOf, ContentLength, Canonical, IsVersion, IsValidFieldName;
    var a, lines := r.method_ + " " + r.path + " " + r.version, FieldLines(r.headers, names);
    VersionLength(r.version);
    LineParses(r.method_, r.path, r.version);
    ListingSize(names, r.headers);
    forall i | 0 <= i < |names| ensures names[i] in r.headers && Canonical(names[i], r.headers[names[i]]) {
    }
    FieldsFold(r.headers, names);
    assert Restrict(r.headers, names) == r.headers;
    forall i | 0 <= i < |lines| ensures lines[i] != [] && NoCr(lines[i]) {
      FieldParses(names[i], r.headers[names[i]]);
    }
    HeadParses(a, lines, RequestLine(r.method_, r.path, r.version), r.headers);
    BlankFound(a, lines, r.body + more);
    Assembled(a, lines, r, more);
  }

  lemma VersionLength(v: string)
    requires IsVersion(v)
    ensures |v| == 8
  {
  }

  lemma Assembled(a: string, lines: seq<string>, r: HttpRequest, more: string)
    requires Find(a + CRLF + Join(lines) + CRLF + (r.body + more), BLANK_LINE, 0) == |a| + |Join(lines)|
    requires ParseHead(a + CRLF + Join(lines) + CRLF) == Some(Head(RequestLine(r.method_, r.path, r.version), r.headers, |r.body|))
    ensures Parse(a + CRLF + Join(lines) + CRLF + r.body + more) == Success(r, |a + CRLF + Join(lines) + CRLF + r.body|)
  {
    hide ParseHead, Find, Join;
    var section := a + CRLF + Join(lines) + CRLF;
    var buf := section + r.body + more;
    assert buf == section + (r.body + more);
    assert buf[..|section|] == section && buf[|section|..|section| + |r.body|] == r.body;
  }

  lemma ListingSize(names: seq<string>, h: Headers)
    requires Listing(names, h)
    ensures |names| == |h|
  {
    DistinctSize(names);
    assert (set n | n in names) == h.Keys;
  }

  lemma {:induction false} DistinctSize(names: seq<string>)
    requires forall i, j :: 0 <= i < j < |names| ==> names[i] != names[j]
    ensures |(set n | n in names)| == |names|
    decreases |names|
  {
    if names != [] {
      var front, last := names[..|names| - 1], names[|names| - 1];
      DistinctSize(front);
      assert (set n | n in names) == (set n | n in front) + {last};
    }
  }
}
