/** Where a request ends, and that every byte of its head is accounted for. */
module HttpParserFraming {
  import opened Wrappers
  import opened Text
  import opened HttpTypes
  import opened HttpParser
  import Framing

  /** The first occurrence of a pattern depends only on the bytes up to its end. */
  lemma FindStable(s: string, x: string, pattern: string)
    requires Find(s, pattern, 0) != NPOS && s[..Find(s, pattern, 0) + |pattern|] <= x
    ensures Find(x, pattern, 0) == Find(s, pattern, 0)
  {
    var e := Find(s, pattern, 0);
    var n := e + |pattern|;
    assert x[..n] == s[..n];
    assert Occurs(x, pattern, e) by {
      assert x[e..n] == x[..n][e..n] && s[e..n] == s[..n][e..n];
    }
    forall i | 0 <= i < e ensures !Occurs(x, pattern, i) {
      if Occurs(x, pattern, i) {
        assert x[i..i + |pattern|] == x[..n][i..i + |pattern|] == s[i..i + |pattern|];
        assert Occurs(s, pattern, i);
      }
    }
  }

  /** A request that was parsed is parsed the same whatever follows it. */
  lemma ParseAgrees(b: string, x: string)
    ensures Framing.Agrees(Parse, b, x)
  {
    hide ParseHead;
    if Parse(b).Success? && b[..Parse(b).consumed] <= x {
      var end, n := Find(b, BLANK_LINE, 0), Parse(b).consumed;
      assert x[..n] == b[..n];
      assert b[..end + 4] == b[..n][..end + 4] && x[..end + 4] == x[..n][..end + 4];
      FindStable(b, x, BLANK_LINE);
      assert b[end + 4..n] == b[..n][end + 4..] && x[end + 4..n] == x[..n][end + 4..];
    }
  }

  /** Chunking independence of the server's parser. */
  lemma ParserIsFramed()
    ensures Framing.Framed(Parse)
  {
    forall b, x ensures Framing.Agrees(Parse, b, x) {
      ParseAgrees(b, x);
    }
  }

  /** Within the connection's buffer limit, input without a blank line is never refused, so the
      oversize branch is not reached; and a refusal is final, whatever bytes come next. */
  lemma RefusalIsFinal(b: string, x: string)
    requires |b| <= 1024 * 1024
    ensures Find(b, BLANK_LINE, 0) == NPOS ==> Parse(b).Incomplete?
    ensures Parse(b).BadRequest? ==> Parse(b + x).BadRequest?
  {
    hide ParseHead;
    if Parse(b).BadRequest? {
      var end := Find(b, BLANK_LINE, 0);
      FindStable(b, b + x, BLANK_LINE);
      assert (b + x)[..end + 4] == b[..end + 4];
    }
  }

  // ---------------------------------------------------------------------------------------
  // Every byte of the section belongs to one line

  function Join(lines: seq<string>): string {
    if lines == [] then [] else lines[0] + CRLF + Join(lines[1..])
  }

  /** A header section as the cut at the first blank line leaves it. */
  ghost predicate WellCut(x: string) {
    && (x != [] ==> |x| >= 3 && x[|x| - 2] == '\r' && x[|x| - 1] == '\n' && !(x[0] == '\r' && x[1] == '\n'))
    && forall i: nat :: !IsBlank(x, i)
  }

  lemma CutIsWell(buf: string, end: nat, eol: nat)
    requires Find(buf, BLANK_LINE, 0) == end && eol <= end && Find(buf[..end + 4], CRLF, 0) == eol
    ensures WellCut(buf[eol + 2..end + 2])
  {
    hide Find;
    var x := buf[eol + 2..end + 2];
    forall i | 0 <= i < end ensures !IsBlank(buf, i) {
      BlankOccurs(buf, i);
    }
    BlankOccurs(buf, end);
    LineOccurs(buf[..end + 4], eol);
    forall i: nat ensures !IsBlank(x, i) {
      assert i + 4 <= |x| ==> !IsBlank(buf, eol + 2 + i);
    }
    if x != [] {
      assert !IsBlank(buf, eol);
      assert buf[end] == '\r' && buf[eol + 1] == '\n';
      assert eol + 2 <= end;
      assert x[|x| - 2] == buf[end] && x[|x| - 1] == buf[end + 1] && x[0] == buf[eol + 2] && x[1] == buf[eol + 3];
    }
  }

  predicate IsBlank(buf: string, i: nat) {
    i + 4 <= |buf| && buf[i] == '\r' && buf[i + 1] == '\n' && buf[i + 2] == '\r' && buf[i + 3] == '\n'
  }

  lemma BlankOccurs(buf: string, i: nat)
    ensures Occurs(buf, BLANK_LINE, i) <==> IsBlank(buf, i)
  {
    if i + 4 <= |buf| {
      assert buf[i..i + 4] == [buf[i], buf[i + 1], buf[i + 2], buf[i + 3]];
    }
  }

  lemma LineOccurs(buf: string, i: nat)
    ensures Occurs(buf, CRLF, i) <==> i + 2 <= |buf| && buf[i] == '\r' && buf[i + 1] == '\n'
  {
    if i + 2 <= |buf| {
      assert buf[i..i + 2] == [buf[i], buf[i + 1]];
    }
  }

  /** A line starts at `pos`: at the beginning, or after a line end. */
  ghost predicate LineStart(x: string, pos: nat) {
    pos <= |x| && (pos == 0 || (pos >= 2 && x[pos - 2] == '\r' && x[pos - 1] == '\n'))
  }

  lemma NextLineEnd(x: string, pos: nat)
    requires WellCut(x) && LineStart(x, pos) && pos < |x|
    ensures var eol := Find(x, CRLF, pos); pos < eol && LineStart(x, eol + 2)
  {
    hide Find, Occurs;
    assert pos >= 2 ==> !IsBlank(x, pos - 2);
    LineOccurs(x, |x| - 2);
    LineOccurs(x, pos);
    var eol := Find(x, CRLF, pos);
    if eol != NPOS {
      LineOccurs(x, eol);
    }
  }

  /** The loop's lines are the whole section: neither early exit is taken. */
  lemma {:induction false} LinesCover(x: string, pos: nat)
    requires WellCut(x) && LineStart(x, pos)
    ensures Join(Lines(x, pos)) == x[pos..]
    ensures forall i :: 0 <= i < |Lines(x, pos)| ==> Lines(x, pos)[i] != []
    decreases |x| - pos
  {
    hide WellCut, Lines, Join, Find;
    LinesFrom(x, pos);
    if pos < |x| {
      NextLineEnd(x, pos);
      var eol := Find(x, CRLF, pos);
      LinesCover(x, eol + 2);
      JoinFirst(x[pos..eol], Lines(x, eol + 2));
      assert x[pos..] == x[pos..eol] + [x[eol], x[eol + 1]] + x[eol + 2..];
    } else {
      assert x[pos..] == [] && Join([]) == [] by { NoJoin(); }
    }
  }

  lemma NoJoin()
    ensures Join([]) == []
  {
  }

  lemma JoinFirst(line: string, lines: seq<string>)
    ensures Join([line] + lines) == line + CRLF + Join(lines)
  {
    assert ([line] + lines)[1..] == lines;
  }

  /** What a successful parse has checked. */
  lemma SuccessHead(buf: string)
    requires Parse(buf).Success?
    ensures var end := Find(buf, BLANK_LINE, 0);
            && end != NPOS && Parse(buf).consumed == end + 4 + |Parse(buf).request.body|
            && var section := buf[..end + 4];
               var eol := Find(section, CRLF, 0);
               && eol != NPOS && eol + 4 <= |section| && ParseRequestLine(section[..eol]).Some?
               && HeadersOf(Lines(section[eol + 2..|section| - 2], 0)) == Some(Parse(buf).request.headers)
  {
    hide ParseRequestLine, HeadersOf, Lines, Find;
  }

  /** On success the head is the request line and the validated field lines, each with its line
      end, and nothing else. */
  lemma EveryByteIsInALine(buf: string) returns (line: string, lines: seq<string>)
    requires Parse(buf).Success?
    ensures line + CRLF + Join(lines) + CRLF <= buf
    ensures |line + CRLF + Join(lines) + CRLF| + |Parse(buf).request.body| == Parse(buf).consumed
    ensures ParseRequestLine(line).Some? && HeadersOf(lines) == Some(Parse(buf).request.headers)
    ensures forall i :: 0 <= i < |lines| ==> lines[i] != []
  {
    hide ParseRequestLine, HeadersOf, Lines, Join, Parse, WellCut, Find;
    SuccessHead(buf);
    var end := Find(buf, BLANK_LINE, 0);
    var section := buf[..end + 4];
    var eol := Find(section, CRLF, 0);
    LineBeforeBlank(buf, end);
    CutIsWell(buf, end, eol);
    var x := section[eol + 2..end + 2];
    assert x == buf[eol + 2..end + 2];
    LinesCover(x, 0);
    line, lines := section[..eol], Lines(x, 0);
    CutPieces(section, eol, end);
    assert section == line + CRLF + x[0..] + CRLF;
  }

  lemma CutPieces(section: string, eol: nat, end: nat)
    requires eol <= end && |section| == end + 4 && Occurs(section, CRLF, eol) && Occurs(section, BLANK_LINE, end)
    ensures section == section[..eol] + CRLF + section[eol + 2..end + 2] + CRLF
  {
    LineOccurs(section, eol);
    BlankOccurs(section, end);
    assert section == section[..eol] + section[eol..eol + 2] + section[eol + 2..end + 2] + section[end + 2..];
  }
}
