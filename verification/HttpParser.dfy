/**
 The request parser. `Parse` is what parse_request computes; the methods below it are its
 loops, proved to compute it.
 */
module HttpParser {
  import opened Wrappers
  import opened Text
  import opened HttpTypes
  import Digits

  const MAX_REQUEST_LINE: nat := 8 * 1024
  const MAX_HEADERS: nat := 200
  const MAX_HEADER_LINE: nat := 16 * 1024
  const MAX_CONTENT_LENGTH: nat := 1024 * 1024 * 1024

  // ---------------------------------------------------------------------------------------
  // Characters

  predicate IsTchar(c: char) {
    'a' <= c <= 'z' || 'A' <= c <= 'Z' || '0' <= c <= '9' || c in "!#$%&'*+-.^_`|~"
  }

  predicate IsVchar(c: char) {
    c > ' ' && c as int != 0x7F
  }

  predicate AllVchar(s: string) {
    forall i :: 0 <= i < |s| ==> IsVchar(s[i])
  }

  predicate IsFieldChar(c: char) {
    c == '\t' || (c >= ' ' && c as int != 0x7F)
  }

  predicate IsValidFieldName(name: string) {
    name != [] && forall i :: 0 <= i < |name| ==> IsTchar(name[i])
  }

  predicate IsValidFieldValue(value: string) {
    forall i :: 0 <= i < |value| ==> IsFieldChar(value[i])
  }

  // ---------------------------------------------------------------------------------------
  // The request line

  datatype RequestLine = RequestLine(method_: string, target: string, version: string)

  predicate IsVersion(v: string) {
    |v| == 8 && v[..5] == "HTTP/" && '0' <= v[5] <= '9' && v[6] == '.' && '0' <= v[7] <= '9'
  }

  function ParseRequestLine(line: string): Option<RequestLine> {
    var sp1 := FindChar(line, ' ', 0);
    if sp1 == NPOS || sp1 == 0 then None else
      var sp2 := FindChar(line, ' ', sp1 + 1);
      if sp2 == NPOS || sp2 == sp1 + 1 then None else
        var method_, target, version := line[..sp1], line[sp1 + 1..sp2], line[sp2 + 1..];
        if version == [] || !IsValidFieldName(method_)
           || !AllVchar(target) || !AllVchar(version)
           || !IsVersion(version)
        then None
        else Some(RequestLine(method_, target, version))
  }

  // ---------------------------------------------------------------------------------------
  // Field lines

  /** A field as stored: name in lowercase, value without surrounding whitespace. */
  datatype Field = Field(name: string, value: string)

  /** One line, or None when the line alone makes the request bad. */
  function ParseLine(line: string): Option<Field> {
    if |line| > MAX_HEADER_LINE then None else
      var colon := FindChar(line, ':', 0);
      if colon == NPOS then None else
        var name, value := line[..colon], line[colon + 1..];
        if !IsValidFieldName(name) || !IsValidFieldValue(value) || Lower(name) == "transfer-encoding" then None
        else Some(Field(Lower(name), Trim(value)))
  }

  /** Adds a field to the map: Connection lines are joined, Content-Length must not contradict
      itself, any other repeated field is replaced. */
  function Add(h: Headers, f: Field): Option<Headers> {
    if f.name !in h then Some(h[f.name := f.value])
    else if f.name == "content-length" && h[f.name] != f.value then None
    else if f.name == "connection" then Some(h[f.name := h[f.name] + ", " + f.value])
    else Some(h[f.name := f.value])
  }

  /** The map of a run of lines. */
  function HeadersOf(lines: seq<string>): Option<Headers> {
    if lines == [] then Some(map[])
    else if |lines| > MAX_HEADERS then None
    else
      var before, field := HeadersOf(lines[..|lines| - 1]), ParseLine(lines[|lines| - 1]);
      if before.None? || field.None? then None else Add(before.value, field.value)
  }

  /** The lines of a header section from `pos`, as the loop finds them: up to the end, the first
      empty line, or an unterminated rest. */
  function Lines(section: string, pos: nat): seq<string>
    decreases |section| - pos
  {
    if pos >= |section| then [] else
      var eol := Find(section, CRLF, pos);
      if eol == NPOS || eol == pos then [] else [section[pos..eol]] + Lines(section, eol + 2)
  }

  // ---------------------------------------------------------------------------------------
  // The request

  /** What follows from the head alone: the request without its body, and how long the body is. */
  datatype Head = Head(line: RequestLine, headers: Headers, bodyLength: nat)

  /** Length the Content-Length field announces; None when it cannot be trusted. */
  function ContentLength(h: Headers): Option<nat> {
    if "content-length" in h then Digits.Parsed(h["content-length"], MAX_CONTENT_LENGTH) else Some(0)
  }

  /** The head, including the blank line that ends it. */
  function ParseHead(section: string): Option<Head> {
    var eol := Find(section, CRLF, 0);
    if eol == NPOS || eol > MAX_REQUEST_LINE || |section| < eol + 4 then None else
      var line, headers := ParseRequestLine(section[..eol]), HeadersOf(Lines(section[eol + 2..|section| - 2], 0));
      if line.None? || headers.None? || ContentLength(headers.value).None? then None
      else Some(Head(line.value, headers.value, ContentLength(headers.value).value))
  }

  function Parse(buf: string): ParseResult {
    if buf == [] then Incomplete else
      var end := Find(buf, BLANK_LINE, 0);
      if end == NPOS then
        if |buf| > MAX_REQUEST_LINE + MAX_HEADERS * MAX_HEADER_LINE then BadRequest else Incomplete
      else
        var head := ParseHead(buf[..end + 4]);
        if head.None? then BadRequest
        else if |buf| < end + 4 + head.value.bodyLength then Incomplete
        else
          var h, total := head.value, end + 4 + head.value.bodyLength;
          Success(HttpRequest(h.line.method_, h.line.target, h.line.version, h.headers, buf[end + 4..total]), total)
  }

  // ---------------------------------------------------------------------------------------
  // The loops

  method ParseHeaders(section: string) returns (r: Option<Headers>)
    ensures r == HeadersOf(Lines(section, 0))
  {
    hide ParseLine, Add, Lines, HeadersOf;
    var headers: Headers := map[];
    var pos := 0;
    var count := 0;
    ghost var done: seq<string> := [];
    NoLines();
    assert [] + Lines(section, 0) == Lines(section, 0);
    while pos < |section|
      invariant |done| == count <= MAX_HEADERS
      invariant HeadersOf(done) == Some(headers)
      invariant Lines(section, 0) == done + Lines(section, pos)
      decreases |section| - pos
    {
      var eol := Find(section, CRLF, pos);
      LinesFrom(section, pos);
      if eol == NPOS || eol == pos {
        break;
      }
      var line := section[pos..eol];
      ghost var rest := Lines(section, eol + 2);
      assert done + ([line] + rest) == (done + [line]) + rest;
      OneMoreLine(done, line, headers, rest);
      var field := ParseLine(line);
      if field.None? {
        return None;
      }
      count := count + 1;
      if count > MAX_HEADERS {
        return None;
      }
      var more := Add(headers, field.value);
      if more.None? {
        return None;
      }
      headers := more.value;
      done := done + [line];
      pos := eol + 2;
    }
    LinesFrom(section, pos);
    assert done + [] == done;
    return Some(headers);
  }

  lemma NoLines()
    ensures HeadersOf([]) == Some(map[])
  {
  }

  lemma LinesFrom(section: string, pos: nat)
    ensures pos >= |section| ==> Lines(section, pos) == []
    ensures pos < |section| ==>
              var eol := Find(section, CRLF, pos);
              Lines(section, pos) ==
                if eol == NPOS || eol == pos then [] else [section[pos..eol]] + Lines(section, eol + 2)
  {
  }

  lemma OneMoreLine(done: seq<string>, line: string, h: Headers, rest: seq<string>)
    requires HeadersOf(done) == Some(h)
    ensures ParseLine(line).None? || |done| >= MAX_HEADERS || Add(h, ParseLine(line).value).None? ==>
              HeadersOf((done + [line]) + rest).None?
    ensures ParseLine(line).Some? && |done| < MAX_HEADERS ==> HeadersOf(done + [line]) == Add(h, ParseLine(line).value)
  {
    hide ParseLine, Add;
    assert (done + [line])[..|done|] == done;
    if HeadersOf(done + [line]).None? {
      BadEarly(done + [line], rest);
    }
  }

  /** One bad line makes the whole section bad. */
  lemma {:induction false} BadEarly(lines: seq<string>, more: seq<string>)
    requires HeadersOf(lines).None?
    ensures HeadersOf(lines + more).None?
    decreases |more|
  {
    if more == [] {
      assert lines + more == lines;
    } else {
      BadEarly(lines, more[..|more| - 1]);
      assert (lines + more)[..|lines + more| - 1] == lines + more[..|more| - 1];
    }
  }

  /** A blank line ends a line, so the first line end is there or before; the source's check for
      a missing one never fires. */
  lemma LineBeforeBlank(buf: string, end: nat)
    requires Occurs(buf, BLANK_LINE, end)
    ensures 0 <= Find(buf[..end + 4], CRLF, 0) <= end
  {
    var section := buf[..end + 4];
    assert section[end..end + 4] == BLANK_LINE;
    assert section[end..end + 2] == section[end..end + 4][..2];
    assert BLANK_LINE[..2] == CRLF;
    assert Occurs(section, CRLF, end);
  }

  method ParseRequest(buf: string) returns (r: ParseResult)
    ensures r == Parse(buf)
  {
    hide Lines, HeadersOf, ParseRequestLine;
    if buf == [] {
      return Incomplete;
    }
    var end := Find(buf, BLANK_LINE, 0);
    if end == NPOS {
      return if |buf| > MAX_REQUEST_LINE + MAX_HEADERS * MAX_HEADER_LINE then BadRequest else Incomplete;
    }
    var total := end + 4;
    var section := buf[..total];
    var eol := Find(section, CRLF, 0);
    LineBeforeBlank(buf, end);
    if eol > MAX_REQUEST_LINE {
      return BadRequest;
    }
    var line := ParseRequestLine(section[..eol]);
    if line.None? {
      return BadRequest;
    }
    var headers := ParseHeaders(section[eol + 2..total - 2]);
    if headers.None? {
      return BadRequest;
    }
    var length := 0;
    if "content-length" in headers.value {
      var n := Digits.ParseDigits(headers.value["content-length"], MAX_CONTENT_LENGTH);
      if n.None? {
        return BadRequest;
      }
      length := n.value;
    }
    if |buf| < total + length {
      return Incomplete;
    }
    var l := line.value;
    return Success(HttpRequest(l.method_, l.target, l.version, headers.value, buf[total..total + length]), total + length);
  }
}
