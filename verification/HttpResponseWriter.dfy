/** The one place a response head becomes bytes. */
module HttpResponseWriter {
  import opened Wrappers
  import opened Text
  import opened HttpTypes
  import opened HttpParser
  import Digits
  import HttpFields
  import HttpParserFraming
  import HttpResponses
  import HttpRoundTrip

  predicate StatusAllowsBody(code: int) {
    !(100 <= code < 200) && code != 204 && code != 304
  }

  function DefaultStatusText(code: int): (r: string)
    ensures '\r' !in r
  {
    if code < 300 then SuccessText(code)
    else if code < 400 then RedirectText(code)
    else if code < 409 then ClientText(code)
    else if code < 417 then ContentText(code)
    else if code < 500 then LimitText(code)
    else ServerText(code)
  }

  function SuccessText(code: int): (r: string)
    ensures '\r' !in r
  {
    match code
    case 200 => "OK"
    case 201 => "Created"
    case 202 => "Accepted"
    case 204 => "No Content"
    case 206 => "Partial Content"
    case _ => "Unknown"
  }

  function RedirectText(code: int): (r: string)
    ensures '\r' !in r
  {
    match code
    case 301 => "Moved Permanently"
    case 302 => "Found"
    case 304 => "Not Modified"
    case _ => "Unknown"
  }

  function ClientText(code: int): (r: string)
    ensures '\r' !in r
  {
    match code
    case 400 => "Bad Request"
    case 401 => "Unauthorized"
    case 403 => "Forbidden"
    case 404 => "Not Found"
    case 405 => "Method Not Allowed"
    case _ => "Unknown"
  }

  function ContentText(code: int): (r: string)
    ensures '\r' !in r
  {
    match code
    case 409 => "Conflict"
    case 413 => "Content Too Large"
    case 414 => "URI Too Long"
    case 415 => "Unsupported Media Type"
    case 416 => "Range Not Satisfiable"
    case _ => "Unknown"
  }

  function LimitText(code: int): (r: string)
    ensures '\r' !in r
  {
    match code
    case 422 => "Unprocessable Entity"
    case 429 => "Too Many Requests"
    case 431 => "Request Header Fields Too Large"
    case _ => "Unknown"
  }

  function ServerText(code: int): (r: string)
    ensures '\r' !in r
  {
    match code
    case 500 => "Internal Server Error"
    case 501 => "Not Implemented"
    case 502 => "Bad Gateway"
    case 503 => "Service Unavailable"
    case 504 => "Gateway Timeout"
    case _ => "Unknown"
  }

  // ---------------------------------------------------------------------------------------
  // Which responses are accepted, and what their heads say

  /** The headers without any spelling of Content-Length. */
  function Others(h: Headers): Headers {
    map n | n in h && Lower(n) != "content-length" :: h[n]
  }

  predicate FieldsOk(h: Headers) {
    && (forall n :: n in h ==> IsValidFieldName(n) && IsValidFieldValue(h[n]) && Lower(n) != "transfer-encoding")
    && HttpResponses.Consistent(Others(h))
  }

  predicate Accepts(res: HttpResponse) {
    100 <= res.statusCode <= 599 && IsValidFieldValue(res.statusText) && FieldsOk(res.headers)
  }

  /** The fields that go out besides content-length. */
  function Sent(h: Headers): Headers
    requires FieldsOk(h)
  {
    HttpResponses.Folded(Others(h))
  }

  /** std::string's order: bytewise. */
  predicate Before(a: string, b: string) {
    b != [] && (a == [] || a[0] < b[0] || (a[0] == b[0] && Before(a[1..], b[1..])))
  }

  ghost predicate Sorted(names: seq<string>) {
    forall i, j :: 0 <= i < j < |names| ==> Before(names[i], names[j])
  }

  /** `names` is the domain of `h` in increasing order, the order std::map is walked in. */
  ghost predicate SortedListing(names: seq<string>, h: Headers) {
    Sorted(names) && (forall n :: n in names <==> n in h)
  }

  function StatusLine(res: HttpResponse): string
    requires res.statusCode >= 0
  {
    "HTTP/1.1 " + Digits.ToString(res.statusCode) + " " +
    (if res.statusText == [] then DefaultStatusText(res.statusCode) else res.statusText)
  }

  function HeadLines(res: HttpResponse, length: nat, names: seq<string>): seq<string>
    requires Accepts(res) && forall n :: n in names ==> n in Sent(res.headers)
  {
    HttpRoundTrip.FieldLines(Sent(res.headers), names) +
    (if StatusAllowsBody(res.statusCode) then [HttpRoundTrip.FieldLine("content-length", Digits.ToString(length))] else [])
  }

  /** What build_response_head promises: the status line, the fields in order, the length of the
      body when there can be one, and the blank line. */
  ghost predicate IsHead(res: HttpResponse, length: nat, names: seq<string>, head: string) {
    && Accepts(res) && SortedListing(names, Sent(res.headers))
    && head == StatusLine(res) + CRLF + HttpParserFraming.Join(HeadLines(res, length, names)) + CRLF
  }

  // ---------------------------------------------------------------------------------------
  // The loops

  /** The first loop: checks every field and collects them under lowercase names, in whatever
      order the header map is walked. */
  method CollectFields(h: Headers) returns (r: Option<Headers>)
    ensures r.Some? <==> FieldsOk(h)
    ensures r.Some? ==> r.value == Sent(h)
  {
    hide IsValidFieldName, IsValidFieldValue;
    var fields: Headers := map[];
    var todo := h.Keys;
    while todo != {}
      invariant todo <= h.Keys
      invariant forall n :: n in h && n !in todo ==> Passed(h, n, fields)
      invariant forall k :: k in fields ==> exists n :: n in h && n !in todo && Lower(n) == k && k != "content-length" && fields[k] == h[n]
      decreases |todo|
    {
      var n :| n in todo;
      if !IsValidFieldName(n) || !IsValidFieldValue(h[n]) {
        return None;
      }
      var key := Lower(n);
      if key == "transfer-encoding" {
        return None;
      }
      if key != "content-length" {
        if key !in fields {
          fields := fields[key := h[n]];
        } else if fields[key] != h[n] {
          assert !HttpResponses.Consistent(Others(h)) by {
            var m :| m in h && m !in todo && Lower(m) == key && fields[key] == h[m];
            assert m in Others(h) && n in Others(h);
          }
          return None;
        }
      }
      todo := todo - {n};
    }
    Collected(h, fields);
    return Some(fields);
  }

  /** Field `n` has been checked and, unless it is a Content-Length, collected. */
  ghost predicate Passed(h: Headers, n: string, fields: Headers)
    requires n in h
  {
    && IsValidFieldName(n) && IsValidFieldValue(h[n]) && Lower(n) != "transfer-encoding"
    && (Lower(n) != "content-length" ==> Lower(n) in fields && fields[Lower(n)] == h[n])
  }

  lemma Collected(h: Headers, fields: Headers)
    requires forall n :: n in h ==> Passed(h, n, fields)
    requires forall k :: k in fields ==> exists n :: n in h && Lower(n) == k && k != "content-length" && fields[k] == h[n]
    ensures FieldsOk(h) && fields == Sent(h)
  {
    hide IsValidFieldName, IsValidFieldValue;
    assert forall n :: n in h ==> Passed(h, n, fields);
    assert HttpResponses.Consistent(Others(h));
    assert forall k :: k in fields <==> k in Sent(h);
    assert forall k :: k in fields ==> fields[k] == Sent(h)[k];
  }

  // ---------------------------------------------------------------------------------------
  // The order

  lemma {:induction false} BeforeTotal(a: string, b: string)
    ensures a == b || Before(a, b) || Before(b, a)
    ensures !(Before(a, b) && Before(b, a)) && !Before(a, a)
    decreases |a|
  {
    if a != [] {
      BeforeTotal(a[1..], a[1..]);
      if b != [] {
        BeforeTotal(a[1..], b[1..]);
        assert a[0] == b[0] && a[1..] == b[1..] ==> a == [a[0]] + a[1..] == b;
      }
    }
  }

  lemma {:induction false} BeforeTrans(a: string, b: string, c: string)
    requires Before(a, b) && Before(b, c)
    ensures Before(a, c)
    decreases |a|
  {
    if a != [] && a[0] == b[0] && b[0] == c[0] {
      BeforeTrans(a[1..], b[1..], c[1..]);
    }
  }

  /** The first key of an ordered map. */
  method Smallest(keys: set<string>) returns (m: string)
    requires keys != {}
    ensures m in keys && forall k :: k in keys && k != m ==> Before(m, k)
  {
    hide Before;
    m :| m in keys;
    var todo := keys - {m};
    while todo != {}
      invariant m in keys && todo <= keys - {m}
      invariant forall k :: k in keys && k !in todo && k != m ==> Before(m, k)
      decreases |todo|
    {
      var k :| k in todo;
      todo := todo - {k};
      BeforeTotal(m, k);
      if Before(k, m) {
        forall i | i in keys && i !in todo && i != k && i != m ensures Before(k, i) {
          BeforeTrans(k, m, i);
        }
        m := k;
      }
    }
  }

  /** There is only one sorted listing, so the output does not depend on how the header map was
      walked. */
  lemma {:induction false} SortedUnique(a: seq<string>, b: seq<string>)
    requires Sorted(a) && Sorted(b) && (forall n :: n in a <==> n in b)
    ensures a == b
    decreases |a|
  {
    hide Before;
    HasFirst(a);
    HasFirst(b);
    if a != [] {
      assert a[0] in b && b[0] in a;
      FirstIsLeast(a, b[0]);
      FirstIsLeast(b, a[0]);
      BeforeTotal(a[0], b[0]);
      TailElements(a);
      TailElements(b);
      SortedUnique(a[1..], b[1..]);
      assert a == [a[0]] + a[1..] && b == [b[0]] + b[1..];
    }
  }

  lemma HasFirst(a: seq<string>)
    ensures a != [] ==> a[0] in a
  {
  }

  lemma FirstIsLeast(a: seq<string>, n: string)
    requires Sorted(a) && n in a
    ensures n == a[0] || Before(a[0], n)
  {
    hide Before;
    var i :| 0 <= i < |a| && a[i] == n;
  }

  lemma TailElements(a: seq<string>)
    requires Sorted(a) && a != []
    ensures Sorted(a[1..]) && forall n :: n in a[1..] <==> n in a && n != a[0]
  {
    hide Before;
    forall n ensures n in a[1..] <==> n in a && n != a[0] {
      if n in a[1..] {
        var i :| 0 <= i < |a[1..]| && a[1..][i] == n;
        assert a[i + 1] == n && Before(a[0], a[i + 1]);
        BeforeTotal(a[0], n);
      }
      if n in a && n != a[0] {
        var i :| 0 <= i < |a| && a[i] == n;
        assert a[1..][i - 1] == n;
      }
    }
  }

  lemma HeadUnique(res: HttpResponse, length: nat, a: seq<string>, b: seq<string>, head: string, other: string)
    requires IsHead(res, length, a, head) && IsHead(res, length, b, other)
    ensures head == other
  {
    hide Sorted, Accepts, Sent, HeadLines, StatusLine;
    SortedUnique(a, b);
  }

  lemma JoinAppend(lines: seq<string>, line: string)
    ensures HttpParserFraming.Join(lines + [line]) == HttpParserFraming.Join(lines) + line + CRLF
  {
    if lines == [] {
      assert lines + [line] == [line];
    } else {
      JoinAppend(lines[1..], line);
      assert (lines + [line])[1..] == lines[1..] + [line];
    }
  }

  /** build_response_head. */
  method BuildResponseHead(res: HttpResponse, length: nat) returns (r: Option<string>, ghost names: seq<string>)
    ensures r.Some? <==> Accepts(res)
    ensures r.Some? ==> IsHead(res, length, names, r.value)
  {
    hide FieldsOk, Sent, Before, Sorted, HttpParserFraming.Join, StatusLine, IsValidFieldValue;
    names := [];
    if res.statusCode < 100 || res.statusCode > 599 || !IsValidFieldValue(res.statusText) {
      return None, names;
    }
    var fields := CollectFields(res.headers);
    if fields.None? {
      return None, names;
    }
    var h := fields.value;
    var out := StatusLine(res) + CRLF;
    var todo := h.Keys;
    NothingJoined(out);
    assert HttpRoundTrip.FieldLines(h, []) == [];
    while todo != {}
      invariant todo <= h.Keys && (forall n :: n in names <==> n in h && n !in todo)
      invariant Sorted(names) && (forall n, k :: n in names && k in todo ==> Before(n, k))
      invariant out == StatusLine(res) + CRLF + HttpParserFraming.Join(HttpRoundTrip.FieldLines(h, names))
      decreases |todo|
    {
      var n := Smallest(todo);
      SortedAppend(names, n);
      out := out + n + ": " + h[n] + CRLF;
      assert HttpRoundTrip.FieldLines(h, names + [n]) == HttpRoundTrip.FieldLines(h, names) + [HttpRoundTrip.FieldLine(n, h[n])];
      JoinAppend(HttpRoundTrip.FieldLines(h, names), HttpRoundTrip.FieldLine(n, h[n]));
      names := names + [n];
      todo := todo - {n};
    }
    if StatusAllowsBody(res.statusCode) {
      out := out + "content-length: " + Digits.ToString(length) + CRLF;
      JoinAppend(HttpRoundTrip.FieldLines(h, names), HttpRoundTrip.FieldLine("content-length", Digits.ToString(length)));
    } else {
      assert HttpRoundTrip.FieldLines(h, names) + [] == HttpRoundTrip.FieldLines(h, names);
    }
    out := out + CRLF;
    return Some(out), names;
  }

  lemma NothingJoined(out: string)
    ensures out + HttpParserFraming.Join([]) == out && Sorted([])
  {
  }

  lemma SortedAppend(names: seq<string>, n: string)
    requires Sorted(names) && forall m :: m in names ==> Before(m, n)
    ensures Sorted(names + [n])
  {
    hide Before;
  }

  // ---------------------------------------------------------------------------------------
  // Every accepted head can be read back

  lemma {:induction false} SortedExists(keys: set<string>) returns (names: seq<string>)
    ensures Sorted(names) && forall n :: n in names <==> n in keys
    decreases |keys|
  {
    hide Before;
    if keys == {} {
      names := [];
    } else {
      var m := LeastExists(keys);
      var rest := SortedExists(keys - {m});
      names := [m] + rest;
      forall n ensures n in names <==> n in keys {
        assert n in names <==> n == m || n in rest;
      }
      forall i, j | 0 <= i < j < |names| ensures Before(names[i], names[j]) {
        assert names[j] == rest[j - 1] && rest[j - 1] in rest;
        assert i > 0 ==> names[i] == rest[i - 1];
      }
    }
  }

  lemma {:induction false} LeastExists(keys: set<string>) returns (m: string)
    requires keys != {}
    ensures m in keys && forall k :: k in keys && k != m ==> Before(m, k)
    decreases |keys|
  {
    hide Before;
    m :| m in keys;
    if keys != {m} {
      assert keys - {m} != {};
      var o := LeastExists(keys - {m});
      BeforeTotal(m, o);
      if Before(o, m) {
        m := o;
      } else {
        forall k | k in keys && k != m && k != o ensures Before(m, k) {
          BeforeTrans(m, o, k);
        }
      }
    }
  }

  /** The head of an accepted response. */
  ghost function HeadOf(res: HttpResponse, length: nat): (r: Option<string>)
    ensures r.Some? <==> Accepts(res)
    ensures r.Some? ==> exists names :: IsHead(res, length, names, r.value)
  {
    if !Accepts(res) then None else
      ListingOf(res, length);
      var names, head :| IsHead(res, length, names, head);
      Some(head)
  }

  lemma ListingOf(res: HttpResponse, length: nat)
    requires Accepts(res)
    ensures exists names, head :: IsHead(res, length, names, head)
  {
    hide FieldsOk, Sent, StatusLine, HeadLines;
    var names := SortedExists(Sent(res.headers).Keys);
    assert IsHead(res, length, names, StatusLine(res) + CRLF + HttpParserFraming.Join(HeadLines(res, length, names)) + CRLF);
  }

  /** Whatever order the header map is walked in, the bytes are these. */
  lemma BuiltIsHeadOf(res: HttpResponse, length: nat, names: seq<string>, head: string)
    requires IsHead(res, length, names, head)
    ensures HeadOf(res, length) == Some(head)
  {
    hide FieldsOk, Sent, StatusLine, HeadLines, Sorted;
    var other :| IsHead(res, length, other, HeadOf(res, length).value);
    HeadUnique(res, length, names, other, head, HeadOf(res, length).value);
  }

  lemma StatusLineClean(res: HttpResponse)
    requires Accepts(res)
    ensures HttpRoundTrip.NoCr(StatusLine(res))
  {
    hide FieldsOk, DefaultStatusText;
    var digits, text := Digits.ToString(res.statusCode), if res.statusText == [] then DefaultStatusText(res.statusCode) else res.statusText;
    assert '\r' !in digits by {
      assert forall i :: 0 <= i < |digits| ==> Digits.IsDigit(digits[i]);
    }
    assert '\r' !in res.statusText by {
      assert forall i :: 0 <= i < |res.statusText| ==> IsFieldChar(res.statusText[i]);
    }
  }

  /** The name a sent field is read under, and that it is valid. */
  lemma SentField(h: Headers, n: string)
    requires FieldsOk(h) && n in Sent(h)
    ensures IsValidFieldName(n) && IsLower(n) && IsValidFieldValue(Sent(h)[n])
    ensures n != "content-length" && n != "transfer-encoding"
  {
    var m :| m in Others(h) && Lower(m) == n && Sent(h)[n] == h[m];
    assert m in h;
    LowerIsLower(m);
    forall i | 0 <= i < |n| ensures IsTchar(n[i]) {
      assert IsTchar(m[i]) && n[i] == ToLower(m[i]);
    }
  }

  lemma DigitsAreField(s: string)
    requires Digits.AllDigits(s)
    ensures IsValidFieldValue(s) && Trimmed(s)
  {
    assert forall i :: 0 <= i < |s| ==> Digits.IsDigit(s[i]);
  }

  lemma LengthName()
    ensures IsValidFieldName("content-length") && IsLower("content-length")
  {
    var n := "content-length";
    assert forall i :: 0 <= i < |n| ==> IsTchar(n[i]) && !('A' <= n[i] <= 'Z');
  }

  lemma LengthField(length: nat)
    ensures var s := Digits.ToString(length); IsValidFieldValue(s) && Trimmed(s) && Trim(s) == s
    ensures IsValidFieldName("content-length") && IsLower("content-length")
  {
    hide Trim, Digits.ToString;
    var s := Digits.ToString(length);
    DigitsAreField(s);
    TrimIdentity(s);
    LengthName();
  }

  lemma HeadLineClean(res: HttpResponse, length: nat, names: seq<string>)
    requires Accepts(res) && forall n :: n in names ==> n in Sent(res.headers)
    ensures HttpRoundTrip.Solid(HeadLines(res, length, names))
  {
    hide FieldsOk, Sent, HttpRoundTrip.FieldLine, HttpRoundTrip.NoCr;
    var lines := HeadLines(res, length, names);
    LengthField(length);
    forall i | 0 <= i < |lines| ensures lines[i] != [] && HttpRoundTrip.NoCr(lines[i]) {
      if i < |names| {
        SentField(res.headers, names[i]);
        HttpRoundTrip.FieldLineClean(names[i], Sent(res.headers)[names[i]]);
      } else {
        HttpRoundTrip.FieldLineClean("content-length", Digits.ToString(length));
      }
    }
  }

  /** The field lines of a head, found as the request parser finds them. */
  function ReadLines(head: string): seq<string> {
    var eol := Find(head, CRLF, 0);
    if eol == NPOS || |head| < eol + 4 then [] else Lines(head[eol + 2..|head| - 2], 0)
  }

  lemma TextIsFramed(a: string, lines: seq<string>)
    requires HttpRoundTrip.NoCr(a) && HttpRoundTrip.Solid(lines)
    ensures var head := a + CRLF + HttpParserFraming.Join(lines) + CRLF;
            |head| >= 4 && Find(head, BLANK_LINE, 0) == |head| - 4 && ReadLines(head) == lines
  {
    hide Lines, Find, HttpParserFraming.Join, HttpRoundTrip.Solid, HttpRoundTrip.NoCr;
    var joined := HttpParserFraming.Join(lines);
    var head := a + CRLF + joined + CRLF;
    HttpRoundTrip.BlankFound(a, lines, []);
    assert head == head + [];
    HttpRoundTrip.LineFound([], a, joined + CRLF);
    assert head == [] + a + CRLF + (joined + CRLF);
    assert head[|a| + 2..|head| - 2] == joined;
    HttpRoundTrip.LinesOfJoin([], lines);
    assert [] + joined == joined;
  }

  /** The blank line of an accepted head is its end and nowhere earlier, and cutting the head at
      line ends gives its field lines. */
  lemma HeadIsFramed(res: HttpResponse, length: nat, names: seq<string>, head: string)
    requires IsHead(res, length, names, head)
    ensures |head| >= 4 && Find(head, BLANK_LINE, 0) == |head| - 4
    ensures ReadLines(head) == HeadLines(res, length, names)
  {
    hide FieldsOk, IsValidFieldValue, Sent, StatusLine, HeadLines, Lines, Find, Sorted, HttpParserFraming.Join, HttpRoundTrip.Solid, ReadLines;
    StatusLineClean(res);
    HeadLineClean(res, length, names);
    TextIsFramed(StatusLine(res), HeadLines(res, length, names));
  }

  predicate Fits(name: string, value: string) {
    |HttpRoundTrip.FieldLine(name, value)| <= MAX_HEADER_LINE
  }

  /** Reading the sent fields finds each once. */
  lemma {:induction false} ValuesSent(h: Headers, names: seq<string>, name: string)
    requires FieldsOk(h) && Sorted(names) && forall n :: n in names ==> n in Sent(h)
    ensures HttpFields.ValuesOf(HttpRoundTrip.FieldLines(Sent(h), names), name) ==
              if name in names && Fits(name, Sent(h)[name]) then [Trim(Sent(h)[name])] else []
    decreases |names|
  {
    hide FieldsOk, Sent, ParseLine, Before, Trim, HttpRoundTrip.FieldLine, HttpRoundTrip.FieldLines, HttpFields.ValuesOf, Fits;
    if names == [] {
      NoneSent(h, name);
    } else {
      var front, last := names[..|names| - 1], names[|names| - 1];
      assert last in names && forall n :: n in front ==> n in names;
      ValuesSent(h, front, name);
      HttpRoundTrip.FieldLinesLast(Sent(h), names);
      ValuesAppend(HttpRoundTrip.FieldLines(Sent(h), front), HttpRoundTrip.FieldLine(last, Sent(h)[last]), name);
      LastNotEarlier(names);
      OneField(h, last);
      assert name in names <==> name in front || name == last;
    }
  }

  lemma NoneSent(h: Headers, name: string)
    requires FieldsOk(h)
    ensures HttpFields.ValuesOf(HttpRoundTrip.FieldLines(Sent(h), []), name) == []
  {
    hide Sent, FieldsOk;
  }

  lemma LastNotEarlier(names: seq<string>)
    requires Sorted(names) && names != []
    ensures names[|names| - 1] !in names[..|names| - 1]
  {
    hide Before;
    var last := names[|names| - 1];
    if last in names[..|names| - 1] {
      var i :| 0 <= i < |names| - 1 && names[i] == last;
      BeforeTotal(names[i], last);
    }
  }

  lemma OneField(h: Headers, n: string)
    requires FieldsOk(h) && n in Sent(h)
    ensures var f := ParseLine(HttpRoundTrip.FieldLine(n, Sent(h)[n]));
            if Fits(n, Sent(h)[n]) then f == Some(Field(n, Trim(Sent(h)[n]))) else f.None?
  {
    hide FieldsOk, Sent, Trim;
    SentField(h, n);
    LowerIdentity(n);
    if Fits(n, Sent(h)[n]) {
      HttpRoundTrip.AnyFieldParses(n, Sent(h)[n]);
    }
  }

  lemma ValuesAppend(lines: seq<string>, line: string, name: string)
    ensures HttpFields.ValuesOf(lines + [line], name) ==
              HttpFields.ValuesOf(lines, name) +
              (if ParseLine(line).Some? && ParseLine(line).value.name == name then [ParseLine(line).value.value] else [])
  {
    hide ParseLine;
    assert (lines + [line])[..|lines|] == lines;
  }

  lemma LinesValues(res: HttpResponse, length: nat, names: seq<string>, name: string)
    requires Accepts(res) && SortedListing(names, Sent(res.headers))
    requires name == "content-length" ==> length < 0x1_0000_0000_0000_0000
    ensures HttpFields.ValuesOf(HeadLines(res, length, names), name) ==
              if name == "content-length" then if StatusAllowsBody(res.statusCode) then [Digits.ToString(length)] else []
              else if name in Sent(res.headers) && Fits(name, Sent(res.headers)[name]) then [Trim(Sent(res.headers)[name])]
              else []
  {
    hide Sent, FieldsOk, Sorted, ParseLine, Trim, HttpRoundTrip.FieldLine, Fits, HttpFields.ValuesOf, HttpRoundTrip.FieldLines;
    ValuesSent(res.headers, names, name);
    if "content-length" in Sent(res.headers) {
      SentField(res.headers, "content-length");
    }
    var fields := HttpRoundTrip.FieldLines(Sent(res.headers), names);
    if StatusAllowsBody(res.statusCode) {
      LengthParses(length);
      ValuesAppend(fields, HttpRoundTrip.FieldLine("content-length", Digits.ToString(length)), name);
    } else {
      assert HeadLines(res, length, names) == fields;
    }
  }

  lemma LengthParses(length: nat)
    ensures var line := HttpRoundTrip.FieldLine("content-length", Digits.ToString(length));
            if Fits("content-length", Digits.ToString(length)) then ParseLine(line) == Some(Field("content-length", Digits.ToString(length)))
            else ParseLine(line).None?
    ensures length < 0x1_0000_0000_0000_0000 ==> Fits("content-length", Digits.ToString(length))
  {
    hide Trim;
    LengthField(length);
    LowerIdentity("content-length");
    if Fits("content-length", Digits.ToString(length)) {
      HttpRoundTrip.AnyFieldParses("content-length", Digits.ToString(length));
    }
    if length < 0x1_0000_0000_0000_0000 {
      Digits.SixtyFourBits(length);
    }
  }

  /** What a reader of the head finds under each name: the sent value, trimmed, once; and the
      body's length exactly once, if and only if the status allows a body. */
  lemma HeadValues(res: HttpResponse, length: nat, names: seq<string>, head: string, name: string)
    requires IsHead(res, length, names, head) && (name == "content-length" ==> length < 0x1_0000_0000_0000_0000)
    ensures HttpFields.ValuesOf(ReadLines(head), name) ==
              if name == "content-length" then if StatusAllowsBody(res.statusCode) then [Digits.ToString(length)] else []
              else if name in Sent(res.headers) && Fits(name, Sent(res.headers)[name]) then [Trim(Sent(res.headers)[name])]
              else []
  {
    hide Sent, FieldsOk, ReadLines, Sorted, Trim, Fits, HttpFields.ValuesOf, HeadLines, Find;
    HeadIsFramed(res, length, names, head);
    LinesValues(res, length, names, name);
  }

  /** The map a reader should get: lowercased names, trimmed values, and the body's length. */
  function Readable(res: HttpResponse, length: nat): Headers
    requires Accepts(res)
  {
    (map n | n in Sent(res.headers) :: Trim(Sent(res.headers)[n])) +
    (if StatusAllowsBody(res.statusCode) then map["content-length" := Digits.ToString(length)] else map[])
  }

  /** Within the request parser's own limits, its rules read back exactly the fields sent. */
  lemma HeadReadsBack(res: HttpResponse, length: nat, names: seq<string>, head: string)
    requires IsHead(res, length, names, head) && length < 0x1_0000_0000_0000_0000
    requires |ReadLines(head)| <= MAX_HEADERS && forall n :: n in Sent(res.headers) ==> Fits(n, Sent(res.headers)[n])
    ensures HeadersOf(ReadLines(head)) == Some(Readable(res, length))
  {
    hide Sent, FieldsOk, ReadLines, Sorted, Trim, Fits, HttpFields.ValuesOf, HeadLines, Find, HeadersOf, HttpFields.AllFields;
    var lines := ReadLines(head);
    AllParse(res, length, names, head);
    HeadValues(res, length, names, head, "content-length");
    HttpFields.HeadersMeaning(lines);
    var h, r := HeadersOf(lines).value, Readable(res, length);
    if "content-length" in Sent(res.headers) {
      SentField(res.headers, "content-length");
    }
    forall n ensures n in h <==> n in r
             ensures n in h ==> h[n] == r[n]
    {
      HeadValues(res, length, names, head, n);
    }
    assert h == r;
  }

  lemma AllParse(res: HttpResponse, length: nat, names: seq<string>, head: string)
    requires IsHead(res, length, names, head) && length < 0x1_0000_0000_0000_0000
    requires forall n :: n in Sent(res.headers) ==> Fits(n, Sent(res.headers)[n])
    ensures HttpFields.AllFields(ReadLines(head))
  {
    hide Sent, FieldsOk, ReadLines, Sorted, Trim, Fits, Find, ParseLine, HttpRoundTrip.FieldLine;
    HeadIsFramed(res, length, names, head);
    var lines := HeadLines(res, length, names);
    LengthParses(length);
    forall i | 0 <= i < |lines| ensures ParseLine(lines[i]).Some? {
      if i < |names| {
        assert names[i] in names;
        OneField(res.headers, names[i]);
      }
    }
  }

  /** fallback_error_response. */
  function Fallback(close: bool): string {
    "HTTP/1.1 500 Internal Server Error" + CRLF + HttpParserFraming.Join(FallbackLines(close)) + CRLF + "Internal Server Error"
  }

  function FallbackLines(close: bool): seq<string> {
    [HttpRoundTrip.FieldLine("content-type", "text/plain"), HttpRoundTrip.FieldLine("content-length", "21")] +
    (if close then [HttpRoundTrip.FieldLine("connection", "close")] else [])
  }
}
