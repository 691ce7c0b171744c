/**
 The computations one connection performs, put together: what the ring is given as its `App`.
 A site is its routes, its table of media types and its files' modification dates.
 */
module HttpServer {
  import opened Wrappers
  import opened Text
  import opened HttpTypes
  import opened HttpResponseWriter
  import Digits
  import Framing
  import HttpFields
  import HttpParser
  import HttpParserFraming
  import HttpResponses
  import HttpRoundTrip
  import HttpRouter
  import RangeRequest
  import RingHistory

  datatype Site = Site(
    routes: seq<HttpRouter.Route>,
    mediaType: string -> string,
    modified: string -> Option<string>)

  // ---------------------------------------------------------------------------------------
  // Requests

  /** shouldKeepAlive. */
  predicate ShouldKeepAlive(req: HttpRequest) {
    var options := HttpResponses.GetHeader(req.headers, "connection");
    if HttpFields.Contains(options, "close") then false
    else if req.version == "HTTP/1.1" then true
    else req.version == "HTTP/1.0" && HttpFields.Contains(options, "keep-alive")
  }

  /** Range is only defined for GET. */
  function RangeOf(req: HttpRequest): Option<RangeRequest.ByteRangeSpec> {
    if req.method_ == "GET" then RangeRequest.ParseRange(HttpResponses.GetHeader(req.headers, "range")) else None
  }

  /** A close option on any Connection line of the request closes the connection. */
  lemma CloseOnAnyLine(buf: string, lines: seq<string>, i: nat)
    requires HttpParser.Parse(buf).Success? && HttpParser.HeadersOf(lines) == Some(HttpParser.Parse(buf).request.headers)
    requires i < |HttpFields.ValuesOf(lines, "connection")|
    requires HttpFields.Contains(HttpFields.ValuesOf(lines, "connection")[i], "close")
    ensures !ShouldKeepAlive(HttpParser.Parse(buf).request)
  {
    hide HttpParser.Parse, HttpParser.HeadersOf, HttpFields.Contains, HttpFields.ValuesOf;
    HttpFields.HeadersMeaning(lines);
    HttpFields.ContainsAny(HttpFields.ValuesOf(lines, "connection"), "close");
    LowerIdentity("connection");
  }

  // ---------------------------------------------------------------------------------------
  // Responses

  /** A handler may close the connection. */
  predicate Closes(res: HttpResponse) {
    HttpFields.Contains(HttpResponses.GetHeader(res.headers, "connection"), "close")
  }

  /** The connection's decision, stated on the response. */
  function Stamp(res: HttpResponse, keep: bool, advertise: bool): HttpResponse {
    if !keep then HttpRouter.SetHeader(res, "connection", "close")
    else if advertise then HttpRouter.SetHeader(res, "connection", "keep-alive")
    else res.(headers := res.headers - {"connection"})
  }

  /** The bytes of a response with a string body. */
  ghost function Body(res: HttpResponse, keep: bool): string {
    var head := HeadOf(res, |res.body|);
    if head.None? then Fallback(!keep)
    else head.value + (if StatusAllowsBody(res.statusCode) then res.body else [])
  }

  /** The answer to bytes that are not a request. */
  function Refusal(code: int): HttpResponse {
    var reason := if code == 413 then "Content Too Large"
                  else if code == 431 then "Request Header Fields Too Large" else "Bad Request";
    HttpRouter.SetBody(HttpRouter.SetHeader(HttpRouter.SetStatus(HttpRouter.BlankResponse, code, reason), "content-type", "text/plain"), reason)
  }

  // ---------------------------------------------------------------------------------------
  // Files

  function Default(h: Headers, name: string, value: string): Headers {
    if name in h then h else h[name := value]
  }

  function ContentRange(plan: RangeRequest.Plan, size: nat): string
    requires plan.Plan?
  {
    "bytes " + Digits.ToString(plan.offset) + "-" +
    Digits.ToString(if plan.offset + plan.length > 0 then plan.offset + plan.length - 1 else 0) + "/" + Digits.ToString(size)
  }

  /** startSendingHeaders: status, Content-Range and the defaults. */
  function FileResponse(site: Site, res: HttpResponse, plan: RangeRequest.Plan, size: nat): HttpResponse
    requires HttpResponses.Consistent(res.headers) && plan.Plan?
  {
    var folded := HttpResponses.Folded(res.headers);
    var ranged := if plan.partial then folded["content-range" := ContentRange(plan, size)] else folded;
    var typed := Default(Default(ranged, "content-type", site.mediaType(res.filePath)), "accept-ranges", "bytes");
    var date := site.modified(res.filePath);
    var dated := if date.None? then typed else Default(typed, "last-modified", date.value);
    HttpRouter.SetStatus(res, if plan.partial then 206 else 200, if plan.partial then "Partial Content" else "OK")
      .(headers := Default(dated, "access-control-allow-origin", "*"))
  }

  ghost function FileHead(site: Site, res: HttpResponse, plan: RangeRequest.Plan, size: nat): Option<string> {
    if plan.Unsatisfiable? || !HttpResponses.Consistent(res.headers) then None
    else HeadOf(FileResponse(site, res, plan, size), plan.length)
  }

  function ErrorText(code: int): string {
    if code == 404 then "File not found" else if code == 416 then "Range Not Satisfiable" else "Internal Server Error"
  }

  /** sendError: the connection option is carried over, everything else is fresh. The headers of
      a response that reaches a file job are already folded. */
  function ErrorResponse(res: HttpResponse, code: int, size: Option<nat>): HttpResponse {
    var plain: Headers := map["content-type" := "text/plain"];
    var ranged := if size.None? then plain
                  else plain["content-range" := "bytes */" + Digits.ToString(size.value)]["accept-ranges" := "bytes"];
    HttpRouter.SetStatus(HttpRouter.BlankResponse, code, ErrorText(code))
      .(headers := if "connection" in res.headers then ranged["connection" := res.headers["connection"]] else ranged)
  }

  ghost function FileError(res: HttpResponse, code: int, size: Option<nat>): string {
    var head := HeadOf(ErrorResponse(res, code, size), |ErrorText(code)|);
    if head.None? then Fallback(HttpResponses.GetHeader(res.headers, "connection") == "close")
    else head.value + ErrorText(code)
  }

  // ---------------------------------------------------------------------------------------
  // The whole

  ghost function ServerApp(site: Site): RingHistory.App {
    RingHistory.App(
      HttpParser.Parse,
      req => ShouldKeepAlive(req),
      req => RangeOf(req),
      req => HttpRouter.Respond(site.routes, req),
      res => Closes(res),
      (res, keep, advertise) => Stamp(res, keep, advertise),
      (res, keep) => Body(res, keep),
      code => Refusal(code),
      (res: HttpResponse, plan: RangeRequest.Plan, size: nat) => FileHead(site, res, plan, size),
      (res: HttpResponse, code: int, size: Option<nat>) => FileError(res, code, size))
  }

  /** The server's own computations meet everything the ring asks of them. */
  lemma ServerAppOk(site: Site)
    ensures RingHistory.AppOk(ServerApp(site))
  {
    hide HttpParser.Parse, Framing.Framed;
    HttpParserFraming.ParserIsFramed();
    var app := ServerApp(site);
    assert app.parse == HttpParser.Parse;
    forall code, keep, advertise ensures app.stamp(app.refusal(code), keep, advertise).filePath == "" {
    }
  }

  // ---------------------------------------------------------------------------------------
  // "connection: close" is sent exactly when the connection will close

  /** A client reading these bytes finds a connection field that says close. */
  ghost predicate SaysClose(bytes: string) {
    var end := Find(bytes, BLANK_LINE, 0);
    end != NPOS && "close" in HttpFields.ValuesOf(ReadLines(bytes[..end + 4]), "connection")
  }

  /** The option a response carries. */
  predicate Marked(h: Headers, keep: bool) {
    && HttpResponses.LowerNames(h)
    && (!keep ==> "connection" in h && h["connection"] == "close")
    && (keep && "connection" in h ==> h["connection"] == "keep-alive")
  }

  lemma StampMarks(res: HttpResponse, keep: bool, advertise: bool)
    requires HttpResponses.LowerNames(res.headers)
    ensures Marked(Stamp(res, keep, advertise).headers, keep)
  {
    LowerIdentity("connection");
    LowerIsLower("connection");
  }

  /** With lowercase names, what is sent is the map itself without content-length. */
  lemma SentLower(h: Headers)
    requires FieldsOk(h) && HttpResponses.LowerNames(h)
    ensures Sent(h) == h - {"content-length"}
  {
    hide FieldsOk;
    assert Others(h) == h - {"content-length"} by {
      forall n | n in h ensures Lower(n) == n {
        LowerIdentity(n);
      }
    }
    HttpResponses.FoldedLower(Others(h));
  }

  /** A marked head, followed by anything, says close exactly when it should. */
  lemma MarkedHeadSays(res: HttpResponse, length: nat, keep: bool, head: string, more: string)
    requires Marked(res.headers, keep) && HeadOf(res, length) == Some(head)
    ensures SaysClose(head + more) <==> !keep
  {
    hide FieldsOk, Sent, Find, ReadLines, HttpFields.ValuesOf, Trim, Sorted, HeadLines, StatusLine;
    var names :| IsHead(res, length, names, head);
    HeadIsFramed(res, length, names, head);
    HttpParserFraming.FindStable(head, head + more, BLANK_LINE);
    assert (head + more)[..|head|] == head;
    HeadValues(res, length, names, head, "connection");
    SentLower(res.headers);
    OptionTrims();
  }

  lemma OptionTrims()
    ensures Trim("close") == "close" && Trim("keep-alive") == "keep-alive" && "keep-alive" != "close"
    ensures Fits("connection", "close") && Fits("connection", "keep-alive")
  {
    TrimIdentity("close");
    TrimIdentity("keep-alive");
    assert "keep-alive"[0] != "close"[0];
  }

  lemma FallbackSays(close: bool)
    ensures SaysClose(Fallback(close)) <==> close
  {
    hide Find, ReadLines, HttpFields.ValuesOf, HttpParserFraming.Join, FallbackLines;
    var a, lines := "HTTP/1.1 500 Internal Server Error", FallbackLines(close);
    FallbackClean(close);
    TextIsFramed(a, lines);
    var head := a + CRLF + HttpParserFraming.Join(lines) + CRLF;
    HttpParserFraming.FindStable(head, head + "Internal Server Error", BLANK_LINE);
    assert (head + "Internal Server Error")[..|head|] == head;
    FallbackValues(close);
  }

  lemma FallbackClean(close: bool)
    ensures HttpRoundTrip.NoCr("HTTP/1.1 500 Internal Server Error") && HttpRoundTrip.Solid(FallbackLines(close))
  {
  }

  lemma FallbackValues(close: bool)
    ensures HttpFields.ValuesOf(FallbackLines(close), "connection") == if close then ["close"] else []
  {
    hide HttpParser.ParseLine, HttpFields.ValuesOf, HttpRoundTrip.FieldLine;
    FallbackFields();
    var type_, length := HttpRoundTrip.FieldLine("content-type", "text/plain"), HttpRoundTrip.FieldLine("content-length", "21");
    assert HttpFields.ValuesOf([], "connection") == [] by { NoValues(); }
    ValuesAppend([], type_, "connection");
    ValuesAppend([type_], length, "connection");
    assert [] + [type_] == [type_] && [type_] + [length] == [type_, length];
    if close {
      ValuesAppend([type_, length], HttpRoundTrip.FieldLine("connection", "close"), "connection");
    } else {
      assert [type_, length] + [] == [type_, length];
    }
  }

  lemma NoValues()
    ensures HttpFields.ValuesOf([], "connection") == []
  {
  }

  lemma FallbackFields()
    ensures HttpParser.ParseLine(HttpRoundTrip.FieldLine("content-type", "text/plain")) == Some(HttpParser.Field("content-type", "text/plain"))
    ensures HttpParser.ParseLine(HttpRoundTrip.FieldLine("content-length", "21")) == Some(HttpParser.Field("content-length", "21"))
    ensures HttpParser.ParseLine(HttpRoundTrip.FieldLine("connection", "close")) == Some(HttpParser.Field("connection", "close"))
    ensures "content-type" != "connection" && "content-length" != "connection"
  {
    hide HttpParser.ParseLine, HttpRoundTrip.Canonical, HttpRoundTrip.FieldLine;
    TypeCanonical();
    LengthCanonical();
    ConnectionCanonical();
    HttpRoundTrip.FieldParses("content-type", "text/plain");
    HttpRoundTrip.FieldParses("content-length", "21");
    HttpRoundTrip.FieldParses("connection", "close");
    assert "content-type"[3] != "connection"[3] && "content-length"[3] != "connection"[3];
  }

  lemma TypeCanonical()
    ensures HttpRoundTrip.Canonical("content-type", "text/plain")
  {
  }

  lemma LengthCanonical()
    ensures HttpRoundTrip.Canonical("content-length", "21")
  {
  }

  lemma ConnectionCanonical()
    ensures HttpRoundTrip.Canonical("connection", "close")
  {
  }

  lemma BodySays(res: HttpResponse, keep: bool)
    requires Marked(res.headers, keep)
    ensures SaysClose(Body(res, keep)) <==> !keep
  {
    hide SaysClose, Marked, Accepts, Fallback;
    var head := HeadOf(res, |res.body|);
    if head.None? {
      FallbackSays(!keep);
    } else {
      MarkedHeadSays(res, |res.body|, keep, head.value, if StatusAllowsBody(res.statusCode) then res.body else []);
    }
  }

  /** Another field does not change the mark. */
  lemma MarkedAdd(h: Headers, keep: bool, name: string, value: string)
    requires Marked(h, keep) && IsLower(name) && name != "connection"
    ensures Marked(h[name := value], keep) && Marked(Default(h, name, value), keep)
  {
  }

  lemma FileHeadSays(site: Site, res: HttpResponse, keep: bool, plan: RangeRequest.Plan, size: nat, content: string)
    requires Marked(res.headers, keep) && FileHead(site, res, plan, size).Some?
    ensures SaysClose(FileHead(site, res, plan, size).value + content) <==> !keep
  {
    hide SaysClose, Accepts, FileResponse, Marked;
    FileResponseMarked(site, res, keep, plan, size);
    MarkedHeadSays(FileResponse(site, res, plan, size), plan.length, keep, FileHead(site, res, plan, size).value, content);
  }

  lemma FileResponseMarked(site: Site, res: HttpResponse, keep: bool, plan: RangeRequest.Plan, size: nat)
    requires Marked(res.headers, keep) && HttpResponses.Consistent(res.headers) && plan.Plan?
    ensures Marked(FileResponse(site, res, plan, size).headers, keep)
  {
    hide ContentRange, Marked, Default, IsLower, HttpResponses.Folded, HttpResponses.LowerNames, HttpResponses.Consistent;
    MarkedLower(res.headers, keep);
    HttpResponses.FoldedLower(res.headers);
    NamesDiffer();
    var h := res.headers;
    MarkedAdd(h, keep, "content-range", ContentRange(plan, size));
    var ranged := if plan.partial then h["content-range" := ContentRange(plan, size)] else h;
    MarkedAdd(ranged, keep, "content-type", site.mediaType(res.filePath));
    var typed := Default(ranged, "content-type", site.mediaType(res.filePath));
    MarkedAdd(typed, keep, "accept-ranges", "bytes");
    var accepting, date := Default(typed, "accept-ranges", "bytes"), site.modified(res.filePath);
    if date.Some? {
      MarkedAdd(accepting, keep, "last-modified", date.value);
    }
    var dated := if date.None? then accepting else Default(accepting, "last-modified", date.value);
    MarkedAdd(dated, keep, "access-control-allow-origin", "*");
  }

  lemma MarkedLower(h: Headers, keep: bool)
    requires Marked(h, keep)
    ensures HttpResponses.LowerNames(h)
    ensures (HttpResponses.GetHeader(h, "connection") == "close") == !keep
  {
    LowerIdentity("connection");
    OptionTrims();
  }

  lemma NamesDiffer()
    ensures "content-range" != "connection" && "content-type" != "connection" && "accept-ranges" != "connection"
    ensures "last-modified" != "connection" && "access-control-allow-origin" != "connection"
    ensures IsLower("content-range") && IsLower("content-type") && IsLower("accept-ranges")
    ensures IsLower("last-modified") && IsLower("access-control-allow-origin") && IsLower("connection")
  {
    assert "content-range"[3] != "connection"[3] && "content-type"[3] != "connection"[3];
    assert "accept-ranges"[0] != "connection"[0] && "last-modified"[0] != "connection"[0];
    assert "access-control-allow-origin"[0] != "connection"[0];
  }

  lemma ErrorMarked(res: HttpResponse, keep: bool, code: int, size: Option<nat>)
    requires Marked(res.headers, keep)
    ensures Marked(ErrorResponse(res, code, size).headers, keep)
  {
    hide IsLower, ErrorText;
    NamesDiffer();
  }

  lemma FileErrorSays(res: HttpResponse, keep: bool, code: int, size: Option<nat>)
    requires Marked(res.headers, keep)
    ensures SaysClose(FileError(res, code, size)) <==> !keep
  {
    hide SaysClose, Accepts, Fallback, Marked, ErrorResponse, ErrorText, HttpResponses.GetHeader;
    MarkedLower(res.headers, keep);
    ErrorMarked(res, keep, code, size);
    var r := ErrorResponse(res, code, size);
    var head := HeadOf(r, |ErrorText(code)|);
    if head.None? {
      FallbackSays(HttpResponses.GetHeader(res.headers, "connection") == "close");
    } else {
      MarkedHeadSays(r, |ErrorText(code)|, keep, head.value, ErrorText(code));
    }
  }

  /** Every response the server puts on the wire, on the body, file, file-error, fallback and
      refusal paths alike, says close exactly when its captured decision is to close. */
  lemma EveryResponseAnnounces(site: Site, req: HttpRequest, ex: RingHistory.Exchange)
    requires RingHistory.Answered(ServerApp(site), req, ex) || exists code :: RingHistory.IsRefusal(ServerApp(site), ex, code)
    ensures SaysClose(ex.bytes) <==> !ex.keep
  {
    hide SaysClose, Marked, Body, FileHead, FileError, HttpRouter.Respond, Stamp, Refusal, RangeRequest.PlanRange;
    var app := ServerApp(site);
    if code :| RingHistory.IsRefusal(app, ex, code) {
      RefusalLower(code);
      StampMarks(Refusal(code), false, false);
      BodySays(Stamp(Refusal(code), false, false), false);
    } else {
      HttpRouter.RespondLower(site.routes, req);
      var res := Stamp(HttpRouter.Respond(site.routes, req), ex.keep, req.version != "HTTP/1.1");
      StampMarks(HttpRouter.Respond(site.routes, req), ex.keep, req.version != "HTTP/1.1");
      if res.filePath == "" {
        BodySays(res, ex.keep);
      } else {
        FileAnswerSays(site, res, ex.keep, RangeOf(req), ex.contents, ex.bytes);
      }
    }
  }

  lemma RefusalLower(code: int)
    ensures HttpResponses.LowerNames(Refusal(code).headers)
  {
    hide HttpResponses.Replaced;
    var reason := if code == 413 then "Content Too Large"
                  else if code == 431 then "Request Header Fields Too Large" else "Bad Request";
    var a := HttpRouter.SetStatus(HttpRouter.BlankResponse, code, reason);
    HttpRouter.SetHeaderLower(a, "content-type", "text/plain");
    HttpRouter.SetHeaderLower(HttpRouter.SetHeader(a, "content-type", "text/plain").(body := reason), "content-length", Digits.ToString(|reason|));
  }

  lemma FileAnswerSays(site: Site, res: HttpResponse, keep: bool, range: Option<RangeRequest.ByteRangeSpec>, contents: Option<string>, bytes: string)
    requires Marked(res.headers, keep) && RingHistory.FileAnswer(ServerApp(site), res, range, contents, bytes)
    ensures SaysClose(bytes) <==> !keep
  {
    hide SaysClose, Marked, FileHead, FileError, RangeRequest.PlanRange;
    FileErrorSays(res, keep, 404, None);
    FileErrorSays(res, keep, 500, None);
    if contents.Some? {
      var content := contents.value;
      var plan := RangeRequest.PlanRange(range, |content|);
      FileErrorSays(res, keep, 416, Some(|content|));
      if plan.Plan? && plan.offset + plan.length <= |content| && FileHead(site, res, plan, |content|).Some? {
        FileHeadSays(site, res, keep, plan, |content|, content[plan.offset..plan.offset + plan.length]);
      }
    }
  }
}
