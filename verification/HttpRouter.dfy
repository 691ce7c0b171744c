/** Choosing the route for a request and finishing the handler's response. */
module HttpRouter {
  import opened Wrappers
  import opened Text
  import opened HttpTypes
  import Digits
  import HttpResponses
  import HttpResponseWriter
  import UrlDecode

  const MAX_ROUTABLE_PATH: nat := 2048

  /** What a handler left in the response: it returned, threw, or the route had no handler of
      the kind it was registered with. */
  datatype Outcome = Returned(response: HttpResponse) | Threw(response: HttpResponse) | Misconfigured

  /** A route: its method, its pattern as a predicate on paths, and its handler. */
  datatype Route = Route(method_: string, matches: string -> bool, handler: (HttpRequest, string) -> Outcome)

  const BlankResponse: HttpResponse := HttpResponse(200, "", map[], "", "")

  function SetStatus(res: HttpResponse, code: int, text: string): HttpResponse {
    res.(statusCode := code, statusText := if text == "" then HttpResponseWriter.DefaultStatusText(code) else text)
  }

  function SetHeader(res: HttpResponse, name: string, value: string): HttpResponse {
    res.(headers := HttpResponses.Replaced(res.headers, name, value))
  }

  function SetBody(res: HttpResponse, content: string): HttpResponse {
    SetHeader(res.(body := content), "content-length", Digits.ToString(|content|))
  }

  /** A plain-text answer of the router's own. */
  function Plain(code: int, text: string): HttpResponse {
    SetHeader(SetBody(SetStatus(BlankResponse, code, text), text), "content-type", "text/plain")
  }

  // ---------------------------------------------------------------------------------------
  // The path a route sees

  datatype Target = Path(path: string) | TooLong | Undecodable

  /** The part of the request target before the query. */
  function WithoutQuery(target: string): string {
    var query := FindChar(target, '?', 0);
    if query == NPOS then target else target[..query]
  }

  /** What dispatch computes: decoding is skipped when there is nothing to decode. */
  function RoutePath(target: string): Target {
    var path := WithoutQuery(target);
    if |path| > MAX_ROUTABLE_PATH then TooLong
    else if FindChar(path, '%', 0) == NPOS then Path(path)
    else if UrlDecode.Decode(path).None? then Undecodable
    else Path(UrlDecode.Decode(path).value)
  }

  /** The same as always decoding. */
  lemma RoutePathDecodes(target: string)
    ensures var path := WithoutQuery(target);
            RoutePath(target) == if |path| > MAX_ROUTABLE_PATH then TooLong
                                 else if UrlDecode.Decode(path).None? then Undecodable
                                 else Path(UrlDecode.Decode(path).value)
    ensures RoutePath(target).Path? ==> |RoutePath(target).path| <= MAX_ROUTABLE_PATH
  {
    hide UrlDecode.Decode;
    var path := WithoutQuery(target);
    if FindChar(path, '%', 0) == NPOS {
      UrlDecode.IdentityWithoutEscapes(path);
    }
    if UrlDecode.Decode(path).Some? {
      UrlDecode.DecodeShrinks(path);
    }
  }

  // ---------------------------------------------------------------------------------------
  // Dispatch

  predicate Applies(route: Route, method_: string, path: string) {
    (route.method_ == "ALL" || route.method_ == method_) && route.matches(path)
  }

  /** The first route that applies, or the number of routes. */
  function FirstMatch(routes: seq<Route>, method_: string, path: string, from: nat): (r: nat)
    requires from <= |routes|
    ensures from <= r <= |routes|
    ensures r < |routes| ==> Applies(routes[r], method_, path)
    ensures forall i :: from <= i < r ==> !Applies(routes[i], method_, path)
    decreases |routes| - from
  {
    if from == |routes| || Applies(routes[from], method_, path) then from
    else FirstMatch(routes, method_, path, from + 1)
  }

  function Caught(outcome: Outcome): HttpResponse {
    match outcome
    case Returned(res) => res
    case Threw(res) => SetBody(SetStatus(res, 500, "Internal Server Error"), "Internal Server Error")
    case Misconfigured => SetBody(SetStatus(BlankResponse, 500, "Internal Server Error"), "Route configuration error")
  }

  function Failure(): HttpResponse {
    SetBody(SetStatus(BlankResponse, 500, "Internal Server Error"), "Internal Server Error")
  }

  /** Names folded to lowercase, or a 500 when two spellings of a field disagree. */
  function Normalized(res: HttpResponse): HttpResponse {
    if HttpResponses.Consistent(res.headers) then res.(headers := HttpResponses.Folded(res.headers)) else Failure()
  }

  /** fallback_to_default_headers. */
  function WithDefaults(res: HttpResponse): HttpResponse {
    var sized := if HttpResponses.GetHeader(res.headers, "content-length") == ""
                 then SetHeader(res, "content-length", Digits.ToString(|res.body|)) else res;
    if HttpResponses.GetHeader(sized.headers, "content-type") == "" && sized.filePath == ""
    then SetHeader(sized, "content-type", "text/plain") else sized
  }

  function Respond(routes: seq<Route>, req: HttpRequest): HttpResponse {
    match RoutePath(req.path)
    case TooLong => Plain(414, "URI Too Long")
    case Undecodable => Plain(400, "Bad Request")
    case Path(path) =>
      var i := FirstMatch(routes, req.method_, path, 0);
      if i == |routes| then Plain(404, "Not Found") else WithDefaults(Normalized(Caught(routes[i].handler(req, path))))
  }

  method Dispatch(routes: seq<Route>, req: HttpRequest) returns (res: HttpResponse)
    ensures res == Respond(routes, req)
  {
    hide UrlDecode.Decode, FindChar;
    var path := req.path;
    var query := FindChar(req.path, '?', 0);
    if query != NPOS {
      path := req.path[..query];
    }
    if |path| > MAX_ROUTABLE_PATH {
      return Plain(414, "URI Too Long");
    }
    if FindChar(path, '%', 0) != NPOS {
      var decoded := UrlDecode.DecodePath(path);
      if decoded.None? {
        return Plain(400, "Bad Request");
      }
      path := decoded.value;
    }
    for i := 0 to |routes|
      invariant FirstMatch(routes, req.method_, path, 0) == FirstMatch(routes, req.method_, path, i)
    {
      if routes[i].method_ != "ALL" && routes[i].method_ != req.method_ {
        continue;
      }
      if routes[i].matches(path) {
        return WithDefaults(Normalized(Caught(routes[i].handler(req, path))));
      }
    }
    return Plain(404, "Not Found");
  }

  // ---------------------------------------------------------------------------------------
  // Every response the router hands on has lowercase field names

  lemma SetHeaderLower(res: HttpResponse, name: string, value: string)
    requires HttpResponses.LowerNames(res.headers)
    ensures HttpResponses.LowerNames(SetHeader(res, name, value).headers)
  {
    LowerIsLower(name);
  }

  lemma PlainLower(code: int, text: string)
    ensures HttpResponses.LowerNames(Plain(code, text).headers)
  {
    hide HttpResponses.Replaced;
    var a := SetStatus(BlankResponse, code, text).(body := text);
    SetHeaderLower(a, "content-length", Digits.ToString(|text|));
    SetHeaderLower(SetBody(SetStatus(BlankResponse, code, text), text), "content-type", "text/plain");
  }

  lemma NormalizedLower(res: HttpResponse)
    ensures HttpResponses.LowerNames(Normalized(res).headers)
  {
    hide HttpResponses.Replaced, HttpResponses.LowerNames, HttpResponses.Folded;
    if HttpResponses.Consistent(res.headers) {
      FoldedNames(res.headers);
    } else {
      FailureLower();
    }
  }

  lemma FailureLower()
    ensures HttpResponses.LowerNames(Failure().headers)
  {
    hide HttpResponses.Replaced;
    var blank := SetStatus(BlankResponse, 500, "Internal Server Error").(body := "Internal Server Error");
    SetHeaderLower(blank, "content-length", Digits.ToString(|blank.body|));
  }

  lemma DefaultsLower(res: HttpResponse)
    requires HttpResponses.LowerNames(res.headers)
    ensures HttpResponses.LowerNames(WithDefaults(res).headers)
  {
    hide HttpResponses.Replaced, HttpResponses.LowerNames, SetHeader, HttpResponses.GetHeader;
    SetHeaderLower(res, "content-length", Digits.ToString(|res.body|));
    var sized := if HttpResponses.GetHeader(res.headers, "content-length") == ""
                 then SetHeader(res, "content-length", Digits.ToString(|res.body|)) else res;
    SetHeaderLower(sized, "content-type", "text/plain");
  }

  lemma FoldedNames(h: Headers)
    requires HttpResponses.Consistent(h)
    ensures HttpResponses.LowerNames(HttpResponses.Folded(h))
  {
    forall k | k in HttpResponses.Folded(h) ensures IsLower(k) {
      var n :| n in h && Lower(n) == k;
      LowerIsLower(n);
    }
  }

  lemma RespondLower(routes: seq<Route>, req: HttpRequest)
    ensures HttpResponses.LowerNames(Respond(routes, req).headers)
  {
    hide Plain, Normalized, WithDefaults, UrlDecode.Decode, HttpResponses.LowerNames;
    PlainLower(414, "URI Too Long");
    PlainLower(400, "Bad Request");
    PlainLower(404, "Not Found");
    match RoutePath(req.path) {
      case Path(path) =>
        var i := FirstMatch(routes, req.method_, path, 0);
        if i < |routes| {
          NormalizedLower(Caught(routes[i].handler(req, path)));
          DefaultsLower(Normalized(Caught(routes[i].handler(req, path))));
        }
      case _ =>
    }
  }
}
