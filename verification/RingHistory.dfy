/**
 What a connection has received, dispatched and sent, and how the three are related at every
 point of every run.
 */
module RingHistory {
  import opened Wrappers
  import opened HttpTypes
  import opened RingState
  import opened RingLocality
  import Framing
  import RangeRequest
  import Text

  /** The pure computations a connection performs: parsing, routing and rendering. */
  datatype App = App(
    parse: string -> ParseResult,
    keep: HttpRequest -> bool,
    range: HttpRequest -> Option<RangeRequest.ByteRangeSpec>,
    route: HttpRequest -> HttpResponse,
    closes: HttpResponse -> bool,
    stamp: (HttpResponse, bool, bool) -> HttpResponse,
    body: (HttpResponse, bool) -> string,
    refusal: int -> HttpResponse,
    fileHead: (HttpResponse, RangeRequest.Plan, nat) -> Option<string>,
    fileError: (HttpResponse, int, Option<nat>) -> string)

  ghost predicate AppOk(app: App) {
    && Framing.Framed(app.parse)
    && forall code, keep, adv :: app.stamp(app.refusal(code), keep, adv).filePath == ""
  }

  /** A response put on the wire: the request it answers (None for a refusal of bytes that are
      not a request), the connection decision it carries, whether the server was stopping when
      it was made, the file it was read from. */
  datatype Exchange = Exchange(answers: Option<nat>, keep: bool, stopping: bool, contents: Option<string>, bytes: string)

  const MAX_REQUEST_SIZE: nat := 1024 * 1024

  /** Why a connection stops reading requests: what is buffered is not a request, or it would
      outgrow the limit with the bytes that just arrived. */
  datatype Refused = Malformed(rest: string) | Oversize(rest: string, extra: string)

  /** 431 when the header section has not ended, 413 when the body is too large. */
  function RefusalCode(r: Refused): int {
    match r
    case Malformed(_) => 400
    case Oversize(rest, _) => if Text.Find(rest, Text.BLANK_LINE, 0) == Text.NPOS then 431 else 413
  }

  /** One connection's history. `stream` is what arrived while it was open, `taken` the part of
      it already dispatched as `requests`; `wire` is what the socket accepted. */
  datatype Hist = Hist(
    stream: string,
    taken: string,
    requests: seq<HttpRequest>,
    refused: Option<Refused>,
    log: seq<Exchange>,
    wire: string)

  const FreshHist: Hist := Hist([], [], [], None, [], [])

  function Flat(log: seq<Exchange>): string {
    if log == [] then [] else Flat(log[..|log| - 1]) + log[|log| - 1].bytes
  }

  /** The bytes of a file response: the head and the planned part of the file, or an error page. */
  ghost predicate FileAnswer(app: App, res: HttpResponse, range: Option<RangeRequest.ByteRangeSpec>,
                             contents: Option<string>, bytes: string) {
    if contents.None? then bytes == app.fileError(res, 404, None)
    else
      var content := contents.value;
      match RangeRequest.PlanRange(range, |content|)
      case Unsatisfiable => bytes == app.fileError(res, 416, Some(|content|))
      case Plan(off, len, _) =>
        || (off + len <= |content| && app.fileHead(res, RangeRequest.PlanRange(range, |content|), |content|).Some? &&
            bytes == app.fileHead(res, RangeRequest.PlanRange(range, |content|), |content|).value + content[off..off + len])
        || bytes == app.fileError(res, 500, None)
  }

  /** What a file response consists of when nothing runs out: 404 without a file, 416 for a range
      outside it, otherwise the head and the planned part, or 500 when the head is refused. */
  function FileBytes(app: App, res: HttpResponse, range: Option<RangeRequest.ByteRangeSpec>, contents: Option<string>): string {
    if contents.None? then app.fileError(res, 404, None)
    else
      var content := contents.value;
      var plan := RangeRequest.PlanRange(range, |content|);
      if plan.Unsatisfiable? then app.fileError(res, 416, Some(|content|))
      else
        var head := app.fileHead(res, plan, |content|);
        if head.None? || plan.offset + plan.length > |content| then app.fileError(res, 500, None)
        else head.value + content[plan.offset..plan.offset + plan.length]
  }

  /** The exchange is the answer to this request: its own response, with its own range, stamped
      with the decision to keep the connection exactly when the request asks for it, the handler
      does not close it and the server is not stopping. */
  ghost predicate Answered(app: App, req: HttpRequest, ex: Exchange) {
    var res := app.stamp(app.route(req), ex.keep, req.version != "HTTP/1.1");
    && (ex.keep <==> app.keep(req) && !app.closes(app.route(req)) && !ex.stopping)
    && if res.filePath == "" then ex.bytes == app.body(res, ex.keep)
       else FileAnswer(app, res, app.range(req), ex.contents, ex.bytes)
  }

  ghost predicate IsRefusal(app: App, ex: Exchange, code: int) {
    !ex.keep && ex.bytes == app.body(app.stamp(app.refusal(code), false, false), false)
  }

  /** The refusal has its reason in the stream. */
  ghost predicate Justified(app: App, h: Hist, r: Refused) {
    && h.taken + r.rest <= h.stream
    && match r
       case Malformed(rest) => app.parse(rest).BadRequest?
       case Oversize(rest, extra) => |rest| + |extra| > MAX_REQUEST_SIZE
  }

  ghost predicate LogOk(app: App, h: Hist, i: nat)
    requires i < |h.log|
  {
    var ex := h.log[i];
    && (i + 1 < |h.log| ==> ex.keep)
    && (match ex.answers
        case Some(n) => n == i < |h.requests| && Answered(app, h.requests[i], ex)
        case None =>
          && i + 1 == |h.log| && i == |h.requests|
          && h.refused.Some? && IsRefusal(app, ex, RefusalCode(h.refused.value)))
  }

  /** True of every connection, open or closed: responses are in request order, one per request,
      none follows one that announced a close, no request is taken after it, and the socket holds
      a prefix of them. */
  ghost predicate HistOk(app: App, h: Hist) {
    && Framing.Consumes(app.parse, h.taken, h.requests)
    && (forall i :: 0 <= i < |h.log| ==> LogOk(app, h, i))
    && |h.requests| <= |h.log| + 1
    && (h.log != [] && !h.log[|h.log| - 1].keep ==> |h.requests| <= |h.log|)
    && h.wire <= Flat(h.log) && h.taken <= h.stream
    && (h.refused.Some? ==> Justified(app, h, h.refused.value))
  }

  /** Ties an open connection's fields to its history. */
  ghost predicate HistBase(h: Hist, k: Conn, d: Option<Duty>) {
    && (h.refused.None? ==> h.stream == h.taken + k.buffer)
    && (d.Some? ==>
          && h.log != [] && h.log[|h.log| - 1].keep == d.value.keep
          && h.wire + d.value.rest == Flat(h.log)
          && (h.refused.Some? || |h.requests| == |h.log|))
  }

  /** Nothing follows a refusal, and between responses every earlier one is complete. */
  ghost predicate HistCalm(h: Hist, k: Conn, d: Option<Duty>) {
    && (h.refused.Some? ==> k.closePending || (d.Some? && !d.value.keep))
    && (d.None? && !k.closePending ==>
          && h.wire == Flat(h.log) && |h.requests| == |h.log|
          && (h.log != [] ==> h.log[|h.log| - 1].keep))
  }

  /** Between completions no complete request is left waiting in the buffer of an idle connection. */
  ghost predicate HistIdle(app: App, h: Hist, k: Conn, d: Option<Duty>) {
    && HistCalm(h, k, d)
    && (d.None? && !k.closePending ==> k.buffer == [] || app.parse(k.buffer).Incomplete?)
  }

  function DutyOf(s: State, c: Slot): Option<Duty> {
    if c in s.duty then Some(s.duty[c]) else None
  }

  /** The part of the state the histories depend on. */
  function Proj(s: State): State {
    State(s.conns, s.gens, map[], multiset{}, map[], s.duty)
  }

  ghost predicate HistAt(s: State, hist: map<Owner, Hist>, c: Slot)
    requires c in s.conns
  {
    Self(s, c) in hist && HistBase(hist[Self(s, c)], s.conns[c], DutyOf(s, c))
  }

  ghost predicate IdleAt(app: App, s: State, hist: map<Owner, Hist>, c: Slot)
    requires c in s.conns
  {
    Self(s, c) in hist && HistIdle(app, hist[Self(s, c)], s.conns[c], DutyOf(s, c))
  }

  ghost predicate HistsOk(app: App, s: State, hist: map<Owner, Hist>, except: set<Slot>) {
    && (forall o :: o in hist ==> OwnerOk(s, o) && HistOk(app, hist[o]))
    && (forall c :: c in s.conns ==> HistAt(s, hist, c))
    && (forall c :: c in s.conns && c !in except ==> IdleAt(app, s, hist, c))
  }

  // ---------------------------------------------------------------------------------------
  // Changes of one connection's history

  lemma HistHere(app: App, s: State, hist: map<Owner, Hist>, c: Slot, except: set<Slot>)
    requires HistsOk(app, s, hist, except) && c in s.conns
    ensures Self(s, c) in hist && HistOk(app, hist[Self(s, c)])
    ensures HistBase(hist[Self(s, c)], s.conns[c], DutyOf(s, c))
    ensures c !in except ==> HistIdle(app, hist[Self(s, c)], s.conns[c], DutyOf(s, c))
  {
    hide HistOk, HistBase, HistIdle;
    assert HistAt(s, hist, c);
    assert c !in except ==> IdleAt(app, s, hist, c);
  }

  /** Only connection `c` and its history change. */
  lemma HistLocality(app: App, s: State, s': State, hist: map<Owner, Hist>, hist': map<Owner, Hist>, c: Slot)
    requires HistsOk(app, s, hist, {c})
    requires forall d :: d != c ==> SameSlot(s, s', d)
    requires forall o :: o in hist' && (o !in hist || hist'[o] != hist[o]) ==> o == Self(s', c) && c in s'.conns
    requires forall o :: o in hist ==> o in hist'
    requires if c in s.conns && c in s'.conns then Gen(s', c) == Gen(s, c)
             else if c in s.conns then Gen(s', c) == Gen(s, c) + 1 else Gen(s', c) == Gen(s, c)
    requires c in s'.conns ==> HistAt(s', hist', c) && HistOk(app, hist'[Self(s', c)])
    ensures HistsOk(app, s', hist', {c})
    ensures (c in s'.conns ==> IdleAt(app, s', hist', c)) ==> HistsOk(app, s', hist', {})
  {
    hide HistOk, HistBase, HistIdle;
    forall o | o in hist' ensures OwnerOk(s', o) && HistOk(app, hist'[o]) {
      if o.slot != c {
        assert SameSlot(s, s', o.slot);
      }
      assert o in hist ==> OwnerOk(s, o);
    }
    forall d | d in s'.conns && d != c ensures HistAt(s', hist', d) && IdleAt(app, s', hist', d) {
      assert SameSlot(s, s', d);
      assert HistAt(s, hist, d) && IdleAt(app, s, hist, d);
    }
  }

  lemma FlatAppend(log: seq<Exchange>, ex: Exchange)
    ensures Flat(log + [ex]) == Flat(log) + ex.bytes
  {
    assert (log + [ex])[..|log|] == log;
  }

  /** A new response is started after the previous ones are complete. */
  lemma LogAppend(app: App, h: Hist, ex: Exchange)
    requires HistOk(app, h) && h.wire == Flat(h.log) && (h.log != [] ==> h.log[|h.log| - 1].keep)
    requires h.log != [] ==> h.log[|h.log| - 1].answers.Some?
    requires match ex.answers
             case Some(n) => n == |h.log| < |h.requests| && Answered(app, h.requests[n], ex)
             case None => |h.log| == |h.requests| && h.refused.Some? && IsRefusal(app, ex, RefusalCode(h.refused.value))
    ensures HistOk(app, h.(log := h.log + [ex]))
    ensures h.wire + ex.bytes == Flat(h.log + [ex])
  {
    hide Answered, IsRefusal, Framing.Consumes;
    FlatAppend(h.log, ex);
    var h' := h.(log := h.log + [ex]);
    forall i | 0 <= i < |h'.log| ensures LogOk(app, h', i) {
      if i < |h.log| {
        assert LogOk(app, h, i);
      }
    }
  }

  /** The next bytes of the response reach the socket. */
  lemma WireAppend(app: App, h: Hist, sent: string, rest: string)
    requires HistOk(app, h) && h.wire + (sent + rest) == Flat(h.log)
    ensures HistOk(app, h.(wire := h.wire + sent))
    ensures (h.wire + sent) + rest == Flat(h.log)
  {
    hide LogOk, Framing.Consumes;
    var h' := h.(wire := h.wire + sent);
    assert h.wire + (sent + rest) == (h.wire + sent) + rest;
    forall i | 0 <= i < |h'.log| ensures LogOk(app, h', i) {
      LogSame(app, h, h', i);
    }
  }

  lemma LogSame(app: App, h: Hist, h': Hist, i: nat)
    requires i < |h.log| && LogOk(app, h, i) && h'.log == h.log && h'.requests == h.requests && h'.refused == h.refused
    ensures LogOk(app, h', i)
  {
  }

  /** The request at the front of the buffer is dispatched. */
  lemma Dispatched(app: App, h: Hist, buffer: string)
    requires AppOk(app) && HistOk(app, h) && app.parse(buffer).Success? && h.stream == h.taken + buffer
    requires h.refused.None? && |h.requests| == |h.log| && (h.log != [] ==> h.log[|h.log| - 1].keep && h.log[|h.log| - 1].answers.Some?)
    ensures app.parse(buffer).consumed <= |buffer|
    ensures var r := app.parse(buffer);
            HistOk(app, h.(taken := h.taken + buffer[..r.consumed], requests := h.requests + [r.request]))
  {
    hide Framing.Consumes, Answered, IsRefusal;
    var r := app.parse(buffer);
    assert Framing.Agrees(app.parse, buffer, buffer);
    Framing.ConsumesOneMore(app.parse, h.taken, h.requests, buffer);
    var h' := h.(taken := h.taken + buffer[..r.consumed], requests := h.requests + [r.request]);
    forall i | 0 <= i < |h'.log| ensures LogOk(app, h', i) {
      assert LogOk(app, h, i);
    }
  }

  /** A response that keeps the connection answers a request. */
  lemma KeptIsAnswer(app: App, h: Hist)
    requires HistOk(app, h) && h.log != [] && h.log[|h.log| - 1].keep
    ensures h.log[|h.log| - 1].answers.Some?
  {
    hide Answered, Framing.Consumes;
    assert LogOk(app, h, |h.log| - 1);
  }

  /** A field change that keeps the buffer and does not take back a close keeps the history. */
  lemma HistKeeps(app: App, s: State, hist: map<Owner, Hist>, c: Slot, k: Conn)
    requires HistsOk(app, s, hist, {c}) && c in s.conns
    requires k.buffer == s.conns[c].buffer && (s.conns[c].closePending ==> k.closePending)
    ensures HistsOk(app, s.(conns := s.conns[c := k]), hist, {c})
    ensures k.closePending || (HistsOk(app, s, hist, {}) && k.closePending == s.conns[c].closePending) ==>
              HistsOk(app, s.(conns := s.conns[c := k]), hist, {})
  {
    hide HistOk, HistsOk;
    HistHere(app, s, hist, c, {c});
    if HistsOk(app, s, hist, {}) {
      HistHere(app, s, hist, c, {});
    }
    HistLocality(app, s, s.(conns := s.conns[c := k]), hist, hist, c);
  }

  lemma HistsWeaken(app: App, s: State, hist: map<Owner, Hist>, c: Slot)
    requires HistsOk(app, s, hist, {})
    ensures HistsOk(app, s, hist, {c})
  {
    hide HistOk, HistBase, HistIdle;
  }

  /** A freed connection's history is final. */
  lemma HistFreed(app: App, s: State, hist: map<Owner, Hist>, c: Slot)
    requires HistsOk(app, s, hist, {c}) && c in s.conns
    ensures HistsOk(app, s.(conns := s.conns - {c}, gens := s.gens[c := Gen(s, c) + 1]), hist, {})
  {
    hide HistOk, HistsOk, HistBase, HistIdle;
    HistLocality(app, s, s.(conns := s.conns - {c}, gens := s.gens[c := Gen(s, c) + 1]), hist, hist, c);
  }

  /** A new connection starts a new history; no old one is reused. */
  lemma HistAccepted(app: App, s: State, hist: map<Owner, Hist>, c: Slot, k: Conn)
    requires HistsOk(app, s, hist, {}) && c !in s.conns && c !in s.duty && k.buffer == []
    ensures Self(s, c) !in hist
    ensures HistsOk(app, s.(conns := s.conns[c := k]), hist[Self(s, c) := FreshHist], {})
  {
    hide HistsOk, HistOk, LogOk;
    var s', h := s.(conns := s.conns[c := k]), hist[Self(s, c) := FreshHist];
    HistKey(app, s, hist, c);
    HistsWeaken(app, s, hist, c);
    FreshOk(app);
    HistLocality(app, s, s', hist, h, c);
  }

  lemma HistKey(app: App, s: State, hist: map<Owner, Hist>, c: Slot)
    requires HistsOk(app, s, hist, {}) && c !in s.conns
    ensures Self(s, c) !in hist
  {
    hide HistOk, HistAt, IdleAt;
  }

  lemma FreshOk(app: App)
    ensures HistOk(app, FreshHist)
  {
  }

  /** The history of connection `c` is replaced; the connection's fields may change with it. */
  lemma HistUpdate(app: App, s: State, s': State, hist: map<Owner, Hist>, c: Slot, h: Hist)
    requires HistsOk(app, s, hist, {c}) && c in s.conns && c in s'.conns
    requires forall d :: d != c ==> SameSlot(s, s', d)
    requires Gen(s', c) == Gen(s, c)
    requires HistOk(app, h) && HistBase(h, s'.conns[c], DutyOf(s', c))
    ensures HistsOk(app, s', hist[Self(s, c) := h], {c})
    ensures HistIdle(app, h, s'.conns[c], DutyOf(s', c)) ==> HistsOk(app, s', hist[Self(s, c) := h], {})
  {
    hide HistsOk, HistOk, HistBase, HistIdle;
    HistHere(app, s, hist, c, {c});
    HistLocality(app, s, s', hist, hist[Self(s, c) := h], c);
  }

  lemma HistRetired(app: App, s: State, hist: map<Owner, Hist>, c: Slot)
    requires HistsOk(app, s, hist, {c}) && c in s.conns
    ensures HistsOk(app, s.(duty := s.duty - {c}), hist, {c})
  {
    hide HistsOk, HistOk;
    HistHere(app, s, hist, c, {c});
    HistLocality(app, s, s.(duty := s.duty - {c}), hist, hist, c);
  }

  /** The exchange may follow what the connection has sent so far. */
  ghost predicate MayFollow(app: App, h: Hist, ex: Exchange) {
    && h.wire == Flat(h.log)
    && (h.log != [] ==> h.log[|h.log| - 1].keep)
    && match ex.answers
       case Some(n) => h.refused.None? && n + 1 == |h.requests| && n == |h.log| && Answered(app, h.requests[n], ex)
       case None => h.refused.Some? && |h.log| == |h.requests| && IsRefusal(app, ex, RefusalCode(h.refused.value))
  }

  /** A response goes on the wire: it is appended to the connection's log. */
  lemma HistInstalled(app: App, s: State, hist: map<Owner, Hist>, c: Slot, d: Duty, ex: Exchange)
    requires HistsOk(app, s, hist, {c}) && c in s.conns && !s.conns[c].closePending
    requires Self(s, c) in hist && MayFollow(app, hist[Self(s, c)], ex)
    requires d.keep == ex.keep && d.rest == ex.bytes
    ensures var h := hist[Self(s, c)];
            HistsOk(app, s.(duty := s.duty[c := d]), hist[Self(s, c) := h.(log := h.log + [ex])], {})
  {
    hide HistsOk, HistOk, Answered;
    var h := hist[Self(s, c)];
    HistHere(app, s, hist, c, {c});
    if h.log != [] {
      KeptIsAnswer(app, h);
    }
    LogAppend(app, h, ex);
    HistUpdate(app, s, s.(duty := s.duty[c := d]), hist, c, h.(log := h.log + [ex]));
  }

  /** `req`, the last request dispatched, has no response yet; every earlier one is complete. */
  ghost predicate Unanswered(h: Hist, req: HttpRequest) {
    && h.wire == Flat(h.log)
    && (h.log != [] ==> h.log[|h.log| - 1].keep)
    && h.refused.None? && |h.requests| == |h.log| + 1 && h.requests[|h.log|] == req
  }

  /** The connection is about to answer `req` with `res`. */
  ghost predicate Ready(app: App, h: Hist, req: HttpRequest, res: HttpResponse, keep: bool, stopping: bool) {
    && Unanswered(h, req)
    && (keep <==> app.keep(req) && !app.closes(app.route(req)) && !stopping)
    && res == app.stamp(app.route(req), keep, req.version != "HTTP/1.1")
  }

  lemma AnswerFollows(app: App, h: Hist, req: HttpRequest, res: HttpResponse, keep: bool, stopping: bool,
                      contents: Option<string>, bytes: string)
    requires Ready(app, h, req, res, keep, stopping)
    requires if res.filePath == "" then bytes == app.body(res, keep)
             else FileAnswer(app, res, app.range(req), contents, bytes)
    ensures MayFollow(app, h, Exchange(Some(|h.log|), keep, stopping, contents, bytes))
    ensures Answered(app, req, Exchange(Some(|h.log|), keep, stopping, contents, bytes))
  {
    hide FileAnswer;
  }

  /** The outcomes of a file response. */
  lemma PlannedAnswer(app: App, res: HttpResponse, range: Option<RangeRequest.ByteRangeSpec>, contents: Option<string>)
    ensures FileAnswer(app, res, range, contents, FileBytes(app, res, range, contents))
    ensures contents.Some? ==>
              var plan := RangeRequest.PlanRange(range, |contents.value|);
              plan.Plan? ==>
                && plan.offset + plan.length <= |contents.value|
                && FileAnswer(app, res, range, contents, app.fileError(res, 500, None))
  {
    hide RangeRequest.Resolve;
  }

  /** The connection has stopped reading requests; every response so far is complete. */
  ghost predicate Refusing(h: Hist) {
    && h.wire == Flat(h.log)
    && (h.log != [] ==> h.log[|h.log| - 1].keep)
    && h.refused.Some? && |h.log| == |h.requests|
  }

  lemma RefusalFollows(app: App, h: Hist, stopping: bool)
    requires Refusing(h)
    ensures var code := RefusalCode(h.refused.value);
            var ex := Exchange(None, false, stopping, None, app.body(app.stamp(app.refusal(code), false, false), false));
            MayFollow(app, h, ex) && IsRefusal(app, ex, code)
  {
  }

  /** The connection gives up on the stream; a later reason does not replace the first. */
  lemma RefusedOk(app: App, h: Hist, r: Refused)
    requires HistOk(app, h) && h.refused.None? && Justified(app, h, r)
    ensures HistOk(app, h.(refused := Some(r)))
  {
    hide Answered, IsRefusal, Framing.Consumes, RefusalCode;
    var h' := h.(refused := Some(r));
    forall i | 0 <= i < |h'.log| ensures LogOk(app, h', i) {
      assert LogOk(app, h, i);
    }
  }

  lemma HistsSettle(app: App, s: State, hist: map<Owner, Hist>, c: Slot)
    requires HistsOk(app, s, hist, {c}) && c in s.conns
    requires Self(s, c) in hist && HistIdle(app, hist[Self(s, c)], s.conns[c], DutyOf(s, c))
    ensures HistsOk(app, s, hist, {})
  {
    hide HistOk, HistBase, HistIdle;
  }

  lemma ReceivedOk(app: App, h: Hist, data: string)
    requires HistOk(app, h)
    ensures HistOk(app, h.(stream := h.stream + data))
  {
    hide Answered, IsRefusal, Framing.Consumes, RefusalCode;
    var h' := h.(stream := h.stream + data);
    forall i | 0 <= i < |h'.log| ensures LogOk(app, h', i) {
      LogSame(app, h, h', i);
    }
  }

  /** The next job of the same response takes over. */
  lemma HistResumed(app: App, s: State, hist: map<Owner, Hist>, c: Slot, d: Duty)
    requires HistsOk(app, s, hist, {c}) && c in s.conns && Self(s, c) in hist
    requires var h := hist[Self(s, c)];
             && h.log != [] && h.log[|h.log| - 1].keep == d.keep && h.wire + d.rest == Flat(h.log)
             && (h.refused.Some? || |h.requests| == |h.log|)
             && (h.refused.Some? ==> s.conns[c].closePending || !d.keep)
    ensures HistsOk(app, s.(duty := s.duty[c := d]), hist, {})
  {
    hide HistsOk, HistOk;
    HistHere(app, s, hist, c, {c});
    HistLocality(app, s, s.(duty := s.duty[c := d]), hist, hist, c);
  }

  // ---------------------------------------------------------------------------------------
  // What the kernel delivered and accepted

  /** Connection `o` received `got` and its socket accepted `sent`; no other stream moved. */
  ghost predicate Moved(h: map<Owner, Hist>, h': map<Owner, Hist>, o: Owner, got: string, sent: string) {
    forall p :: p in h ==>
                  && p in h'
                  && h'[p].stream == h[p].stream + (if p == o then got else [])
                  && h'[p].wire == h[p].wire + (if p == o then sent else [])
  }

  /** No byte moved on any connection. */
  ghost predicate Still(h: map<Owner, Hist>, h': map<Owner, Hist>) {
    forall p :: p in h ==> p in h' && h'[p].stream == h[p].stream && h'[p].wire == h[p].wire
  }

  lemma StillSame(h: map<Owner, Hist>)
    ensures Still(h, h)
  {
  }

  lemma StillTrans(h0: map<Owner, Hist>, h1: map<Owner, Hist>, h2: map<Owner, Hist>)
    requires Still(h0, h1) && Still(h1, h2)
    ensures Still(h0, h2)
  {
  }

  lemma StillMoved(h: map<Owner, Hist>, h': map<Owner, Hist>, o: Owner)
    requires Still(h, h')
    ensures Moved(h, h', o, [], [])
  {
  }

  lemma MovedThenStill(h0: map<Owner, Hist>, h1: map<Owner, Hist>, h2: map<Owner, Hist>, o: Owner, got: string, sent: string)
    requires Moved(h0, h1, o, got, sent) && Still(h1, h2)
    ensures Moved(h0, h2, o, got, sent)
  {
  }

  /** Bytes of the response reach the socket. */
  lemma HistSent(app: App, s: State, hist: map<Owner, Hist>, c: Slot, sent: string, rest: string)
    requires HistsOk(app, s, hist, {}) && c in s.conns && c in s.duty && s.duty[c].rest == sent + rest
    ensures Self(s, c) in hist
    ensures var h := hist[Self(s, c)];
            Moved(hist, hist[Self(s, c) := h.(wire := h.wire + sent)], Self(s, c), [], sent)
    ensures var h := hist[Self(s, c)];
            HistsOk(app, s.(duty := s.duty[c := s.duty[c].(rest := rest)]), hist[Self(s, c) := h.(wire := h.wire + sent)], {})
  {
    hide HistsOk, HistOk;
    HistHere(app, s, hist, c, {});
    var h := hist[Self(s, c)];
    WireAppend(app, h, sent, rest);
    HistsWeaken(app, s, hist, c);
    HistUpdate(app, s, s.(duty := s.duty[c := s.duty[c].(rest := rest)]), hist, c, h.(wire := h.wire + sent));
  }
}
