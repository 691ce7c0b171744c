/** The ring running the server's own computations: what holds in every run. */
module ServerRuns {
  import opened Wrappers
  import opened HttpTypes
  import opened RingState
  import opened RingHistory
  import Framing
  import HttpParser
  import HttpRouter
  import HttpServer
  import R = Ring

  /** Every response that has been started, on every connection open or closed: it says close
      exactly when the connection will close after it; it never keeps a connection its request
      asked to close; it keeps every other one unless the handler closed it or the server was
      stopping; and after one that closes no request is dispatched. */
  lemma AnnouncedInEveryRun(ring: R.Ring, site: HttpServer.Site, o: Owner, i: nat)
    requires ring.Idle() && ring.app == HttpServer.ServerApp(site) && o in ring.hist && i < |ring.hist[o].log|
    ensures var h := ring.hist[o];
            var ex := h.log[i];
            && (HttpServer.SaysClose(ex.bytes) <==> !ex.keep)
            && (ex.answers.Some? ==>
                  && i < |h.requests|
                  && (ex.keep <==> HttpServer.ShouldKeepAlive(h.requests[i])
                                   && !HttpServer.Closes(HttpRouter.Respond(site.routes, h.requests[i])) && !ex.stopping))
            && (!ex.keep ==> i == |h.log| - 1 && |h.requests| <= |h.log|)
  {
    hide Answered, IsRefusal, Justified, RefusalCode, HttpServer.SaysClose, HttpServer.ShouldKeepAlive, Flat, HttpServer.Closes, HttpRouter.Respond;
    ring.ResponsesInOrder(o);
    var h := ring.hist[o];
    var ex := h.log[i];
    var req := if ex.answers.Some? then h.requests[i] else HttpRequest("", "", "", map[], "");
    HttpServer.EveryResponseAnnounces(site, req, ex);
    if ex.answers.Some? {
      KeepDecision(site, req, ex);
    }
  }

  lemma KeepDecision(site: HttpServer.Site, req: HttpRequest, ex: Exchange)
    requires Answered(HttpServer.ServerApp(site), req, ex)
    ensures ex.keep <==> HttpServer.ShouldKeepAlive(req) && !HttpServer.Closes(HttpRouter.Respond(site.routes, req)) && !ex.stopping
  {
    hide HttpServer.ShouldKeepAlive, FileAnswer, HttpServer.Closes, HttpRouter.Respond;
  }

  /** The requests a connection dispatches are a prefix of what its stream says, however the
      stream was cut up; all of them once the connection is idle. */
  lemma RequestsOfTheStream(ring: R.Ring, site: HttpServer.Site, o: Owner)
    requires ring.Idle() && ring.app == HttpServer.ServerApp(site) && o in ring.hist
    ensures ring.hist[o].requests <= Framing.ParseAll(HttpParser.Parse, ring.hist[o].stream)
    ensures ring.IsValid(o) && !ring.conns[o.slot].inFlight && !ring.conns[o.slot].closePending ==>
              ring.hist[o].requests == Framing.ParseAll(HttpParser.Parse, ring.hist[o].stream)
  {
    hide Framing.ParseAll;
    ring.ChunkingIndependence(o);
  }
}
