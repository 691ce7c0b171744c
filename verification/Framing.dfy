/**
 Cutting a byte stream into requests. `parse` is any request parser that finds the end of a
 request from the request's own bytes; HttpParserFraming proves the server's parser is one.
 */
module Framing {
  import opened HttpTypes

  type Parser = string -> ParseResult

  /** What parsing `b` says about parsing `x`. */
  ghost predicate Agrees(parse: Parser, b: string, x: string) {
    parse(b).Success? ==>
      && 0 < parse(b).consumed <= |b|
      && (b[..parse(b).consumed] <= x ==> parse(x) == parse(b))
  }

  /** A successful parse depends on nothing after the bytes it consumed. */
  ghost predicate Framed(parse: Parser) {
    forall b, x :: Agrees(parse, b, x)
  }

  /** The requests of a whole stream, parsed one after the other. */
  function ParseAll(parse: Parser, stream: string): seq<HttpRequest>
    decreases |stream|
  {
    var r := parse(stream);
    if r.Success? && 0 < r.consumed <= |stream| then [r.request] + ParseAll(parse, stream[r.consumed..])
    else []
  }

  /** `taken` is exactly the bytes of `requests`, back to back. */
  ghost predicate Consumes(parse: Parser, taken: string, requests: seq<HttpRequest>)
    decreases |requests|
  {
    if requests == [] then taken == []
    else
      var r := parse(taken);
      && r.Success? && r.consumed <= |taken| && r.request == requests[0]
      && Consumes(parse, taken[r.consumed..], requests[1..])
  }

  /** Bytes after a run of complete requests do not change how the run is read. */
  lemma {:induction false} ConsumesPrefix(parse: Parser, taken: string, requests: seq<HttpRequest>, more: string)
    requires Framed(parse) && Consumes(parse, taken, requests)
    ensures ParseAll(parse, taken + more) == requests + ParseAll(parse, more)
    decreases |requests|
  {
    if requests == [] {
      assert taken + more == more;
    } else {
      var n := parse(taken).consumed;
      assert Agrees(parse, taken, taken + more);
      assert (taken + more)[n..] == taken[n..] + more;
      ConsumesPrefix(parse, taken[n..], requests[1..], more);
      assert requests == [requests[0]] + requests[1..];
    }
  }

  /** Taking one more request from the buffer extends the run. */
  lemma {:induction false} ConsumesOneMore(parse: Parser, taken: string, requests: seq<HttpRequest>, buffer: string)
    requires Framed(parse) && Consumes(parse, taken, requests) && parse(buffer).Success?
    requires parse(buffer).consumed <= |buffer|
    ensures Consumes(parse, taken + buffer[..parse(buffer).consumed], requests + [parse(buffer).request])
    decreases |requests|
  {
    var n, one := parse(buffer).consumed, buffer[..parse(buffer).consumed];
    assert Agrees(parse, buffer, one);
    if requests == [] {
      assert taken + one == one;
      assert one[n..] == [] && ([parse(buffer).request])[1..] == [];
    } else {
      var m := parse(taken).consumed;
      assert Agrees(parse, taken, taken + one);
      ConsumesOneMore(parse, taken[m..], requests[1..], buffer);
      assert (taken + one)[m..] == taken[m..] + one;
      assert (requests + [parse(buffer).request])[1..] == requests[1..] + [parse(buffer).request];
    }
  }
}
