/** The header map of a response: replacing a field, and folding names to lowercase. */
module HttpResponses {
  import opened Text
  import opened HttpTypes

  /** read_header: the value under the lowercase name, or the empty string. */
  function GetHeader(h: Headers, name: string): string {
    if Lower(name) in h then h[Lower(name)] else ""
  }

  predicate LowerNames(h: Headers) {
    forall n :: n in h ==> IsLower(n)
  }

  // ---------------------------------------------------------------------------------------
  // setHeader

  /** Every spelling of the field is replaced by the one lowercase entry. */
  function Replaced(h: Headers, name: string, value: string): (r: Headers)
    ensures Lower(name) in r && r[Lower(name)] == value
    ensures forall n :: n in r && Lower(n) == Lower(name) ==> n == Lower(name)
    ensures forall n :: n in h && Lower(n) != Lower(name) ==> n in r && r[n] == h[n]
  {
    LowerTwice(name);
    (map n | n in h && Lower(n) != Lower(name) :: h[n])[Lower(name) := value]
  }

  lemma LowerTwice(s: string)
    ensures Lower(Lower(s)) == Lower(s)
  {
    LowerIsLower(s);
    LowerIdentity(Lower(s));
  }

  method SetHeader(h: Headers, name: string, value: string) returns (r: Headers)
    ensures r == Replaced(h, name, value)
  {
    var key := Lower(name);
    LowerTwice(name);
    r := h;
    var todo := h.Keys;
    while todo != {}
      invariant todo <= h.Keys
      invariant forall n :: n in r <==> n in h && (n in todo || n == key || Lower(n) != key)
      invariant forall n :: n in r ==> r[n] == h[n]
      decreases |todo|
    {
      var n :| n in todo;
      todo := todo - {n};
      if n != key && Lower(n) == key {
        r := r - {n};
      }
    }
    r := r[key := value];
    assert forall n :: n in r <==> n in Replaced(h, name, value);
  }

  // ---------------------------------------------------------------------------------------
  // normalizeHeaders

  /** No two spellings of one field carry different values. */
  predicate Consistent(h: Headers) {
    forall m, n :: m in h && n in h && Lower(m) == Lower(n) ==> h[m] == h[n]
  }

  /** The map with every name in lowercase. */
  function Folded(h: Headers): (r: Headers)
    requires Consistent(h)
  {
    map n | n in h :: Lower(n) := h[n]
  }

  /** `r` has exactly the lowercase names of `h`, each with the value of one of its spellings. */
  ghost predicate FoldOf(r: Headers, h: Headers) {
    && (forall n :: n in h ==> Lower(n) in r)
    && (forall k :: k in r ==> exists n :: n in h && Lower(n) == k && r[k] == h[n])
  }

  /** Whatever order the map is walked in: the report says whether the spellings agree, and when
      they do the result does not depend on the order. */
  method NormalizeHeaders(h: Headers) returns (r: Headers, consistent: bool)
    ensures consistent == Consistent(h) && FoldOf(r, h) && LowerNames(r)
    ensures consistent ==> r == Folded(h)
  {
    r, consistent := map[], true;
    var todo := h.Keys;
    while todo != {}
      invariant todo <= h.Keys && LowerNames(r)
      invariant forall n :: n in h && n !in todo ==> Lower(n) in r
      invariant forall k :: k in r ==> exists n :: n in h && n !in todo && Lower(n) == k && r[k] == h[n]
      invariant consistent <==> forall n :: n in h && n !in todo ==> r[Lower(n)] == h[n]
      decreases |todo|
    {
      var n :| n in todo;
      todo := todo - {n};
      LowerIsLower(n);
      if Lower(n) !in r {
        assert forall m :: m in h && m !in todo && m != n ==> Lower(m) in r;
        r := r[Lower(n) := h[n]];
      } else if r[Lower(n)] != h[n] {
        consistent := false;
      }
    }
    FoldChecks(r, h, consistent);
  }

  lemma FoldChecks(r: Headers, h: Headers, consistent: bool)
    requires forall n :: n in h ==> Lower(n) in r
    requires forall k :: k in r ==> exists n :: n in h && Lower(n) == k && r[k] == h[n]
    requires consistent <==> forall n :: n in h ==> r[Lower(n)] == h[n]
    ensures consistent == Consistent(h)
    ensures consistent ==> r == Folded(h)
  {
    if Consistent(h) {
      forall n | n in h ensures r[Lower(n)] == h[n] {
        var m :| m in h && Lower(m) == Lower(n) && r[Lower(n)] == h[m];
      }
    }
    if consistent {
      forall m, n | m in h && n in h && Lower(m) == Lower(n) ensures h[m] == h[n] {
        assert r[Lower(m)] == h[m] && r[Lower(n)] == h[n];
      }
      assert forall k :: k in r <==> k in Folded(h);
    }
  }

  /** Lowercase names are left alone. */
  lemma FoldedLower(h: Headers)
    requires LowerNames(h)
    ensures Consistent(h) && Folded(h) == h
  {
    forall n | n in h ensures Lower(n) == n {
      LowerIdentity(n);
    }
    assert forall n :: n in h ==> Lower(n) in h;
  }
}
