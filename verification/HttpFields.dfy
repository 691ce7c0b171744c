/**
 What the header map means: which lines it was made of, and what a list-valued field such as
 Connection contains.
 */
module HttpFields {
  import opened Wrappers
  import opened Text
  import opened HttpTypes
  import opened HttpParser

  // ---------------------------------------------------------------------------------------
  // The map of a run of lines

  /** The values of one field, in the order of its lines. */
  function ValuesOf(lines: seq<string>, name: string): seq<string> {
    if lines == [] then [] else
      var field := ParseLine(lines[|lines| - 1]);
      ValuesOf(lines[..|lines| - 1], name) + (if field.Some? && field.value.name == name then [field.value.value] else [])
  }

  /** One list out of several lines. */
  function JoinComma(values: seq<string>): string
    requires values != []
  {
    if |values| == 1 then values[0] else JoinComma(values[..|values| - 1]) + ", " + values[|values| - 1]
  }

  function Combined(name: string, values: seq<string>): string
    requires values != []
  {
    if name == "connection" then JoinComma(values) else values[|values| - 1]
  }

  predicate Agree(values: seq<string>) {
    forall i :: 0 <= i < |values| ==> values[i] == values[|values| - 1]
  }

  ghost predicate Means(h: Headers, lines: seq<string>) {
    forall name :: (name in h <==> ValuesOf(lines, name) != [])
                   && (name in h ==> h[name] == Combined(name, ValuesOf(lines, name)))
  }

  /** A section is accepted exactly when it has at most 200 lines, every line is a valid field,
      and the Content-Length lines agree. Then each field of the map is what its lines say:
      Connection lines joined into one list, any other field the value of its last line. */
  lemma {:induction false} HeadersMeaning(lines: seq<string>)
    ensures HeadersOf(lines).Some? <==>
              |lines| <= MAX_HEADERS && AllFields(lines) && Agree(ValuesOf(lines, "content-length"))
    ensures HeadersOf(lines).Some? ==> Means(HeadersOf(lines).value, lines)
  {
    hide ParseLine, Add, Agree, Means, ValuesOf, AllFields;
    if lines == [] {
      NoFields();
    } else {
      var front := lines[..|lines| - 1];
      HeadersMeaning(front);
      FieldsBack(lines);
      AgreePrefix(ValuesOf(front, "content-length"), ValuesOf(lines, "content-length"));
      if HeadersOf(front).Some? && ParseLine(lines[|lines| - 1]).Some? {
        AddMeans(HeadersOf(front).value, front, lines);
      }
    }
  }

  predicate AllFields(lines: seq<string>) {
    forall i :: 0 <= i < |lines| ==> ParseLine(lines[i]).Some?
  }

  lemma NoFields()
    ensures AllFields([]) && Agree(ValuesOf([], "content-length")) && Means(map[], [])
  {
  }

  lemma FieldsBack(lines: seq<string>)
    requires lines != []
    ensures var front := lines[..|lines| - 1];
            && (AllFields(lines) <==> AllFields(front) && ParseLine(lines[|lines| - 1]).Some?)
            && ValuesOf(front, "content-length") <= ValuesOf(lines, "content-length")
  {
    hide ParseLine;
    var front := lines[..|lines| - 1];
    assert forall i :: 0 <= i < |front| ==> front[i] == lines[i];
  }

  lemma AgreePrefix(a: seq<string>, b: seq<string>)
    requires a <= b
    ensures Agree(b) ==> Agree(a)
  {
    assert forall i :: 0 <= i < |a| ==> a[i] == b[i];
  }

  lemma AddMeans(h: Headers, front: seq<string>, lines: seq<string>)
    requires lines != [] && front == lines[..|lines| - 1] && ParseLine(lines[|lines| - 1]).Some?
    requires Means(h, front) && Agree(ValuesOf(front, "content-length"))
    ensures var f := ParseLine(lines[|lines| - 1]).value;
            && (Add(h, f).Some? <==> Agree(ValuesOf(lines, "content-length")))
            && (Add(h, f).Some? ==> Means(Add(h, f).value, lines))
  {
    hide ParseLine;
    var f := ParseLine(lines[|lines| - 1]).value;
    forall name ensures ValuesOf(lines, name) == ValuesOf(front, name) + (if name == f.name then [f.value] else []) {
    }
    var a, b := ValuesOf(front, "content-length"), ValuesOf(lines, "content-length");
    if f.name == "content-length" {
      assert b[|b| - 1] == f.value;
      assert a != [] ==> b[|a| - 1] == a[|a| - 1] == h["content-length"];
    } else {
      assert b == a;
    }
    if Add(h, f).Some? {
      AddedMeans(h, front, lines, f);
    }
  }

  lemma AddedMeans(h: Headers, front: seq<string>, lines: seq<string>, f: Field)
    requires Means(h, front) && Add(h, f).Some?
    requires forall name :: ValuesOf(lines, name) == ValuesOf(front, name) + (if name == f.name then [f.value] else [])
    ensures Means(Add(h, f).value, lines)
  {
    hide ValuesOf;
    var h' := Add(h, f).value;
    forall name
      ensures name in h' <==> ValuesOf(lines, name) != []
      ensures name in h' ==> h'[name] == Combined(name, ValuesOf(lines, name))
    {
      var a, b := ValuesOf(front, name), ValuesOf(lines, name);
      assert name in h <==> a != [];
      if name == f.name {
        assert b == a + [f.value] && b[..|b| - 1] == a;
      } else {
        assert b == a;
      }
    }
  }

  // ---------------------------------------------------------------------------------------
  // Lists

  predicate Matches(element: string, token: string) {
    Trim(element) != [] && EqualsIgnoreCase(Trim(element), token)
  }

  predicate Contains(list: string, token: string) {
    exists i :: 0 <= i < |SplitOn(list, ',')| && Matches(SplitOn(list, ',')[i], token)
  }

  method ListContainsToken(list: string, token: string) returns (r: bool)
    ensures r == Contains(list, token)
  {
    hide Matches, Contains;
    var pos := 0;
    assert list[0..] == list;
    while true
      invariant pos <= |list| && Contains(list, token) == Contains(list[pos..], token)
      decreases |list| - pos
    {
      var comma := FindChar(list, ',', pos);
      FindCharShift(list, ',', pos);
      var element := if comma == NPOS then list[pos..] else list[pos..comma];
      ContainsStep(list[pos..], token);
      assert comma != NPOS ==> list[pos..][..comma - pos] == element;
      if Matching(element, token) {
        return true;
      }
      if comma == NPOS {
        return false;
      }
      assert list[pos..][comma - pos + 1..] == list[comma + 1..];
      pos := comma + 1;
    }
  }

  /** The loop's own test: trim, compare lengths, compare letters. */
  predicate Matching(element: string, token: string)
    ensures Matching(element, token) == Matches(element, token)
  {
    var first := FirstNonOws(element, 0);
    first < |element| &&
    var e := Trim(element);
    |e| == |token| && (forall i :: 0 <= i < |e| ==> ToLower(e[i]) == ToLower(token[i]))
  }

  lemma ContainsStep(list: string, token: string)
    ensures var comma := FindChar(list, ',', 0);
            Contains(list, token) <==>
              if comma == NPOS then Matches(list, token)
              else Matches(list[..comma], token) || Contains(list[comma + 1..], token)
  {
    hide Matches;
    var comma := FindChar(list, ',', 0);
    if comma != NPOS {
      var rest := SplitOn(list[comma + 1..], ',');
      assert SplitOn(list, ',') == [list[..comma]] + rest;
      if Contains(list[comma + 1..], token) {
        var i :| 0 <= i < |rest| && Matches(rest[i], token);
        assert SplitOn(list, ',')[i + 1] == rest[i];
      }
      if Contains(list, token) {
        var i :| 0 <= i < |SplitOn(list, ',')| && Matches(SplitOn(list, ',')[i], token);
        assert i > 0 ==> SplitOn(list, ',')[i] == rest[i - 1];
      }
      assert SplitOn(list, ',')[0] == list[..comma];
    } else {
      assert SplitOn(list, ',')[0] == list;
    }
  }

  /** Joining two lists joins their contents. */
  lemma {:induction false} ContainsJoin(a: string, b: string, token: string)
    ensures Contains(a + ", " + b, token) <==> Contains(a, token) || Contains(b, token)
    decreases |a|
  {
    hide Matches, Contains, FindChar;
    var s, comma := a + ", " + b, FindChar(a, ',', 0);
    ContainsStep(s, token);
    ContainsStep(a, token);
    assert s == a + (", " + b);
    FirstComma(a, ", " + b);
    if comma == NPOS {
      assert s[..|a|] == a && s[|a| + 1..] == " " + b;
      LeadingSpace(b, token);
    } else {
      assert s[..comma] == a[..comma] && s[comma + 1..] == a[comma + 1..] + ", " + b;
      ContainsJoin(a[comma + 1..], b, token);
    }
  }

  lemma FirstComma(a: string, x: string)
    requires x != [] && x[0] == ','
    ensures FindChar(a + x, ',', 0) == if FindChar(a, ',', 0) == NPOS then |a| else FindChar(a, ',', 0)
  {
    var s, comma := a + x, FindChar(a, ',', 0);
    if comma == NPOS {
      assert s[|a|] == ',';
    } else {
      assert s[comma] == ',';
    }
  }

  lemma LeadingSpace(b: string, token: string)
    ensures Contains(" " + b, token) <==> Contains(b, token)
  {
    hide Contains, Matches;
    var s, comma := " " + b, FindChar(b, ',', 0);
    ContainsStep(s, token);
    ContainsStep(b, token);
    if comma == NPOS {
      assert FindChar(s, ',', 0) == NPOS;
      SpaceMatches(b, token);
    } else {
      assert FindChar(s, ',', 0) == comma + 1 by { assert s[comma + 1] == ','; }
      assert s[..comma + 1] == " " + b[..comma] && s[comma + 2..] == b[comma + 1..];
      SpaceMatches(b[..comma], token);
    }
  }

  lemma SpaceMatches(e: string, token: string)
    ensures Matches(" " + e, token) == Matches(e, token)
  {
    TrimSpace(e);
  }

  lemma TrimSpace(e: string)
    ensures Trim(" " + e) == Trim(e)
  {
    hide Trim;
    var left, right := TrimSplit(e);
    assert " " + e == (" " + left) + Trim(e) + right;
    TrimPadded(" " + left, Trim(e), right);
  }

  /** A token on any one of several Connection lines is in the joined list. */
  lemma {:induction false} ContainsAny(values: seq<string>, token: string)
    requires values != []
    ensures Contains(JoinComma(values), token) <==> exists i :: 0 <= i < |values| && Contains(values[i], token)
    decreases |values|
  {
    hide Contains;
    if |values| > 1 {
      var front := values[..|values| - 1];
      ContainsAny(front, token);
      ContainsJoin(JoinComma(front), values[|values| - 1], token);
      assert forall i :: 0 <= i < |front| ==> front[i] == values[i];
    }
  }
}
