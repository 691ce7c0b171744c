/** Byte ranges: parsing a Range field, resolving it against a file size, and the clamp openFile applies afterwards. */
module RangeRequest {
  import opened Wrappers
  import opened Text
  import Digits

  const U64_MAX: nat := 0xFFFF_FFFF_FFFF_FFFF

  datatype ByteRangeSpec = ByteRangeSpec(suffix: bool, first: nat, last: Option<nat>)

  datatype ResolvedRange = ResolvedRange(offset: nat, length: nat)

  /** What parse_range can produce: 64-bit numbers, and a last position not below the first. */
  predicate ValidSpec(spec: ByteRangeSpec) {
    && spec.first <= U64_MAX
    && (spec.suffix ==> spec.last.None?)
    && (spec.last.Some? ==> spec.first <= spec.last.value <= U64_MAX)
  }

  function ParseDigits(s: string): Option<nat> {
    Digits.Parsed(s, U64_MAX)
  }

  /** The range set after "bytes=", already trimmed. */
  function ParseRangeSet(rangeSet: string): (r: Option<ByteRangeSpec>)
    ensures r.Some? ==> ValidSpec(r.value)
  {
    if FindChar(rangeSet, ',', 0) != NPOS then None else
      var dash := FindChar(rangeSet, '-', 0);
      if dash == NPOS then None
      else if dash == 0 then
        var n := ParseDigits(rangeSet[1..]);
        if n.None? then None else Some(ByteRangeSpec(true, n.value, None))
      else
        var first := ParseDigits(rangeSet[..dash]);
        var lastPos := rangeSet[dash + 1..];
        if first.None? then None
        else if lastPos == [] then Some(ByteRangeSpec(false, first.value, None))
        else
          var last := ParseDigits(lastPos);
          if last.None? || last.value < first.value then None
          else Some(ByteRangeSpec(false, first.value, last))
  }

  /** A field value without surrounding whitespace. */
  function ParseTrimmed(value: string): (r: Option<ByteRangeSpec>)
    ensures r.Some? ==> ValidSpec(r.value)
  {
    var eq := FindChar(value, '=', 0);
    if eq == NPOS then None
    else if !EqualsIgnoreCase(Trim(value[..eq]), "bytes") then None
    else ParseRangeSet(Trim(value[eq + 1..]))
  }

  function ParseRange(field: string): (r: Option<ByteRangeSpec>)
    ensures r.Some? ==> ValidSpec(r.value)
  {
    var value := Trim(field);
    if value == [] then None else ParseTrimmed(value)
  }

  /** What "D1-D2" means, with either run of digits possibly missing: section 14.1.2 of RFC 9110. */
  function Meaning(d1: string, d2: string): Option<ByteRangeSpec> {
    if d1 == [] then
      if ParseDigits(d2).None? then None else Some(ByteRangeSpec(true, ParseDigits(d2).value, None))
    else if ParseDigits(d1).None? || (d2 != [] && ParseDigits(d2).None?) then None
    else if d2 == [] then Some(ByteRangeSpec(false, ParseDigits(d1).value, None))
    else if ParseDigits(d2).value < ParseDigits(d1).value then None
    else Some(ByteRangeSpec(false, ParseDigits(d1).value, ParseDigits(d2)))
  }

  lemma RangeSetMeaning(d1: string, d2: string)
    requires Digits.AllDigits(d1) && Digits.AllDigits(d2)
    ensures ParseRangeSet(d1 + "-" + d2) == Meaning(d1, d2)
  {
    var t := d1 + "-" + d2;
    assert FindChar(t, ',', 0) == NPOS;
    assert t[|d1|] == '-';
    assert FindChar(t, '-', 0) == |d1|;
    assert t[..|d1|] == d1 && t[|d1| + 1..] == d2;
  }

  /** "bytes" in any case, with optional whitespace in every place the grammar tolerates it. */
  ghost predicate Written(field: string, p0: string, unit: string, p1: string, p2: string, d1: string,
                          d2: string, p3: string) {
    && AllOws(p0) && AllOws(p1) && AllOws(p2) && AllOws(p3)
    && EqualsIgnoreCase(unit, "bytes")
    && Digits.AllDigits(d1) && Digits.AllDigits(d2)
    && field == p0 + (unit + p1 + "=" + (p2 + (d1 + "-" + d2))) + p3
  }

  lemma UnitIsLetters(unit: string)
    requires EqualsIgnoreCase(unit, "bytes")
    ensures |unit| == 5 && Trimmed(unit) && '=' !in unit
  {
    assert |Lower(unit)| == 5;
    forall i | 0 <= i < 5
      ensures !IsOws(unit[i]) && unit[i] != '='
    {
      assert ToLower(unit[i]) == Lower(unit)[i] == Lower("bytes")[i] == "bytes"[i];
    }
  }

  /** Every way of writing one byte range is read as what it means. */
  lemma ParseRangeWritten(field: string, p0: string, unit: string, p1: string, p2: string, d1: string,
                          d2: string, p3: string)
    requires Written(field, p0, unit, p1, p2, d1, d2, p3)
    ensures ParseRange(field) == Meaning(d1, d2)
  {
    hide Trim, FindChar, ParseRangeSet, Meaning, EqualsIgnoreCase;
    UnitIsLetters(unit);
    var digits := d1 + "-" + d2;
    var core := unit + p1 + "=" + (p2 + digits);
    assert core[0] == unit[0] && core[|core| - 1] == digits[|digits| - 1];
    TrimPadded(p0, core, p3);
    var eq := |unit| + |p1|;
    assert core[eq] == '=';
    assert forall i :: 0 <= i < eq ==> core[i] != '=' by {
      forall i | 0 <= i < eq ensures core[i] != '=' {
        assert core[i] == if i < |unit| then unit[i] else p1[i - |unit|];
      }
    }
    assert FindChar(core, '=', 0) == eq;
    assert core[..eq] == [] + unit + p1;
    TrimPadded([], unit, p1);
    assert core[eq + 1..] == p2 + digits + [];
    TrimPadded(p2, digits, []);
    RangeSetMeaning(d1, d2);
  }

  lemma PrefixSplit(value: string, n: nat) returns (right: string)
    requires n <= |value| && Trimmed(value) && Trim(value[..n]) != []
    ensures AllOws(right) && value[..n] == Trim(value[..n]) + right
  {
    var left;
    left, right := TrimSplit(value[..n]);
  }

  lemma SuffixSplit(value: string, n: nat) returns (left: string)
    requires n <= |value| && Trimmed(value) && Trim(value[n..]) != []
    ensures AllOws(left) && value[n..] == left + Trim(value[n..])
  {
    var right;
    left, right := TrimSplit(value[n..]);
  }

  /** The digits of an accepted range set. */
  lemma RangeSetSplit(rangeSet: string) returns (d1: string, d2: string)
    requires ParseRangeSet(rangeSet).Some?
    ensures Digits.AllDigits(d1) && Digits.AllDigits(d2) && rangeSet == d1 + "-" + d2
    ensures ParseRangeSet(rangeSet) == Meaning(d1, d2)
  {
    var dash := FindChar(rangeSet, '-', 0);
    d1, d2 := rangeSet[..dash], rangeSet[dash + 1..];
    assert rangeSet == d1 + "-" + d2;
    RangeSetMeaning(d1, d2);
  }

  lemma TrimmedOnlyWritten(value: string)
      returns (unit: string, p1: string, p2: string, d1: string, d2: string)
    requires ParseTrimmed(value).Some? && Trimmed(value)
    ensures Written(value, [], unit, p1, p2, d1, d2, [])
    ensures ParseTrimmed(value) == Meaning(d1, d2)
  {
    hide Trim, ParseRangeSet, Meaning, EqualsIgnoreCase, FindChar;
    var eq := FindChar(value, '=', 0);
    unit := Trim(value[..eq]);
    UnitIsLetters(unit);
    p1 := PrefixSplit(value, eq);
    d1, d2 := RangeSetSplit(Trim(value[eq + 1..]));
    p2 := SuffixSplit(value, eq + 1);
    assert value == value[..eq] + "=" + value[eq + 1..];
    assert value == [] + (unit + p1 + "=" + (p2 + (d1 + "-" + d2))) + [];
  }

  /** ... and nothing else is read as a range. */
  lemma ParseRangeOnlyWritten(field: string)
      returns (p0: string, unit: string, p1: string, p2: string, d1: string, d2: string, p3: string)
    requires ParseRange(field).Some?
    ensures Written(field, p0, unit, p1, p2, d1, d2, p3)
    ensures ParseRange(field) == Meaning(d1, d2)
  {
    hide ParseTrimmed, Trim, Meaning, EqualsIgnoreCase;
    p0, p3 := TrimSplit(field);
    unit, p1, p2, d1, d2 := TrimmedOnlyWritten(Trim(field));
    var core := unit + p1 + "=" + (p2 + (d1 + "-" + d2));
    assert [] + core + [] == core;
  }

  function PrintSpec(spec: ByteRangeSpec): string {
    "bytes=" + (if spec.suffix then "-" + Digits.ToString(spec.first)
                else Digits.ToString(spec.first) + "-" +
                     (if spec.last.Some? then Digits.ToString(spec.last.value) else ""))
  }

  /** Printing any valid spec and parsing it returns that spec. */
  lemma PrintParse(spec: ByteRangeSpec)
    requires ValidSpec(spec)
    ensures ParseRange(PrintSpec(spec)) == Some(spec)
  {
    var d1 := if spec.suffix then "" else Digits.ToString(spec.first);
    var d2 := if spec.suffix then Digits.ToString(spec.first)
              else if spec.last.Some? then Digits.ToString(spec.last.value) else "";
    assert PrintSpec(spec) == "" + ("bytes" + "" + "=" + ("" + (d1 + "-" + d2))) + "";
    Digits.ParsedToString(spec.first, U64_MAX);
    if spec.last.Some? {
      Digits.ParsedToString(spec.last.value, U64_MAX);
    }
    ParseRangeWritten(PrintSpec(spec), "", "bytes", "", "", d1, d2, "");
  }

  /** ByteRangeSpec::resolve. The length is an unsigned 64-bit difference; it does not wrap for a
      valid spec. */
  function Resolve(spec: ByteRangeSpec, fileSize: nat): Option<ResolvedRange> {
    if spec.suffix then
      if spec.first == 0 || fileSize == 0 then None else
        var offset := if spec.first >= fileSize then 0 else fileSize - spec.first;
        Some(ResolvedRange(offset, fileSize - offset))
    else if spec.first >= fileSize then None
    else
      var lastByte := if spec.last.Some? && spec.last.value < fileSize - 1 then spec.last.value else fileSize - 1;
      Some(ResolvedRange(spec.first, (lastByte - spec.first + 1) % (U64_MAX + 1)))
  }

  /** The positions of a representation that section 14.1.2 of RFC 9110 says the spec names. */
  predicate Names(spec: ByteRangeSpec, fileSize: nat, position: nat) {
    && position < fileSize
    && (if spec.suffix then position + spec.first >= fileSize
        else spec.first <= position && (spec.last.Some? ==> position <= spec.last.value))
  }

  /** Resolution names exactly those bytes; it fails exactly when there are none. */
  lemma ResolveNames(spec: ByteRangeSpec, fileSize: nat)
    requires ValidSpec(spec) && fileSize <= U64_MAX
    ensures Resolve(spec, fileSize).None? <==> forall p: nat :: !Names(spec, fileSize, p)
    ensures Resolve(spec, fileSize).Some? ==>
              var r := Resolve(spec, fileSize).value;
              && 1 <= r.length && r.offset + r.length <= fileSize
              && (forall p: nat :: Names(spec, fileSize, p) <==> r.offset <= p < r.offset + r.length)
  {
    if Resolve(spec, fileSize).Some? {
      assert Names(spec, fileSize, Resolve(spec, fileSize).value.offset);
    }
  }

  /** What openFile decides about the bytes to send. */
  datatype Plan = Plan(offset: nat, length: nat, partial: bool) | Unsatisfiable

  /** openFile's range logic for a whole-file response (offset and length 0) or a requested range. */
  function PlanRange(spec: Option<ByteRangeSpec>, fileSize: nat): Plan {
    if spec.Some? && Resolve(spec.value, fileSize).None? then Unsatisfiable else
      var start := if spec.None? then ResolvedRange(0, 0) else Resolve(spec.value, fileSize).value;
      if start.offset > fileSize then Unsatisfiable else
        var length := if start.length == 0 || start.offset + start.length > fileSize
                      then fileSize - start.offset else start.length;
        Plan(start.offset, length, spec.Some? || start.offset > 0 || length < fileSize)
  }

  /** The clamp after resolution changes nothing: the plan is the whole file, or exactly the
      bytes the range names, and it is a partial response exactly when a range was asked for. */
  lemma PlanExact(spec: Option<ByteRangeSpec>, fileSize: nat)
    requires fileSize <= U64_MAX && (spec.Some? ==> ValidSpec(spec.value))
    ensures PlanRange(spec, fileSize).Unsatisfiable? <==>
              spec.Some? && forall p: nat :: !Names(spec.value, fileSize, p)
    ensures PlanRange(spec, fileSize).Plan? ==>
              var plan := PlanRange(spec, fileSize);
              && plan.offset + plan.length <= fileSize
              && (plan.partial <==> spec.Some?)
              && (spec.None? ==> plan.offset == 0 && plan.length == fileSize)
              && (spec.Some? ==> 1 <= plan.length && forall p: nat ::
                    Names(spec.value, fileSize, p) <==> plan.offset <= p < plan.offset + plan.length)
  {
    if spec.Some? {
      ResolveNames(spec.value, fileSize);
    }
  }
}
