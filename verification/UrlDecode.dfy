/** Percent-decoding a path, one segment at a time. */
module UrlDecode {
  import opened Wrappers
  import opened Text

  function HexValue(c: char): (r: int)
    ensures -1 <= r < 16
  {
    if '0' <= c <= '9' then c as int - '0' as int
    else if 'a' <= c <= 'f' then c as int - 'a' as int + 10
    else if 'A' <= c <= 'F' then c as int - 'A' as int + 10
    else -1
  }

  /** The byte an escape may stand for: no control character, no slash. */
  predicate Decodable(byte: int) {
    0x20 <= byte < 0x100 && byte != 0x7F && byte != '/' as int
  }

  /** The escape at position `i`: the character it stands for, if it is complete and allowed. */
  function Escape(segment: string, i: nat): Option<char>
    requires i < |segment|
  {
    if i + 2 >= |segment| || HexValue(segment[i + 1]) < 0 || HexValue(segment[i + 2]) < 0 then None else
      var byte := HexValue(segment[i + 1]) * 16 + HexValue(segment[i + 2]);
      if Decodable(byte) then Some(byte as char) else None
  }

  /** The characters of a segment from `i` on. */
  function Unescape(segment: string, i: nat): Option<string>
    decreases |segment| - i
  {
    if i >= |segment| then Some([])
    else if segment[i] != '%' then
      var rest := Unescape(segment, i + 1);
      if rest.None? then None else Some([segment[i]] + rest.value)
    else if Escape(segment, i).None? then None
    else
      var rest := Unescape(segment, i + 3);
      if rest.None? then None else Some([Escape(segment, i).value] + rest.value)
  }

  /** A segment that escapes its way to ".." is refused; a literal ".." is not. */
  function DecodeSegment(segment: string): Option<string> {
    var d := Unescape(segment, 0);
    if d.None? || ('%' in segment && d.value == "..") then None else d
  }

  /** The segments of a path: what lies between the slashes. */
  function Segments(path: string): (r: seq<string>)
    ensures r != []
  {
    SplitOn(path, '/')
  }

  function Joined(segments: seq<string>): string
    requires segments != []
  {
    if |segments| == 1 then segments[0] else segments[0] + "/" + Joined(segments[1..])
  }

  function DecodeAll(segments: seq<string>): (r: Option<seq<string>>)
    ensures r.Some? ==> |r.value| == |segments|
    ensures r.Some? ==> forall i :: 0 <= i < |segments| ==> DecodeSegment(segments[i]) == Some(r.value[i])
    ensures r.None? ==> exists i :: 0 <= i < |segments| && DecodeSegment(segments[i]).None?
  {
    if segments == [] then Some([]) else
      var first, rest := DecodeSegment(segments[0]), DecodeAll(segments[1..]);
      if first.None? || rest.None? then None else Some([first.value] + rest.value)
  }

  function Decode(path: string): Option<string> {
    var d := DecodeAll(Segments(path));
    if d.None? then None else Some(Joined(d.value))
  }

  // ---------------------------------------------------------------------------------------
  // The loops

  /** The inner loop. */
  method DecodeSegmentLoop(segment: string) returns (r: Option<string>)
    ensures r == DecodeSegment(segment)
  {
    hide Escape;
    var decoded := "";
    var escaped := false;
    var i := 0;
    assert Unescape(segment, 0).Some? ==> "" + Unescape(segment, 0).value == Unescape(segment, 0).value;
    while i < |segment|
      invariant i <= |segment|
      invariant escaped <==> '%' in segment[..i]
      invariant Unescape(segment, 0) == Prefixed(decoded, Unescape(segment, i))
      decreases |segment| - i
    {
      PrefixedAppend(decoded, segment, i);
      if segment[i] != '%' {
        assert segment[..i + 1] == segment[..i] + [segment[i]];
        decoded := decoded + [segment[i]];
        i := i + 1;
      } else {
        var c := Escape(segment, i);
        if c.None? {
          return None;
        }
        EscapeFits(segment, i);
        assert segment[..i + 3] == segment[..i] + segment[i..i + 3] && segment[i..i + 3][0] == '%';
        decoded := decoded + [c.value];
        escaped := true;
        i := i + 3;
      }
    }
    assert segment[..i] == segment && decoded + [] == decoded;
    if escaped && decoded == ".." {
      return None;
    }
    return Some(decoded);
  }

  function Prefixed(s: string, r: Option<string>): Option<string> {
    if r.None? then None else Some(s + r.value)
  }

  lemma EscapeFits(segment: string, i: nat)
    requires i < |segment| && Escape(segment, i).Some?
    ensures i + 3 <= |segment|
  {
  }

  lemma PrefixedAppend(decoded: string, segment: string, i: nat)
    requires i < |segment|
    ensures segment[i] != '%' ==> Prefixed(decoded, Unescape(segment, i)) == Prefixed(decoded + [segment[i]], Unescape(segment, i + 1))
    ensures segment[i] == '%' && Escape(segment, i).None? ==> Unescape(segment, i).None?
    ensures segment[i] == '%' && Escape(segment, i).Some? ==>
              Prefixed(decoded, Unescape(segment, i)) == Prefixed(decoded + [Escape(segment, i).value], Unescape(segment, i + 3))
  {
    hide Escape;
    var rest := if segment[i] != '%' then Unescape(segment, i + 1) else Unescape(segment, i + 3);
    if rest.Some? {
      assert decoded + ([segment[i]] + rest.value) == (decoded + [segment[i]]) + rest.value;
      if Escape(segment, i).Some? {
        assert decoded + ([Escape(segment, i).value] + rest.value) == (decoded + [Escape(segment, i).value]) + rest.value;
      }
    }
  }

  /** The outer loop. */
  method DecodePath(raw: string) returns (r: Option<string>)
    ensures r == Decode(raw)
  {
    hide DecodeSegment, Decode, FindChar;
    var out := "";
    var pos := 0;
    assert raw[0..] == raw;
    Started(raw);
    while true
      invariant pos <= |raw| && Decode(raw) == Prefixed(out, Decode(raw[pos..]))
      decreases |raw| - pos
    {
      var slash := FindChar(raw, '/', pos);
      FindCharShift(raw, '/', pos);
      var segment := if slash == NPOS then raw[pos..] else raw[pos..slash];
      DecodeStep(raw[pos..]);
      assert slash != NPOS ==> raw[pos..][..slash - pos] == segment && raw[pos..][slash - pos + 1..] == raw[slash + 1..];
      var decoded := DecodeSegmentLoop(segment);
      if decoded.None? {
        return None;
      }
      if slash == NPOS {
        return Some(out + decoded.value);
      }
      PrefixedTwice(out, decoded.value + "/", Decode(raw[slash + 1..]));
      assert out + (decoded.value + "/") == out + decoded.value + "/";
      out := out + decoded.value + "/";
      pos := slash + 1;
    }
  }

  lemma Started(raw: string)
    ensures Decode(raw) == Prefixed("", Decode(raw))
  {
    hide DecodeAll, Segments;
    assert Decode(raw).Some? ==> "" + Decode(raw).value == Decode(raw).value;
  }

  lemma PrefixedTwice(a: string, b: string, r: Option<string>)
    ensures Prefixed(a, Prefixed(b, r)) == Prefixed(a + b, r)
  {
    if r.Some? {
      assert a + (b + r.value) == (a + b) + r.value;
    }
  }

  /** Decoding a path is decoding its first segment and then the rest. */
  lemma DecodeStep(path: string)
    ensures var slash := FindChar(path, '/', 0);
            if slash == NPOS then Decode(path) == DecodeSegment(path)
            else if DecodeSegment(path[..slash]).None? then Decode(path).None?
            else Decode(path) == Prefixed(DecodeSegment(path[..slash]).value + "/", Decode(path[slash + 1..]))
  {
    hide DecodeSegment, FindChar;
    var slash := FindChar(path, '/', 0);
    if slash == NPOS {
      assert [path][1..] == [];
    } else {
      var rest := Segments(path[slash + 1..]);
      assert ([path[..slash]] + rest)[1..] == rest;
      var d := DecodeAll(rest);
      if d.Some? && DecodeSegment(path[..slash]).Some? {
        var first := DecodeSegment(path[..slash]).value;
        assert ([first] + d.value)[1..] == d.value;
      }
    }
  }

  // ---------------------------------------------------------------------------------------
  // Structure is preserved

  lemma {:induction false} Untouched(segment: string, i: nat)
    requires '%' !in segment && i <= |segment|
    ensures Unescape(segment, i) == Some(segment[i..])
    decreases |segment| - i
  {
    if i < |segment| {
      Untouched(segment, i + 1);
      assert segment[i..] == [segment[i]] + segment[i + 1..];
    } else {
      assert segment[i..] == [];
    }
  }

  lemma {:induction false} UnescapedNoSlash(segment: string, i: nat)
    requires '/' !in segment && Unescape(segment, i).Some?
    ensures '/' !in Unescape(segment, i).value
    decreases |segment| - i
  {
    if i < |segment| {
      UnescapedNoSlash(segment, if segment[i] != '%' then i + 1 else i + 3);
    }
  }

  lemma SegmentsClean(path: string)
    ensures forall i :: 0 <= i < |Segments(path)| ==> '/' !in Segments(path)[i]
  {
    hide Segments;
    forall i | 0 <= i < |Segments(path)| ensures '/' !in Segments(path)[i] {
      PieceNoSlash(path, i);
    }
  }

  lemma {:induction false} PieceNoSlash(path: string, i: nat)
    requires i < |Segments(path)|
    ensures '/' !in Segments(path)[i]
    decreases |path|
  {
    hide FindChar;
    var slash := FindChar(path, '/', 0);
    if slash != NPOS && i > 0 {
      PieceNoSlash(path[slash + 1..], i - 1);
    }
  }

  /** Splitting undoes joining. */
  lemma {:induction false} SegmentsOfJoined(segments: seq<string>)
    requires segments != [] && forall i :: 0 <= i < |segments| ==> '/' !in segments[i]
    ensures Segments(Joined(segments)) == segments
    decreases |segments|
  {
    var path := Joined(segments);
    if |segments| == 1 {
      assert FindChar(path, '/', 0) == NPOS;
    } else {
      var first, rest := segments[0], Joined(segments[1..]);
      assert path == first + "/" + rest && path[|first|] == '/';
      assert forall i :: 0 <= i < |first| ==> path[i] == first[i];
      assert FindChar(path, '/', 0) == |first|;
      assert path[..|first|] == first && path[|first| + 1..] == rest;
      SegmentsOfJoined(segments[1..]);
      assert segments == [first] + segments[1..];
    }
  }

  /** Joining undoes splitting. */
  lemma {:induction false} JoinedSegments(path: string)
    ensures Joined(Segments(path)) == path
    decreases |path|
  {
    var slash := FindChar(path, '/', 0);
    if slash != NPOS {
      JoinedSegments(path[slash + 1..]);
      var rest := Segments(path[slash + 1..]);
      assert ([path[..slash]] + rest)[1..] == rest;
      assert path == path[..slash] + "/" + path[slash + 1..];
    }
  }

  function Slashes(s: string): nat {
    if s == [] then 0 else (if s[0] == '/' then 1 else 0) + Slashes(s[1..])
  }

  lemma {:induction false} SlashesAppend(a: string, b: string)
    ensures Slashes(a + b) == Slashes(a) + Slashes(b)
    decreases |a|
  {
    if a == [] {
      assert a + b == b;
    } else {
      SlashesAppend(a[1..], b);
      assert (a + b)[1..] == a[1..] + b;
    }
  }

  lemma {:induction false} NoSlashes(s: string)
    requires '/' !in s
    ensures Slashes(s) == 0
    decreases |s|
  {
    if s != [] {
      NoSlashes(s[1..]);
    }
  }

  lemma {:induction false} SlashesJoined(segments: seq<string>)
    requires segments != [] && forall i :: 0 <= i < |segments| ==> '/' !in segments[i]
    ensures Slashes(Joined(segments)) == |segments| - 1
    decreases |segments|
  {
    NoSlashes(segments[0]);
    if |segments| > 1 {
      SlashesJoined(segments[1..]);
      SlashesAppend(segments[0] + "/", Joined(segments[1..]));
      SlashesAppend(segments[0], "/");
      assert Slashes("/") == 1 + Slashes("/"[1..]);
    }
  }

  /** A segment decodes to ".." exactly when it is "..". */
  lemma DotsAreLiteral(segment: string)
    requires DecodeSegment(segment).Some?
    ensures DecodeSegment(segment).value == ".." <==> segment == ".."
    ensures '%' !in segment ==> DecodeSegment(segment).value == segment
  {
    if '%' !in segment {
      Untouched(segment, 0);
      assert segment[0..] == segment;
    }
  }

  /** A decoded path has the same segments in the same places, each decoded by itself; as many
      slashes; and a ".." segment exactly where the raw path has one. */
  lemma StructurePreserved(path: string)
    requires Decode(path).Some?
    ensures var raw, out := Segments(path), Segments(Decode(path).value);
            && |out| == |raw|
            && (forall i :: 0 <= i < |raw| ==> DecodeSegment(raw[i]) == Some(out[i]))
            && (forall i :: 0 <= i < |raw| ==> (out[i] == ".." <==> raw[i] == ".."))
    ensures Slashes(Decode(path).value) == Slashes(path)
  {
    hide DecodeSegment, Segments, Joined;
    var raw := Segments(path);
    var out := DecodeAll(raw).value;
    SegmentsClean(path);
    forall i | 0 <= i < |out| ensures '/' !in out[i] && (out[i] == ".." <==> raw[i] == "..") {
      SegmentClean(raw[i]);
      DotsAreLiteral(raw[i]);
    }
    SegmentsOfJoined(out);
    SlashesJoined(out);
    SlashesJoined(raw);
    JoinedSegments(path);
  }

  lemma SegmentClean(segment: string)
    requires '/' !in segment && DecodeSegment(segment).Some?
    ensures '/' !in DecodeSegment(segment).value
  {
    UnescapedNoSlash(segment, 0);
  }

  /** A path without escapes is its own decoding. */
  lemma IdentityWithoutEscapes(path: string)
    requires '%' !in path
    ensures Decode(path) == Some(path)
  {
    hide DecodeSegment, Segments, Joined;
    var raw := Segments(path);
    forall i | 0 <= i < |raw| ensures DecodeSegment(raw[i]) == Some(raw[i]) {
      PieceOf(path, i);
      PlainSegment(raw[i]);
    }
    assert DecodeAll(raw).Some? && DecodeAll(raw).value == raw;
    JoinedSegments(path);
  }

  lemma PlainSegment(segment: string)
    requires '%' !in segment
    ensures DecodeSegment(segment) == Some(segment)
  {
    Untouched(segment, 0);
    assert segment[0..] == segment;
  }

  lemma {:induction false} PieceOf(path: string, i: nat)
    requires '%' !in path && i < |Segments(path)|
    ensures '%' !in Segments(path)[i]
    decreases |path|
  {
    var slash := FindChar(path, '/', 0);
    if slash != NPOS {
      if i > 0 {
        PieceOf(path[slash + 1..], i - 1);
      }
    }
  }

  lemma {:induction false} UnescapeShrinks(segment: string, i: nat)
    requires Unescape(segment, i).Some? && i <= |segment|
    ensures |Unescape(segment, i).value| <= |segment| - i
    decreases |segment| - i
  {
    if i < |segment| {
      UnescapeShrinks(segment, if segment[i] != '%' then i + 1 else i + 3);
    }
  }

  lemma {:induction false} JoinedShrinks(a: seq<string>, b: seq<string>)
    requires a != [] && |a| == |b| && forall i :: 0 <= i < |a| ==> |a[i]| <= |b[i]|
    ensures |Joined(a)| <= |Joined(b)|
    decreases |a|
  {
    if |a| > 1 {
      JoinedShrinks(a[1..], b[1..]);
    }
  }

  /** Decoding never lengthens a path. */
  lemma DecodeShrinks(path: string)
    requires Decode(path).Some?
    ensures |Decode(path).value| <= |path|
  {
    hide Segments, Joined, Unescape;
    var raw := Segments(path);
    var out := DecodeAll(raw).value;
    forall i | 0 <= i < |out| ensures |out[i]| <= |raw[i]| {
      UnescapeShrinks(raw[i], 0);
    }
    JoinedShrinks(out, raw);
    JoinedSegments(path);
  }

  // ---------------------------------------------------------------------------------------
  // Encoding

  function HexDigit(d: nat): char
    requires d < 16
  {
    if d < 10 then '0' + d as char else 'A' + (d - 10) as char
  }

  /** Which characters an encoder escapes: the percent sign always, others as it likes, but only
      characters an escape may stand for. */
  ghost predicate Encoder(escapes: char -> bool) {
    escapes('%') && forall c :: escapes(c) ==> Decodable(c as int)
  }

  function EncodeChar(escapes: char -> bool, c: char): string {
    if escapes(c) && c as int < 256 then ['%', HexDigit(c as int / 16), HexDigit(c as int % 16)] else [c]
  }

  function EncodeChars(escapes: char -> bool, s: string): string {
    if s == [] then [] else EncodeChar(escapes, s[0]) + EncodeChars(escapes, s[1..])
  }

  /** A ".." segment is left as it is. */
  function EncodeSegment(escapes: char -> bool, s: string): string {
    if s == ".." then s else EncodeChars(escapes, s)
  }

  function EncodePath(escapes: char -> bool, segments: seq<string>): string
    requires segments != []
  {
    Joined(seq(|segments|, i requires 0 <= i < |segments| => EncodeSegment(escapes, segments[i])))
  }

  lemma HexPair(n: nat)
    requires n < 256
    ensures HexValue(HexDigit(n / 16)) * 16 + HexValue(HexDigit(n % 16)) == n
    ensures HexValue(HexDigit(n / 16)) >= 0 && HexValue(HexDigit(n % 16)) >= 0
    ensures HexDigit(n / 16) != '/' && HexDigit(n % 16) != '/'
  {
  }

  lemma {:induction false} UnescapeEncoded(escapes: char -> bool, pre: string, s: string)
    requires Encoder(escapes)
    ensures Unescape(pre + EncodeChars(escapes, s), |pre|) == Some(s)
    decreases |s|
  {
    hide Escape;
    var segment := pre + EncodeChars(escapes, s);
    if s != [] {
      var one, rest := EncodeChar(escapes, s[0]), EncodeChars(escapes, s[1..]);
      assert segment == (pre + one) + rest;
      UnescapeEncoded(escapes, pre + one, s[1..]);
      assert s == [s[0]] + s[1..];
      assert segment[|pre|] == one[0];
      if escapes(s[0]) {
        EscapeOf(segment, |pre|, s[0]);
      }
    }
  }

  lemma EscapeOf(segment: string, i: nat, c: char)
    requires Decodable(c as int) && i + 3 <= |segment|
    requires segment[i + 1] == HexDigit(c as int / 16) && segment[i + 2] == HexDigit(c as int % 16)
    ensures Escape(segment, i) == Some(c)
  {
    HexPair(c as int);
  }

  lemma {:induction false} EncodedNoSlash(escapes: char -> bool, s: string)
    requires '/' !in s
    ensures '/' !in EncodeChars(escapes, s)
    decreases |s|
  {
    if s != [] {
      EncodedNoSlash(escapes, s[1..]);
      if s[0] as int < 256 {
        HexPair(s[0] as int);
      }
      assert s[0] in s;
    }
  }

  lemma SegmentDecodes(escapes: char -> bool, s: string)
    requires Encoder(escapes)
    ensures DecodeSegment(EncodeSegment(escapes, s)) == Some(s)
  {
    UnescapeEncoded(escapes, [], s);
    assert [] + EncodeChars(escapes, s) == EncodeChars(escapes, s);
    if s == ".." {
      PlainSegment(s);
    }
  }

  /** Decoding inverts every such encoder, whatever the segments contain besides slashes. */
  lemma DecodeInvertsEncode(escapes: char -> bool, segments: seq<string>)
    requires Encoder(escapes) && segments != [] && forall i :: 0 <= i < |segments| ==> '/' !in segments[i]
    ensures Decode(EncodePath(escapes, segments)) == Some(Joined(segments))
  {
    hide DecodeSegment, Segments, Joined, EncodeChars;
    var raw := seq(|segments|, i requires 0 <= i < |segments| => EncodeSegment(escapes, segments[i]));
    forall i | 0 <= i < |raw| ensures '/' !in raw[i] && DecodeSegment(raw[i]) == Some(segments[i]) {
      EncodedNoSlash(escapes, segments[i]);
      SegmentDecodes(escapes, segments[i]);
    }
    SegmentsOfJoined(raw);
    assert DecodeAll(raw).Some? && DecodeAll(raw).value == segments;
  }
}
