/** Exactly which request targets are accepted, and that percent-decoding is the inverse
    of percent-encoding UTF-8. */
module RequestTargets {
  import opened Results
  import opened Texts
  import opened RequestPath

  // ----- percent-encoding

  function HexDigit(v: int, upper: bool): char
    requires 0 <= v < 16
  {
    if v < 10 then ('0' as int + v) as char else ((if upper then 'A' else 'a') as int + v - 10) as char
  }

  function EscapeByte(b: int, upper: bool): string
    requires 0 <= b < 256
  {
    ['%', HexDigit(b / 16, upper), HexDigit(b % 16, upper)]
  }

  /** The UTF-8 bytes of a character, each escaped. */
  function EscapeChar(c: char, upper: bool): string {
    var n := c as int;
    if n < 0x80 then EscapeByte(n, upper)
    else if n < 0x800 then EscapeByte(0xC0 + n / 64, upper) + EscapeByte(0x80 + n % 64, upper)
    else if n < 0x1_0000 then
      EscapeByte(0xE0 + n / 4096, upper) + EscapeByte(0x80 + n / 64 % 64, upper) + EscapeByte(0x80 + n % 64, upper)
    else
      EscapeByte(0xF0 + n / 0x4_0000, upper) + EscapeByte(0x80 + n / 4096 % 64, upper)
      + EscapeByte(0x80 + n / 64 % 64, upper) + EscapeByte(0x80 + n % 64, upper)
  }

  /** A text with the chosen characters escaped and the others as they are. */
  function Escape(s: string, chosen: seq<bool>, upper: bool): string
    requires |chosen| == |s|
  {
    if s == [] then [] else (if chosen[0] then EscapeChar(s[0], upper) else [s[0]]) + Escape(s[1..], chosen[1..], upper)
  }

  lemma HexDigitBack(v: int, upper: bool)
    requires 0 <= v < 16
    ensures HexDigitValue(HexDigit(v, upper)) == v
  {
  }

  /** An escaped byte is read back, wherever it stands. */
  lemma ByteBack(s: string, at: nat, b: int, upper: bool)
    requires 0 <= b < 256 && at + 3 <= |s| && s[at..at + 3] == EscapeByte(b, upper)
    ensures EscapedByte(s[at..]) == b
  {
    HexDigitBack(b / 16, upper);
    HexDigitBack(b % 16, upper);
    var t := s[at..];
    assert t[0] == s[at..at + 3][0] && t[1] == s[at..at + 3][1] && t[2] == s[at..at + 3][2];
  }

  lemma TwoBytes(c: char, s: string, upper: bool)
    requires 0x80 <= c as int < 0x800 && |s| >= 6 && s[..6] == EscapeChar(c, upper)
    ensures DecodeFirst(s) == Some(Piece(c, 6))
  {
    var n := c as int;
    assert s[0..3] == s[..6][0..3] == EscapeByte(0xC0 + n / 64, upper);
    assert s[3..6] == s[..6][3..6] == EscapeByte(0x80 + n % 64, upper);
    ByteBack(s, 0, 0xC0 + n / 64, upper);
    ByteBack(s, 3, 0x80 + n % 64, upper);
    assert s[0..] == s;
  }

  lemma ThreeRead(s: string, x: int, y: int, z: int)
    requires |s| >= 9 && 0 <= x < 16 && 0 <= y < 64 && 0 <= z < 64
    requires EscapedByte(s) == 0xE0 + x && EscapedByte(s[3..]) == 0x80 + y && EscapedByte(s[6..]) == 0x80 + z
    ensures DecodeFirst(s) == PieceOf((x * 64 + y) * 64 + z, 0x800, 9)
  {
    assert s[0] == '%';
  }

  lemma ThreeEscaped(s: string, x: int, y: int, z: int, upper: bool)
    requires |s| >= 9 && 0 <= x < 16 && 0 <= y < 64 && 0 <= z < 64
    requires s[..9] == EscapeByte(0xE0 + x, upper) + EscapeByte(0x80 + y, upper) + EscapeByte(0x80 + z, upper)
    ensures DecodeFirst(s) == PieceOf((x * 64 + y) * 64 + z, 0x800, 9)
  {
    var e, f, g := EscapeByte(0xE0 + x, upper), EscapeByte(0x80 + y, upper), EscapeByte(0x80 + z, upper);
    assert s[0..3] == s[..9][0..3] == e && s[3..6] == s[..9][3..6] == f && s[6..9] == s[..9][6..9] == g;
    ByteBack(s, 0, 0xE0 + x, upper);
    ByteBack(s, 3, 0x80 + y, upper);
    ByteBack(s, 6, 0x80 + z, upper);
    assert s[0..] == s;
    ThreeRead(s, x, y, z);
  }

  lemma ThreeBytes(c: char, s: string, upper: bool)
    requires 0x800 <= c as int < 0x1_0000 && |s| >= 9 && s[..9] == EscapeChar(c, upper)
    ensures DecodeFirst(s) == Some(Piece(c, 9))
  {
    var n := c as int;
    ThreeEscaped(s, n / 4096, n / 64 % 64, n % 64, upper);
    Base64(n);
  }

  /** A number from its digits to base 64. */
  lemma Base64(n: nat)
    ensures (n / 4096 * 64 + n / 64 % 64) * 64 + n % 64 == n
    ensures ((n / 0x4_0000 * 64 + n / 4096 % 64) * 64 + n / 64 % 64) * 64 + n % 64 == n
  {
  }

  lemma FourRead(s: string, w: int, x: int, y: int, z: int)
    requires |s| >= 12 && 0 <= w < 8 && 0 <= x < 64 && 0 <= y < 64 && 0 <= z < 64
    requires EscapedByte(s) == 0xF0 + w && EscapedByte(s[3..]) == 0x80 + x && EscapedByte(s[6..]) == 0x80 + y
    requires EscapedByte(s[9..]) == 0x80 + z
    ensures DecodeFirst(s) == PieceOf(((w * 64 + x) * 64 + y) * 64 + z, 0x1_0000, 12)
  {
    assert s[0] == '%';
  }

  lemma FourParts(s: string, e: string, f: string, g: string, h: string)
    requires |s| >= 12 && |e| == |f| == |g| == |h| == 3 && s[..12] == e + f + g + h
    ensures s[0..3] == e && s[3..6] == f && s[6..9] == g && s[9..12] == h
  {
    assert s[0..3] == s[..12][0..3] && s[3..6] == s[..12][3..6] && s[6..9] == s[..12][6..9] && s[9..12] == s[..12][9..12];
  }

  lemma FourEscaped(s: string, w: int, x: int, y: int, z: int, upper: bool)
    requires |s| >= 12 && 0 <= w < 8 && 0 <= x < 64 && 0 <= y < 64 && 0 <= z < 64
    requires s[..12] == EscapeByte(0xF0 + w, upper) + EscapeByte(0x80 + x, upper) + EscapeByte(0x80 + y, upper)
                        + EscapeByte(0x80 + z, upper)
    ensures DecodeFirst(s) == PieceOf(((w * 64 + x) * 64 + y) * 64 + z, 0x1_0000, 12)
  {
    FourParts(s, EscapeByte(0xF0 + w, upper), EscapeByte(0x80 + x, upper), EscapeByte(0x80 + y, upper), EscapeByte(0x80 + z, upper));
    ByteBack(s, 0, 0xF0 + w, upper);
    ByteBack(s, 3, 0x80 + x, upper);
    ByteBack(s, 6, 0x80 + y, upper);
    ByteBack(s, 9, 0x80 + z, upper);
    assert s[0..] == s;
    FourRead(s, w, x, y, z);
  }

  lemma FourBytes(c: char, s: string, upper: bool)
    requires 0x1_0000 <= c as int && |s| >= 12 && s[..12] == EscapeChar(c, upper)
    ensures DecodeFirst(s) == Some(Piece(c, 12))
  {
    var n := c as int;
    FourEscaped(s, n / 0x4_0000, n / 4096 % 64, n / 64 % 64, n % 64, upper);
    Base64(n);
  }

  lemma CharBack(c: char, rest: string, upper: bool)
    ensures DecodeFirst(EscapeChar(c, upper) + rest) == Some(Piece(c, |EscapeChar(c, upper)|))
  {
    var s, n := EscapeChar(c, upper) + rest, c as int;
    assert s[..|EscapeChar(c, upper)|] == EscapeChar(c, upper);
    if n < 0x80 { ByteBack(s, 0, n, upper); assert s[0..] == s; }
    else if n < 0x800 { TwoBytes(c, s, upper); }
    else if n < 0x1_0000 { ThreeBytes(c, s, upper); }
    else { FourBytes(c, s, upper); }
  }

  /** Whichever characters are escaped, in either case of hexadecimal digits, decoding
      gives the text back; only a percent sign has to be escaped. */
  lemma {:induction false} DecodeInvertsEscape(s: string, chosen: seq<bool>, upper: bool)
    requires |chosen| == |s| && forall i :: 0 <= i < |s| && s[i] == '%' ==> chosen[i]
    ensures Decode(Escape(s, chosen, upper)) == Some(s)
  {
    if s != [] {
      var rest := Escape(s[1..], chosen[1..], upper);
      var first := if chosen[0] then EscapeChar(s[0], upper) else [s[0]];
      if chosen[0] { CharBack(s[0], rest, upper); }
      DecodeInvertsEscape(s[1..], chosen[1..], upper);
      assert (first + rest)[|first|..] == rest;
      assert s == [s[0]] + s[1..];
    }
  }

  // ----- targets

  /** A backslash, or an escaped slash or backslash, starts here. */
  predicate TrickAt(s: string, i: nat)
    requires i < |s|
  {
    s[i] == '\\' || EscapedByte(s[i..]) == '/' as int || EscapedByte(s[i..]) == '\\' as int
  }

  lemma {:induction false} TrickExactly(s: string)
    ensures HasSeparatorTrick(s) <==> exists i :: 0 <= i < |s| && TrickAt(s, i)
  {
    if s != [] {
      TrickExactly(s[1..]);
      assert s[0..] == s;
      forall i | 0 <= i < |s| - 1 ensures TrickAt(s[1..], i) <==> TrickAt(s, i + 1) { assert s[1..][i..] == s[i + 1..]; }
      if s[0] == '\\' || IsEscapedSeparator(s) { assert TrickAt(s, 0); }
      if HasSeparatorTrick(s[1..]) {
        var i :| 0 <= i < |s| - 1 && TrickAt(s[1..], i);
        assert TrickAt(s, i + 1);
      }
      if i :| 0 <= i < |s| && TrickAt(s, i) {
        if i > 0 {
          assert s[1..][i - 1..] == s[i..];
          assert TrickAt(s[1..], i - 1);
        }
      }
    }
  }

  /** A path whose text and whose decoding both mean what they say. */
  ghost predicate CleanPath(path: string) {
    && (forall i :: 0 <= i < |path| ==> !TrickAt(path, i))
    && (forall i :: 0 <= i < |path| - 1 ==> !(path[i] == '/' && path[i + 1] == '/'))
    && Decode(path).Some?
    && var decoded := Decode(path).value;
    && (forall i :: 0 <= i < |decoded| ==> decoded[i] != '\\' && decoded[i] != '\U{7F}' && decoded[i] >= ' ')
    && "." !in Segments(decoded) && ".." !in Segments(decoded)
  }

  /** A whole target: a clean path and a query that begins at the first question mark. */
  ghost predicate CleanTarget(s: string, path: string, query: string) {
    && s == path + query && '?' !in path && (query == "" || query[0] == '?')
    && 1 <= |s| <= 16384 && s[0] == '/' && '#' !in s
    && (forall i :: 0 <= i < |s| ==> s[i] >= ' ' && s[i] != '\U{7F}')
    && CleanPath(path)
  }

  lemma CleanIsParsed(s: string, path: string, query: string)
    requires CleanTarget(s, path, query)
    ensures ParseTarget(s) == Some(Target(path, query, s))
  {
    SplitAtQuestion(path, query);
    NoTraversalExactly(path);
    NoLeadingPair(path, query);
  }

  lemma ParsedIsClean(s: string)
    requires ParseTarget(s).Some?
    ensures var t := ParseTarget(s).value; t.raw == s && CleanTarget(s, t.path, t.query)
  {
    var k := QuestionAt(s);
    NoTraversalExactly(s[..k]);
    assert s == s[..k] + s[k..];
  }

  /** Exactly which request targets are accepted, and what they are parsed into: the path
      up to the first question mark, the rest as the query, and the text itself. */
  lemma ParseTargetExactly(s: string)
    ensures forall path, query :: ParseTarget(s) == Some(Target(path, query, s)) <==> CleanTarget(s, path, query)
    ensures ParseTarget(s).Some? ==> ParseTarget(s).value.raw == s
  {
    if ParseTarget(s).Some? { ParsedIsClean(s); }
    forall path, query | CleanTarget(s, path, query) ensures ParseTarget(s) == Some(Target(path, query, s)) {
      CleanIsParsed(s, path, query);
    }
  }

  lemma SplitAtQuestion(path: string, query: string)
    requires '?' !in path && (query == "" || query[0] == '?')
    ensures QuestionAt(path + query) == |path|
    ensures (path + query)[..|path|] == path && (path + query)[|path|..] == query
  {
    QuestionFirst(path + query, |path|);
  }

  lemma QuestionFirst(s: string, k: nat)
    requires k <= |s| && (forall i :: 0 <= i < k ==> s[i] != '?') && (k < |s| ==> s[k] == '?')
    ensures QuestionAt(s) == k
  {
  }

  lemma NoLeadingPair(path: string, query: string)
    requires (forall i :: 0 <= i < |path| - 1 ==> !(path[i] == '/' && path[i + 1] == '/')) && (query == "" || query[0] == '?')
    ensures !("//" <= path + query)
  {
    var s := path + query;
    if path == [] && query != [] { assert s[0] == '?'; }
    if |path| == 1 && query != [] { assert s[1] == '?'; }
    if |path| >= 2 { assert s[0] == path[0] && s[1] == path[1]; }
  }

  lemma NoTraversalExactly(path: string)
    ensures CleanPath(path) <==> !HasDoubleSlash(path) && NoTraversal(path).Some?
  {
    TrickExactly(path);
    if Decode(path).Some? { DecodedExactly(Decode(path).value); }
  }

  lemma DecodedExactly(decoded: string)
    ensures (exists i :: 0 <= i < |decoded| && (IsControl(decoded[i]) || decoded[i] == '\\')) <==>
              !(forall i :: 0 <= i < |decoded| ==> decoded[i] != '\\' && decoded[i] != '\U{7F}' && decoded[i] >= ' ')
    ensures HasDot(Segments(decoded)) <==> "." in Segments(decoded) || ".." in Segments(decoded)
  {
    forall i | 0 <= i < |decoded| ensures IsControl(decoded[i]) <==> decoded[i] < ' ' || decoded[i] == '\U{7F}' { }
  }
}
