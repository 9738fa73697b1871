/** Request targets and configured paths (src/security.js): the two validators, percent
    decoding, and the dot-segment removal of RFC 3986, section 5.2.4, to compare with. */
module RequestPath {
  import opened Results
  import opened Texts

  // ----- segments

  /** The index of the first slash, or the length. */
  function SlashAt(s: string): (k: nat)
    ensures k <= |s| && (forall i :: 0 <= i < k ==> s[i] != '/') && (k < |s| ==> s[k] == '/')
  {
    if s == [] || s[0] == '/' then 0 else 1 + SlashAt(s[1..])
  }

  /** `s.split("/")` */
  function Segments(s: string): (r: seq<string>)
    ensures r != []
    decreases |s|
  {
    var k := SlashAt(s);
    if k == |s| then [s] else [s[..k]] + Segments(s[k + 1..])
  }

  predicate IsDot(segment: string) { segment == "." || segment == ".." }

  predicate HasDot(segments: seq<string>) { exists i :: 0 <= i < |segments| && IsDot(segments[i]) }

  // ----- percent decoding

  function HexDigitValue(c: char): (v: int)
    ensures -1 <= v < 16
  {
    if IsDigit(c) then c as int - '0' as int
    else if 'a' <= c <= 'f' then c as int - 'a' as int + 10
    else if 'A' <= c <= 'F' then c as int - 'A' as int + 10
    else -1
  }

  /** The byte that `%XX` at the start of the text stands for, -1 if there is none. */
  function EscapedByte(s: string): (b: int)
    ensures -1 <= b < 256
  {
    if |s| >= 3 && s[0] == '%' && HexDigitValue(s[1]) >= 0 && HexDigitValue(s[2]) >= 0
    then HexDigitValue(s[1]) * 16 + HexDigitValue(s[2]) else -1
  }

  /** The six payload bits of an escaped continuation byte, -1 if there is none. */
  function Continuation(s: string): (b: int)
    ensures -1 <= b < 64
  {
    if 0x80 <= EscapedByte(s) < 0xC0 then EscapedByte(s) - 0x80 else -1
  }

  datatype Piece = Piece(c: char, length: nat)

  predicate IsScalar(code: int) { 0 <= code < 0xD800 || 0xE000 <= code < 0x11_0000 }

  function PieceOf(code: int, least: int, length: nat): Option<Piece> {
    if least <= code && IsScalar(code) then Some(Piece(code as char, length)) else None
  }

  /** What decodeURIComponent makes of the start of a text: one character, or strict UTF-8. */
  function DecodeFirst(s: string): (r: Option<Piece>)
    requires s != []
    ensures r.Some? ==> 1 <= r.value.length <= |s|
  {
    if s[0] != '%' then Some(Piece(s[0], 1))
    else
      var b := EscapedByte(s);
      if b < 0 then None
      else if b < 0x80 then PieceOf(b, 0, 3)
      else if 0xC0 <= b < 0xE0 && |s| >= 6 && Continuation(s[3..]) >= 0 then
        PieceOf((b - 0xC0) * 64 + Continuation(s[3..]), 0x80, 6)
      else if 0xE0 <= b < 0xF0 && |s| >= 9 && Continuation(s[3..]) >= 0 && Continuation(s[6..]) >= 0 then
        PieceOf(((b - 0xE0) * 64 + Continuation(s[3..])) * 64 + Continuation(s[6..]), 0x800, 9)
      else if 0xF0 <= b < 0xF8 && |s| >= 12 && Continuation(s[3..]) >= 0 && Continuation(s[6..]) >= 0
              && Continuation(s[9..]) >= 0 then
        PieceOf((((b - 0xF0) * 64 + Continuation(s[3..])) * 64 + Continuation(s[6..])) * 64 + Continuation(s[9..]),
                0x1_0000, 12)
      else None
  }

  /** decodeURIComponent */
  function Decode(s: string): Option<string>
    decreases |s|
  {
    if s == [] then Some("")
    else
      var first := DecodeFirst(s);
      if first.None? then None
      else
        var rest := Decode(s[first.value.length..]);
        if rest.None? then None else Some([first.value.c] + rest.value)
  }

  // ----- the validators

  predicate IsControl(c: char) { c < 0x20 as char || c == 0x7F as char }

  /** `%2f` or `%5c`, in either case. */
  predicate IsEscapedSeparator(s: string) { EscapedByte(s) == 0x2F || EscapedByte(s) == 0x5C }

  predicate HasSeparatorTrick(s: string) {
    s != [] && (s[0] == '\\' || IsEscapedSeparator(s) || HasSeparatorTrick(s[1..]))
  }

  /** assertNoTraversal */
  function NoTraversal(path: string): Option<string> {
    if HasSeparatorTrick(path) then None
    else
      var decoded := Decode(path);
      if decoded.None? || (exists i :: 0 <= i < |decoded.value| && (IsControl(decoded.value[i]) || decoded.value[i] == '\\'))
      then None
      else if HasDot(Segments(decoded.value)) then None
      else decoded
  }

  predicate IsPathChar(c: char) { IsAlnum(c) || c == '.' || c == '_' || c == '~' || c == '-' }

  predicate IsPlainSegment(segment: string) {
    segment != [] && forall i :: 0 <= i < |segment| ==> IsPathChar(segment[i])
  }

  predicate ArePlain(segments: seq<string>) { forall i :: 0 <= i < |segments| ==> IsPlainSegment(segments[i]) }

  /** normalizeRoutePath accepts: it returns its argument. */
  predicate IsRoutePath(s: string) {
    s == "/" ||
    (2 <= |s| <= 2048 && s[0] == '/' && ArePlain(Segments(s[1..])) && NoTraversal(s) == Some(s))
  }

  /** normalizePrivateHealthPath accepts. */
  predicate IsHealthPath(s: string) { |s| <= 256 && IsRoutePath(s) && !("/v1/" <= s) }

  predicate HasDoubleSlash(s: string) { exists i :: 0 <= i < |s| - 1 && s[i] == '/' && s[i + 1] == '/' }

  datatype Target = Target(path: string, query: string, raw: string)

  function QuestionAt(s: string): (k: nat)
    ensures k <= |s| && (forall i :: 0 <= i < k ==> s[i] != '?') && (k < |s| ==> s[k] == '?')
  {
    if s == [] || s[0] == '?' then 0 else 1 + QuestionAt(s[1..])
  }

  /** parseRequestTarget */
  function ParseTarget(s: string): Option<Target> {
    if !(1 <= |s| <= 16384) || s[0] != '/' || "//" <= s || '#' in s || (exists i :: 0 <= i < |s| && IsControl(s[i])) then None
    else
      var path := s[..QuestionAt(s)];
      if HasDoubleSlash(path) || NoTraversal(path).None? then None
      else Some(Target(path, s[QuestionAt(s)..], s))
  }

  // ----- RFC 3986, section 5.2.4

  /** The output buffer without its last segment and the slash before it. */
  function DropLast(s: string): string {
    if s == [] || s[|s| - 1] == '/' then if s == [] then s else s[..|s| - 1] else DropLast(s[..|s| - 1])
  }

  /** The first segment of the input with its leading slash. */
  function FirstSegment(s: string): (k: nat)
    requires s != []
    ensures 1 <= k <= |s|
  {
    if s[0] == '/' then 1 + SlashAt(s[1..]) else SlashAt(s)
  }

  function RemoveDotsFrom(input: string, output: string): string
    decreases |input|
  {
    if input == [] then output
    else if "../" <= input then RemoveDotsFrom(input[3..], output)
    else if "./" <= input then RemoveDotsFrom(input[2..], output)
    else if "/./" <= input then RemoveDotsFrom(input[2..], output)
    else if input == "/." then RemoveDotsFrom("/", output)
    else if "/../" <= input then RemoveDotsFrom(input[3..], DropLast(output))
    else if input == "/.." then RemoveDotsFrom("/", DropLast(output))
    else if input == "." || input == ".." then output
    else
      var k := FirstSegment(input);
      RemoveDotsFrom(input[k..], output + input[..k])
  }

  function RemoveDots(s: string): string { RemoveDotsFrom(s, "") }
}
