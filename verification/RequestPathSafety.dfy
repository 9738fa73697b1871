/** What an accepted request target and a configured path mean to whoever decodes or
    normalises them again. */
module RequestPathSafety {
  import opened Results
  import opened Texts
  import opened RequestPath

  // ----- splitting

  lemma SegmentsCons(c: char, s: string)
    ensures c == '/' ==> Segments([c] + s) == [""] + Segments(s)
    ensures c != '/' ==> Segments([c] + s) == [[c] + Segments(s)[0]] + Segments(s)[1..]
  {
    var t := [c] + s;
    assert t[1..] == s;
    if c != '/' {
      var k := SlashAt(s);
      assert SlashAt(t) == k + 1;
      if k < |s| {
        assert t[..k + 1] == [c] + s[..k];
        assert t[k + 2..] == s[k + 1..];
      }
    }
  }

  lemma {:induction false} SegmentsPrefix(p: string, s: string, first: string, others: seq<string>)
    requires '/' !in p && Segments(s) == [first] + others
    ensures Segments(p + s) == [p + first] + others
  {
    if p == [] {
      assert p + s == s && p + first == first;
    } else {
      SegmentsPrefix(p[1..], s, first, others);
      Grown(p[0], p[1..] + s, p[1..] + first, others);
      Reassociate(p, s);
      Reassociate(p, first);
    }
  }

  lemma Reassociate(p: string, s: string)
    requires p != []
    ensures [p[0]] + (p[1..] + s) == p + s
  {
  }

  lemma Grown(c: char, s: string, first: string, others: seq<string>)
    requires c != '/' && Segments(s) == [first] + others
    ensures Segments([c] + s) == [[c] + first] + others
  {
    SegmentsCons(c, s);
    assert Segments(s)[1..] == others;
  }

  lemma Unfold(s: string)
    ensures SlashAt(s) == |s| ==> Segments(s) == [s]
    ensures SlashAt(s) < |s| ==> Segments(s) == [s[..SlashAt(s)]] + Segments(s[SlashAt(s) + 1..])
  {
  }

  lemma HasDotCons(first: string, others: seq<string>)
    ensures HasDot([first] + others) <==> IsDot(first) || HasDot(others)
  {
    var all := [first] + others;
    assert forall i :: 0 <= i < |others| ==> all[i + 1] == others[i];
    if HasDot(all) {
      var i :| 0 <= i < |all| && IsDot(all[i]);
      assert i == 0 || others[i - 1] == all[i];
    }
    assert all[0] == first;
  }

  // ----- percent decoding works segment by segment

  lemma EscapedByteIsLocal(s: string, t: string)
    requires EscapedByte(s) >= 0
    ensures EscapedByte(s[..3] + t) == EscapedByte(s) && '/' !in s[..3]
  {
  }

  /** Only a piece's own characters determine it, and a longer one has no slash. */
  lemma DecodeFirstIsLocal(s: string, t: string)
    requires s != [] && DecodeFirst(s).Some?
    ensures var n := DecodeFirst(s).value.length;
            DecodeFirst(s[..n] + t) == DecodeFirst(s) && (s[0] != '/' ==> '/' !in s[..n])
  {
    var n := DecodeFirst(s).value.length;
    if s[0] == '%' {
      var u := s[..n] + t;
      assert s[..3] + s[3..] == s;
      EscapedByteIsLocal(s, u[3..]);
      assert u == s[..3] + u[3..];
      if n >= 6 { EscapeAt(s, t, n, 3); }
      if n >= 9 { EscapeAt(s, t, n, 6); }
      if n >= 12 { EscapeAt(s, t, n, 9); }
      NoSlashes(s, n);
    }
  }

  lemma EscapeAt(s: string, t: string, n: nat, k: nat)
    requires k + 3 <= n <= |s| && EscapedByte(s[k..]) >= 0
    ensures EscapedByte((s[..n] + t)[k..]) == EscapedByte(s[k..])
  {
    var u := s[..n] + t;
    assert u[k..][0] == s[k..][0] && u[k..][1] == s[k..][1] && u[k..][2] == s[k..][2];
  }

  lemma EscapeHasNoSlash(s: string, k: nat)
    requires k <= |s| && EscapedByte(s[k..]) >= 0
    ensures k + 3 <= |s| && s[k] != '/' && s[k + 1] != '/' && s[k + 2] != '/'
  {
    assert s[k..][0] == s[k] && s[k..][1] == s[k + 1] && s[k..][2] == s[k + 2];
  }

  lemma NoSlashes(s: string, n: nat)
    requires s != [] && s[0] == '%' && DecodeFirst(s).Some? && DecodeFirst(s).value.length == n
    ensures '/' !in s[..n]
  {
    assert s[0..] == s;
    EscapeHasNoSlash(s, 0);
    if n >= 6 { EscapeHasNoSlash(s, 3); }
    if n >= 9 { EscapeHasNoSlash(s, 6); }
    if n >= 12 { EscapeHasNoSlash(s, 9); }
  }

  lemma DecodeFirstSlash(s: string)
    requires s != [] && DecodeFirst(s).Some? && !HasSeparatorTrick(s)
    ensures DecodeFirst(s).value.c == '/' <==> s[0] == '/'
  {
  }

  lemma {:induction false} NoTrickLater(s: string, n: nat)
    requires n <= |s| && !HasSeparatorTrick(s)
    ensures !HasSeparatorTrick(s[n..])
  {
    if n == 0 {
      assert s[0..] == s;
    } else {
      NoTrickLater(s[1..], n - 1);
      assert s[1..][n - 1..] == s[n..];
    }
  }

  lemma DecodePiece(s: string, rest: string)
    requires s != [] && DecodeFirst(s).Some? && Decode(rest).Some?
    ensures var p := DecodeFirst(s).value;
            Decode(s[..p.length] + rest) == Some([p.c] + Decode(rest).value)
  {
    var p := DecodeFirst(s).value;
    DecodeFirstIsLocal(s, rest);
    assert (s[..p.length] + rest)[p.length..] == rest;
  }

  ghost predicate DecodedOneByOne(raw: seq<string>, decoded: seq<string>) {
    |raw| == |decoded| && forall i :: 0 <= i < |raw| ==> Decode(raw[i]) == Some(decoded[i])
  }

  lemma FirstDecoded(raw: seq<string>, decoded: seq<string>, x: string, y: string)
    requires DecodedOneByOne(raw, decoded) && raw != [] && Decode(x) == Some(y)
    ensures DecodedOneByOne([x] + raw[1..], [y] + decoded[1..])
    ensures DecodedOneByOne([""] + raw, [""] + decoded)
  {
  }

  /** Without escaped separators, decoding a path decodes its segments one by one. */
  lemma {:induction false} DecodeKeepsSegments(s: string)
    requires !HasSeparatorTrick(s) && Decode(s).Some?
    ensures DecodedOneByOne(Segments(s), Segments(Decode(s).value))
    decreases |s|
  {
    if s != [] {
      var p := DecodeFirst(s).value;
      var rest := s[p.length..];
      NoTrickLater(s, p.length);
      DecodeKeepsSegments(rest);
      DecodeFirstSlash(s);
      assert s == s[..p.length] + rest;
      if s[0] == '/' { SlashStep(s, rest); } else { PieceStep(s, p, rest); }
    }
  }

  lemma SlashStep(s: string, rest: string)
    requires s == "/" + rest && Decode(rest).Some?
    requires DecodedOneByOne(Segments(rest), Segments(Decode(rest).value))
    ensures DecodedOneByOne(Segments(s), Segments(Decode(s).value))
  {
    assert s[1..] == rest;
    FirstDecoded(Segments(rest), Segments(Decode(rest).value), Segments(rest)[0], Segments(Decode(rest).value)[0]);
    SegmentsCons('/', rest);
    SegmentsCons('/', Decode(rest).value);
  }

  lemma PieceStep(s: string, p: Piece, rest: string)
    requires s != [] && s[0] != '/' && DecodeFirst(s) == Some(p) && p.c != '/' && s == s[..p.length] + rest
    requires rest == s[p.length..] && Decode(rest).Some?
    requires DecodedOneByOne(Segments(rest), Segments(Decode(rest).value))
    ensures DecodedOneByOne(Segments(s), Segments(Decode(s).value))
  {
    var raw, decoded := Segments(rest), Segments(Decode(rest).value);
    DecodePiece(s, raw[0]);
    FirstDecoded(raw, decoded, s[..p.length] + raw[0], [p.c] + decoded[0]);
    DecodeFirstIsLocal(s, "");
    assert raw == [raw[0]] + raw[1..];
    SegmentsPrefix(s[..p.length], rest, raw[0], raw[1..]);
    SegmentsCons(p.c, Decode(rest).value);
  }

  lemma PlainDecodes(s: string)
    requires '%' !in s
    ensures Decode(s) == Some(s)
    decreases |s|
  {
    if s != [] {
      PlainDecodes(s[1..]);
      assert s == [s[0]] + s[1..];
    }
  }

  // ----- dot segments

  ghost predicate NoDots(s: string) { !HasDot(Segments(s)) }

  lemma FirstIsNoDot(s: string)
    requires NoDots(s)
    ensures !IsDot(s[..SlashAt(s)])
    ensures SlashAt(s) < |s| ==> NoDots(s[SlashAt(s) + 1..])
  {
    var k := SlashAt(s);
    Unfold(s);
    if k < |s| {
      HasDotCons(s[..k], Segments(s[k + 1..]));
    } else {
      assert s[..k] == s && Segments(s)[0] == s;
    }
  }

  lemma SlashBefore(s: string, k: nat)
    requires k <= |s| && (forall i :: 0 <= i < k ==> s[i] != '/') && (k < |s| ==> s[k] == '/')
    ensures SlashAt(s) == k
  {
  }

  /** The special branches of dot-segment removal are taken at dot segments only. */
  lemma SpecialBranchHasDot(s: string)
    requires s != [] && s[0] == '/'
    ensures "/./" <= s || s == "/." || "/../" <= s || s == "/.." ==> IsDot(s[1..][..SlashAt(s[1..])])
  {
    var tail := s[1..];
    assert forall i :: 0 <= i < |tail| ==> tail[i] == s[i + 1];
    if "/./" <= s || s == "/." {
      SlashBefore(tail, 1);
      assert tail[..1] == ".";
    } else if "/../" <= s || s == "/.." {
      SlashBefore(tail, 2);
      assert tail[..2] == "..";
    }
  }

  lemma RemoveDotsStep(s: string, output: string)
    requires s != [] && s[0] == '/' && NoDots(s[1..])
    ensures RemoveDotsFrom(s, output) == RemoveDotsFrom(s[FirstSegment(s)..], output + s[..FirstSegment(s)])
  {
    SpecialBranchHasDot(s);
    FirstIsNoDot(s[1..]);
  }

  lemma RestHasNoDots(s: string)
    requires s != [] && s[0] == '/' && NoDots(s[1..])
    ensures var rest := s[FirstSegment(s)..]; rest == [] || (rest[0] == '/' && NoDots(rest[1..]))
  {
    var k := FirstSegment(s);
    FirstIsNoDot(s[1..]);
    if k < |s| {
      assert s[k] == s[1..][k - 1];
      assert s[k..][1..] == s[1..][k - 1 + 1..];
    }
  }

  lemma Regrouped(output: string, s: string, k: nat)
    requires k <= |s|
    ensures (output + s[..k]) + s[k..] == output + s
  {
  }

  lemma {:induction false} RemoveDotsCopies(s: string, output: string)
    requires s == [] || (s[0] == '/' && NoDots(s[1..]))
    ensures RemoveDotsFrom(s, output) == output + s
    decreases |s|
  {
    if s == [] {
      assert output + s == output;
    } else {
      var k := FirstSegment(s);
      RemoveDotsStep(s, output);
      RestHasNoDots(s);
      RemoveDotsCopies(s[k..], output + s[..k]);
      Regrouped(output, s, k);
    }
  }

  lemma NoDotsIsFixed(s: string)
    requires s != [] && s[0] == '/' && NoDots(s)
    ensures RemoveDots(s) == s
  {
    assert SlashAt(s) == 0;
    FirstIsNoDot(s);
    RemoveDotsCopies(s, "");
    assert "" + s == s;
  }

  /** A dot segment is dropped, and a double one takes the segment before it along. */
  lemma DotSteps(rest: string, output: string)
    ensures RemoveDotsFrom("/./" + rest, output) == RemoveDotsFrom("/" + rest, output)
    ensures RemoveDotsFrom("/../" + rest, output) == RemoveDotsFrom("/" + rest, DropLast(output))
  {
    var one, two := "/./" + rest, "/../" + rest;
    assert one[0] == '/' && one[1] == '.' && one[2] == '/' && one[2..] == "/" + rest;
    assert two[0] == '/' && two[1] == '.' && two[2] == '.' && two[3..] == "/" + rest;
  }

  /** The other rules: leading dot segments go, a final one leaves its slash. */
  lemma DotRules(rest: string, output: string)
    ensures RemoveDotsFrom("./" + rest, output) == RemoveDotsFrom(rest, output)
    ensures RemoveDotsFrom("../" + rest, output) == RemoveDotsFrom(rest, output)
    ensures RemoveDotsFrom("/.", output) == RemoveDotsFrom("/", output)
    ensures RemoveDotsFrom("/..", output) == RemoveDotsFrom("/", DropLast(output))
    ensures RemoveDotsFrom(".", output) == output && RemoveDotsFrom("..", output) == output
  {
    var one, two := "./" + rest, "../" + rest;
    assert one[0] == '.' && one[1] == '/' && one[2..] == rest;
    assert two[0] == '.' && two[1] == '.' && two[2] == '/' && two[3..] == rest;
  }

  /** The last segment goes with the slash before it. */
  lemma {:induction false} DropLastExactly(before: string, segment: string)
    requires '/' !in segment
    ensures DropLast(before + "/" + segment) == before
    ensures DropLast(segment) == ""
  {
    var s := before + "/" + segment;
    if segment == [] {
      assert s[..|s| - 1] == before;
    } else {
      var shorter := segment[..|segment| - 1];
      DropLastExactly(before, shorter);
      assert s[..|s| - 1] == before + "/" + shorter && s[|s| - 1] == segment[|segment| - 1];
    }
  }

  // ----- the theorems

  lemma DotIsPlain(segment: string)
    ensures IsDot(segment) ==> Decode(segment) == Some(segment)
  {
    if IsDot(segment) { PlainDecodes(segment); }
  }

  lemma NoTraversalIsSafe(path: string)
    requires path != [] && path[0] == '/' && NoTraversal(path).Some?
    ensures Decode(path) == NoTraversal(path)
    ensures NoDots(path) && NoDots(Decode(path).value)
    ensures DecodedOneByOne(Segments(path), Segments(Decode(path).value))
    ensures Decode(path).value != [] && Decode(path).value[0] == '/'
  {
    var raw, decoded := Segments(path), Segments(Decode(path).value);
    DecodeKeepsSegments(path);
    forall i | 0 <= i < |raw| ensures !IsDot(raw[i]) {
      DotIsPlain(raw[i]);
      assert Decode(raw[i]) == Some(decoded[i]) && !IsDot(decoded[i]);
    }
  }

  /** Of every accepted target, the raw path and its decoding have the same segments
      one to one, and dot-segment removal changes neither. */
  lemma AcceptedTargetIsUnambiguous(s: string)
    requires ParseTarget(s).Some?
    ensures var t := ParseTarget(s).value;
            && t.path + t.query == t.raw == s && (t.query == "" || t.query[0] == '?') && '?' !in t.path
            && RemoveDots(t.path) == t.path
            && Decode(t.path).Some?
            && RemoveDots(Decode(t.path).value) == Decode(t.path).value
            && DecodedOneByOne(Segments(t.path), Segments(Decode(t.path).value))
  {
    var t := ParseTarget(s).value;
    assert t.path[0] == '/';
    NoTraversalIsSafe(t.path);
    NoDotsIsFixed(t.path);
    NoDotsIsFixed(Decode(t.path).value);
  }

  /** For a configured path the traversal check only adds that no segment is a dot segment. */
  lemma RoutePathExactly(s: string)
    ensures IsRoutePath(s) <==>
              || s == "/"
              || (2 <= |s| <= 2048 && s[0] == '/' && ArePlain(Segments(s[1..])) && !HasDot(Segments(s[1..])))
  {
    if 2 <= |s| && s[0] == '/' && ArePlain(Segments(s[1..])) { PlainPath(s); }
  }

  ghost predicate IsPlainText(s: string) {
    && (forall i :: 0 <= i < |s| ==> IsPathChar(s[i]) || s[i] == '/')
    && !HasDoubleSlash(s)
  }

  lemma PlainTextCons(first: string, tail: string)
    requires IsPlainSegment(first) && IsPlainText(tail) && tail != [] && tail[0] != '/'
    ensures IsPlainText(first + "/" + tail)
  {
  }

  lemma {:induction false} PlainSegmentsGivePlainText(s: string)
    requires ArePlain(Segments(s))
    ensures s != [] && s[0] != '/' && IsPlainText(s)
    decreases |s|
  {
    var k := SlashAt(s);
    assert s[..|s|] == s;
    assert Segments(s)[0] == s[..k] && IsPlainSegment(s[..k]);
    if k < |s| {
      var tail := s[k + 1..];
      assert forall i :: 0 <= i < |Segments(tail)| ==> Segments(tail)[i] == Segments(s)[i + 1];
      PlainSegmentsGivePlainText(tail);
      PlainTextCons(s[..k], tail);
      assert s == s[..k] + "/" + tail;
    }
  }

  lemma {:induction false} PlainHasNoTrick(s: string)
    requires '%' !in s && '\\' !in s
    ensures !HasSeparatorTrick(s)
  {
    if s != [] { PlainHasNoTrick(s[1..]); }
  }

  lemma PlainPath(s: string)
    requires 2 <= |s| && s[0] == '/' && ArePlain(Segments(s[1..]))
    ensures IsPlainText(s)
    ensures NoTraversal(s) == if HasDot(Segments(s[1..])) then None else Some(s)
  {
    PlainSegmentsGivePlainText(s[1..]);
    assert s == "/" + s[1..];
    RootedPlainText(s[1..]);
    PathCharsAreTame();
    PlainHasNoTrick(s);
    PlainDecodes(s);
    SegmentsCons('/', s[1..]);
    HasDotCons("", Segments(s[1..]));
  }

  lemma RootedPlainText(s: string)
    requires IsPlainText(s) && s != [] && s[0] != '/'
    ensures IsPlainText("/" + s)
  {
    var t := "/" + s;
    assert forall i :: 0 <= i < |s| ==> t[i + 1] == s[i];
  }

  /** A configured path is a fixed point of decoding and of dot-segment removal, and
      requesting it verbatim is accepted as that path. */
  lemma RoutePathIsFixed(p: string)
    requires IsRoutePath(p)
    ensures Decode(p) == Some(p) && RemoveDots(p) == p
    ensures ParseTarget(p) == Some(Target(p, "", p))
  {
    if p == "/" { RootIsFixed(p); }
    else {
      PlainPath(p);
      NoTraversalIsSafe(p);
      NoDotsIsFixed(p);
      PathCharsAreTame();
      assert QuestionAt(p) == |p| && p[..|p|] == p && p[|p|..] == "";
      assert !("//" <= p);
    }
  }

  lemma PathCharsAreTame()
    ensures forall c :: IsPathChar(c) || c == '/' ==> !IsControl(c) && c != '#' && c != '?' && c != '%' && c != '\\'
  {
  }

  lemma RootIsFixed(p: string)
    requires |p| == 1 && p[0] == '/'
    ensures Decode(p) == Some(p) && RemoveDots(p) == p && ParseTarget(p) == Some(Target(p, "", p))
  {
    assert p == "/" + "";
    SegmentsCons('/', "");
    Unfold("");
    HasDotCons("", []);
    HasDotCons("", Segments(""));
    PlainHasNoTrick(p);
    PlainDecodes(p);
    NoDotsIsFixed(p);
    assert p[..QuestionAt(p)] == p && p[QuestionAt(p)..] == "";
  }
}
