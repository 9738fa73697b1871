/** Canonical printing is uniquely decodable: the parser inverts it, and two values
    print alike exactly when they are equal up to the order of object keys. */
module StableRoundTrip {
  import opened Sorting
  import opened StableText
  import opened StableParser

  // ----- strings

  lemma HexBack(d: int)
    requires 0 <= d < 16
    ensures HexValue(HexDigit(d)) == d
  {
  }

  lemma HexDigitsAddUp(u: Unit)
    ensures 0 <= u / 0x1000 < 16
    ensures u / 0x1000 * 0x1000 + u / 0x100 % 16 * 0x100 + u / 0x10 % 16 * 0x10 + u % 16 == u
  {
    assert u / 0x100 == u / 0x1000 * 16 + u / 0x100 % 16;
    assert u / 0x10 == u / 0x100 * 16 + u / 0x10 % 16;
  }

  lemma EscapeBack(u: Unit, more: Text)
    ensures ParseUnit(UnicodeEscape(u) + more) == Got(u, more)
  {
    var t := UnicodeEscape(u) + more;
    HexDigitsAddUp(u);
    HexBack(u / 0x1000);
    HexBack(u / 0x100 % 16);
    HexBack(u / 0x10 % 16);
    HexBack(u % 16);
    assert t[6..] == more;
  }

  lemma UnitBack(s: Text, i: nat, more: Text)
    requires i < |s|
    ensures ParseUnit(QuotedUnit(s, i) + more) == Got(s[i], more)
    ensures QuotedUnit(s, i) != [] && QuotedUnit(s, i)[0] != QUOTE
  {
    var t := QuotedUnit(s, i) + more;
    if ShortEscape(s[i]) != 0 {
      assert t[2..] == more;
    } else if s[i] < 0x20 || IsLone(s, i) {
      EscapeBack(s[i], more);
    } else {
      assert t[1..] == more;
    }
  }

  lemma UnitThenUnits(t: Text, u: Unit, more: Text, us: Text, rest: Text)
    requires t != [] && t[0] != QUOTE && ParseUnit(t) == Got(u, more) && ParseUnits(more) == Got(us, rest)
    ensures ParseUnits(t) == Got([u] + us, rest)
  {
  }

  lemma ClosingQuote(rest: Text)
    ensures ParseUnits([QUOTE] + rest) == Got([], rest)
  {
    assert ([QUOTE] + rest)[1..] == rest;
  }

  lemma Associative(a: Text, b: Text, c: Text)
    ensures (a + b) + c == a + (b + c)
  {
  }

  lemma {:induction false} UnitsBack(s: Text, i: nat, rest: Text)
    requires i <= |s|
    ensures ParseUnits(QuotedFrom(s, i) + rest) == Got(s[i..], rest)
    decreases |s| - i
  {
    if i == |s| {
      ClosingQuote(rest);
      assert s[i..] == [];
    } else {
      UnitsBack(s, i + 1, rest);
      OneUnitBack(s, i, QuotedFrom(s, i + 1), rest);
    }
  }

  lemma OneUnitBack(s: Text, i: nat, quoted: Text, rest: Text)
    requires i < |s| && ParseUnits(quoted + rest) == Got(s[i + 1..], rest)
    ensures ParseUnits(QuotedUnit(s, i) + quoted + rest) == Got(s[i..], rest)
  {
    UnitBack(s, i, quoted + rest);
    UnitThenUnits(QuotedUnit(s, i) + (quoted + rest), s[i], quoted + rest, s[i + 1..], rest);
    Associative(QuotedUnit(s, i), quoted, rest);
    assert [s[i]] + s[i + 1..] == s[i..];
  }

  lemma QuotedBack(s: Text, rest: Text)
    ensures ParseQuoted(Quoted(s) + rest) == Got(s, rest)
  {
    assert (Quoted(s) + rest)[1..] == QuotedFrom(s, 0) + rest;
    UnitsBack(s, 0, rest);
    assert s[0..] == s;
  }

  // ----- integers

  lemma {:induction false} DigitsBack(n: nat, rest: Text)
    ensures ParseDigits(0, Digits(n) + rest) == ParseDigits(n, rest)
    ensures StartsWithDigit(Digits(n))
  {
    if n < 10 {
      assert (Digits(n) + rest)[1..] == rest;
    } else {
      var last: Text := [0x30 + n % 10];
      assert Digits(n) + rest == Digits(n / 10) + (last + rest);
      DigitsBack(n / 10, last + rest);
      assert (last + rest)[1..] == rest;
    }
  }

  lemma NegativeBack(n: int, rest: Text)
    requires n < 0 && !StartsWithDigit(rest)
    ensures ParseNumber([MINUS] + Digits(-n) + rest) == Got(Num(n), rest)
  {
    DigitsBack(-n, rest);
    assert ([MINUS] + Digits(-n) + rest)[1..] == Digits(-n) + rest;
  }

  lemma NaturalBack(n: nat, rest: Text)
    requires !StartsWithDigit(rest)
    ensures ParseNumber(Digits(n) + rest) == Got(Num(n), rest)
  {
    DigitsBack(n, rest);
  }

  lemma NumberBack(n: int, rest: Text)
    requires !StartsWithDigit(rest)
    ensures ParseNumber(Decimal(n) + rest) == Got(Num(n), rest)
    ensures var first := Decimal(n)[0]; Decimal(n) != [] && (IsDigit(first) || first == MINUS)
  {
    if n < 0 { NegativeBack(n, rest); }
    else { NaturalBack(n, rest); DigitsBack(n, rest); }
  }

  // ----- values

  /** No value starts like a closing bracket. */
  lemma StableStarts(v: Value)
    ensures Stable(v) != [] && Stable(v)[0] != CLOSE_BRACKET && Stable(v)[0] != CLOSE_BRACE
  {
    if v.Num? { NumberBack(v.n, []); }
  }

  /** Parsing what was printed gives the canonical form and the text that follows. */
  lemma {:induction false} ParseBack(v: Value, rest: Text)
    requires !StartsWithDigit(rest)
    ensures Parse(Stable(v) + rest) == Got(Canon(v), rest)
    decreases Size(v), 1
  {
    var t := Stable(v) + rest;
    match v {
      case Null => LiteralBack(NULL, rest);
      case Bool(b) => LiteralBack(if b then TRUE else FALSE, rest);
      case Num(n) => NumberBack(n, rest);
      case Str(s) => QuotedBack(s, rest);
      case Arr(items) => ArrBack(items, rest);
      case Obj(members) => ObjBack(members, rest);
    }
  }

  lemma LiteralBack(word: Text, rest: Text)
    ensures word <= word + rest && (word + rest)[|word|..] == rest
  {
  }

  lemma {:induction false} ArrBack(items: seq<Value>, rest: Text)
    ensures Parse(Stable(Arr(items)) + rest) == Got(Canon(Arr(items)), rest)
    decreases SizeOfItems(items) + 1, 0
  {
    var t := Stable(Arr(items)) + rest;
    if items == [] {
      assert t[2..] == rest;
    } else {
      assert t[1..] == StableItems(items) + ([CLOSE_BRACKET] + rest);
      ItemsBack(items, rest);
      StableStarts(items[0]);
      assert t[1] == Stable(items[0])[0];
    }
  }

  lemma {:induction false} ItemsBack(items: seq<Value>, rest: Text)
    requires items != []
    ensures ParseItems(StableItems(items) + ([CLOSE_BRACKET] + rest)) == Got(CanonItems(items), rest)
    decreases SizeOfItems(items), 2
  {
    var t := StableItems(items) + ([CLOSE_BRACKET] + rest);
    if |items| == 1 {
      ParseBack(items[0], [CLOSE_BRACKET] + rest);
      assert ([CLOSE_BRACKET] + rest)[1..] == rest;
      assert CanonItems(items) == [Canon(items[0])];
    } else {
      var more := StableItems(items[1..]) + ([CLOSE_BRACKET] + rest);
      assert t == Stable(items[0]) + ([COMMA] + more);
      ParseBack(items[0], [COMMA] + more);
      assert ([COMMA] + more)[1..] == more;
      ItemsBack(items[1..], rest);
    }
  }

  lemma {:induction false} ObjBack(members: seq<Member>, rest: Text)
    ensures Parse(Stable(Obj(members)) + rest) == Got(Canon(Obj(members)), rest)
    decreases SizeOfMembers(members) + 1, 0
  {
    var t := Stable(Obj(members)) + rest;
    var sorted := SortedMembers(members);
    if sorted == [] {
      assert t[2..] == rest;
    } else {
      assert t[1..] == StableMembers(sorted) + ([CLOSE_BRACE] + rest);
      MembersBack(sorted, rest);
      assert t[1] == QUOTE;
    }
  }

  lemma {:induction false} MemberBack(m: Member, rest: Text)
    requires !StartsWithDigit(rest)
    ensures ParseMember(StableMember(m) + rest) == Got(Member(m.key, Canon(m.value)), rest)
    decreases Size(m.value), 2
  {
    var more := [COLON] + (Stable(m.value) + rest);
    assert StableMember(m) + rest == Quoted(m.key) + more;
    QuotedBack(m.key, more);
    assert more[1..] == Stable(m.value) + rest;
    ParseBack(m.value, rest);
  }

  lemma {:induction false} MembersBack(members: seq<Member>, rest: Text)
    requires members != []
    ensures ParseMembers(StableMembers(members) + ([CLOSE_BRACE] + rest)) == Got(CanonMembers(members), rest)
    decreases SizeOfMembers(members), 2
  {
    if |members| == 1 {
      MemberBack(members[0], [CLOSE_BRACE] + rest);
      assert ([CLOSE_BRACE] + rest)[1..] == rest;
      assert CanonMembers(members) == [Member(members[0].key, Canon(members[0].value))];
    } else {
      var others := StableMembers(members[1..]);
      var more := others + ([CLOSE_BRACE] + rest);
      MemberBack(members[0], [COMMA] + more);
      MembersBack(members[1..], rest);
      MemberThenMembers(StableMember(members[0]) + ([COMMA] + more), Member(members[0].key, Canon(members[0].value)),
                        more, CanonMembers(members[1..]), rest);
      Associative(StableMember(members[0]) + [COMMA], others, [CLOSE_BRACE] + rest);
      Associative(StableMember(members[0]), [COMMA], more);
    }
  }

  lemma MemberThenMembers(t: Text, m: Member, more: Text, ms: seq<Member>, rest: Text)
    requires ParseMember(t) == Got(m, [COMMA] + more) && ParseMembers(more) == Got(ms, rest)
    ensures ParseMembers(t) == Got([m] + ms, rest)
  {
    assert ([COMMA] + more)[1..] == more;
  }

  // ----- the canonical form is what the printer keeps

  lemma BeforeIsStrict()
    ensures StrictOrder(Before)
  {
    forall a: Text ensures !Before(a, a) { BeforeIrreflexive(a); }
    forall a: Text, b: Text, c: Text | Before(a, b) && Before(b, c) ensures Before(a, c) { BeforeTransitive(a, b, c); }
  }

  lemma {:induction false} BeforeIrreflexive(a: Text)
    ensures !Before(a, a)
  {
    if a != [] { BeforeIrreflexive(a[1..]); }
  }

  lemma {:induction false} BeforeTransitive(a: Text, b: Text, c: Text)
    requires Before(a, b) && Before(b, c)
    ensures Before(a, c)
  {
    if a != [] && a[0] == b[0] == c[0] { BeforeTransitive(a[1..], b[1..], c[1..]); }
  }

  lemma {:induction false} BeforeTotal(a: Text, b: Text)
    ensures a == b || Before(a, b) || Before(b, a)
  {
    if a != [] && b != [] && a[0] == b[0] {
      BeforeTotal(a[1..], b[1..]);
      assert a == [a[0]] + a[1..] && b == [b[0]] + b[1..];
    }
  }

  lemma KeyBeforeIsStrict()
    ensures StrictOrder(KeyBefore)
  {
    BeforeIsStrict();
  }

  lemma SortedIsIncreasing(members: seq<Member>)
    requires DistinctKeys(members)
    ensures Increasing(SortedMembers(members), KeyBefore)
    ensures multiset(SortedMembers(members)) == multiset(members) && |SortedMembers(members)| == |members|
  {
    KeyBeforeIsStrict();
    forall i, j | 0 <= i < j < |members|
      ensures KeyBefore(members[i], members[j]) || KeyBefore(members[j], members[i])
    {
      BeforeTotal(members[i].key, members[j].key);
    }
    SortIncreases(members, KeyBefore);
    SortPermutes(members, KeyBefore);
  }

  lemma {:induction false} CanonMembersAre(members: seq<Member>, i: nat)
    requires i < |members|
    ensures |CanonMembers(members)| == |members|
    ensures CanonMembers(members)[i] == Member(members[i].key, Canon(members[i].value))
  {
    if i > 0 { CanonMembersAre(members[1..], i - 1); }
    else if |members| > 1 { CanonMembersAre(members[1..], 0); }
  }

  lemma {:induction false} CanonItemsAre(items: seq<Value>, i: nat)
    requires i < |items|
    ensures |CanonItems(items)| == |items| && CanonItems(items)[i] == Canon(items[i])
  {
    if i > 0 { CanonItemsAre(items[1..], i - 1); }
    else if |items| > 1 { CanonItemsAre(items[1..], 0); }
  }
}
