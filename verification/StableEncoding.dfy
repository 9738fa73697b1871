/** The printed text is well-formed UTF-16 even when the strings are not, so encoding it
    as UTF-8 for the digest loses nothing. */
module StableEncoding {
  import opened Sorting
  import opened StableText

  ghost predicate WellFormed(t: Text) { forall i :: 0 <= i < |t| ==> !IsLone(t, i) }

  lemma ConcatIsWellFormed(a: Text, b: Text)
    requires WellFormed(a) && WellFormed(b)
    ensures WellFormed(a + b)
  {
    forall i | 0 <= i < |a + b| ensures !IsLone(a + b, i) {
      if i < |a| { assert !IsLone(a, i); } else { assert !IsLone(b, i - |a|); }
    }
  }

  lemma PlainIsWellFormed(t: Text)
    requires forall i :: 0 <= i < |t| ==> t[i] < 0xD800
    ensures WellFormed(t)
  {
  }

  lemma UnitIsWellFormed(s: Text, i: nat)
    requires i < |s| && (IsLone(s, i) || !(IsLead(s[i]) || IsTrail(s[i])))
    ensures WellFormed(QuotedUnit(s, i))
  {
  }

  lemma PairIsQuoted(s: Text, i: nat)
    requires i + 1 < |s| && IsLead(s[i]) && IsTrail(s[i + 1])
    ensures QuotedFrom(s, i) == [s[i], s[i + 1]] + QuotedFrom(s, i + 2)
    ensures WellFormed([s[i], s[i + 1]])
  {
    assert QuotedUnit(s, i) == [s[i]] && QuotedUnit(s, i + 1) == [s[i + 1]];
    assert QuotedFrom(s, i + 1) == [s[i + 1]] + QuotedFrom(s, i + 2);
  }

  /** From the start of any code point on. */
  lemma {:induction false} QuotedFromIsWellFormed(s: Text, i: nat)
    requires i <= |s| && !(0 < i < |s| && IsLead(s[i - 1]) && IsTrail(s[i]))
    ensures WellFormed(QuotedFrom(s, i))
    decreases |s| - i
  {
    if i == |s| {
    } else if i + 1 < |s| && IsLead(s[i]) && IsTrail(s[i + 1]) {
      QuotedFromIsWellFormed(s, i + 2);
      PairIsQuoted(s, i);
      ConcatIsWellFormed([s[i], s[i + 1]], QuotedFrom(s, i + 2));
    } else {
      QuotedFromIsWellFormed(s, i + 1);
      UnitIsWellFormed(s, i);
      ConcatIsWellFormed(QuotedUnit(s, i), QuotedFrom(s, i + 1));
    }
  }

  lemma QuotedIsWellFormed(s: Text)
    ensures WellFormed(Quoted(s))
  {
    QuotedFromIsWellFormed(s, 0);
    ConcatIsWellFormed([QUOTE], QuotedFrom(s, 0));
  }

  lemma {:induction false} DigitsArePlain(n: nat)
    ensures forall i :: 0 <= i < |Digits(n)| ==> 0x30 <= Digits(n)[i] <= 0x39
  {
    if n >= 10 { DigitsArePlain(n / 10); }
  }

  /** Whatever the strings contain. */
  lemma {:induction false} StableIsWellFormed(v: Value)
    ensures WellFormed(Stable(v))
    decreases Size(v), 1
  {
    match v {
      case Num(n) => DigitsArePlain(if n < 0 then -n else n); PlainIsWellFormed(Stable(v));
      case Str(s) => QuotedIsWellFormed(s);
      case Arr(items) =>
        ItemsAreWellFormed(items);
        BracketedIsWellFormed(OPEN_BRACKET, StableItems(items), CLOSE_BRACKET);
      case Obj(members) =>
        MembersAreWellFormed(SortedMembers(members));
        BracketedIsWellFormed(OPEN_BRACE, StableMembers(SortedMembers(members)), CLOSE_BRACE);
      case _ => PlainIsWellFormed(Stable(v));
    }
  }

  lemma BracketedIsWellFormed(first: Unit, t: Text, last: Unit)
    requires first < 0xD800 && last < 0xD800 && WellFormed(t)
    ensures WellFormed([first] + t + [last])
  {
    ConcatIsWellFormed([first], t);
    ConcatIsWellFormed([first] + t, [last]);
  }

  lemma {:induction false} ItemsAreWellFormed(items: seq<Value>)
    ensures WellFormed(StableItems(items))
    decreases SizeOfItems(items), 0
  {
    if items != [] {
      StableIsWellFormed(items[0]);
      ItemsAreWellFormed(items[1..]);
      ConcatIsWellFormed(Stable(items[0]), [COMMA]);
      ConcatIsWellFormed(Stable(items[0]) + [COMMA], StableItems(items[1..]));
    }
  }

  lemma {:induction false} MembersAreWellFormed(members: seq<Member>)
    ensures WellFormed(StableMembers(members))
    decreases SizeOfMembers(members), 0
  {
    if members != [] {
      var m := members[0];
      QuotedIsWellFormed(m.key);
      StableIsWellFormed(m.value);
      ConcatIsWellFormed(Quoted(m.key), [COLON]);
      ConcatIsWellFormed(Quoted(m.key) + [COLON], Stable(m.value));
      MembersAreWellFormed(members[1..]);
      ConcatIsWellFormed(StableMember(m), [COMMA]);
      ConcatIsWellFormed(StableMember(m) + [COMMA], StableMembers(members[1..]));
    }
  }
}
