/** The canonical printer of src/config.js: `JSON.stringify` of strings and integers,
    and `stableStringify`, on UTF-16 code units. */
module StableText {
  import opened Numbers
  import opened Sorting

  /** A UTF-16 code unit. */
  type Unit = u: int | 0 <= u < 0x1_0000

  type Text = seq<Unit>

  datatype Member = Member(key: Text, value: Value)

  datatype Value = Null | Bool(b: bool) | Num(n: int) | Str(s: Text) | Arr(items: seq<Value>) | Obj(members: seq<Member>)

  /** What JavaScript can hold: safe integers and objects with distinct keys. */
  predicate Valid(v: Value) {
    match v
    case Num(n) => -MAX_SAFE_INTEGER <= n <= MAX_SAFE_INTEGER
    case Arr(items) => forall i :: 0 <= i < |items| ==> Valid(items[i])
    case Obj(members) => ValidMembers(members) && DistinctKeys(members)
    case _ => true
  }

  predicate ValidMembers(members: seq<Member>) { forall i :: 0 <= i < |members| ==> Valid(members[i].value) }

  predicate DistinctKeys(members: seq<Member>) {
    forall i, j :: 0 <= i < j < |members| ==> members[i].key != members[j].key
  }

  // ----- sizes, for the recursions that follow the sorted order

  function Size(v: Value): nat {
    match v
    case Arr(items) => 1 + SizeOfItems(items)
    case Obj(members) => 1 + SizeOfMembers(members)
    case _ => 1
  }

  function SizeOfItems(items: seq<Value>): nat {
    if items == [] then 0 else 1 + Size(items[0]) + SizeOfItems(items[1..])
  }

  function SizeOfMembers(members: seq<Member>): nat {
    if members == [] then 0 else 1 + Size(members[0].value) + SizeOfMembers(members[1..])
  }

  // ----- key order

  /** `<` on strings compares code units. */
  predicate Before(a: Text, b: Text) {
    if b == [] then false
    else if a == [] then true
    else if a[0] != b[0] then a[0] < b[0]
    else Before(a[1..], b[1..])
  }

  predicate KeyBefore(a: Member, b: Member) { Before(a.key, b.key) }

  /** `Object.keys(value).sort()`, with the values still attached. */
  function SortedMembers(members: seq<Member>): (r: seq<Member>)
    ensures SizeOfMembers(r) == SizeOfMembers(members)
  {
    SortKeepsSize(members);
    Sort(members, KeyBefore)
  }

  lemma {:induction false} InsertKeepsSize(m: Member, members: seq<Member>)
    ensures SizeOfMembers(Insert(m, members, KeyBefore)) == 1 + Size(m.value) + SizeOfMembers(members)
  {
    var r := Insert(m, members, KeyBefore);
    if members != [] && KeyBefore(members[0], m) {
      InsertKeepsSize(m, members[1..]);
      assert r[0] == members[0] && r[1..] == Insert(m, members[1..], KeyBefore);
    } else {
      assert r[0] == m && r[1..] == members;
    }
  }

  lemma {:induction false} SortKeepsSize(members: seq<Member>)
    ensures SizeOfMembers(Sort(members, KeyBefore)) == SizeOfMembers(members)
  {
    if members != [] {
      SortKeepsSize(members[1..]);
      InsertKeepsSize(members[0], Sort(members[1..], KeyBefore));
    }
  }

  // ----- strings (RFC 8259, section 7, as JSON.stringify chooses among its escapes)

  const QUOTE: Unit := 0x22
  const BACKSLASH: Unit := 0x5C
  const COMMA: Unit := 0x2C
  const COLON: Unit := 0x3A
  const OPEN_BRACKET: Unit := 0x5B
  const CLOSE_BRACKET: Unit := 0x5D
  const OPEN_BRACE: Unit := 0x7B
  const CLOSE_BRACE: Unit := 0x7D
  const MINUS: Unit := 0x2D

  predicate IsLead(u: Unit) { 0xD800 <= u <= 0xDBFF }
  predicate IsTrail(u: Unit) { 0xDC00 <= u <= 0xDFFF }

  /** A surrogate that is not half of a pair. */
  predicate IsLone(s: Text, i: nat)
    requires i < |s|
  {
    || (IsLead(s[i]) && !(i + 1 < |s| && IsTrail(s[i + 1])))
    || (IsTrail(s[i]) && !(i > 0 && IsLead(s[i - 1])))
  }

  function HexDigit(d: int): Unit
    requires 0 <= d < 16
  {
    if d < 10 then 0x30 + d else 0x61 + d - 10
  }

  function UnicodeEscape(u: Unit): Text {
    [BACKSLASH, 0x75, HexDigit(u / 0x1000), HexDigit(u / 0x100 % 16), HexDigit(u / 0x10 % 16), HexDigit(u % 16)]
  }

  /** The letter of a two-character escape, 0 if there is none. */
  function ShortEscape(u: Unit): Unit {
    if u == 0x08 then 0x62 else if u == 0x09 then 0x74 else if u == 0x0A then 0x6E
    else if u == 0x0C then 0x66 else if u == 0x0D then 0x72
    else if u == QUOTE || u == BACKSLASH then u else 0
  }

  function QuotedUnit(s: Text, i: nat): Text
    requires i < |s|
  {
    if ShortEscape(s[i]) != 0 then [BACKSLASH, ShortEscape(s[i])]
    else if s[i] < 0x20 || IsLone(s, i) then UnicodeEscape(s[i])
    else [s[i]]
  }

  /** How each code unit of a string is printed: everything stands for itself except the
      quote, the backslash, control units and lone surrogates. */
  lemma QuotedUnitExactly(s: Text, i: nat)
    requires i < |s|
    ensures var u, q := s[i], QuotedUnit(s, i);
            && (u == 0x22 ==> q == [0x5C, 0x22]) && (u == 0x5C ==> q == [0x5C, 0x5C])
            && (u == 0x08 ==> q == [0x5C, 0x62]) && (u == 0x09 ==> q == [0x5C, 0x74]) && (u == 0x0A ==> q == [0x5C, 0x6E])
            && (u == 0x0C ==> q == [0x5C, 0x66]) && (u == 0x0D ==> q == [0x5C, 0x72])
            && (u < 0x20 && u !in {0x08, 0x09, 0x0A, 0x0C, 0x0D} ==>
                  q == [0x5C, 0x75, 0x30, 0x30, 0x30 + u / 0x10, if u % 0x10 < 10 then 0x30 + u % 0x10 else 0x57 + u % 0x10])
            && (q == [u] <==> u >= 0x20 && u != 0x22 && u != 0x5C && !IsLone(s, i))
  {
  }

  function QuotedFrom(s: Text, i: nat): Text
    requires i <= |s|
    decreases |s| - i
  {
    if i == |s| then [QUOTE] else QuotedUnit(s, i) + QuotedFrom(s, i + 1)
  }

  function Quoted(s: Text): Text { [QUOTE] + QuotedFrom(s, 0) }

  // ----- integers

  function Digits(n: nat): Text {
    if n < 10 then [0x30 + n] else Digits(n / 10) + [0x30 + n % 10]
  }

  function Decimal(n: int): Text { if n < 0 then [MINUS] + Digits(-n) else Digits(n) }

  // ----- values

  const NULL: Text := [0x6E, 0x75, 0x6C, 0x6C]
  const TRUE: Text := [0x74, 0x72, 0x75, 0x65]
  const FALSE: Text := [0x66, 0x61, 0x6C, 0x73, 0x65]

  lemma SortTwo(x: Member, y: Member)
    requires KeyBefore(y, x)
    ensures Sort([x, y], KeyBefore) == [y, x]
  {
    assert [x, y][1..] == [y] && Sort([y], KeyBefore) == [y];
    assert [y][1..] == [] && Insert(x, [], KeyBefore) == [x];
  }

  const SAMPLE := Arr([Num(1), Str([0x2F, 0x78]), Bool(true), Null])

  lemma ItemsSample()
    ensures Stable(SAMPLE) ==
              [0x5B, 0x31, 0x2C, 0x22, 0x2F, 0x78, 0x22, 0x2C, 0x74, 0x72, 0x75, 0x65, 0x2C, 0x6E, 0x75, 0x6C, 0x6C, 0x5D]
  {
    assert Quoted([0x2F, 0x78]) == [0x22, 0x2F, 0x78, 0x22];
    assert StableItems([Null]) == NULL;
    assert StableItems([Bool(true), Null]) == TRUE + [0x2C] + NULL;
    assert StableItems([Str([0x2F, 0x78]), Bool(true), Null]) == [0x22, 0x2F, 0x78, 0x22] + [0x2C] + (TRUE + [0x2C] + NULL);
  }

  /** An object with two members is printed with the smaller key first: braces around
      both, a comma between them, and in each the quoted key, a colon and the value. */
  lemma StableTwo(a: Member, b: Member)
    requires KeyBefore(a, b)
    ensures Stable(Obj([b, a])) ==
              [0x7B] + (Quoted(a.key) + [0x3A] + Stable(a.value) + [0x2C] + (Quoted(b.key) + [0x3A] + Stable(b.value))) + [0x7D]
  {
    SortTwo(b, a);
    var members := [a, b];
    assert members[1..] == [b] && StableMembers([b]) == StableMember(b);
    assert StableMembers(members) == StableMember(a) + [COMMA] + StableMember(b);
    assert SortedMembers([b, a]) == members;
  }

  lemma NumberSample()
    ensures Stable(Num(-20)) == [0x2D, 0x32, 0x30] && Stable(Num(0)) == [0x30]
  {
    assert Digits(20) == Digits(2) + [0x30];
  }

  /** stableStringify */
  function Stable(v: Value): Text
    decreases Size(v), 1
  {
    match v
    case Null => NULL
    case Bool(b) => if b then TRUE else FALSE
    case Num(n) => Decimal(n)
    case Str(s) => Quoted(s)
    case Arr(items) => [OPEN_BRACKET] + StableItems(items) + [CLOSE_BRACKET]
    case Obj(members) => [OPEN_BRACE] + StableMembers(SortedMembers(members)) + [CLOSE_BRACE]
  }

  function StableItems(items: seq<Value>): Text
    decreases SizeOfItems(items), 0
  {
    if items == [] then []
    else if |items| == 1 then Stable(items[0])
    else Stable(items[0]) + [COMMA] + StableItems(items[1..])
  }

  function StableMember(m: Member): Text
    decreases Size(m.value), 2
  {
    Quoted(m.key) + [COLON] + Stable(m.value)
  }

  function StableMembers(members: seq<Member>): Text
    decreases SizeOfMembers(members), 0
  {
    if members == [] then []
    else if |members| == 1 then StableMember(members[0])
    else StableMember(members[0]) + [COMMA] + StableMembers(members[1..])
  }

  // ----- what the printer forgets

  /** The value with every object's keys in sorted order. */
  function Canon(v: Value): Value
    decreases Size(v), 1
  {
    match v
    case Arr(items) => Arr(CanonItems(items))
    case Obj(members) => Obj(CanonMembers(SortedMembers(members)))
    case _ => v
  }

  function CanonItems(items: seq<Value>): (r: seq<Value>)
    decreases SizeOfItems(items), 0
  {
    if items == [] then [] else [Canon(items[0])] + CanonItems(items[1..])
  }

  function CanonMembers(members: seq<Member>): (r: seq<Member>)
    decreases SizeOfMembers(members), 0
  {
    if members == [] then [] else [Member(members[0].key, Canon(members[0].value))] + CanonMembers(members[1..])
  }

  /** Equal up to the order of object keys. */
  ghost predicate Same(a: Value, b: Value) {
    match (a, b)
    case (Arr(x), Arr(y)) => |x| == |y| && forall i :: 0 <= i < |x| ==> Same(x[i], y[i])
    case (Obj(x), Obj(y)) => SameMembers(x, y)
    case _ => a == b
  }

  ghost predicate SameMembers(x: seq<Member>, y: seq<Member>) {
    && (forall i :: 0 <= i < |x| ==> HasMatch(x[i], y))
    && (forall j :: 0 <= j < |y| ==> HasKey(x, y[j].key))
  }

  ghost predicate HasMatch(m: Member, y: seq<Member>) {
    exists j :: 0 <= j < |y| && m.key == y[j].key && Same(m.value, y[j].value)
  }

  predicate HasKey(x: seq<Member>, key: Text) { exists i :: 0 <= i < |x| && x[i].key == key }
}
