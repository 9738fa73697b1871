/** A parser for what the canonical printer writes. */
module StableParser {
  import opened StableText

  datatype Parsed<T> = Fail | Got(value: T, rest: Text)

  // ----- strings

  function HexValue(u: Unit): (d: int)
    ensures -1 <= d < 16
  {
    if 0x30 <= u <= 0x39 then u - 0x30 else if 0x61 <= u <= 0x66 then u - 0x61 + 10 else -1
  }

  /** The unit that the letter of a two-character escape stands for, -1 if none. */
  function Unescaped(letter: Unit): int {
    if letter == 0x62 then 0x08 else if letter == 0x74 then 0x09 else if letter == 0x6E then 0x0A
    else if letter == 0x66 then 0x0C else if letter == 0x72 then 0x0D
    else if letter == QUOTE || letter == BACKSLASH then letter else -1
  }

  /** One unit of a string, escaped or not. */
  function ParseUnit(t: Text): (r: Parsed<Unit>)
    ensures r.Got? ==> |r.rest| < |t|
  {
    if t == [] then Fail
    else if t[0] != BACKSLASH then Got(t[0], t[1..])
    else if |t| >= 2 && Unescaped(t[1]) >= 0 then Got(Unescaped(t[1]), t[2..])
    else if |t| >= 6 && t[1] == 0x75
            && HexValue(t[2]) >= 0 && HexValue(t[3]) >= 0 && HexValue(t[4]) >= 0 && HexValue(t[5]) >= 0
    then Got(((HexValue(t[2]) * 16 + HexValue(t[3])) * 16 + HexValue(t[4])) * 16 + HexValue(t[5]), t[6..])
    else Fail
  }

  /** The rest of a string up to its closing quote. */
  function ParseUnits(t: Text): (r: Parsed<Text>)
    ensures r.Got? ==> |r.rest| < |t|
    decreases |t|
  {
    if t == [] then Fail
    else if t[0] == QUOTE then Got([], t[1..])
    else match ParseUnit(t)
      case Fail => Fail
      case Got(u, rest) =>
        match ParseUnits(rest)
        case Fail => Fail
        case Got(us, rest') => Got([u] + us, rest')
  }

  function ParseQuoted(t: Text): (r: Parsed<Text>)
    ensures r.Got? ==> |r.rest| < |t|
  {
    if t == [] || t[0] != QUOTE then Fail else ParseUnits(t[1..])
  }

  // ----- integers

  predicate IsDigit(u: Unit) { 0x30 <= u <= 0x39 }

  predicate StartsWithDigit(t: Text) { t != [] && IsDigit(t[0]) }

  /** As many digits as there are, after a prefix of the given value. */
  function ParseDigits(prefix: int, t: Text): (r: Parsed<int>)
    ensures r.Got? && |r.rest| <= |t|
    decreases |t|
  {
    if StartsWithDigit(t) then ParseDigits(prefix * 10 + (t[0] - 0x30), t[1..]) else Got(prefix, t)
  }

  // ----- values

  function Literal(t: Text, word: Text, v: Value): (r: Parsed<Value>)
    ensures r.Got? && word != [] ==> |r.rest| < |t|
  {
    if word <= t then Got(v, t[|word|..]) else Fail
  }

  function ParseNumber(t: Text): (r: Parsed<Value>)
    ensures r.Got? ==> |r.rest| < |t|
  {
    if t != [] && t[0] == MINUS && StartsWithDigit(t[1..]) then
      var r := ParseDigits(0, t[1..]); Got(Num(-r.value), r.rest)
    else if StartsWithDigit(t) then
      var r := ParseDigits(t[0] - 0x30, t[1..]); Got(Num(r.value), r.rest)
    else Fail
  }

  function Parse(t: Text): (r: Parsed<Value>)
    ensures r.Got? ==> |r.rest| < |t|
    decreases |t|, 0
  {
    if t == [] then Fail
    else if t[0] == NULL[0] then Literal(t, NULL, Null)
    else if t[0] == TRUE[0] then Literal(t, TRUE, Bool(true))
    else if t[0] == FALSE[0] then Literal(t, FALSE, Bool(false))
    else if t[0] == QUOTE then
      match ParseQuoted(t)
      case Fail => Fail
      case Got(s, rest) => Got(Str(s), rest)
    else if t[0] == OPEN_BRACKET then
      if |t| > 1 && t[1] == CLOSE_BRACKET then Got(Arr([]), t[2..])
      else match ParseItems(t[1..])
        case Fail => Fail
        case Got(items, rest) => Got(Arr(items), rest)
    else if t[0] == OPEN_BRACE then
      if |t| > 1 && t[1] == CLOSE_BRACE then Got(Obj([]), t[2..])
      else match ParseMembers(t[1..])
        case Fail => Fail
        case Got(members, rest) => Got(Obj(members), rest)
    else ParseNumber(t)
  }

  /** One or more values up to the closing bracket. */
  function ParseItems(t: Text): (r: Parsed<seq<Value>>)
    ensures r.Got? ==> |r.rest| < |t|
    decreases |t|, 1
  {
    match Parse(t)
    case Fail => Fail
    case Got(v, rest) =>
      if rest != [] && rest[0] == CLOSE_BRACKET then Got([v], rest[1..])
      else if rest != [] && rest[0] == COMMA then
        match ParseItems(rest[1..])
        case Fail => Fail
        case Got(vs, rest') => Got([v] + vs, rest')
      else Fail
  }

  function ParseMember(t: Text): (r: Parsed<Member>)
    ensures r.Got? ==> |r.rest| < |t|
    decreases |t|, 1
  {
    match ParseQuoted(t)
    case Fail => Fail
    case Got(key, rest) =>
      if rest == [] || rest[0] != COLON then Fail
      else match Parse(rest[1..])
        case Fail => Fail
        case Got(v, rest') => Got(Member(key, v), rest')
  }

  function ParseMembers(t: Text): (r: Parsed<seq<Member>>)
    ensures r.Got? ==> |r.rest| < |t|
    decreases |t|, 2
  {
    match ParseMember(t)
    case Fail => Fail
    case Got(m, rest) =>
      if rest != [] && rest[0] == CLOSE_BRACE then Got([m], rest[1..])
      else if rest != [] && rest[0] == COMMA then
        match ParseMembers(rest[1..])
        case Fail => Fail
        case Got(ms, rest') => Got([m] + ms, rest')
      else Fail
  }
}
