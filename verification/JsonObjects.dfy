/** Object literals with omitted fields and string values as JSON values of StableText,
    and why such a value determines what it was made from. */
module JsonObjects {
  import opened Results
  import opened StableText

  // ----- strings as UTF-16

  /** A character as one code unit or as a surrogate pair. */
  function CharUnits(c: char): Text {
    var n := c as int;
    if n < 0x1_0000 then [n] else [0xD800 + (n - 0x1_0000) / 0x400, 0xDC00 + (n - 0x1_0000) % 0x400]
  }

  function Units(s: string): Text { if s == [] then [] else CharUnits(s[0]) + Units(s[1..]) }

  /** The first code unit tells how long the first character is. */
  lemma FirstChar(c: char, d: char, x: Text, y: Text)
    requires CharUnits(c) + x == CharUnits(d) + y
    ensures c == d && x == y
  {
    var s, t := CharUnits(c) + x, CharUnits(d) + y;
    assert s[0] == CharUnits(c)[0] && t[0] == CharUnits(d)[0];
    assert |CharUnits(c)| == |CharUnits(d)|;
    assert s[..|CharUnits(c)|] == CharUnits(c) && t[..|CharUnits(d)|] == CharUnits(d);
    assert s[|CharUnits(c)|..] == x && t[|CharUnits(d)|..] == y;
    if |CharUnits(c)| == 2 { assert s[1] == CharUnits(c)[1] && t[1] == CharUnits(d)[1]; }
  }

  lemma {:induction false} UnitsAreInjective(s: string, t: string)
    requires Units(s) == Units(t)
    ensures s == t
  {
    if s != [] && t != [] {
      FirstChar(s[0], t[0], Units(s[1..]), Units(t[1..]));
      UnitsAreInjective(s[1..], t[1..]);
      assert s == [s[0]] + s[1..] && t == [t[0]] + t[1..];
    }
  }

  function String(s: string): Value { Str(Units(s)) }

  // ----- object literals

  predicate AllDifferent(keys: seq<string>) { forall i, j :: 0 <= i < j < |keys| ==> keys[i] != keys[j] }

  /** The members of an object literal; a field whose value is None is omitted. */
  function Members(keys: seq<string>, values: seq<Option<Value>>): seq<Member>
    requires |keys| == |values|
  {
    if keys == [] then []
    else
      var last := |keys| - 1;
      Members(keys[..last], values[..last])
      + (if values[last].Some? then [Member(Units(keys[last]), values[last].value)] else [])
  }

  function Object(keys: seq<string>, values: seq<Option<Value>>): Value
    requires |keys| == |values|
  {
    Obj(Members(keys, values))
  }

  predicate IsField(keys: seq<string>, values: seq<Option<Value>>, i: int, m: Member)
    requires |keys| == |values|
  {
    0 <= i < |keys| && values[i] == Some(m.value) && m.key == Units(keys[i])
  }

  /** A literal has exactly the fields that are not omitted. */
  lemma {:induction false} MembersAre(keys: seq<string>, values: seq<Option<Value>>, m: Member)
    requires |keys| == |values|
    ensures m in Members(keys, values) <==> exists i :: IsField(keys, values, i, m)
  {
    if keys != [] {
      var last := |keys| - 1;
      MembersAre(keys[..last], values[..last], m);
      if i :| IsField(keys, values, i, m) {
        if i < last { assert IsField(keys[..last], values[..last], i, m); }
      }
      if i :| IsField(keys[..last], values[..last], i, m) { assert IsField(keys, values, i, m); }
      if m == Member(Units(keys[last]), m.value) && values[last] == Some(m.value) { assert IsField(keys, values, last, m); }
    }
  }

  lemma FieldIsMember(keys: seq<string>, values: seq<Option<Value>>, i: nat) returns (k: nat)
    requires |keys| == |values| && i < |keys| && values[i].Some?
    ensures k < |Members(keys, values)| && Members(keys, values)[k] == Member(Units(keys[i]), values[i].value)
  {
    var m := Member(Units(keys[i]), values[i].value);
    assert IsField(keys, values, i, m);
    MembersAre(keys, values, m);
    k :| k < |Members(keys, values)| && Members(keys, values)[k] == m;
  }

  /** The field that a member with a given key stands for. */
  lemma MemberIsField(keys: seq<string>, values: seq<Option<Value>>, k: nat, i: nat)
    requires |keys| == |values| && AllDifferent(keys) && k < |Members(keys, values)| && i < |keys|
    requires Members(keys, values)[k].key == Units(keys[i])
    ensures values[i] == Some(Members(keys, values)[k].value)
  {
    var m := Members(keys, values)[k];
    MembersAre(keys, values, m);
    var j :| IsField(keys, values, j, m);
    UnitsAreInjective(keys[i], keys[j]);
  }

  lemma {:induction false} MembersAreDistinct(keys: seq<string>, values: seq<Option<Value>>)
    requires |keys| == |values| && AllDifferent(keys)
    ensures DistinctKeys(Members(keys, values))
  {
    if keys != [] {
      var last := |keys| - 1;
      var before := Members(keys[..last], values[..last]);
      MembersAreDistinct(keys[..last], values[..last]);
      forall k | 0 <= k < |before| ensures before[k].key != Units(keys[last]) {
        MembersAre(keys[..last], values[..last], before[k]);
        var j :| IsField(keys[..last], values[..last], j, before[k]);
        if before[k].key == Units(keys[last]) { UnitsAreInjective(keys[j], keys[last]); }
      }
    }
  }

  predicate ValidField(x: Option<Value>) { x.Some? ==> Valid(x.value) }

  predicate AllValid(values: seq<Option<Value>>) { forall x :: x in values ==> ValidField(x) }

  lemma ObjectIsValid(keys: seq<string>, values: seq<Option<Value>>)
    requires |keys| == |values| && AllDifferent(keys) && AllValid(values)
    ensures Valid(Object(keys, values))
  {
    MembersAreDistinct(keys, values);
    forall k | 0 <= k < |Members(keys, values)| ensures Valid(Members(keys, values)[k].value) {
      var m := Members(keys, values)[k];
      MembersAre(keys, values, m);
      var i :| IsField(keys, values, i, m);
      assert ValidField(values[i]);
    }
  }

  ghost predicate SameField(x: Option<Value>, y: Option<Value>) {
    if x.Some? && y.Some? then Same(x.value, y.value) else x == y
  }

  /** Literals of one shape are the same exactly when they have the same fields. */
  lemma SameObjects(keys: seq<string>, x: seq<Option<Value>>, y: seq<Option<Value>>)
    requires |keys| == |x| == |y| && AllDifferent(keys)
    requires Same(Object(keys, x), Object(keys, y))
    ensures forall i :: 0 <= i < |keys| ==> SameField(x[i], y[i])
  {
    forall i | 0 <= i < |keys| ensures SameField(x[i], y[i]) {
      if x[i].Some? { MatchingField(keys, x, y, i); }
      else if y[i].Some? {
        var k := FieldIsMember(keys, y, i);
        assert HasKey(Members(keys, x), Members(keys, y)[k].key);
        var j :| 0 <= j < |Members(keys, x)| && Members(keys, x)[j].key == Units(keys[i]);
        MemberIsField(keys, x, j, i);
      }
    }
  }

  lemma MatchingField(keys: seq<string>, x: seq<Option<Value>>, y: seq<Option<Value>>, i: nat)
    requires |keys| == |x| == |y| && AllDifferent(keys) && i < |keys| && x[i].Some?
    requires SameMembers(Members(keys, x), Members(keys, y))
    ensures y[i].Some? && Same(x[i].value, y[i].value)
  {
    var a, b := Members(keys, x), Members(keys, y);
    var k := FieldIsMember(keys, x, i);
    assert HasMatch(a[k], b);
    var j :| 0 <= j < |b| && a[k].key == b[j].key && Same(a[k].value, b[j].value);
    MemberIsField(keys, y, j, i);
  }

  // ----- fields of one kind

  /** Two string fields at the same place. */
  lemma SameString(x: seq<Option<Value>>, y: seq<Option<Value>>, i: nat, s: string, t: string)
    requires i < |x| == |y| && SameField(x[i], y[i]) && x[i] == Some(String(s)) && y[i] == Some(String(t))
    ensures s == t
  {
    UnitsAreInjective(s, t);
  }

  function TextField(s: Option<string>): Option<Value> { if s.Some? then Some(String(s.value)) else None }

  function NumberField(n: Option<int>): Option<Value> { if n.Some? then Some(Num(n.value)) else None }

  lemma TextFieldIsInjective(s: Option<string>, t: Option<string>)
    requires SameField(TextField(s), TextField(t))
    ensures s == t
  {
    if s.Some? && t.Some? { UnitsAreInjective(s.value, t.value); }
  }

  lemma NumberFieldIsInjective(m: Option<int>, n: Option<int>)
    requires SameField(NumberField(m), NumberField(n))
    ensures m == n
  {
  }

  // ----- lists

  function List<T>(items: seq<T>, value: T -> Value): Value {
    Arr(seq(|items|, i requires 0 <= i < |items| => value(items[i])))
  }

  lemma ListIsInjective<T>(x: seq<T>, y: seq<T>, value: T -> Value)
    requires forall a, b :: a in x && b in y && Same(value(a), value(b)) ==> a == b
    requires Same(List(x, value), List(y, value))
    ensures x == y
  {
    assert |List(x, value).items| == |List(y, value).items|;
    forall i | 0 <= i < |x| ensures x[i] == y[i] { assert Same(List(x, value).items[i], List(y, value).items[i]); }
  }

  function Strings(texts: seq<string>): Value { List(texts, String) }

  lemma StringsAreInjective(x: seq<string>, y: seq<string>)
    requires Same(Strings(x), Strings(y))
    ensures x == y
  {
    forall a, b | a in x && b in y && Same(String(a), String(b)) ensures a == b { UnitsAreInjective(a, b); }
    ListIsInjective(x, y, String);
  }

  lemma ListIsValid<T>(items: seq<T>, value: T -> Value)
    requires forall a :: a in items ==> Valid(value(a))
    ensures Valid(List(items, value))
  {
  }
}
