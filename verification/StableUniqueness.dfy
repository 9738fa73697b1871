/** Two values print alike exactly when they are equal up to the order of object keys. */
module StableUniqueness {
  import opened Sorting
  import opened StableText
  import opened StableParser
  import opened StableRoundTrip

  lemma SmallerMember(members: seq<Member>, i: nat)
    requires i < |members|
    ensures Size(members[i].value) < SizeOfMembers(members)
  {
    if i > 0 { SmallerMember(members[1..], i - 1); }
  }

  lemma SmallerItem(items: seq<Value>, i: nat)
    requires i < |items|
    ensures Size(items[i]) < SizeOfItems(items)
  {
    if i > 0 { SmallerItem(items[1..], i - 1); }
  }

  /** Where a member went when its object's keys were sorted. */
  lemma Place(a: seq<Member>, b: seq<Member>, i: nat) returns (k: nat)
    requires multiset(a) == multiset(b) && i < |a|
    ensures k < |b| && b[k] == a[i]
  {
    SameElements(a, b, a[i]);
    k :| k < |b| && b[k] == a[i];
  }

  lemma AlikeAt(sx: seq<Member>, sy: seq<Member>, k: nat)
    requires CanonMembers(sx) == CanonMembers(sy) && k < |sx|
    ensures |sx| == |sy| && sx[k].key == sy[k].key && Canon(sx[k].value) == Canon(sy[k].value)
  {
    CanonMembersAre(sx, k);
    if sy != [] { CanonMembersAre(sy, 0); }
    CanonMembersAre(sy, k);
  }

  // ----- equal canonical forms print alike

  lemma {:induction false} AlikePrints(a: Value, b: Value)
    requires Canon(a) == Canon(b)
    ensures Stable(a) == Stable(b)
    decreases Size(a), 1
  {
    match a {
      case Arr(x) => AlikeItemsPrint(x, b.items);
      case Obj(x) => AlikeMembersPrint(SortedMembers(x), SortedMembers(b.members));
      case _ =>
    }
  }

  lemma {:induction false} AlikeItemsPrint(x: seq<Value>, y: seq<Value>)
    requires CanonItems(x) == CanonItems(y)
    ensures StableItems(x) == StableItems(y)
    decreases SizeOfItems(x), 0
  {
    if x != [] && y != [] {
      CanonItemsAre(x, 0);
      CanonItemsAre(y, 0);
      AlikePrints(x[0], y[0]);
      assert CanonItems(x)[1..] == CanonItems(x[1..]) && CanonItems(y)[1..] == CanonItems(y[1..]);
      AlikeItemsPrint(x[1..], y[1..]);
    }
  }

  lemma {:induction false} AlikeMembersPrint(x: seq<Member>, y: seq<Member>)
    requires CanonMembers(x) == CanonMembers(y)
    ensures StableMembers(x) == StableMembers(y)
    decreases SizeOfMembers(x), 0
  {
    if x != [] && y != [] {
      AlikeAt(x, y, 0);
      AlikePrints(x[0].value, y[0].value);
      assert CanonMembers(x)[1..] == CanonMembers(x[1..]) && CanonMembers(y)[1..] == CanonMembers(y[1..]);
      AlikeMembersPrint(x[1..], y[1..]);
    }
  }

  // ----- equal canonical forms belong to values equal up to key order

  lemma {:induction false} CanonGivesSame(a: Value, b: Value)
    requires Valid(a) && Valid(b) && Canon(a) == Canon(b)
    ensures Same(a, b)
    decreases Size(a), 1
  {
    match a {
      case Arr(x) => CanonGivesSameItems(x, b.items);
      case Obj(x) => CanonGivesSameMembers(x, b.members);
      case _ =>
    }
  }

  lemma {:induction false} CanonGivesSameItems(x: seq<Value>, y: seq<Value>)
    requires Valid(Arr(x)) && Valid(Arr(y)) && CanonItems(x) == CanonItems(y)
    ensures Same(Arr(x), Arr(y))
    decreases SizeOfItems(x) + 1, 0
  {
    if x != [] { CanonItemsAre(x, 0); }
    if y != [] { CanonItemsAre(y, 0); }
    forall i | 0 <= i < |x| ensures Same(x[i], y[i]) {
      CanonItemsAre(x, i);
      CanonItemsAre(y, i);
      SmallerItem(x, i);
      CanonGivesSame(x[i], y[i]);
    }
  }

  lemma {:induction false} CanonGivesSameMembers(x: seq<Member>, y: seq<Member>)
    requires ValidMembers(x) && ValidMembers(y) && DistinctKeys(x) && DistinctKeys(y)
    requires CanonMembers(SortedMembers(x)) == CanonMembers(SortedMembers(y))
    ensures SameMembers(x, y)
    decreases SizeOfMembers(x) + 1, 0
  {
    forall i | 0 <= i < |x| ensures HasMatch(x[i], y) { CanonGivesMatch(x, y, i); }
    forall j | 0 <= j < |y| ensures HasKey(x, y[j].key) { var i := AlikeMember(y, x, j); }
  }

  lemma {:induction false} CanonGivesMatch(x: seq<Member>, y: seq<Member>, i: nat)
    requires ValidMembers(x) && ValidMembers(y) && DistinctKeys(x) && DistinctKeys(y)
    requires CanonMembers(SortedMembers(x)) == CanonMembers(SortedMembers(y))
    requires i < |x|
    ensures HasMatch(x[i], y)
    decreases SizeOfMembers(x), 3
  {
    var j := AlikeMember(x, y, i);
    SmallerMember(x, i);
    CanonGivesSame(x[i].value, y[j].value);
  }

  /** The member of the other object that a member is printed alike with. */
  lemma AlikeMember(x: seq<Member>, y: seq<Member>, i: nat) returns (j: nat)
    requires DistinctKeys(x) && DistinctKeys(y) && i < |x|
    requires CanonMembers(SortedMembers(x)) == CanonMembers(SortedMembers(y))
    ensures j < |y| && x[i].key == y[j].key && Canon(x[i].value) == Canon(y[j].value)
  {
    var sx, sy := SortedMembers(x), SortedMembers(y);
    SortedIsIncreasing(x);
    SortedIsIncreasing(y);
    var k := Place(x, sx, i);
    AlikeAt(sx, sy, k);
    j := Place(sy, y, k);
  }

  // ----- values equal up to key order have equal canonical forms

  function KeysOf(members: seq<Member>): seq<Text> { seq(|members|, i requires 0 <= i < |members| => members[i].key) }

  lemma KeysIncrease(members: seq<Member>)
    requires Increasing(members, KeyBefore)
    ensures Increasing(KeysOf(members), Before)
  {
    forall i, j | 0 <= i < j < |members| ensures Before(KeysOf(members)[i], KeysOf(members)[j]) {
      assert KeyBefore(members[i], members[j]);
    }
  }

  /** The sorted keys of two objects with the same keys are the same sequence. */
  lemma SameKeys(x: seq<Member>, y: seq<Member>)
    requires DistinctKeys(x) && DistinctKeys(y)
    requires forall key :: HasKey(x, key) <==> HasKey(y, key)
    ensures KeysOf(SortedMembers(x)) == KeysOf(SortedMembers(y))
  {
    var sx, sy := SortedMembers(x), SortedMembers(y);
    SortedIsIncreasing(x);
    SortedIsIncreasing(y);
    KeysIncrease(sx);
    KeysIncrease(sy);
    BeforeIsStrict();
    forall key ensures key in KeysOf(sx) <==> key in KeysOf(sy) {
      KeyOccurs(x, sx, key);
      KeyOccurs(y, sy, key);
    }
    IncreasingIsUnique(KeysOf(sx), KeysOf(sy), Before);
  }

  lemma KeyOccurs(members: seq<Member>, sorted: seq<Member>, key: Text)
    requires multiset(members) == multiset(sorted)
    ensures key in KeysOf(sorted) <==> HasKey(members, key)
  {
    if key in KeysOf(sorted) {
      var k :| 0 <= k < |sorted| && KeysOf(sorted)[k] == key;
      var i := Place(sorted, members, k);
    }
    if HasKey(members, key) {
      var i :| 0 <= i < |members| && members[i].key == key;
      var k := Place(members, sorted, i);
      assert KeysOf(sorted)[k] == key;
    }
  }

  lemma SameHasKeys(x: seq<Member>, y: seq<Member>)
    requires SameMembers(x, y)
    ensures forall key :: HasKey(x, key) <==> HasKey(y, key)
  {
    forall key | HasKey(x, key) ensures HasKey(y, key) {
      var i :| 0 <= i < |x| && x[i].key == key;
      assert HasMatch(x[i], y);
    }
  }

  lemma {:induction false} SameGivesCanon(a: Value, b: Value)
    requires Valid(a) && Valid(b) && Same(a, b)
    ensures Canon(a) == Canon(b)
    decreases Size(a), 1
  {
    match a {
      case Arr(x) => SameGivesCanonItems(x, b.items);
      case Obj(x) => SameGivesCanonMembers(x, b.members);
      case _ =>
    }
  }

  lemma {:induction false} SameGivesCanonItems(x: seq<Value>, y: seq<Value>)
    requires Valid(Arr(x)) && Valid(Arr(y)) && Same(Arr(x), Arr(y))
    ensures CanonItems(x) == CanonItems(y)
    decreases SizeOfItems(x), 0
  {
    if x != [] {
      SameGivesCanon(x[0], y[0]);
      assert Same(Arr(x[1..]), Arr(y[1..])) by {
        forall i | 0 <= i < |x| - 1 ensures Same(x[1..][i], y[1..][i]) { assert Same(x[i + 1], y[i + 1]); }
      }
      SameGivesCanonItems(x[1..], y[1..]);
    }
  }

  lemma {:induction false} SameGivesCanonMembers(x: seq<Member>, y: seq<Member>)
    requires ValidMembers(x) && ValidMembers(y) && DistinctKeys(x) && DistinctKeys(y) && SameMembers(x, y)
    ensures CanonMembers(SortedMembers(x)) == CanonMembers(SortedMembers(y))
    decreases SizeOfMembers(x) + 1, 0
  {
    SameHasKeys(x, y);
    SameKeys(x, y);
    var sx, sy := SortedMembers(x), SortedMembers(y);
    assert |KeysOf(sx)| == |KeysOf(sy)|;
    forall k | 0 <= k < |sx| ensures Canon(sx[k].value) == Canon(sy[k].value) { SameGivesCanonAt(x, y, k); }
    EqualCanonMembers(sx, sy);
  }

  lemma EqualCanonMembers(sx: seq<Member>, sy: seq<Member>)
    requires KeysOf(sx) == KeysOf(sy) && |sx| == |sy|
    requires forall k :: 0 <= k < |sx| ==> Canon(sx[k].value) == Canon(sy[k].value)
    ensures CanonMembers(sx) == CanonMembers(sy)
  {
    if sx != [] { CanonMembersAre(sx, 0); CanonMembersAre(sy, 0); }
    forall k | 0 <= k < |sx| ensures CanonMembers(sx)[k] == CanonMembers(sy)[k] {
      assert KeysOf(sx)[k] == KeysOf(sy)[k];
      CanonMembersAre(sx, k);
      CanonMembersAre(sy, k);
    }
  }

  lemma {:induction false} SameGivesCanonAt(x: seq<Member>, y: seq<Member>, k: nat)
    requires ValidMembers(x) && ValidMembers(y) && DistinctKeys(x) && DistinctKeys(y) && SameMembers(x, y)
    requires k < |SortedMembers(x)| == |SortedMembers(y)| && KeysOf(SortedMembers(x)) == KeysOf(SortedMembers(y))
    ensures Canon(SortedMembers(x)[k].value) == Canon(SortedMembers(y)[k].value)
    decreases SizeOfMembers(x), 3
  {
    SortedIsIncreasing(x);
    var i := Place(SortedMembers(x), x, k);
    assert HasMatch(x[i], y);
    var j :| 0 <= j < |y| && x[i].key == y[j].key && Same(x[i].value, y[j].value);
    MatchingPlace(x, y, k, i, j);
    SmallerMember(x, i);
    SameGivesCanon(x[i].value, y[j].value);
  }

  /** Members with the same key have the same place in key order. */
  lemma MatchingPlace(x: seq<Member>, y: seq<Member>, k: nat, i: nat, j: nat)
    requires DistinctKeys(x) && DistinctKeys(y) && KeysOf(SortedMembers(x)) == KeysOf(SortedMembers(y))
    requires k < |SortedMembers(x)| == |SortedMembers(y)| && i < |x| && SortedMembers(x)[k] == x[i]
    requires j < |y| && x[i].key == y[j].key
    ensures SortedMembers(y)[k] == y[j]
  {
    var sx, sy := SortedMembers(x), SortedMembers(y);
    SortedIsIncreasing(y);
    assert KeysOf(sx)[k] == KeysOf(sy)[k];
    var k' := Place(y, sy, j);
    SameKeySamePlace(sy, k, k');
  }

  lemma SameKeySamePlace(sorted: seq<Member>, k: nat, k': nat)
    requires Increasing(sorted, KeyBefore) && k < |sorted| && k' < |sorted| && sorted[k].key == sorted[k'].key
    ensures k == k'
  {
    BeforeIrreflexive(sorted[k].key);
    assert k < k' ==> KeyBefore(sorted[k], sorted[k']);
    assert k' < k ==> KeyBefore(sorted[k'], sorted[k]);
  }

  // ----- the theorems

  /** Printing is uniquely decodable: the parser gives back the value with sorted keys. */
  lemma StableIsDecodable(v: Value)
    ensures Parse(Stable(v)) == Got(Canon(v), [])
  {
    assert Stable(v) + [] == Stable(v);
    ParseBack(v, []);
  }

  /** The printer tells apart exactly what differs by more than key order. */
  lemma PrintsAlikeIffSame(a: Value, b: Value)
    requires Valid(a) && Valid(b)
    ensures Stable(a) == Stable(b) <==> Same(a, b)
  {
    if Stable(a) == Stable(b) {
      StableIsDecodable(a);
      StableIsDecodable(b);
      CanonGivesSame(a, b);
    }
    if Same(a, b) {
      SameGivesCanon(a, b);
      AlikePrints(a, b);
    }
  }
}
