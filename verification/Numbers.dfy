/** Integers of JavaScript and their decimal texts. */
module Numbers {
  import opened Texts

  const MAX_SAFE_INTEGER := 0x1F_FFFF_FFFF_FFFF

  predicate IsDigits(s: string) { forall i :: 0 <= i < |s| ==> IsDigit(s[i]) }

  /** `Number(s)` for digits, before any rounding. */
  function DecimalValue(s: string): nat
    requires IsDigits(s)
  {
    if s == [] then 0 else DecimalValue(s[..|s| - 1]) * 10 + (s[|s| - 1] as int - '0' as int)
  }

  /** `String(n)` */
  function Decimal(n: nat): string {
    if n < 10 then [('0' as int + n) as char] else Decimal(n / 10) + [('0' as int + n % 10) as char]
  }

  /** `^(?:0|[1-9]\d*)$` */
  predicate IsCanonical(s: string) { s != [] && IsDigits(s) && (s[0] == '0' ==> |s| == 1) }

  lemma {:induction false} DecimalIsCanonical(n: nat)
    ensures IsCanonical(Decimal(n)) && DecimalValue(Decimal(n)) == n
    ensures n > 0 ==> Decimal(n)[0] != '0'
  {
    if n < 10 {
      assert Decimal(n)[..0] == [];
    } else {
      DecimalIsCanonical(n / 10);
      assert Decimal(n)[..|Decimal(n)| - 1] == Decimal(n / 10);
    }
  }

  lemma {:induction false} CanonicalIsDecimal(s: string)
    requires IsCanonical(s)
    ensures Decimal(DecimalValue(s)) == s && (s[0] != '0' ==> DecimalValue(s) > 0)
  {
    var front, last := s[..|s| - 1], s[|s| - 1];
    if |s| == 1 {
      assert front == [] && s == [last];
    } else {
      CanonicalIsDecimal(front);
      assert DecimalValue(s) == DecimalValue(front) * 10 + (last as int - '0' as int);
      assert DecimalValue(s) / 10 == DecimalValue(front) && DecimalValue(s) >= 10;
      assert s == front + [last];
    }
  }

  lemma {:induction false} SubsetSize(a: set<nat>, b: set<nat>)
    requires a <= b
    ensures |a| <= |b|
  {
    if a != {} {
      var x :| x in a;
      SubsetSize(a - {x}, b - {x});
    }
  }

  /** No finite set holds every number. */
  lemma Unused(used: set<nat>) returns (n: nat)
    ensures n !in used
  {
    n := 0;
    var below: set<nat> := {};
    while n in used
      invariant below <= used && |below| == n
      invariant forall k :: k in below <==> 0 <= k < n
      decreases |used| - n
    {
      SubsetSize(below + {n}, used);
      below, n := below + {n}, n + 1;
    }
  }
}
