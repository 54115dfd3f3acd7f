/** String helpers: how JavaScript renders a non-negative integer in a template
    literal, `String.prototype.includes`, and the infix relation that specifies it. */
module Text {

  predicate IsDigit(c: char) {
    '0' <= c <= '9'
  }

  predicate AllDigits(s: string) {
    forall i :: 0 <= i < |s| ==> IsDigit(s[i])
  }

  /** `sub` occurs in `s` starting at position `k`. */
  ghost predicate OccursAt(sub: string, s: string, k: nat) {
    k + |sub| <= |s| && s[k..k + |sub|] == sub
  }

  /** `sub` occurs in `s` at some position. */
  ghost predicate IsInfix(sub: string, s: string) {
    exists k: nat :: OccursAt(sub, s, k)
  }

  function DigitChar(d: nat): (c: char)
    requires d < 10
    ensures IsDigit(c)
  {
    ('0' as int + d) as char
  }

  /** Decimal rendering of `n`, as `${n}` produces it for a non-negative integer:
      no sign, no leading zero. */
  function Decimal(n: nat): (r: string)
    ensures |r| >= 1 && AllDigits(r)
    ensures n >= 10 ==> |r| >= 2
    ensures r[0] == '0' ==> n == 0
  {
    if n < 10 then [DigitChar(n)] else Decimal(n / 10) + [DigitChar(n % 10)]
  }

  /** The number a run of decimal digits denotes, most significant digit first. */
  function DigitsValue(s: string): nat
    requires AllDigits(s)
    decreases |s|
  {
    if s == [] then 0
    else 10 * DigitsValue(s[..|s| - 1]) + (s[|s| - 1] as int - '0' as int)
  }

  /** The rendering of `n` denotes `n` in base 10. */
  lemma {:induction false} DecimalValue(n: nat)
    ensures DigitsValue(Decimal(n)) == n
  {
    var r := Decimal(n);
    if n >= 10 {
      assert r[..|r| - 1] == Decimal(n / 10);
      DecimalValue(n / 10);
    }
  }

  /** Different numbers render differently. */
  lemma {:induction false} DecimalInjective(a: nat, b: nat)
    requires Decimal(a) == Decimal(b)
    ensures a == b
  {
    if a < 10 && b < 10 {
      assert Decimal(a)[0] == DigitChar(a);
      assert Decimal(b)[0] == DigitChar(b);
    } else if a >= 10 && b >= 10 {
      var da, db := Decimal(a), Decimal(b);
      assert da[|da| - 1] == DigitChar(a % 10);
      assert db[|db| - 1] == DigitChar(b % 10);
      assert Decimal(a / 10) == da[..|da| - 1];
      assert Decimal(b / 10) == db[..|db| - 1];
      DecimalInjective(a / 10, b / 10);
    }
  }

  /** If two strings made of a digit block, a non-digit separator and a tail
      are equal, the digit blocks are equal and the tails are equal. */
  lemma SplitAfterDigits(x: string, y: string, x': string, y': string, sep: char)
    requires AllDigits(x) && AllDigits(x') && !IsDigit(sep)
    requires x + [sep] + y == x' + [sep] + y'
    ensures x == x' && y == y'
  {
    var s := x + [sep] + y;
    SeparatorAt(x, sep, y);
    SeparatorAt(x', sep, y');
    if |x| < |x'| {
      assert false;
    } else if |x'| < |x| {
      assert false;
    }
    assert x == s[..|x|] == x';
    assert y == s[|x| + 1..] == y';
  }

  lemma SeparatorAt(x: string, sep: char, y: string)
    ensures |x + [sep] + y| > |x| && (x + [sep] + y)[|x|] == sep
    ensures forall i :: 0 <= i < |x| ==> (x + [sep] + y)[i] == x[i]
  {
  }

  /** `s.includes(sub)`, searching from the left the way the built-in does. */
  function Includes(s: string, sub: string): bool
    decreases |s|
  {
    if |sub| > |s| then false
    else if s[..|sub|] == sub then true
    else Includes(s[1..], sub)
  }

  lemma {:induction false} IncludesImpliesInfix(s: string, sub: string)
    requires Includes(s, sub)
    ensures IsInfix(sub, s)
    decreases |s|
  {
    if s[..|sub|] == sub {
      assert OccursAt(sub, s, 0);
    } else {
      var t := s[1..];
      IncludesImpliesInfix(t, sub);
      var k: nat :| OccursAt(sub, t, k);
      assert s[k + 1..k + 1 + |sub|] == t[k..k + |sub|];
      assert OccursAt(sub, s, k + 1);
    }
  }

  lemma {:induction false} InfixImpliesIncludes(s: string, sub: string)
    requires IsInfix(sub, s)
    ensures Includes(s, sub)
    decreases |s|
  {
    var k: nat :| OccursAt(sub, s, k);
    if s[..|sub|] != sub {
      assert k != 0;
      var t := s[1..];
      assert t[k - 1..k - 1 + |sub|] == s[k..k + |sub|];
      assert OccursAt(sub, t, k - 1);
      InfixImpliesIncludes(t, sub);
    }
  }

  /** `Includes` agrees with the position-based definition of an infix. */
  lemma IncludesIsInfix(s: string, sub: string)
    ensures Includes(s, sub) <==> IsInfix(sub, s)
  {
    if Includes(s, sub) {
      IncludesImpliesInfix(s, sub);
    }
    if IsInfix(sub, s) {
      InfixImpliesIncludes(s, sub);
    }
  }

  lemma AppendAssoc<T>(a: seq<T>, b: seq<T>, c: seq<T>)
    ensures a + (b + c) == (a + b) + c
  {
  }

  lemma AppendEmpty(a: string)
    ensures a + "" == a && "" + a == a
  {
  }

  /** The two halves of a concatenation, read back. */
  lemma ConcatSplit(a: string, b: string)
    ensures a <= a + b
    ensures (a + b)[|a|..] == b
    ensures (a + b)[|a + b| - |b|..] == b
  {
  }

  /** The middle part of a concatenation is an infix of it. */
  lemma InfixOfConcat(a: string, b: string, c: string)
    ensures IsInfix(b, a + b + c)
  {
    assert (a + b + c)[|a|..|a| + |b|] == b;
    assert OccursAt(b, a + b + c, |a|);
  }
}
