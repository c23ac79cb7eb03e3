/** Decimal text of unsigned integers, as Rust prints it and as `str::parse::<u16>` reads it. */
module Decimal {
  import opened Outcomes

  predicate IsDigit(c: char) { '0' <= c <= '9' }

  function Digit(d: nat): char
    requires d < 10
  {
    ('0' as int + d) as char
  }

  function DigitValue(c: char): nat
    requires IsDigit(c)
  {
    c as int - '0' as int
  }

  function Dec(n: nat): string {
    if n < 10 then [Digit(n)] else Dec(n / 10) + [Digit(n % 10)]
  }

  predicate AllDigits(s: string) { forall i :: 0 <= i < |s| ==> IsDigit(s[i]) }

  /** The value of a text of digits; none if it holds anything else. */
  function Digits(s: string): Option<nat> {
    if s == [] then Some(0)
    else
      var front := Digits(s[..|s| - 1]);
      if front.Some? && IsDigit(s[|s| - 1]) then Some(front.value * 10 + DigitValue(s[|s| - 1])) else None
  }

  /** One leading `+` is accepted, leading zeros are, and nothing else is. */
  function ParseU16(s: string): Option<nat> {
    var body := if |s| > 1 && s[0] == '+' then s[1..] else s;
    if body == [] || Digits(body).None? || Digits(body).value >= 65536 then None else Digits(body)
  }

  lemma {:induction false} PrefixReadsLess(s: string, i: nat)
    requires i <= |s| && Digits(s).Some?
    ensures Digits(s[..i]).Some? && Digits(s[..i]).value <= Digits(s).value
  {
    if i == |s| {
      assert s[..i] == s;
    } else {
      PrefixReadsLess(s[..|s| - 1], i);
      assert s[..|s| - 1][..i] == s[..i];
    }
  }

  /** The reading loop, which gives up at the first character that is no digit or overflows. */
  method ReadU16(s: string) returns (r: Option<nat>)
    ensures r == ParseU16(s)
  {
    var body := if |s| > 1 && s[0] == '+' then s[1..] else s;
    if body == [] { return None; }
    var n := 0;
    for i := 0 to |body|
      invariant Digits(body[..i]) == Some(n) && n < 65536
    {
      assert body[..i + 1][..i] == body[..i];
      if Digits(body).Some? { PrefixReadsLess(body, i + 1); }
      if !IsDigit(body[i]) { return None; }
      n := n * 10 + DigitValue(body[i]);
      if n >= 65536 { return None; }
    }
    assert body[..|body|] == body;
    return Some(n);
  }

  lemma {:induction false} DecReadsBack(n: nat)
    ensures AllDigits(Dec(n)) && Dec(n) != [] && Digits(Dec(n)) == Some(n)
  {
    if n >= 10 {
      DecReadsBack(n / 10);
      assert Dec(n)[..|Dec(n)| - 1] == Dec(n / 10);
    } else {
      assert Dec(n)[..0] == [];
    }
  }

  lemma ParseOfDec(n: nat)
    ensures ParseU16(Dec(n)) == if n < 65536 then Some(n) else None
  {
    DecReadsBack(n);
  }

  lemma DecIsInjective()
    ensures forall a, b :: Dec(a) == Dec(b) ==> a == b
  {
    forall a, b | Dec(a) == Dec(b) ensures a == b { DecReadsBack(a); DecReadsBack(b); }
  }

  function Zeros(k: nat): string { seq(k, _ => '0') }

  lemma {:induction false} ZerosRead(k: nat)
    ensures Digits(Zeros(k)) == Some(0)
  {
    if k > 0 {
      ZerosRead(k - 1);
      assert Zeros(k)[..k - 1] == Zeros(k - 1);
    }
  }

  lemma {:induction false} PaddedReads(k: nat, n: nat)
    ensures Digits(Zeros(k) + Dec(n)) == Some(n)
  {
    var s := Zeros(k) + Dec(n);
    if n < 10 {
      ZerosRead(k);
      assert s[..|s| - 1] == Zeros(k);
    } else {
      PaddedReads(k, n / 10);
      assert s[..|s| - 1] == Zeros(k) + Dec(n / 10);
    }
  }

  /** A text of digits is some zeros and the number it reads as. */
  lemma {:induction false} DigitsArePadded(s: string) returns (k: nat)
    requires s != [] && Digits(s).Some?
    ensures s == Zeros(k) + Dec(Digits(s).value)
  {
    var front, d := s[..|s| - 1], DigitValue(s[|s| - 1]);
    assert s == front + [Digit(d)];
    if front == [] {
      k := 0;
    } else {
      k := DigitsArePadded(front);
      var n := Digits(front).value;
      if n == 0 {
        assert Dec(0) == ['0'] && Zeros(k) + ['0'] == Zeros(k + 1);
        k := k + 1;
      } else {
        assert (n * 10 + d) / 10 == n && (n * 10 + d) % 10 == d;
        assert Zeros(k) + (Dec(n) + [Digit(d)]) == Zeros(k) + Dec(n) + [Digit(d)];
      }
    }
  }

  /** The texts that read as a `u16`: its decimal digits, with zeros before them and one plus before
      those, and no others. */
  ghost predicate Spells(s: string, n: nat) {
    exists k :: s == Zeros(k) + Dec(n) || s == "+" + (Zeros(k) + Dec(n))
  }

  lemma ParsesExactly(s: string, n: nat)
    ensures ParseU16(s) == Some(n) <==> n < 65536 && Spells(s, n)
  {
    if ParseU16(s) == Some(n) {
      var body := if |s| > 1 && s[0] == '+' then s[1..] else s;
      var k := DigitsArePadded(body);
      assert s == body || s == "+" + body;
    }
    if n < 65536 && Spells(s, n) {
      var k :| s == Zeros(k) + Dec(n) || s == "+" + (Zeros(k) + Dec(n));
      PaddedReads(k, n);
      var body := Zeros(k) + Dec(n);
      DigitsHaveNoPlus(body);
      assert ("+" + body)[1..] == body;
    }
  }

  lemma DigitsHaveNoPlus(s: string)
    requires s != [] && Digits(s).Some?
    ensures s[0] != '+'
  {
    var k := DigitsArePadded(s);
    DecStarts(Digits(s).value);
  }

  lemma {:induction false} DecStarts(n: nat)
    ensures Dec(n) != [] && IsDigit(Dec(n)[0])
  {
    if n >= 10 { DecStarts(n / 10); }
  }
}
