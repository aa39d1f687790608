// Event and job identifiers: 128 bits, a millisecond count above 80 random bits, written in 26 characters
// of Crockford's base 32.
module Ulid {
  import opened Basics

  const LENGTH: nat := 26

  /** The alphabet: digits and capitals without I, L, O and U, in code point order. */
  function Symbol(i: nat): char
    requires i < 32
  {
    if i < 10 then '0' + i as char
    else if i < 18 then 'A' + (i - 10) as char
    else if i < 20 then 'J' + (i - 18) as char
    else if i < 22 then 'M' + (i - 20) as char
    else if i < 27 then 'P' + (i - 22) as char
    else 'V' + (i - 27) as char
  }

  lemma Alphabet()
    ensures seq(32, i requires 0 <= i < 32 => Symbol(i)) == "0123456789ABCDEFGHJKMNPQRSTVWXYZ"
  {
  }

  function Pow32(n: nat): nat {
    if n == 0 then 1 else 32 * Pow32(n - 1)
  }

  /** Position in the alphabet. */
  function Digit(c: char): (d: Option<nat>)
    ensures d.Some? ==> d.value < 32 && Symbol(d.value) == c
  {
    if '0' <= c <= '9' then Some((c - '0') as nat)
    else if 'A' <= c <= 'H' then Some((c - 'A') as nat + 10)
    else if 'J' <= c <= 'K' then Some((c - 'J') as nat + 18)
    else if 'M' <= c <= 'N' then Some((c - 'M') as nat + 20)
    else if 'P' <= c <= 'T' then Some((c - 'P') as nat + 22)
    else if 'V' <= c <= 'Z' then Some((c - 'V') as nat + 27)
    else None
  }

  lemma AlphabetInOrder(i: nat, j: nat)
    requires i < 32 && j < 32
    ensures Digit(Symbol(i)) == Some(i)
    ensures i < j <==> Symbol(i) < Symbol(j)
  {
  }

  predicate Encoded(s: string) {
    forall c :: c in s ==> Digit(c).Some?
  }

  /** The low `n` digits of a value, most significant first. */
  function Encode(value: nat, n: nat): (s: string)
    ensures |s| == n
  {
    if n == 0 then "" else Encode(value / 32, n - 1) + [Symbol(value % 32)]
  }

  function Decode(s: string): nat
    requires Encoded(s)
  {
    if s == "" then 0
    else
      assert s[|s| - 1] in s;
      32 * Decode(s[..|s| - 1]) + Digit(s[|s| - 1]).value
  }

  lemma {:induction false} DecodeEncode(value: nat, n: nat)
    requires value < Pow32(n)
    ensures Encoded(Encode(value, n)) && Decode(Encode(value, n)) == value
  {
    if n > 0 {
      DecodeEncode(value / 32, n - 1);
      AlphabetInOrder(value % 32, 0);
      assert Encode(value, n)[..n - 1] == Encode(value / 32, n - 1);
    }
  }

  lemma EncodeInjective(a: nat, b: nat, n: nat)
    requires a < Pow32(n) && b < Pow32(n) && Encode(a, n) == Encode(b, n)
    ensures a == b
  {
    DecodeEncode(a, n);
    DecodeEncode(b, n);
  }

  // ---------------------------------------------------------------- string order is numeric order

  lemma {:induction false} DecodeFront(s: string)
    requires Encoded(s)
    ensures Decode(s) < Pow32(|s|)
    ensures s != "" ==> s[0] in s && Encoded(s[1..]) && Decode(s) == Digit(s[0]).value * Pow32(|s| - 1) + Decode(s[1..])
  {
    if s != "" {
      var n := |s| - 1;
      assert s[0] in s && s[n] in s;
      DecodeFront(s[..n]);
      if n > 0 {
        assert s[..n][1..] == s[1..][..n - 1];
        assert s[1..][n - 1] == s[n];
        Distributes(Digit(s[0]).value, Pow32(n - 1));
      } else {
        assert s[1..] == "" && s[..0] == "";
      }
    }
  }

  lemma Distributes(d: nat, p: nat)
    ensures 32 * (d * p) == d * (32 * p)
  {
  }

  lemma MultipleOf(k: nat, p: nat)
    ensures k * p >= 0
  {
  }

  lemma Spread(d: nat, k: nat, p: nat)
    ensures (d + 1 + k) * p == d * p + p + k * p
  {
  }

  /** A larger leading digit outweighs whatever follows. */
  lemma LeadingDigitDecides(d: nat, e: nat, p: nat, x: nat, y: nat)
    requires d < e && x < p
    ensures d * p + x < e * p + y
  {
    var k := e - d - 1;
    MultipleOf(k, p);
    assert e == d + 1 + k;
    Spread(d, k, p);
  }

  lemma {:induction false} OrderIsNumeric(s: string, t: string)
    requires Encoded(s) && Encoded(t) && |s| == |t|
    ensures Before(s, t) <==> Decode(s) < Decode(t)
  {
    if s != "" {
      DecodeFront(s);
      DecodeFront(t);
      DecodeFront(s[1..]);
      DecodeFront(t[1..]);
      var d, e := Digit(s[0]).value, Digit(t[0]).value;
      AlphabetInOrder(d, e);
      AlphabetInOrder(e, d);
      if d < e {
        LeadingDigitDecides(d, e, Pow32(|s| - 1), Decode(s[1..]), Decode(t[1..]));
      } else if e < d {
        LeadingDigitDecides(e, d, Pow32(|s| - 1), Decode(t[1..]), Decode(s[1..]));
      } else {
        OrderIsNumeric(s[1..], t[1..]);
      }
    }
  }

  // ---------------------------------------------------------------- identifiers

  /** 80 random bits below the milliseconds. */
  function Value(millis: nat, random: nat): nat {
    millis * Pow32(16) + random
  }

  function NewUlidSpec(millis: nat, random: nat): string {
    Encode(Value(millis, random), LENGTH)
  }

  lemma {:induction false} PowSum(a: nat, b: nat)
    ensures Pow32(a + b) == Pow32(a) * Pow32(b)
  {
    if a > 0 {
      PowSum(a - 1, b);
      Regroup(Pow32(a - 1), Pow32(b));
    }
  }

  lemma Regroup(x: nat, y: nat)
    ensures 32 * (x * y) == (32 * x) * y
  {
  }

  /** Every identifier of fewer than 2^50 milliseconds is within the 130 bits that 26 characters hold. */
  lemma ValueFits(millis: nat, random: nat)
    requires millis < Pow32(10) && random < Pow32(16)
    ensures Value(millis, random) < Pow32(LENGTH)
  {
    PowSum(10, 16);
    LeadingDigitDecides(millis, Pow32(10), Pow32(16), random, 0);
  }

  /** Identifiers are unique per millisecond and random part, and one from a later millisecond sorts later. */
  lemma LaterSortsLater(m1: nat, r1: nat, m2: nat, r2: nat)
    requires m1 < Pow32(10) && m2 < Pow32(10) && r1 < Pow32(16) && r2 < Pow32(16)
    ensures NewUlidSpec(m1, r1) == NewUlidSpec(m2, r2) <==> m1 == m2 && r1 == r2
    ensures Before(NewUlidSpec(m1, r1), NewUlidSpec(m2, r2)) <==> m1 < m2 || (m1 == m2 && r1 < r2)
  {
    ValueFits(m1, r1);
    ValueFits(m2, r2);
    DecodeEncode(Value(m1, r1), LENGTH);
    DecodeEncode(Value(m2, r2), LENGTH);
    OrderIsNumeric(NewUlidSpec(m1, r1), NewUlidSpec(m2, r2));
    if m1 < m2 {
      LeadingDigitDecides(m1, m2, Pow32(16), r1, r2);
    } else if m2 < m1 {
      LeadingDigitDecides(m2, m1, Pow32(16), r2, r1);
    }
  }

  lemma {:induction false} ShiftOut(value: nat, k: nat)
    ensures Pow32(k) > 0 && Pow32(k + 1) > 0 && value / Pow32(k + 1) == value / Pow32(k) / 32
  {
    PowPositive(k);
    DivideTwice(value, Pow32(k));
  }

  lemma {:induction false} PowPositive(k: nat)
    ensures Pow32(k) > 0
  {
    if k > 0 {
      PowPositive(k - 1);
    }
  }

  lemma DivideTwice(value: nat, p: nat)
    requires p > 0
    ensures value / (32 * p) == value / p / 32
  {
    var a, x := value / p, value % p;
    var q, r := a / 32, a % 32;
    assert value == a * p + x && a == 32 * q + r;
    Nest(q, r, p);
    assert value == q * (32 * p) + (r * p + x);
    AtMost(r, 31, p);
    QuotientIs(value, 32 * p, q, r * p + x);
  }

  lemma Nest(q: nat, r: nat, p: nat)
    ensures (32 * q + r) * p == q * (32 * p) + r * p
  {
  }

  lemma AtMost(r: nat, k: nat, p: nat)
    requires r <= k
    ensures r * p <= k * p
  {
    MultipleOf(k - r, p);
    assert k * p == r * p + (k - r) * p;
  }

  lemma QuotientIs(value: nat, d: nat, q: nat, r: nat)
    requires d > 0 && r < d && value == q * d + r
    ensures value / d == q
  {
    var a, x := value / d, value % d;
    assert value == a * d + x;
    if a < q {
      LeadingDigitDecides(a, q, d, x, r);
    } else if q < a {
      LeadingDigitDecides(q, a, d, r, x);
    }
  }

  /** The loop of `new_ulid`: one character per five bits, shifting from the top. */
  method Characters(value: nat, length: nat) returns (id: string)
    ensures id == Encode(value, length)
  {
    id := "";
    var shift := length;
    PowPositive(shift);
    ghost var high := value / Pow32(shift);
    while shift > 0
      invariant 0 <= shift <= length && Pow32(shift) > 0
      invariant high == value / Pow32(shift)
      invariant id == Encode(high, length - shift)
    {
      shift := shift - 1;
      ShiftOut(value, shift);
      high := value / Pow32(shift);
      id := id + [Symbol(value / Pow32(shift) % 32)];
    }
  }

  /** `new_ulid`, given the clock and the random bits. */
  method NewUlid(millis: nat, random: nat) returns (id: string)
    ensures id == NewUlidSpec(millis, random)
  {
    id := Characters(Value(millis, random), LENGTH);
  }
}
