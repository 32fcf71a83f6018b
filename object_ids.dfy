/**
 * Document ids. A MongoDB ObjectId is twelve bytes, written as 24 hexadecimal digits;
 * `mongoose.isValidObjectId` accepts such a string in either letter case. The model
 * stores ids as natural numbers below 16^24 and converts at the service boundary.
 */
module ObjectIds {
  import opened Wrappers

  type Id = nat

  const IdDigits: nat := 24

  function Pow16(k: nat): (r: nat)
    ensures r >= 1
  {
    if k == 0 then 1 else 16 * Pow16(k - 1)
  }

  /** The number of distinct ObjectIds. */
  function IdBound(): nat {
    Pow16(IdDigits)
  }

  predicate IsHexDigit(c: char) {
    ('0' <= c <= '9') || ('a' <= c <= 'f') || ('A' <= c <= 'F')
  }

  function HexDigitValue(c: char): (v: nat)
    requires IsHexDigit(c)
    ensures v < 16
  {
    if '0' <= c <= '9' then c as int - '0' as int
    else if 'a' <= c <= 'f' then c as int - 'a' as int + 10
    else c as int - 'A' as int + 10
  }

  /** The lower-case digit `ObjectId.toString()` writes. */
  function HexChar(d: nat): (c: char)
    requires d < 16
    ensures IsHexDigit(c) && HexDigitValue(c) == d
    ensures !('A' <= c <= 'F')
  {
    if d < 10 then ('0' as int + d) as char else ('a' as int + d - 10) as char
  }

  predicate IsHex(s: string) {
    forall i :: 0 <= i < |s| ==> IsHexDigit(s[i])
  }

  function HexValue(s: string): (v: nat)
    requires IsHex(s)
    ensures v < Pow16(|s|)
  {
    if s == [] then 0 else HexValue(s[..|s| - 1]) * 16 + HexDigitValue(s[|s| - 1])
  }

  /** The last `width` hexadecimal digits of `n`, most significant first. */
  function HexDigits(n: nat, width: nat): (s: string)
    ensures |s| == width && IsHex(s)
    ensures forall i :: 0 <= i < |s| ==> !('A' <= s[i] <= 'F')
  {
    if width == 0 then [] else HexDigits(n / 16, width - 1) + [HexChar(n % 16)]
  }

  /** `mongoose.isValidObjectId` on a string argument (24 hexadecimal digits). */
  predicate IsValidObjectId(s: string) {
    |s| == IdDigits && IsHex(s)
  }

  /** The id a valid string denotes; None where the services report an invalid id. */
  function ParseObjectId(s: string): (r: Option<Id>)
    ensures r.Some? <==> IsValidObjectId(s)
    ensures r.Some? ==> r.value < IdBound()
  {
    if IsValidObjectId(s) then Some(HexValue(s)) else None
  }

  /** `id.toString()`: 24 lower-case hexadecimal digits. */
  function FormatObjectId(id: Id): (s: string)
    ensures IsValidObjectId(s)
    ensures forall i :: 0 <= i < |s| ==> !('A' <= s[i] <= 'F')
  {
    HexDigits(id, IdDigits)
  }

  lemma {:induction false} MulAtLeast(d: nat, m: nat)
    requires d >= 1
    ensures d * m >= m
  {
    if d > 1 {
      MulAtLeast(d - 1, m);
      assert d * m == (d - 1) * m + m;
    }
  }

  /** Euclidean division is unique: a quotient and remainder in range are the ones `/` and `%` give. */
  lemma ModUnique(n: int, m: int, k: int, t: int)
    requires m > 0 && n == k * m + t && 0 <= t < m
    ensures n % m == t && n / m == k
  {
    var q, r := n / m, n % m;
    assert n == q * m + r;
    var d := q - k;
    assert d * m == q * m - k * m;
    assert d * m == t - r;
    if d > 0 {
      MulAtLeast(d, m);
    }
  }

  lemma {:induction false} HexValueOfDigits(n: nat, width: nat)
    ensures HexValue(HexDigits(n, width)) == n % Pow16(width)
  {
    if width > 0 {
      var s := HexDigits(n, width);
      HexValueOfDigits(n / 16, width - 1);
      assert s[..|s| - 1] == HexDigits(n / 16, width - 1);
      ModStep(n, Pow16(width - 1));
    }
  }

  /** One digit of the round trip: the low digit plus the remaining digits, shifted. */
  lemma ModStep(n: nat, p: nat)
    requires p >= 1
    ensures (n / 16 % p) * 16 + n % 16 == n % (16 * p)
  {
    var q, r := n / 16, n % 16;
    var a, b := q / p, q % p;
    assert q == a * p + b;
    assert n == 16 * q + r;
    assert n == a * (16 * p) + (b * 16 + r) by {
      assert 16 * q == 16 * (a * p) + 16 * b;
      assert 16 * (a * p) == a * (16 * p);
    }
    assert b * 16 + r < 16 * p by {
      assert b <= p - 1;
      assert b * 16 <= (p - 1) * 16;
    }
    ModUnique(n, 16 * p, a, b * 16 + r);
  }

  /** Parsing what FormatObjectId writes gives the id back (for every id below the bound). */
  lemma ParseFormat(id: Id)
    requires id < IdBound()
    ensures ParseObjectId(FormatObjectId(id)) == Some(id)
  {
    HexValueOfDigits(id, IdDigits);
    ModUnique(id, IdBound(), 0, id);
  }

  /** Distinct ids below the bound have distinct string forms. */
  lemma FormatInjective(a: Id, b: Id)
    requires a < IdBound() && b < IdBound()
    requires FormatObjectId(a) == FormatObjectId(b)
    ensures a == b
  {
    ParseFormat(a);
    ParseFormat(b);
  }
}
