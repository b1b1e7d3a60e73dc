// cmd/cli/publish.go, formatSize: the integer part of printing a size, on 64-bit integers. The digits
// of the quotient size / div are floating point and outside the model.
module FormatSize {

  newtype int64 = x: int | -0x8000_0000_0000_0000 <= x < 0x8000_0000_0000_0000

  const UNIT: int64 := 1024
  const UNITS := "KMGTPE"

  // Bytes prints the size as it is; Scaled prints size / div with the unit at index exp.
  datatype Format = Bytes(size: int64) | Scaled(div: int64, exp: nat)

  function Power(e: nat): (p: nat)
    ensures p >= 1
  {
    if e == 0 then 1 else 1024 * Power(e - 1)
  }

  // The units: KiB to EiB. The next one is past 64 bits.
  lemma Powers()
    ensures Power(1) == 0x400 && Power(2) == 0x10_0000 && Power(3) == 0x4000_0000 && Power(4) == 0x100_0000_0000
    ensures Power(5) == 0x4_0000_0000_0000 && Power(6) == 0x1000_0000_0000_0000
    ensures Power(7) == 0x40_0000_0000_0000_0000 && UNITS == "KMGTPE"
  {
    assert Power(3) == 0x4000_0000;
    assert Power(5) == 0x4_0000_0000_0000;
  }

  lemma {:induction false} PowerGrows(d: nat, e: nat)
    requires d <= e
    ensures Power(d) <= Power(e)
  {
    if d < e { PowerGrows(d, e - 1); }
  }

  lemma MultipleGrows(a: int, b: int, d: nat)
    requires a <= b
    ensures a * d <= b * d
  {
    assert (b - a) * d >= 0;
  }

  lemma QuotientBounds(n: nat, d: nat)
    requires d >= 1
    ensures n / d * d <= n < (n / d + 1) * d
  {
    assert n == d * (n / d) + n % d;
  }

  lemma QuotientIs(n: nat, d: nat, q: nat)
    requires d >= 1 && q * d <= n < (q + 1) * d
    ensures n / d == q
  {
    QuotientBounds(n, d);
    if n / d < q { MultipleGrows(n / d + 1, q, d); }
    if q < n / d { MultipleGrows(q + 1, n / d, d); }
  }

  // Dividing by div and then by 1024 is dividing by 1024 * div.
  lemma NestedDivision(size: nat, div: nat)
    requires div >= 1
    ensures size / div / 1024 == size / (1024 * div)
  {
    var n := size / div;
    var q := n / 1024;
    QuotientBounds(size, div);
    MultipleGrows(q * 1024, n, div);
    MultipleGrows(n + 1, (q + 1) * 1024, div);
    assert q * 1024 * div == q * (1024 * div);
    assert (q + 1) * 1024 * div == (q + 1) * (1024 * div);
    QuotientIs(size, 1024 * div, q);
  }

  // From 1024 on, div is the largest power of the unit that still fits, its index stays inside the
  // list of units, and nothing overflows. Smaller sizes, and negative ones, are printed in bytes.
  method FormatSize(bytesCount: int64) returns (r: Format)
    ensures bytesCount < UNIT ==> r == Bytes(bytesCount)
    ensures bytesCount >= UNIT ==>
      && r.Scaled? && r.exp < |UNITS| && r.div as int == Power(r.exp + 1)
      && r.div <= bytesCount && (bytesCount as int) < Power(r.exp + 2)
  {
    if bytesCount < UNIT { return Bytes(bytesCount); }
    var div: int64, exp: nat := UNIT, 0;
    var n := bytesCount / UNIT;
    while n >= UNIT
      invariant div as int == Power(exp + 1) && div <= bytesCount
      invariant n as int == bytesCount as int / div as int
      invariant n >= 1
      decreases n
    {
      NestedDivision(bytesCount as int, div as int);
      Fits(bytesCount as int, div as int);
      div := div * UNIT;
      exp := exp + 1;
      n := n / UNIT;
    }
    Below(bytesCount as int, div as int);
    if exp > 5 { TooLarge(exp); }
    return Scaled(div, exp);
  }

  lemma Fits(size: nat, div: nat)
    requires div >= 1 && size / div >= 1024
    ensures 1024 * div <= size
  {
    assert size / div * div <= size;
    assert size / div * div >= 1024 * div;
  }

  lemma Below(size: nat, div: nat)
    requires div >= 1 && size / div < 1024
    ensures size < 1024 * div
  {
    assert size < (size / div + 1) * div;
    assert (size / div + 1) * div <= 1024 * div;
  }

  lemma TooLarge(exp: nat)
    requires exp > 5
    ensures Power(exp + 1) >= 0x8000_0000_0000_0000
  {
    assert Power(7) == 1024 * 1024 * 1024 * 1024 * 1024 * 1024 * 1024 by {
      assert Power(4) == 1024 * 1024 * 1024 * 1024;
    }
    PowerGrows(7, exp + 1);
  }

  // The bounds determine the unit: two sizes are printed in one unit exactly when they lie between the
  // same powers of 1024.
  lemma UnitIsUnique(size: nat, d: nat, e: nat)
    requires Power(d + 1) <= size < Power(d + 2) && Power(e + 1) <= size < Power(e + 2)
    ensures d == e
  {
    if d < e { PowerGrows(d + 2, e + 1); }
    if e < d { PowerGrows(e + 2, d + 1); }
  }
}
