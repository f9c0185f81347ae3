/** Printing a size with the largest binary suffix that keeps it exact (pkg/utils/utils.go). */
module Bytes {
  import opened Wrappers
  import opened Numerals

  const MAX_INT64 := 0x7FFF_FFFF_FFFF_FFFF

  type Int64 = x: int | -MAX_INT64 - 1 <= x <= MAX_INT64

  const KIB: Int64 := 1024
  const SUFFIXES := "KMGTPE"

  /** The bytes a suffix stands for, by its place in the list. */
  function Unit(suffix: nat): (n: nat)
    ensures n >= KIB
  {
    if suffix == 0 then KIB else KIB * Unit(suffix - 1)
  }

  /** The size a quantity stands for: a decimal number, or one with a binary suffix. */
  function ReadQuantity(s: string): Option<nat> {
    if |s| >= 2 && s[|s| - 1] == 'i' && s[|s| - 2] in SUFFIXES then
      var k :| 0 <= k < |SUFFIXES| && SUFFIXES[k] == s[|s| - 2];
      match ParseDecimal(s[..|s| - 2])
      case None => None
      case Some(n) => Some(n * Unit(k))
    else
      ParseDecimal(s)
  }

  lemma SuffixesAreDistinct()
    ensures forall j, k | 0 <= j < k < |SUFFIXES| :: SUFFIXES[j] != SUFFIXES[k]
  {
    assert SUFFIXES == ['K', 'M', 'G', 'T', 'P', 'E'];
  }

  lemma MultiplyMonotone(a: nat, b: nat, d: nat)
    requires a <= b
    ensures a * d <= b * d
  {
    assert b * d == a * d + (b - a) * d;
  }

  lemma UniqueQuotient(a: nat, d: nat, q: nat, r: nat)
    requires d > 0 && a == q * d + r && r < d
    ensures a / d == q
  {
    var p := a / d;
    assert p * d <= a < (p + 1) * d;
    if p > q {
      MultiplyMonotone(q + 1, p, d);
    } else if p < q {
      MultiplyMonotone(p + 1, q, d);
    }
  }

  lemma DivideAgain(bytes: nat, n: nat)
    requires n > 0
    ensures bytes / n / 1024 == bytes / (n * 1024)
    ensures bytes / n >= 1024 <==> bytes >= n * 1024
  {
    var q, r := bytes / n, bytes % n;
    assert bytes == q * n + r;
    var q2, r2 := q / 1024, q % 1024;
    assert bytes == q2 * (n * 1024) + (r2 * n + r);
    MultiplyMonotone(r2, 1023, n);
    UniqueQuotient(bytes, n * 1024, q2, r2 * n + r);
    if q >= 1024 {
      MultiplyMonotone(1024, q, n);
    } else {
      MultiplyMonotone(q, 1023, n);
    }
  }

  lemma {:induction false} UnitsGrow(j: nat, k: nat)
    requires j <= k
    ensures Unit(j) <= Unit(k)
  {
    if j < k {
      UnitsGrow(j, k - 1);
    }
  }

  /** An int64 never reaches the unit past the last suffix. */
  lemma UnitsBelowInt64(suffix: nat)
    requires Unit(suffix) <= MAX_INT64
    ensures suffix < |SUFFIXES|
  {
    assert Unit(6) > MAX_INT64;
    if suffix > 5 {
      UnitsGrow(6, suffix);
    }
  }

  /** The largest unit a size reaches, by its suffix. */
  predicate Reaches(bytes: nat, suffix: nat) {
    Unit(suffix) <= bytes < Unit(suffix + 1)
  }

  function Shown(bytes: nat, suffix: nat): string
    requires suffix < |SUFFIXES|
  {
    if bytes % Unit(suffix) == 0 then Decimal(bytes / Unit(suffix)) + [SUFFIXES[suffix], 'i'] else Decimal(bytes)
  }

  lemma ReadWithSuffix(n: nat, suffix: nat)
    requires suffix < |SUFFIXES|
    ensures ReadQuantity(Decimal(n) + [SUFFIXES[suffix], 'i']) == Some(n * Unit(suffix))
  {
    var s := Decimal(n) + [SUFFIXES[suffix], 'i'];
    assert s[..|s| - 2] == Decimal(n);
    assert s[|s| - 2] == SUFFIXES[suffix];
    DecimalRoundTrip(n);
    SuffixesAreDistinct();
  }

  /** What the suffixes stand for. */
  lemma SuffixesMean(n: nat)
    ensures ReadQuantity(Decimal(n) + "Ki") == Some(n * 1_024)
    ensures ReadQuantity(Decimal(n) + "Mi") == Some(n * 1_048_576)
    ensures ReadQuantity(Decimal(n) + "Gi") == Some(n * 1_073_741_824)
    ensures ReadQuantity(Decimal(n) + "Ti") == Some(n * 1_099_511_627_776)
    ensures ReadQuantity(Decimal(n) + "Pi") == Some(n * 1_125_899_906_842_624)
    ensures ReadQuantity(Decimal(n) + "Ei") == Some(n * 1_152_921_504_606_846_976)
  {
    SuffixesAre();
    UnitsAre();
    hide ReadQuantity, Unit;
    for k := 0 to 6
      invariant forall j | 0 <= j < k ::
                  ReadQuantity(Decimal(n) + [SUFFIXES[j], 'i']) == Some(n * Unit(j))
    {
      ReadWithSuffix(n, k);
    }
  }

  lemma SuffixesAre()
    ensures |SUFFIXES| == 6
    ensures [SUFFIXES[0], 'i'] == "Ki" && [SUFFIXES[1], 'i'] == "Mi" && [SUFFIXES[2], 'i'] == "Gi"
    ensures [SUFFIXES[3], 'i'] == "Ti" && [SUFFIXES[4], 'i'] == "Pi" && [SUFFIXES[5], 'i'] == "Ei"
  {}

  lemma UnitsAre()
    ensures Unit(0) == 1_024 && Unit(1) == 1_048_576 && Unit(2) == 1_073_741_824
    ensures Unit(3) == 1_099_511_627_776 && Unit(4) == 1_125_899_906_842_624 && Unit(5) == 1_152_921_504_606_846_976
  {}

  /** The largest unit a size reaches, spelled out. */
  function SuffixOf(bytes: nat): string {
    if bytes < 1_024 then ""
    else if bytes < 1_048_576 then "Ki"
    else if bytes < 1_073_741_824 then "Mi"
    else if bytes < 1_099_511_627_776 then "Gi"
    else if bytes < 1_125_899_906_842_624 then "Ti"
    else if bytes < 1_152_921_504_606_846_976 then "Pi"
    else "Ei"
  }

  function BytesIn(suffix: string): nat {
    match suffix
    case "Ki" => 1_024
    case "Mi" => 1_048_576
    case "Gi" => 1_073_741_824
    case "Ti" => 1_099_511_627_776
    case "Pi" => 1_125_899_906_842_624
    case "Ei" => 1_152_921_504_606_846_976
    case _ => 1
  }

  /** How a size is to be printed: in the largest unit it reaches, if it is a whole number of these. */
  function Printed(bytes: nat): string {
    var suffix := SuffixOf(bytes);
    if bytes % BytesIn(suffix) == 0 then Decimal(bytes / BytesIn(suffix)) + suffix else Decimal(bytes)
  }

  lemma ShownIsPrinted(bytes: nat, suffix: nat)
    requires suffix < |SUFFIXES| && Reaches(bytes, suffix) && bytes <= MAX_INT64
    ensures Printed(bytes) == Shown(bytes, suffix)
  {
    SuffixesAre();
    UnitsAre();
    assert Unit(6) == 1_180_591_620_717_411_303_424;
    hide Decimal, Unit;
    assert SuffixOf(bytes) == [SUFFIXES[suffix], 'i'] && BytesIn(SuffixOf(bytes)) == Unit(suffix);
  }

  lemma ReadShown(bytes: nat, suffix: nat)
    requires suffix < |SUFFIXES|
    ensures ReadQuantity(Shown(bytes, suffix)) == Some(bytes)
  {
    hide ReadQuantity, Unit;
    if bytes % Unit(suffix) == 0 {
      ReadWithSuffix(bytes / Unit(suffix), suffix);
      WholeUnits(bytes, Unit(suffix));
    } else {
      ReadBare(bytes);
    }
  }

  lemma ReadBare(bytes: nat)
    ensures ReadQuantity(Decimal(bytes)) == Some(bytes)
  {
    DecimalRoundTrip(bytes);
  }

  lemma WholeUnits(bytes: nat, n: nat)
    requires n > 0 && bytes % n == 0
    ensures bytes / n * n == bytes
  {
  }

  /** Reading the printed size back gives the same number of bytes. */
  method FormatBytes(bytes: Int64) returns (r: Result<string>)
    ensures r.Failure? <==> bytes < 0
    ensures bytes >= 0 ==> ReadQuantity(r.value) == Some(bytes)
    ensures bytes >= 0 ==> r.value == Printed(bytes)
  {
    if bytes < 0 {
      return Failure("bytes can't be negative");
    }
    if bytes < KIB {
      ReadBare(bytes);
      assert Decimal(bytes) + "" == Decimal(bytes);
      return Success(Decimal(bytes));
    }
    var suffix, n: Int64 := 0, KIB;
    var i := bytes / KIB;
    while i >= KIB
      invariant 0 <= suffix < |SUFFIXES|
      invariant n == Unit(suffix) <= bytes && i == bytes / n
    {
      DivideAgain(bytes, n);
      UnitsBelowInt64(suffix + 1);
      n := n * KIB;
      suffix := suffix + 1;
      i := i / KIB;
    }
    DivideAgain(bytes, n);
    ShownIsPrinted(bytes, suffix);
    ReadShown(bytes, suffix);
    if bytes % n > 0 {
      return Success(Decimal(bytes));
    }
    return Success(Decimal(bytes / n) + [SUFFIXES[suffix], 'i']);
  }
}
