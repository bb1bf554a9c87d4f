/**
 Volume sizes: rounding a capacity to the block size of a zvol, and the
 capacity checks of CreateVolume and ControllerExpandVolume. Byte counts are
 naturals; 0 stands for a bound that was not given.
 */
module ZvolSizing {
  import opened Wrappers
  import opened Text

  // -------------------------------------------------------------- rounding ---

  // The sizes the source spells out, lower-cased.
  function BlockBytes(text: string): (b: Option<nat>)
    ensures b.Some? ==> b.value > 0 && 131072 % b.value == 0
  {
    match text
    case "512" => Some(512)
    case "1024" => Some(1024)
    case "1k" => Some(1024)
    case "2048" => Some(2048)
    case "2k" => Some(2048)
    case "4096" => Some(4096)
    case "4k" => Some(4096)
    case "8192" => Some(8192)
    case "8k" => Some(8192)
    case "16384" => Some(16384)
    case "16k" => Some(16384)
    case "32768" => Some(32768)
    case "32k" => Some(32768)
    case "65536" => Some(65536)
    case "64k" => Some(65536)
    case "131072" => Some(131072)
    case "128k" => Some(131072)
    case _ => None
  }

  function Power(k: nat): nat {
    if k == 0 then 1 else 2 * Power(k - 1)
  }

  // How the k-th power of two is written, in full or in units of 1024.
  predicate Writes(text: string, k: nat) {
    text == Digits(Power(k)) || (k >= 10 && text == Digits(Power(k - 10)) + "k")
  }

  lemma Powers()
    ensures Power(9) == 512 && Power(10) == 1024 && Power(11) == 2048 && Power(12) == 4096 && Power(13) == 8192
    ensures Power(14) == 16384 && Power(15) == 32768 && Power(16) == 65536 && Power(17) == 131072
  {
  }

  lemma PowersWritten()
    ensures Digits(Power(9)) == "512" && Digits(Power(10)) == "1024" && Digits(Power(11)) == "2048"
    ensures Digits(Power(12)) == "4096" && Digits(Power(13)) == "8192" && Digits(Power(14)) == "16384"
    ensures Digits(Power(15)) == "32768" && Digits(Power(16)) == "65536" && Digits(Power(17)) == "131072"
  {
    Powers();
    LiteralDigits();
  }

  lemma LiteralDigits()
    ensures Digits(512) == "512" && Digits(1024) == "1024" && Digits(2048) == "2048" && Digits(4096) == "4096"
    ensures Digits(8192) == "8192" && Digits(16384) == "16384" && Digits(32768) == "32768"
    ensures Digits(65536) == "65536" && Digits(131072) == "131072"
  {
    ShorterDigits();
    FiveDigits();
    SixDigits();
  }

  lemma ShorterDigits()
    ensures Digits(512) == "512" && Digits(1024) == "1024" && Digits(2048) == "2048" && Digits(4096) == "4096"
    ensures Digits(8192) == "8192"
  {
  }

  lemma FiveDigits()
    ensures Digits(16384) == "16384" && Digits(32768) == "32768"
  {
  }

  lemma SixDigits()
    ensures Digits(65536) == "65536" && Digits(131072) == "131072"
  {
  }

  lemma SmallPowersWritten()
    ensures Digits(Power(0)) == "1" && Digits(Power(1)) == "2" && Digits(Power(2)) == "4" && Digits(Power(3)) == "8"
    ensures Digits(Power(4)) == "16" && Digits(Power(5)) == "32" && Digits(Power(6)) == "64"
    ensures Digits(Power(7)) == "128"
  {
  }

  lemma FullIsListed(k: nat)
    requires 9 <= k <= 17
    ensures BlockBytes(Digits(Power(k))) == Some(Power(k))
  {
    Powers();
    LiteralDigits();
    assert k == 9 || k == 10 || k == 11 || k == 12 || k == 13 || k == 14 || k == 15 || k == 16 || k == 17;
  }

  lemma ShortIsListed(k: nat)
    requires 10 <= k <= 17
    ensures BlockBytes(Digits(Power(k - 10)) + "k") == Some(Power(k))
  {
    Powers();
    SmallPowersWritten();
    assert "1" + "k" == "1k" && "2" + "k" == "2k" && "4" + "k" == "4k" && "8" + "k" == "8k";
    assert "16" + "k" == "16k" && "32" + "k" == "32k" && "64" + "k" == "64k" && "128" + "k" == "128k";
    assert k == 10 || k == 11 || k == 12 || k == 13 || k == 14 || k == 15 || k == 16 || k == 17;
  }

  lemma WrittenIsListed(text: string, k: nat)
    requires 9 <= k <= 17 && Writes(text, k)
    ensures BlockBytes(text) == Some(Power(k))
  {
    if text == Digits(Power(k)) {
      FullIsListed(k);
    } else {
      ShortIsListed(k);
    }
  }

  lemma ListedIsWritten(text: string)
    requires BlockBytes(text).Some?
    ensures exists k | 9 <= k <= 17 :: Writes(text, k)
  {
    PowersWritten();
    SmallPowersWritten();
    match text
    case "512" => assert Writes(text, 9);
    case "1024" => assert Writes(text, 10);
    case "1k" => assert Writes(text, 10);
    case "2048" => assert Writes(text, 11);
    case "2k" => assert Writes(text, 11);
    case "4096" => assert Writes(text, 12);
    case "4k" => assert Writes(text, 12);
    case "8192" => assert Writes(text, 13);
    case "8k" => assert Writes(text, 13);
    case "16384" => assert Writes(text, 14);
    case "16k" => assert Writes(text, 14);
    case "32768" => assert Writes(text, 15);
    case "32k" => assert Writes(text, 15);
    case "65536" => assert Writes(text, 16);
    case "64k" => assert Writes(text, 16);
    case "131072" => assert Writes(text, 17);
    case "128k" => assert Writes(text, 17);
    case _ =>
  }

  /**
   The listed sizes are the powers of two from 512 to 131072, each under its
   digits and, from 1024 up, in units of 1024 under a 'k'; and a listed text is
   worth what its digits say.
   */
  lemma BlockTable(text: string)
    ensures BlockBytes(text).Some? <==> exists k | 9 <= k <= 17 :: Writes(text, k)
    ensures forall k | 9 <= k <= 17 && Writes(text, k) :: BlockBytes(text) == Some(Power(k))
    ensures BlockBytes(text).Some? && AllDigits(text) ==> BlockBytes(text) == Some(ValueOf(text))
    ensures BlockBytes(text).Some? && !AllDigits(text) ==>
              var n := |text| - 1;
              text[n] == 'k' && AllDigits(text[..n]) && BlockBytes(text) == Some(1024 * ValueOf(text[..n]))
  {
    forall k | 9 <= k <= 17 && Writes(text, k) ensures BlockBytes(text) == Some(Power(k)) {
      WrittenIsListed(text, k);
    }
    if BlockBytes(text).Some? {
      ListedIsWritten(text);
      var k :| 9 <= k <= 17 && Writes(text, k);
      WrittenValue(text, k);
    }
  }

  lemma WrittenValue(text: string, k: nat)
    requires Writes(text, k)
    ensures AllDigits(text) ==> ValueOf(text) == Power(k)
    ensures !AllDigits(text) ==>
              var n := |text| - 1; text[n] == 'k' && AllDigits(text[..n]) && Power(k) == 1024 * ValueOf(text[..n])
  {
    if text == Digits(Power(k)) {
      ValueOfDigits(Power(k));
    } else {
      TenDoublings(k - 10);
      UnitValue(text, Power(k - 10));
    }
  }

  lemma UnitValue(text: string, units: nat)
    requires text == Digits(units) + "k"
    ensures var n := |text| - 1;
            !AllDigits(text) && text[n] == 'k' && AllDigits(text[..n]) && ValueOf(text[..n]) == units
  {
    var n := |text| - 1;
    assert text[..n] == Digits(units) && text[n] in text;
    ValueOfDigits(units);
  }

  lemma TenDoublings(k: nat)
    ensures Power(k + 10) == 1024 * Power(k)
  {
    assert Power(k + 5) == 32 * Power(k) by {
      assert Power(k + 2) == 4 * Power(k);
      assert Power(k + 4) == 4 * Power(k + 2);
    }
    assert Power(k + 7) == 4 * Power(k + 5);
    assert Power(k + 9) == 4 * Power(k + 7);
  }

  // Math.round: halves go up.
  function Round(x: real): int {
    (x + 0.5).Floor
  }

  predicate Multiple(m: nat, b: nat)
    requires b > 0
  {
    m % b == 0
  }

  ghost predicate LeastMultiple(size: nat, b: nat, capacity: nat)
    requires b > 0
  {
    Multiple(size, b) && size >= capacity && forall m: nat | Multiple(m, b) && m >= capacity :: size <= m
  }

  // The specification: the ceiling of the division, times the block size.
  function ZvolSize(capacity: nat, b: nat): nat
    requires b > 0
  {
    (capacity + b - 1) / b * b
  }

  // For naturals, p * b >= q * b exactly when p >= q.
  lemma Monotone(q: nat, p: nat, b: nat)
    requires b > 0
    ensures q * b <= p * b <==> q <= p
  {
    if q <= p {
      assert (p - q) * b == p * b - q * b;
    } else {
      assert (q - p) * b == q * b - p * b && (q - p) * b > 0;
    }
  }

  lemma LeastIsBelow(q: nat, b: nat, capacity: nat, m: nat)
    requires b > 0 && q * b < capacity + b && Multiple(m, b) && m >= capacity
    ensures q * b <= m
  {
    var k := m / b;
    assert m == k * b;
    Monotone(q, k + 1, b);
    assert (k + 1) * b == k * b + b;
    Monotone(q, k, b);
  }

  lemma ZvolSizeIsLeast(capacity: nat, b: nat)
    requires b > 0
    ensures LeastMultiple(ZvolSize(capacity, b), b, capacity)
  {
    var q := (capacity + b - 1) / b;
    MultipleOf(q, b);
    assert capacity <= q * b < capacity + b;
    forall m: nat | Multiple(m, b) && m >= capacity ensures q * b <= m {
      LeastIsBelow(q, b, capacity, m);
    }
  }

  lemma MultipleOf(q: nat, b: nat)
    requires b > 0
    ensures (q * b) % b == 0 && (q * b) / b == q
  {
    var n := q * b;
    var d := n / b;
    assert n == d * b + n % b;
    assert (d + 1) * b == d * b + b;
    Monotone(d, q, b);
    Monotone(d + 1, q, b);
  }

  lemma MultipleIsKept(capacity: nat, b: nat)
    requires b > 0
    ensures ZvolSize(capacity, b) == capacity <==> Multiple(capacity, b)
  {
    ZvolSizeIsLeast(capacity, b);
  }

  // Rounding half up and adding a block when that fell short is the ceiling.
  lemma RoundIsWithinHalf(capacity: nat, b: nat)
    requires b > 0
    ensures var r := Round(capacity as real / b as real);
            r >= 0 && 2 * capacity - b < 2 * (b * r) <= 2 * capacity + b
  {
    var x := capacity as real / b as real;
    var r := Round(x);
    assert x >= 0.0;
    assert x * b as real == capacity as real;
    assert r as real * b as real == (b * r) as real;
    Scaled(x, r as real, b as real, capacity as real, (b * r) as real);
  }

  lemma Scaled(x: real, k: real, d: real, xd: real, kd: real)
    requires d > 0.0 && k <= x + 0.5 < k + 1.0 && xd == x * d && kd == k * d
    ensures 2.0 * xd - d < 2.0 * kd <= 2.0 * xd + d
  {
    var yd, ud := xd + 0.5 * d, kd + d;
    Below(k, x + 0.5, d, kd, yd);
    Below(x + 0.5, k + 1.0, d, yd, ud);
  }

  lemma Below(u: real, v: real, d: real, ud: real, vd: real)
    requires d > 0.0 && u <= v && ud == u * d && vd == v * d
    ensures ud <= vd && (u < v ==> ud < vd)
  {
    var w := v - u;
    assert w * d == vd - ud;
  }

  lemma Ceiling(capacity: nat, b: nat, q: nat)
    requires b > 0 && capacity <= q * b < capacity + b
    ensures q * b == ZvolSize(capacity, b)
  {
    var z := (capacity + b - 1) / b;
    assert z * b <= capacity + b - 1 < z * b + b;
    assert (z + 1) * b == z * b + b && (q + 1) * b == q * b + b;
    Monotone(z + 1, q, b);
    Monotone(q + 1, z, b);
  }

  lemma NearestThenUp(capacity: nat, b: nat, r: nat)
    requires b > 0 && 2 * capacity - b < 2 * (b * r) <= 2 * capacity + b
    ensures (if b * r < capacity then b * r + b else b * r) == ZvolSize(capacity, b)
  {
    if b * r < capacity {
      assert (r + 1) * b == b * r + b;
      Ceiling(capacity, b, r + 1);
    } else {
      Ceiling(capacity, b, r);
    }
  }

  method GenerateZvolSize(capacity: nat, blockSize: string) returns (size: nat)
    requires BlockBytes(Lower(blockSize)).Some?
    ensures size == ZvolSize(capacity, BlockBytes(Lower(blockSize)).value)
    ensures LeastMultiple(size, BlockBytes(Lower(blockSize)).value, capacity)
  {
    var b := BlockBytes(Lower(blockSize)).value;
    RoundIsWithinHalf(capacity, b);
    var r: nat := Round(capacity as real / b as real);
    NearestThenUp(capacity, b, r);
    ZvolSizeIsLeast(capacity, b);
    size := b * r;
    if size < capacity {
      size := size + b;
    }
  }

  // -------------------------------------------------------- capacity checks ---

  datatype Range = Range(required: nat, limit: nat)

  datatype Kind = Filesystem | Volume(block: string)

  datatype Code = OutOfRange | InvalidArgument | AlreadyExists

  datatype Capacity = Accepted(bytes: nat) | Refused(code: Code)

  predicate ListedBlock(kind: Kind) {
    kind.Volume? ==> BlockBytes(Lower(kind.block)).Some?
  }

  // Sizes are multiples of this many bytes.
  function Unit(kind: Kind): nat
    requires ListedBlock(kind)
    ensures Unit(kind) > 0
  {
    if kind.Volume? then BlockBytes(Lower(kind.block)).value else 1
  }

  const DEFAULT_BYTES := 1073741824

  function Effective(range: Option<Range>): Range {
    if range.Some? then range.value else Range(DEFAULT_BYTES, 0)
  }

  predicate Within(size: nat, range: Range) {
    range.required <= size && (range.limit > 0 ==> size <= range.limit)
  }

  ghost predicate Attainable(range: Range, unit: nat)
    requires unit > 0
  {
    exists m: nat :: Multiple(m, unit) && Within(m, range)
  }

  // CreateVolume; `range` is also what the call's later checks look at.
  method CreateCapacity(request: Option<Range>, kind: Kind) returns (r: Capacity, range: Range)
    requires ListedBlock(kind)
    ensures range == if request.Some? then request.value else Range(1024 * 1024 * 1024, 0)
    ensures range.required > 0 ==>
              (r.Accepted? <==> exists m: nat :: Multiple(m, Unit(kind)) && range.required <= m
                                                && (range.limit == 0 || m <= range.limit))
    ensures range.required > 0 && r.Accepted? ==> LeastMultiple(r.bytes, Unit(kind), range.required)
    ensures range.required > 0 && r.Refused? ==> r.code == OutOfRange
    ensures range.required == 0 && range.limit > 0 ==>
              r == if Multiple(range.limit, Unit(kind)) then Accepted(range.limit) else Refused(OutOfRange)
    ensures range.required == range.limit == 0 ==> r == Refused(InvalidArgument)
  {
    range := if request.Some? then request.value else Range(1073741824, 0);
    LeastDecides(range, Unit(kind));
    if range.required > 0 && range.limit > 0 && range.required > range.limit {
      return Refused(OutOfRange), range;
    }
    var capacity := if range.required != 0 then range.required else range.limit;
    if capacity == 0 {
      return Refused(InvalidArgument), range;
    }
    MultipleIsKept(capacity, Unit(kind));
    if kind.Volume? {
      capacity := GenerateZvolSize(capacity, kind.block);
    }
    if range.limit > 0 && capacity > range.limit {
      return Refused(OutOfRange), range;
    }
    return Accepted(capacity), range;
  }

  // Some multiple fits exactly when the least one does.
  lemma LeastDecides(range: Range, unit: nat)
    requires unit > 0
    ensures LeastMultiple(ZvolSize(range.required, unit), unit, range.required)
    ensures LeastMultiple(ZvolSize(range.limit, unit), unit, range.limit)
    ensures Attainable(range, unit) <==> Within(ZvolSize(range.required, unit), range)
  {
    ZvolSizeIsLeast(range.required, unit);
    ZvolSizeIsLeast(range.limit, unit);
  }

  // ControllerExpandVolume: the same arithmetic, another order of checks.
  method ExpandCapacity(range: Range, kind: Kind) returns (r: Capacity)
    requires ListedBlock(kind)
    ensures range.required > 0 ==>
              (r.Accepted? <==> exists m: nat :: Multiple(m, Unit(kind)) && range.required <= m
                                                && (range.limit == 0 || m <= range.limit))
    ensures range.required > 0 && r.Accepted? ==> LeastMultiple(r.bytes, Unit(kind), range.required)
    ensures range.required > 0 && r.Refused? ==>
              r.code == if range.limit > 0 && range.required > range.limit then InvalidArgument else OutOfRange
    ensures range.required == 0 && range.limit > 0 ==>
              r == if Multiple(range.limit, Unit(kind)) then Accepted(range.limit) else Refused(OutOfRange)
    ensures range.required == range.limit == 0 ==> r == Refused(InvalidArgument)
  {
    LeastDecides(range, Unit(kind));
    var capacity := if range.required != 0 then range.required else range.limit;
    if capacity == 0 {
      return Refused(InvalidArgument);
    }
    MultipleIsKept(capacity, Unit(kind));
    if kind.Volume? {
      capacity := GenerateZvolSize(capacity, kind.block);
    }
    if range.required > 0 && range.limit > 0 && range.required > range.limit {
      return Refused(InvalidArgument);
    }
    if range.limit > 0 && capacity > range.limit {
      return Refused(OutOfRange);
    }
    return Accepted(capacity);
  }

  // The check on a volume that is already there, of size `size`.
  function ExistingSize(size: nat, range: Range, checked: bool): (r: Option<Code>) {
    if checked
       && ((range.required > 0 && size < range.required) || (range.limit > 0 && size > range.limit))
    then Some(AlreadyExists) else None
  }

  /**
   Repeating a request: whatever an accepted request made, the same request
   finds acceptable, and any other request does exactly when the size lies in
   its range.
   */
  method RepeatRequest(request: Option<Range>, kind: Kind, other: Option<Range>, checked: bool)
    returns (first: Capacity, again: Option<Code>, later: Option<Code>)
    requires ListedBlock(kind)
    ensures first.Accepted? ==> again == None && Within(first.bytes, Effective(request))
    ensures first.Accepted? ==> again == ExistingSize(first.bytes, Effective(request), checked)
    ensures first.Accepted? && other.Some? ==>
              (later == None <==> !checked || (other.value.required <= first.bytes
                                               && (other.value.limit == 0 || first.bytes <= other.value.limit)))
    ensures first.Accepted? && other == None ==> (later == None <==> !checked || first.bytes >= 1024 * 1024 * 1024)
    ensures later.Some? ==> later.value == AlreadyExists
  {
    var range;
    first, range := CreateCapacity(request, kind);
    again, later := None, None;
    if first.Accepted? {
      again := ExistingSize(first.bytes, range, checked);
      later := ExistingSize(first.bytes, Effective(other), checked);
    }
  }

  // A request that only sets a limit is not given the largest size below it:
  // it is refused although a smaller volume would fit.
  method LimitOnlyIsNotFloored() returns (r: Capacity)
    ensures r == Refused(OutOfRange)
    ensures var range, kind := Range(0, 20000), Volume("16K");
            && ListedBlock(kind) && Multiple(16384, Unit(kind)) && Within(16384, range)
            && !Multiple(range.limit, Unit(kind))
  {
    assert Lower("16K") == "16k";
    var range;
    r, range := CreateCapacity(Some(Range(0, 20000)), Volume("16K"));
  }

  // The default size fits every block size.
  lemma DefaultFits(kind: Kind)
    requires ListedBlock(kind)
    ensures Multiple(DEFAULT_BYTES, Unit(kind)) && ZvolSize(DEFAULT_BYTES, Unit(kind)) == DEFAULT_BYTES
  {
    var b := Unit(kind);
    var k := 131072 / b;
    assert 131072 % b == 0 by {
      if kind == Filesystem {
        assert b == 1;
      }
    }
    assert DEFAULT_BYTES == 8192 * k * b;
    MultipleOf(8192 * k, b);
    MultipleIsKept(DEFAULT_BYTES, b);
  }
}
