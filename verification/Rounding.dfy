/** The three roundings of the capacity protocol: the scheduler's float64 ceiling,
    the driver's integer floor and the agent's floor of the volume group's free space. */
module Rounding {
  import opened Sums

  const MIB := 0x10_0000
  const GIB := 0x4000_0000
  const TIB := 0x100_0000_0000
  const TWO53 := 0x20_0000_0000_0000
  const TWO63 := 0x8000_0000_0000_0000
  const TWO64 := 0x1_0000_0000_0000_0000
  /** The extent size of a volume group made without `-s`. */
  const EXTENT := 0x40_0000

  function Pow2(n: nat): (p: nat)
    ensures p >= 1
  {
    if n == 0 then 1 else 2 * Pow2(n - 1)
  }

  function CeilDiv(a: nat, b: nat): nat
    requires b > 0
  {
    if a % b == 0 then a / b else a / b + 1
  }

  // ---------------------------------------------------------------- float64

  /** A non-negative finite float64: `mantissa * 2^exponent` with a 53-bit mantissa. */
  datatype Float64 = Float64(mantissa: nat, exponent: int)

  /** How many low bits of `v` do not fit a 53-bit mantissa. */
  function ExcessBits(v: nat): nat {
    if v < TWO53 then 0 else 1 + ExcessBits(v / 2)
  }

  lemma {:induction false} ExcessBitsBounds(v: nat)
    ensures v < TWO53 * Pow2(ExcessBits(v))
    ensures v >= TWO53 ==> TWO53 * Pow2(ExcessBits(v) - 1) <= v
  {
    if v >= TWO53 {
      ExcessBitsBounds(v / 2);
    }
  }

  /** The multiple of `ulp` nearest to `v`, in units of `ulp`; a tie goes to the even one. */
  function NearestEven(v: nat, ulp: nat): (q: nat)
    requires ulp > 0
  {
    var q, r := v / ulp, v % ulp;
    if 2 * r < ulp || (2 * r == ulp && q % 2 == 0) then q else q + 1
  }

  /** The conversion `float64(v)`: round to nearest, ties to even. */
  function ToFloat64(v: nat): Float64 {
    var e := ExcessBits(v);
    Float64(NearestEven(v, Pow2(e)), e)
  }

  /** Dividing a float64 by 1024 only lowers the exponent, so it is exact. */
  function Div1024(f: Float64): Float64 {
    Float64(f.mantissa, f.exponent - 10)
  }

  /** `uint64(math.Ceil(f))`; no int64 size leaves the range of uint64. */
  function CeilToUint64(f: Float64): nat {
    if f.exponent >= 0 then f.mantissa * Pow2(f.exponent)
    else CeilDiv(f.mantissa, Pow2(-f.exponent))
  }

  /** The scheduler's size of a claim in GiB. */
  function RealSize(bytes: nat): nat {
    CeilToUint64(Div1024(Div1024(Div1024(ToFloat64(bytes)))))
  }

  lemma {:induction false} ProductStep(d: nat, a: nat, b: nat)
    requires a < b
    ensures d * a + d <= d * b
  {
    if a + 1 < b {
      ProductStep(d, a, b - 1);
    }
    assert d * b == d * (b - 1) + d;
  }

  lemma DivisionIsUnique(x: nat, d: nat, q: nat, r: nat)
    requires d > 0 && x == d * q + r && r < d
    ensures x / d == q && x % d == r
  {
    if q < x / d {
      ProductStep(d, q, x / d);
    } else if x / d < q {
      ProductStep(d, x / d, q);
    }
  }

  lemma {:induction false} Pow2Sum(a: nat, b: nat)
    ensures Pow2(a) * Pow2(b) == Pow2(a + b)
  {
    if a > 0 {
      Pow2Sum(a - 1, b);
      assert Pow2(a) * Pow2(b) == 2 * (Pow2(a - 1) * Pow2(b));
    }
  }

  lemma Pow2Of30()
    ensures Pow2(30) == GIB
  {
    assert Pow2(10) == 1024;
    Pow2Sum(10, 10);
    Pow2Sum(10, 20);
  }

  lemma FactorsOfGiB(e: nat)
    requires e <= 10
    ensures Pow2(e) * Pow2(30 - e) == GIB && Pow2(30 - e) % 2 == 0
  {
    Pow2Sum(e, 30 - e);
    Pow2Of30();
    assert Pow2(30 - e) == 2 * Pow2(29 - e);
  }

  lemma Regroup(ulp: nat, k: nat, a: nat, q: nat, r: nat)
    ensures (ulp * k) * a + (ulp * q + r) == ulp * (k * a + q) + r
  {
    assert (ulp * k) * a == ulp * (k * a);
    assert ulp * (k * a + q) == ulp * (k * a) + ulp * q;
  }

  /** Dividing first by a factor `ulp` of a GiB and then by the rest keeps quotient and remainder. */
  lemma DivideThroughFactor(v: nat, ulp: nat, k: nat, a: nat, r: nat)
    requires ulp > 0 && v == (ulp * k) * a + r && r < ulp * k
    ensures v / ulp == k * a + r / ulp
    ensures v % ulp == r % ulp
    ensures r / ulp < k
  {
    Regroup(ulp, k, a, r / ulp, r % ulp);
    DivisionIsUnique(v, ulp, k * a + r / ulp, r % ulp);
    if k <= r / ulp {
      ProductStep(ulp, k, r / ulp + 1);
    }
  }

  lemma CeilOfSum(k: nat, a: nat, t: nat)
    requires k > 0 && t <= k
    ensures CeilDiv(k * a + t, k) == if t == 0 then a else a + 1
  {
    if t < k {
      DivisionIsUnique(k * a + t, k, a, t);
    } else {
      assert k * a + t == k * (a + 1) + 0;
      DivisionIsUnique(k * a + t, k, a + 1, 0);
    }
  }

  lemma EvenMultiple(k: nat, a: nat)
    requires k % 2 == 0
    ensures (k * a) % 2 == 0
  {
    assert k * a == 2 * (k / 2 * a);
  }

  /** Where rounding to the grid `ulp` lands, counted from the GiB multiple `ulp * k * a` below. */
  lemma RoundedOffset(v: nat, ulp: nat, k: nat, a: nat, r: nat) returns (t: nat)
    requires ulp > 0 && k % 2 == 0 && v == (ulp * k) * a + r && r < ulp * k
    ensures NearestEven(v, ulp) == k * a + t && t <= k
    ensures t == 0 <==> 2 * r <= ulp
  {
    DivideThroughFactor(v, ulp, k, a, r);
    EvenMultiple(k, a);
    t := NearestEven(v, ulp) - k * a;
    if r < ulp {
      DivisionIsUnique(r, ulp, 0, r);
    }
  }

  /** Rounding to the grid `ulp` before taking the ceiling loses at most a remainder of half a step. */
  lemma CeilAfterRounding(v: nat, ulp: nat, k: nat)
    requires ulp > 0 && k > 0 && k % 2 == 0 && ulp * k == GIB
    ensures CeilDiv(NearestEven(v, ulp), k)
            == if 2 * (v % GIB) <= ulp then v / GIB else v / GIB + 1
  {
    var t := RoundedOffset(v, ulp, k, v / GIB, v % GIB);
    CeilOfSum(k, v / GIB, t);
  }

  lemma {:induction false} FewExcessBits(v: nat)
    requires v < TWO63
    ensures ExcessBits(v) <= 10
  {
    var e := ExcessBits(v);
    ExcessBitsBounds(v);
    if e > 10 {
      Pow2Sum(10, e - 11);
      assert false;
    }
  }

  lemma CeilOfFloat(v: nat, e: nat)
    requires e <= 10
    ensures CeilDiv(NearestEven(v, Pow2(e)), Pow2(30 - e))
            == if 2 * (v % GIB) <= Pow2(e) then v / GIB else v / GIB + 1
  {
    FactorsOfGiB(e);
    CeilAfterRounding(v, Pow2(e), Pow2(30 - e));
  }

  /** The float64 ceiling in closed form: the quotient, plus one exactly when the
      remainder is more than half a float64 step at `v`. */
  function SizeInGiB(v: nat): nat {
    if 2 * (v % GIB) <= Pow2(ExcessBits(v)) then v / GIB else v / GIB + 1
  }

  lemma RealSizeClosedForm(v: nat)
    requires v < TWO63
    ensures RealSize(v) == SizeInGiB(v)
  {
    FewExcessBits(v);
    CeilOfFloat(v, ExcessBits(v));
  }

  lemma SizeInGiBBound(v: nat)
    ensures v <= TWO53 ==> SizeInGiB(v) == CeilDiv(v, GIB)
    ensures SizeInGiB(v) == CeilDiv(v, GIB) <==>
            v % GIB == 0 || 2 * (v % GIB) > Pow2(ExcessBits(v))
    ensures SizeInGiB(v) == CeilDiv(v, GIB) || SizeInGiB(v) + 1 == CeilDiv(v, GIB)
  {
    if v == TWO53 {
      assert v % GIB == 0;
    }
  }

  /** The scheduler's size is the exact ceiling up to 2^53 bytes. Above, it is exact if and
      only if the remainder is zero or more than half a float64 step; otherwise one less. */
  lemma FloatCeilingBound(v: nat)
    requires v < TWO63
    ensures v <= TWO53 ==> RealSize(v) == CeilDiv(v, GIB)
    ensures RealSize(v) == CeilDiv(v, GIB) <==>
            v % GIB == 0 || 2 * (v % GIB) > Pow2(ExcessBits(v))
    ensures RealSize(v) == CeilDiv(v, GIB) || RealSize(v) + 1 == CeilDiv(v, GIB)
  {
    RealSizeClosedForm(v);
    SizeInGiBBound(v);
  }

  /** The rounding does go down: one byte over 2^53 GiB-aligned bytes is not counted. */
  lemma FloatCeilingCanBeOneLess()
    ensures RealSize(TWO53 + 1) + 1 == CeilDiv(TWO53 + 1, GIB)
  {
    RealSizeClosedForm(TWO53 + 1);
    assert ExcessBits(TWO53 + 1) == 1 + ExcessBits(TWO53 / 2);
    assert ExcessBits(TWO53 / 2) == 0;
    assert Pow2(1) == 2;
  }

  // ------------------------------------------------------- driver and agent

  datatype Unit = Megabytes | Gigabytes

  /** The size the driver asks LVM for: whole GiB, or whole MiB below one GiB. */
  function PvSize(capacity: nat): (nat, Unit) {
    if capacity / GIB == 0 then (capacity / MIB, Megabytes) else (capacity / GIB, Gigabytes)
  }

  function UnitBytes(unit: Unit): nat {
    match unit
    case Megabytes => MIB
    case Gigabytes => GIB
  }

  /** The bytes the driver asks for. */
  function AskedBytes(capacity: nat): nat {
    var (amount, unit) := PvSize(capacity);
    amount * UnitBytes(unit)
  }

  /** The bytes a linear logical volume takes: LVM rounds up to whole extents. */
  function CarvedBytes(capacity: nat): nat {
    CeilDiv(AskedBytes(capacity), EXTENT) * EXTENT
  }

  /** The agent's free size in GiB of a group with `free` bytes reported in MiB. */
  function FloorGiB(free: nat): nat {
    free / GIB
  }

  lemma AskedBounds(capacity: nat)
    ensures AskedBytes(capacity) <= capacity < AskedBytes(capacity) + GIB
    ensures AskedBytes(capacity) == if capacity < GIB then capacity / MIB * MIB else capacity / GIB * GIB
  {
  }

  /** Rounding up to extents never crosses the next GiB. */
  lemma ExtentRounding(asked: nat, gib: nat)
    requires asked <= gib * GIB
    ensures asked <= CeilDiv(asked, EXTENT) * EXTENT <= gib * GIB
  {
    var q, r := asked / EXTENT, asked % EXTENT;
    assert asked == EXTENT * q + r;
    assert gib * GIB == EXTENT * (256 * gib);
  }

  /** The scheduler's size covers what the driver asks for, even where the float loses one. */
  lemma AskedWithinReserved(capacity: nat)
    ensures AskedBytes(capacity) <= SizeInGiB(capacity) * GIB
  {
    AskedBounds(capacity);
    if capacity < GIB {
      assert ExcessBits(capacity) == 0;
    } else {
      assert capacity / GIB <= SizeInGiB(capacity);
    }
  }

  /** Asked <= capacity, and carved <= reserved, for every capacity; the gaps are under one
      GiB each while the float is exact. */
  lemma RoundingsLineUp(capacity: nat)
    ensures AskedBytes(capacity) <= capacity < AskedBytes(capacity) + GIB
    ensures AskedBytes(capacity) <= CarvedBytes(capacity) <= SizeInGiB(capacity) * GIB
    ensures capacity <= TWO53 ==> capacity <= SizeInGiB(capacity) * GIB < capacity + GIB
  {
    AskedBounds(capacity);
    AskedWithinReserved(capacity);
    ExtentRounding(AskedBytes(capacity), SizeInGiB(capacity));
    CeilBounds(capacity);
    SizeInGiBBound(capacity);
  }

  lemma CeilBounds(v: nat)
    ensures v <= CeilDiv(v, GIB) * GIB < v + GIB
  {
  }

  /** A carve lowers the agent's floored free size by at most the reserved amount. */
  lemma CarveLowersFreeByAtMostReserved(free: nat, capacity: nat)
    requires CarvedBytes(capacity) <= free
    ensures FloorGiB(free) - SizeInGiB(capacity) <= FloorGiB(free - CarvedBytes(capacity)) <= FloorGiB(free)
  {
    RoundingsLineUp(capacity);
  }

  // -------------------------------------------------- the unit of the report

  const SI_MEGABYTE := 1_000_000

  /** The free size recorded when `vgs` reports in SI megabytes, as `--units=M` asks. */
  function FloorReportedSI(free: nat): nat {
    free / (1024 * SI_MEGABYTE)
  }

  /** With SI megabytes the recorded size fits the group exactly when the remainder of the
      division makes up the 49741824 bytes each recorded unit falls short of a GiB. */
  lemma SIReportFits(free: nat)
    ensures FloorReportedSI(free) * GIB <= free
            <==> FloorReportedSI(free) * (GIB - 1024 * SI_MEGABYTE) <= free % (1024 * SI_MEGABYTE)
    ensures FloorReportedSI(free) >= FloorGiB(free)
    ensures FloorReportedSI(free) >= 21 ==> FloorReportedSI(free) * GIB > free
  {
  }

  /** Sizes reserved in GiB bound sizes carved in bytes, summed over any set of claims. */
  lemma {:induction false} SumOfCarvedFits<K>(bytes: map<K, nat>, gib: map<K, nat>)
    requires bytes.Keys <= gib.Keys
    requires forall k | k in bytes :: bytes[k] <= gib[k] * GIB
    ensures SumMap(bytes) <= SumMap(gib) * GIB
    decreases |bytes|
  {
    if bytes != map[] {
      var k :| k in bytes;
      SumRemove(bytes, k);
      SumRemove(gib, k);
      SumOfCarvedFits(bytes - {k}, gib - {k});
    }
  }
}
