/** The fixed-point decay of `trans_loading.c`, half-life 32. */
module LoadDecay {
  import opened FixedPoint

  const PERIOD_US: nat := 1024
  const HALF_LIFE: nat := 32
  const LOAD_AVG_MAX: nat := 47742
  const Q32: nat := 0x1_0000_0000
  const U64: nat := 0x1_0000_0000_0000_0000

  const LOAD_YN_INV: seq<nat> := [
    0xffffffff, 0xfa83b2da, 0xf5257d14, 0xefe4b99a, 0xeac0c6e6, 0xe5b906e6,
    0xe0ccdeeb, 0xdbfbb796, 0xd744fcc9, 0xd2a81d91, 0xce248c14, 0xc9b9bd85,
    0xc5672a10, 0xc12c4cc9, 0xbd08a39e, 0xb8fbaf46, 0xb504f333, 0xb123f581,
    0xad583ee9, 0xa9a15ab4, 0xa5fed6a9, 0xa2704302, 0x9ef5325f, 0x9b8d39b9,
    0x9837f050, 0x94f4efa8, 0x91c3d373, 0x8ea4398a, 0x8b95c1e3, 0x88980e80,
    0x85aac367, 0x82cd8698]

  /** The 64-by-32-bit product shifted right by 32. */
  function MulShift(v: nat, t: nat): nat {
    v * t / Q32
  }

  /** `val * y^n`: shift once per half-life, then one table product. */
  function DecayLoad(val: nat, n: nat): (r: nat)
    ensures n <= HALF_LIFE * 63 ==> r == MulShift(Shift(val, n / HALF_LIFE), LOAD_YN_INV[n % HALF_LIFE])
  {
    if n > HALF_LIFE * 63 then 0
    else
      ShiftByZero(val);
      var shifted := if n >= HALF_LIFE then Shift(val, n / HALF_LIFE) else val;
      assert shifted == Shift(val, n / HALF_LIFE);
      MulShift(shifted, LOAD_YN_INV[n % HALF_LIFE])
  }

  function Shift(val: nat, k: nat): nat {
    Quotient(val, Pow2(k))
  }

  lemma ShiftByZero(val: nat)
    ensures Shift(val, 0) == val
  {
  }

  lemma MulShiftMono(v: nat, w: nat, t: nat, u: nat)
    requires v * t <= w * u
    ensures MulShift(v, t) <= MulShift(w, u)
  {
  }

  /** The table starts below one and each entry is at most the one before it; the entry that
      would follow the last one is half of the first. */
  lemma TableDecreasing(i: nat)
    requires i < HALF_LIFE
    ensures 0 < LOAD_YN_INV[i] < Q32
    ensures i + 1 < HALF_LIFE ==> LOAD_YN_INV[i + 1] < LOAD_YN_INV[i]
    ensures LOAD_YN_INV[0] <= 2 * LOAD_YN_INV[i]
  {
  }

  lemma ShiftFacts(a: nat, b: nat, k: nat)
    ensures Shift(a, k) + Shift(b, k) <= Shift(a + b, k)
    ensures a <= b ==> Shift(a, k) <= Shift(b, k)
  {
    DivSuperadditive(a, b, Pow2(k));
    if a <= b {
      DivMono(a, b, Pow2(k));
    }
  }

  lemma MulShiftFacts(v: nat, w: nat, t: nat)
    ensures MulShift(v, t) + MulShift(w, t) <= MulShift(v + w, t)
    ensures v <= w ==> MulShift(v, t) <= MulShift(w, t)
  {
  }

  lemma DecayMonotone(a: nat, b: nat, n: nat)
    requires a <= b
    ensures DecayLoad(a, n) <= DecayLoad(b, n)
  {
    hide MulShift, Shift;
    if n <= HALF_LIFE * 63 {
      var k := n / HALF_LIFE;
      ShiftFacts(a, b, k);
      MulShiftFacts(Shift(a, k), Shift(b, k), LOAD_YN_INV[n % HALF_LIFE]);
    }
  }

  /** Decaying two loads apart never exceeds decaying their sum. */
  lemma DecaySuperadditive(a: nat, b: nat, n: nat)
    ensures DecayLoad(a, n) + DecayLoad(b, n) <= DecayLoad(a + b, n)
  {
    hide MulShift, Shift;
    if n <= HALF_LIFE * 63 {
      var k := n / HALF_LIFE;
      var t := LOAD_YN_INV[n % HALF_LIFE];
      ShiftFacts(a, b, k);
      MulShiftFacts(Shift(a, k), Shift(b, k), t);
      MulShiftFacts(Shift(a, k) + Shift(b, k), Shift(a + b, k), t);
    }
  }

  /** One more half-life with the table restarted loses at least as much as the last table entry. */
  lemma RestartBelow(v: nat, first: nat, last: nat)
    requires first <= 2 * last
    ensures MulShift(v / 2, first) <= MulShift(v, last)
  {
    MulMono(first, 2 * last, v / 2);
    MulMono(v / 2 * 2, v, last);
    assert v / 2 * first <= v * last;
    MulShiftMono(v / 2, v, first, last);
  }

  lemma NextEntryBelow(v: nat, next: nat, t: nat)
    requires next <= t
    ensures MulShift(v, next) <= MulShift(v, t)
  {
    MulMono(next, t, v);
    MulShiftMono(v, v, next, t);
  }

  lemma ShiftOnce(val: nat, k: nat)
    ensures Shift(val, k + 1) == Shift(val, k) / 2
  {
    DivDiv(val, Pow2(k), 2);
  }

  lemma DecayStepDown(val: nat, n: nat)
    ensures DecayLoad(val, n + 1) <= DecayLoad(val, n)
  {
    hide MulShift, Shift;
    if n < HALF_LIFE * 63 {
      var i, k := n % HALF_LIFE, n / HALF_LIFE;
      TableDecreasing(i);
      if i + 1 < HALF_LIFE {
        assert (n + 1) / HALF_LIFE == k && (n + 1) % HALF_LIFE == i + 1;
        NextEntryBelow(Shift(val, k), LOAD_YN_INV[i + 1], LOAD_YN_INV[i]);
      } else {
        assert (n + 1) / HALF_LIFE == k + 1 && (n + 1) % HALF_LIFE == 0;
        ShiftOnce(val, k);
        RestartBelow(Shift(val, k), LOAD_YN_INV[0], LOAD_YN_INV[i]);
      }
    }
  }

  lemma {:induction false} DecayAntitone(val: nat, n: nat, m: nat)
    requires n <= m
    ensures DecayLoad(val, m) <= DecayLoad(val, n)
    decreases m - n
  {
    hide DecayLoad;
    if n < m {
      DecayAntitone(val, n, m - 1);
      DecayStepDown(val, m - 1);
    }
  }

  function Ratio(t: nat, d: nat): (r: real)
    requires d > 0
    ensures r * d as real == t as real
  {
    t as real / d as real
  }

  /** The exact factor the table stands for: `T[n mod 32] / 2^(32 + n/32)`. */
  function DecayFactor(n: nat): real {
    Ratio(LOAD_YN_INV[n % HALF_LIFE], Denominator(n / HALF_LIFE))
  }

  function Denominator(h: nat): (d: nat)
    ensures d > 0
  {
    Q32 * Pow2(h)
  }

  function Scaled(val: nat, factor: real): real {
    val as real * factor
  }

  predicate FloorWithinTwo(rounded: nat, exact: real) {
    rounded as real <= exact < rounded as real + 2.0
  }

  lemma DoubleFloorGap(val: nat, k: nat, t: nat)
    requires k >= 1 && t < Q32
    ensures MulShift(val / k, t) * (Q32 * k) <= val * t < (MulShift(val / k, t) + 2) * (Q32 * k)
  {
    var q := val / k;
    var r := q * t / Q32;
    QuotientBounds(val, k);
    QuotientBounds(q * t, Q32);
    FloorGapBelow(val, k, t, q, r);
    FloorGapAbove(val, k, t, q, r);
  }

  lemma FloorGapBelow(val: nat, k: nat, t: nat, q: nat, r: nat)
    requires q * k <= val && r * Q32 <= q * t
    ensures r * (Q32 * k) <= val * t
  {
  }

  lemma FloorGapAbove(val: nat, k: nat, t: nat, q: nat, r: nat)
    requires k >= 1 && t < Q32 && val < (q + 1) * k && q * t < (r + 1) * Q32
    ensures val * t < (r + 2) * (Q32 * k)
  {
    MulMono(val, (q + 1) * k, t);
    assert (q + 1) * k * t == q * t * k + t * k;
    MulMono(q * t + 1, (r + 1) * Q32, k);
    MulMono(t, Q32, k);
    assert (q * t + 1) * k == q * t * k + k;
    assert (r + 1) * Q32 * k + Q32 * k == (r + 2) * (Q32 * k);
  }

  /** The two floors together lose less than 2 against the exact factor, for every 64-bit value
      and every age, the cut-off beyond 63 half-lives included. */
  lemma DecayWithinTwo(val: nat, n: nat)
    requires val < U64
    ensures FloorWithinTwo(DecayLoad(val, n), Scaled(val, DecayFactor(n)))
  {
    var h, t := n / HALF_LIFE, LOAD_YN_INV[n % HALF_LIFE];
    DecayGap(val, h, t, n);
    ScaledBounds(val, t, Denominator(h), DecayLoad(val, n));
  }

  lemma DecayGap(val: nat, h: nat, t: nat, n: nat)
    requires val < U64 && h == n / HALF_LIFE && t == LOAD_YN_INV[n % HALF_LIFE]
    ensures DecayLoad(val, n) * Denominator(h) <= val * t
    ensures val * t < (DecayLoad(val, n) + 2) * Denominator(h)
  {
    TableDecreasing(n % HALF_LIFE);
    if n <= HALF_LIFE * 63 {
      NearPastGap(val, t, h);
    } else {
      FarPastGap(val, t, h);
    }
  }

  lemma NearPastGap(val: nat, t: nat, h: nat)
    requires t < Q32
    ensures MulShift(Shift(val, h), t) * Denominator(h) <= val * t
    ensures val * t < (MulShift(Shift(val, h), t) + 2) * Denominator(h)
  {
    DoubleFloorGap(val, Pow2(h), t);
  }

  lemma FarPastGap(val: nat, t: nat, h: nat)
    requires val < U64 && t < Q32 && h >= 63
    ensures 0 * Denominator(h) <= val * t < (0 + 2) * Denominator(h)
  {
    HalfOf64(h);
    ProductBelow(val, U64, t, Q32);
    MulMono(U64, 2 * Pow2(h), Q32);
  }

  lemma HalfOf64(h: nat)
    requires h >= 63
    ensures U64 <= 2 * Pow2(h)
  {
    Pow2Mono(63, h);
    Pow2Of63();
  }

  lemma Pow2Of63()
    ensures 2 * Pow2(63) == U64
  {
    assert Pow2(8) == 256;
    Pow2Double(8, 256);
    Pow2Double(16, 0x1_0000);
    Pow2Double(32, 0x1_0000_0000);
    assert Pow2(63 + 1) == 2 * Pow2(63);
  }

  lemma Pow2Double(n: nat, p: nat)
    requires Pow2(n) == p
    ensures Pow2(n + n) == p * p
  {
    Pow2Add(n, n);
  }

  lemma ProductBelow(a: nat, b: nat, c: nat, d: nat)
    requires a < b && c < d
    ensures 0 <= a * c < b * d
  {
  }

  lemma ScaledBounds(val: nat, t: nat, d: nat, r: nat)
    requires d > 0 && r * d <= val * t < (r + 2) * d
    ensures FloorWithinTwo(r, Scaled(val, Ratio(t, d)))
  {
    var v, c, f, e := val as real, t as real, d as real, r as real;
    assert (val * t) as real == v * c && (r * d) as real == e * f;
    assert ((r + 2) * d) as real == (e + 2.0) * f;
    RealScaledBounds(v, c, f, e, Ratio(t, d));
  }

  lemma RealMulMono(a: real, b: real, c: real)
    requires a <= b && c > 0.0
    ensures a * c <= b * c
    ensures a < b ==> a * c < b * c
  {
  }

  lemma RealScaledBounds(v: real, c: real, f: real, e: real, q: real)
    requires f > 0.0 && q * f == c && e * f <= v * c < (e + 2.0) * f
    ensures e <= v * q < e + 2.0
  {
    var x := v * q;
    assert x * f == v * (q * f);
    if x < e {
      RealMulMono(x, e, f);
    }
    if x >= e + 2.0 {
      RealMulMono(e + 2.0, x, f);
    }
  }

  /** The third term `LOAD_AVG_MAX - decay(LOAD_AVG_MAX, p) - 1024` never wraps once a period has
      passed, and is zero exactly at the first one. */
  lemma FullPeriodsTerm(p: nat)
    requires p >= 1
    ensures DecayLoad(LOAD_AVG_MAX, p) + PERIOD_US <= LOAD_AVG_MAX
    ensures DecayLoad(LOAD_AVG_MAX, p) + PERIOD_US == LOAD_AVG_MAX <==> p == 1
  {
    assert DecayLoad(LOAD_AVG_MAX, 1) == 46718;
    assert DecayLoad(LOAD_AVG_MAX, 2) == 45717;
    if p >= 2 {
      DecayAntitone(LOAD_AVG_MAX, 2, p);
    }
  }

  // ---------------------------------------------------------------- the table

  /** The entry for `y^i`; the 32nd power of `y` is one half. */
  function Entry(i: nat): nat
    requires i <= HALF_LIFE
  {
    if i < HALF_LIFE then LOAD_YN_INV[i] else Q32 / 2
  }

  /** The table is geometric: each entry is the one before it times entry 1, within three for
      the roundings, and the entry after the last would be one half. */
  lemma TableIsGeometric(i: nat)
    requires i < HALF_LIFE
    ensures MulShift(Entry(i), Entry(1)) <= Entry(i + 1) <= MulShift(Entry(i), Entry(1)) + 3
  {
  }

  /** The `i`-th power of entry 1 in fixed point. */
  function PowerOfFirst(i: nat): nat {
    if i == 0 then Entry(0) else MulShift(PowerOfFirst(i - 1), Entry(1))
  }

  lemma MulShiftNear(a: nat, b: nat, e: nat, t: nat)
    requires a <= b <= a + e && t < Q32
    ensures MulShift(a, t) <= MulShift(b, t) <= MulShift(a, t) + e
  {
    MulMono(a, b, t);
    MulShiftMono(a, b, t, t);
    MulMono(b, a + e, t);
    MulMono(t, Q32, e);
    MulShiftMono(b, a + e, t, t);
    assert (a + e) * t <= a * t + e * Q32;
    DivMono((a + e) * t, a * t + e * Q32, Q32);
    AddedQuotient(a * t, e);
  }

  lemma AddedQuotient(v: nat, e: nat)
    ensures (v + e * Q32) / Q32 == v / Q32 + e
  {
  }

  /** So entry `i` is the `i`-th power of entry 1, within `3 * i` units of 2^-32. */
  lemma {:induction false} EntryIsPower(i: nat)
    requires i <= HALF_LIFE
    ensures PowerOfFirst(i) <= Entry(i) <= PowerOfFirst(i) + 3 * i
  {
    hide MulShift, Entry;
    if i > 0 {
      EntryIsPower(i - 1);
      TableIsGeometric(i - 1);
      EntryBelowOne();
      MulShiftNear(PowerOfFirst(i - 1), Entry(i - 1), 3 * (i - 1), Entry(1));
    }
  }

  lemma EntryBelowOne()
    ensures Entry(1) < Q32
  {
  }
}
