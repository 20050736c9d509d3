/** Rates derived for a predicted burst, in the 64-bit arithmetic of the source: every
    product and sum is taken modulo 2^64. */
module Burst {
  import opened Rules

  const WRAP := 0x1_0000_0000_0000_0000
  type Word64 = x: int | 0 <= x < WRAP

  function Wrapped(x: nat): Word64 { x % WRAP }

  /** Bits per second that carry `size` bytes within `window` milliseconds, rounded up. */
  function RateFromBurst(size: Word64, window: Word64): Word64 {
    if size == 0 then 0
    else
      var w: nat := if window == 0 then 1 else window;
      var bits: nat := Wrapped(size as nat * 8);
      QuotientSmaller(Wrapped(bits * 1000 + w - 1), w);
      Wrapped(bits * 1000 + w - 1) / w
  }

  lemma {:induction false} QuotientSmaller(x: nat, w: nat)
    requires w > 0
    ensures 0 <= x / w <= x
  {
    DivBounds(x, w);
    FactorSmaller(x / w, w, x);
  }

  lemma {:induction false} FactorSmaller(q: int, w: nat, x: nat)
    requires w > 0 && q * w <= x < q * w + w
    ensures 0 <= q <= x
  {
    assert q * w + w == (q + 1) * w;
    if q >= 0 { assert q * w == q + q * (w - 1) && q * (w - 1) >= 0; }
  }

  datatype BurstReport = BurstReport(size: Word64, deadlineMs: Word64, durationMs: Word64)

  /** Authorised maxima; zero means none. */
  datatype Authorised = Authorised(maxUl: Word64, maxDl: Word64)

  datatype Rates = Rates(mbrUl: Word64, mbrDl: Word64, gfbrUl: Word64, gfbrDl: Word64)

  function Window(r: BurstReport): Word64 {
    var longer := r.durationMs > 0 && r.durationMs > r.deadlineMs;
    var w := if r.deadlineMs == 0 || longer then r.durationMs else r.deadlineMs;
    if w == 0 then 150 else w
  }

  function Capped(rate: Word64, max: Word64): Word64 {
    if max > 0 && rate > max then max else rate
  }

  /** Three quarters of the rate, or the rate itself where that rounds to zero. */
  function Guaranteed(rate: Word64): Word64 {
    var g := Wrapped(rate as nat * 3) / 4;
    if g == 0 && rate > 0 then rate else g
  }

  function UplinkShare(dl: Word64): Word64 {
    var eighth := dl / 8;
    var ul := if eighth == 0 && dl > 0 then dl / 4 else eighth;
    if ul == 0 then 100000 else ul
  }

  /** derivePredictiveBurstDecision, the four rates it selects. */
  function Decide(r: BurstReport, cp: Option<Authorised>): Rates {
    var dl := RateFromBurst(r.size, Window(r));
    var ul := UplinkShare(dl);
    var mbrDl := if cp.Some? then Capped(dl, cp.value.maxDl) else dl;
    var mbrUl := if cp.Some? then Capped(ul, cp.value.maxUl) else ul;
    Rates(mbrUl, mbrDl, Guaranteed(mbrUl), Guaranteed(mbrDl))
  }

  /** `rate` moves at least the whole burst within the window. */
  predicate CarriesBurst(rate: nat, size: nat, window: nat) {
    rate * window >= size * 8000
  }

  predicate LeastCarrying(rate: nat, size: nat, window: nat) {
    CarriesBurst(rate, size, window) && (rate > 0 ==> !CarriesBurst(rate - 1, size, window))
  }

  lemma {:induction false} WrapOnce(size: nat, w: nat)
    requires w > 0
    ensures Wrapped(Wrapped(size * 8) * 1000 + w - 1) == Wrapped(size * 8000 + w - 1)
  {
    var q := size * 8 / WRAP;
    assert size * 8 == q * WRAP + Wrapped(size * 8);
    assert size * 8000 + w - 1 == (q * 1000) * WRAP + (Wrapped(size * 8) * 1000 + w - 1);
    ModShift(Wrapped(size * 8) * 1000 + w - 1, q * 1000);
  }

  lemma {:induction false} ModShift(x: nat, k: nat)
    ensures (k * WRAP + x) % WRAP == x % WRAP
    decreases k
  {
    if k > 0 {
      ModShift(x, k - 1);
      assert k * WRAP + x == ((k - 1) * WRAP + x) + WRAP;
    }
  }

  lemma {:induction false} CeilIsLeast(x: nat, w: nat, size: nat)
    requires w > 0 && x == size * 8000 + w - 1
    ensures LeastCarrying(x / w, size, w)
  {
    var q := x / w;
    assert q * w <= x < q * w + w by { DivBounds(x, w); }
    assert (q - 1) * w == q * w - w;
  }

  lemma {:induction false} DivBounds(x: nat, w: nat)
    requires w > 0
    ensures (x / w) * w <= x < (x / w) * w + w
  {
  }

  /** The rate is the least one that carries the burst if and only if the 64-bit product and
      sum do not overflow. */
  lemma {:induction false} LeastRateUnlessOverflow(size: Word64, window: Word64)
    requires size > 0 && window > 0
    ensures LeastCarrying(RateFromBurst(size, window), size, window) <==> size as nat * 8000 + window - 1 < WRAP
  {
    var x := size as nat * 8000 + window - 1;
    WrapOnce(size, window);
    var y := Wrapped(x);
    assert RateFromBurst(size, window) == y / window;
    if x < WRAP {
      CeilIsLeast(x, window, size);
    } else {
      DivBounds(y, window);
      assert y <= x - WRAP;
      assert (y / window) * window <= size as nat * 8000 + window - 1 - WRAP < size as nat * 8000;
    }
  }

  lemma {:induction false} GuaranteedBelow(rate: Word64)
    ensures Guaranteed(rate) <= rate
    ensures rate > 0 ==> Guaranteed(rate) > 0
  {
    assert Wrapped(rate as nat * 3) <= rate as nat * 3;
  }

  /** For every report and every authorisation, overflow included: the guaranteed rate never
      exceeds the maximum rate and is positive whenever that is, the uplink is never starved,
      and no rate exceeds a maximum that was authorised. */
  lemma {:induction false} DecisionSafe(r: BurstReport, cp: Option<Authorised>)
    ensures var d := Decide(r, cp);
      && d.gfbrUl <= d.mbrUl && d.gfbrDl <= d.mbrDl
      && (d.mbrDl > 0 ==> d.gfbrDl > 0)
      && d.mbrUl > 0 && d.gfbrUl > 0
      && (cp.Some? && cp.value.maxUl > 0 ==> d.mbrUl <= cp.value.maxUl)
      && (cp.Some? && cp.value.maxDl > 0 ==> d.mbrDl <= cp.value.maxDl)
  {
    var d := Decide(r, cp);
    GuaranteedBelow(d.mbrUl);
    GuaranteedBelow(d.mbrDl);
  }

  // ---- which window, share and cap ----

  /** The window is the later of deadline and duration, or 150 ms if neither is given. */
  lemma {:induction false} WindowIsLonger(r: BurstReport)
    ensures var w := Window(r);
      if r.deadlineMs == 0 && r.durationMs == 0 then w == 150
      else w >= r.deadlineMs && w >= r.durationMs && (w == r.deadlineMs || w == r.durationMs)
  {
  }

  /** The uplink gets an eighth of the downlink, rounded down; a quarter where that rounds to nothing; and
      100 kbit/s where that does too. */
  lemma {:induction false} ShareOfDownlink(dl: Word64)
    ensures var ul := UplinkShare(dl);
      if dl >= 8 then 8 * ul <= dl < 8 * ul + 8
      else if dl >= 4 then ul == 1
      else ul == 100000
  {
  }

  /** Three quarters rounded down, unless tripling overflows; a rate of one keeps its one. */
  lemma {:induction false} GuaranteedShare(rate: Word64)
    ensures 3 * rate < 0x1_0000_0000_0000_0000 ==>
      var g := Guaranteed(rate); if rate == 1 then g == 1 else 4 * g <= 3 * rate < 4 * g + 4
  {
  }

  /** The smaller of a rate and a maximum, a maximum of zero being none. */
  predicate CappedAt(rate: nat, wanted: nat, max: nat) {
    rate <= wanted && (max > 0 ==> rate <= max) && (rate == wanted || (max > 0 && rate == max))
  }

  /** The decision: the downlink gets the burst's rate over the window and the uplink its share, each cut
      to the maximum authorised for its own direction, with its own guaranteed part. */
  lemma {:induction false} DecisionIs(r: BurstReport, cp: Option<Authorised>)
    ensures var d := Decide(r, cp);
            var dl := RateFromBurst(r.size, Window(r));
      && CappedAt(d.mbrDl, dl, if cp.Some? then cp.value.maxDl else 0)
      && CappedAt(d.mbrUl, UplinkShare(dl), if cp.Some? then cp.value.maxUl else 0)
      && d.gfbrDl == Guaranteed(d.mbrDl) && d.gfbrUl == Guaranteed(d.mbrUl)
  {
    hide RateFromBurst, UplinkShare, Guaranteed, Window;
  }

  /** No burst needs no rate, and a window of zero counts as one millisecond. */
  lemma {:induction false} RateEdges(size: Word64, window: Word64)
    ensures RateFromBurst(0, window) == 0 && RateFromBurst(size, 0) == RateFromBurst(size, 1)
  {
  }
}
