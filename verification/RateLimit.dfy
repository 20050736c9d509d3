/** Rate enforcement of QERs: the token bucket, the effective rate under temporary
    overrides, and the bound on what a bucket lets through over any run. */
module RateLimit {
  import opened Rules

  const EMPTY_METER := Meter(Bucket(0.0, None), Bucket(0.0, None))

  /** MBR values are kilobits per second. */
  function BytesPerSecond(mbr: nat): real { mbr as real * 125.0 }

  function Refill(b: Bucket, rate: real, now: Time): Bucket {
    if b.lastRefill.None? then Bucket(rate, Some(now))
    else if now > b.lastRefill.value then
      var filled := b.tokens + (now - b.lastRefill.value) * rate;
      Bucket(if filled > rate then rate else filled, Some(now))
    else b
  }

  /** consumeTokens: the new bucket, and whether the bytes were admitted. */
  function Consume(b: Bucket, mbr: nat, bytes: nat, now: Time): (Bucket, bool) {
    if mbr == 0 then (b, true)
    else
      var r := Refill(b, BytesPerSecond(mbr), now);
      if r.tokens < bytes as real then (r, false) else (r.(tokens := r.tokens - bytes as real), true)
  }

  function BucketOf(m: Meter, dir: Direction): Bucket {
    if dir.Downlink? then m.downlink else m.uplink
  }

  function WithBucket(m: Meter, dir: Direction, b: Bucket): Meter {
    if dir.Downlink? then m.(downlink := b) else m.(uplink := b)
  }

  function MeterOf(meters: map<QerId, Meter>, id: QerId): Meter {
    if id in meters then meters[id] else EMPTY_METER
  }

  // ---- effective values under an override ----

  function EffectiveOverride(overrides: map<QerId, Override>, q: QerId, now: Time): Option<Override> {
    if q !in overrides then None
    else
      var o := overrides[q];
      if o.expiresAt.Some? && now > o.expiresAt.value then None else Some(o)
  }

  function InstalledMbr(q: Qer, dir: Direction): nat {
    var v := if dir.Uplink? then q.mbrUl else q.mbrDl;
    if v.Some? then v.value else 0
  }

  function EffectiveMbr(overrides: map<QerId, Override>, id: QerId, q: Qer, dir: Direction, now: Time): nat {
    var o := EffectiveOverride(overrides, id, now);
    if o.Some? && dir.Uplink? && o.value.mbrUl != 0 then o.value.mbrUl
    else if o.Some? && dir.Downlink? && o.value.mbrDl != 0 then o.value.mbrDl
    else InstalledMbr(q, dir)
  }

  predicate InstalledGateClosed(q: Qer, dir: Direction) {
    q.gate.Some? && if dir.Uplink? then q.gate.value.ulClosed else q.gate.value.dlClosed
  }

  predicate EffectiveGateClosed(overrides: map<QerId, Override>, id: QerId, q: Qer, dir: Direction, now: Time) {
    var o := EffectiveOverride(overrides, id, now);
    if o.Some? && dir.Uplink? && o.value.gateUl.Some? then !o.value.gateUl.value
    else if o.Some? && dir.Downlink? && o.value.gateDl.Some? then !o.value.gateDl.value
    else InstalledGateClosed(q, dir)
  }

  // ---- policing one packet against all the QERs of its binding ----

  /** The QERs with a nonzero effective rate, charged in order up to the first refusal:
      the meters after it, and whether the packet passes. */
  function Police(meters: map<QerId, Meter>, overrides: map<QerId, Override>,
                  qers: seq<(QerId, Qer)>, bytes: nat, dir: Direction, now: Time)
    : (r: (map<QerId, Meter>, bool))
    decreases |qers|
  {
    if qers == [] then (meters, true)
    else
      var (id, q) := qers[0];
      var mbr := EffectiveMbr(overrides, id, q, dir, now);
      if mbr == 0 then Police(meters, overrides, qers[1..], bytes, dir, now)
      else
        var meter := if id in meters then meters[id] else EMPTY_METER;
        var (b, ok) := Consume(BucketOf(meter, dir), mbr, bytes, now);
        var charged := meters[id := WithBucket(meter, dir, b)];
        if ok then Police(charged, overrides, qers[1..], bytes, dir, now) else (charged, false)
  }

  // ---- the bound over a run ----

  /** One packet offered to the policer of a session, with the overrides in force then. */
  datatype Offer = Offer(
    qers: seq<(QerId, Qer)>,
    overrides: map<QerId, Override>,
    bytes: nat,
    dir: Direction,
    now: Time)

  function Metered(meters: map<QerId, Meter>, o: Offer): (map<QerId, Meter>, bool) {
    if o.bytes == 0 || o.qers == [] then (meters, true)
    else Police(meters, o.overrides, o.qers, o.bytes, o.dir, o.now)
  }

  function MetersAfter(run: seq<Offer>): map<QerId, Meter> {
    if run == [] then map[]
    else Metered(MetersAfter(run[..|run| - 1]), run[|run| - 1]).0
  }

  /** The offer goes through QER `id` in direction `dir` under a rate limit. */
  predicate Limits(o: Offer, id: QerId, dir: Direction) {
    o.dir == dir && exists i ::
      0 <= i < |o.qers| && o.qers[i].0 == id && EffectiveMbr(o.overrides, id, o.qers[i].1, dir, o.now) != 0
  }

  /** Bytes of the packets of the run that were let through and that `id` limits. */
  function Forwarded(run: seq<Offer>, id: QerId, dir: Direction): real {
    if run == [] then 0.0
    else
      var rest := run[..|run| - 1];
      var o := run[|run| - 1];
      Forwarded(rest, id, dir) +
        if Metered(MetersAfter(rest), o).1 && Limits(o, id, dir) then o.bytes as real else 0.0
  }

  /** No rate used for `id` in direction `dir` anywhere in the run exceeds `mbr`. */
  predicate RatesAtMost(run: seq<Offer>, id: QerId, dir: Direction, mbr: nat) {
    forall k, i | 0 <= k < |run| && 0 <= i < |run[k].qers| ::
      run[k].dir == dir && run[k].qers[i].0 == id ==>
        EffectiveMbr(run[k].overrides, id, run[k].qers[i].1, dir, run[k].now) <= mbr
  }

  /** All clock readings of the run lie between `from` and `to`, in any order. */
  predicate ReadingsWithin(run: seq<Offer>, from: Time, to: Time) {
    forall k | 0 <= k < |run| :: from <= run[k].now <= to
  }

  /** A bucket is never overdrawn, and tokens spent so far plus tokens left never exceed
      one second's worth plus what accrued since the first reading.  `spent` counts every
      charge, those of packets that a later QER refuses included. */
  ghost predicate Within(b: Bucket, spent: real, rmax: real, from: Time, to: Time) {
    && 0.0 <= b.tokens <= rmax
    && (b.lastRefill.None? ==> spent == 0.0)
    && (b.lastRefill.Some? ==>
          && from <= b.lastRefill.value <= to
          && spent + b.tokens <= rmax * (1.0 + (b.lastRefill.value - from)))
  }

  lemma {:induction false} ProductMono(x: real, y: real, gap: real)
    requires 0.0 <= x <= y && 0.0 <= gap
    ensures 0.0 <= gap * x <= y * gap
  {
  }

  lemma {:induction false} RefillWithin(b: Bucket, spent: real, rate: real, rmax: real, from: Time, to: Time, now: Time)
    requires Within(b, spent, rmax, from, to) && 0.0 < rate <= rmax && from <= now <= to
    ensures Within(Refill(b, rate, now), spent, rmax, from, to)
    ensures Refill(b, rate, now).lastRefill.Some?
  {
    if b.lastRefill.None? {
      ProductMono(rmax, rmax, now - from);
    } else if now > b.lastRefill.value {
      var gap := now - b.lastRefill.value;
      ProductMono(rate, rmax, gap);
      assert rmax * (1.0 + (now - from)) == rmax * (1.0 + (b.lastRefill.value - from)) + rmax * gap;
    }
  }

  lemma {:induction false} ConsumeWithin(b: Bucket, spent: real, mbr: nat, rmax: nat, bytes: nat, from: Time,
          to: Time, now: Time)
    requires Within(b, spent, BytesPerSecond(rmax), from, to) && mbr <= rmax && from <= now <= to
    ensures var (b', ok) := Consume(b, mbr, bytes, now);
      Within(b', if ok && mbr != 0 then spent + bytes as real else spent, BytesPerSecond(rmax), from, to)
  {
    if mbr != 0 {
      RefillWithin(b, spent, BytesPerSecond(mbr), BytesPerSecond(rmax), from, to, now);
    }
  }

  ghost predicate MeterWithin(meters: map<QerId, Meter>, id: QerId, dir: Direction,
                              spent: real, mbr: nat, from: Time, to: Time) {
    Within(BucketOf(MeterOf(meters, id), dir), spent, BytesPerSecond(mbr), from, to)
  }

  lemma {:induction false} LimitsSplit(o: Offer, qers: seq<(QerId, Qer)>, id: QerId, dir: Direction)
    requires qers != [] && Limits(o.(qers := qers), id, dir)
    ensures (qers[0].0 == id && EffectiveMbr(o.overrides, id, qers[0].1, o.dir, o.now) != 0)
         || Limits(o.(qers := qers[1..]), id, dir)
  {
    var i :| 0 <= i < |qers| && qers[i].0 == id && EffectiveMbr(o.overrides, id, qers[i].1, dir, o.now) != 0;
    var rest := o.(qers := qers[1..]);
    if i > 0 { assert rest.qers[i - 1] == qers[i]; }
  }

  /** Policing one packet charges its bytes to every bucket that limits it when the packet
      passes, and keeps the bound of any bucket. */
  lemma {:induction false} PoliceWithin(meters: map<QerId, Meter>, o: Offer, qers: seq<(QerId, Qer)>,
                     id: QerId, dir: Direction, rmax: nat, spent: real, from: Time, to: Time)
    returns (spent': real)
    requires from <= o.now <= to
    requires o.dir == dir ==> forall i | 0 <= i < |qers| && qers[i].0 == id ::
      EffectiveMbr(o.overrides, id, qers[i].1, dir, o.now) <= rmax
    requires MeterWithin(meters, id, dir, spent, rmax, from, to)
    ensures var r := Police(meters, o.overrides, qers, o.bytes, o.dir, o.now);
      && MeterWithin(r.0, id, dir, spent', rmax, from, to)
      && spent' >= spent
      && (r.1 && Limits(o.(qers := qers), id, dir) ==> spent' >= spent + o.bytes as real)
    decreases |qers|
  {
    spent' := spent;
    if qers == [] { return; }
    var (qid, q) := qers[0];
    var mbr := EffectiveMbr(o.overrides, qid, q, o.dir, o.now);
    if Limits(o.(qers := qers), id, dir) { LimitsSplit(o, qers, id, dir); }
    if mbr == 0 {
      spent' := PoliceWithin(meters, o, qers[1..], id, dir, rmax, spent, from, to);
      return;
    }
    var meter := MeterOf(meters, qid);
    var (b, ok) := Consume(BucketOf(meter, o.dir), mbr, o.bytes, o.now);
    if qid == id && o.dir == dir {
      ConsumeWithin(BucketOf(meter, dir), spent, mbr, rmax, o.bytes, from, to, o.now);
      spent' := if ok then spent + o.bytes as real else spent;
    }
    var charged := meters[qid := WithBucket(meter, o.dir, b)];
    assert MeterWithin(charged, id, dir, spent', rmax, from, to);
    if ok {
      var s := PoliceWithin(charged, o, qers[1..], id, dir, rmax, spent', from, to);
      spent' := s;
    }
  }

  lemma {:induction false} SpentBound(run: seq<Offer>, id: QerId, dir: Direction,
                                      mbr: nat, from: Time, to: Time)
    returns (spent: real)
    requires RatesAtMost(run, id, dir, mbr) && ReadingsWithin(run, from, to)
    ensures spent >= Forwarded(run, id, dir)
    ensures MeterWithin(MetersAfter(run), id, dir, spent, mbr, from, to)
  {
    spent := 0.0;
    if run != [] {
      var n := |run| - 1;
      var rest, o := run[..n], run[n];
      spent := SpentBound(rest, id, dir, mbr, from, to);
      if o.bytes != 0 && o.qers != [] {
        assert o.(qers := o.qers) == o;
        spent := PoliceWithin(MetersAfter(rest), o, o.qers, id, dir, mbr, spent, from, to);
      }
    }
  }

  /** One second at the given rate, plus that rate over `span` seconds. */
  function Allowance(mbr: nat, span: real): real {
    BytesPerSecond(mbr) * (1.0 + span)
  }

  lemma {:induction false} WithinAllowance(b: Bucket, spent: real, mbr: nat, from: Time, to: Time)
    requires Within(b, spent, BytesPerSecond(mbr), from, to) && from <= to
    ensures spent <= Allowance(mbr, to - from)
  {
    var rmax := BytesPerSecond(mbr);
    if b.lastRefill.Some? {
      var last := b.lastRefill.value;
      ProductMono(rmax, rmax, to - last);
      calc {
        rmax * (1.0 + (to - from));
        rmax * (1.0 + (last - from)) + rmax * (to - last);
      }
    } else {
      ProductMono(rmax, rmax, 1.0 + (to - from));
    }
  }

  lemma {:induction false} BoundInBytes(run: seq<Offer>, id: QerId, dir: Direction, mbr: nat, from: Time, to: Time)
    requires RatesAtMost(run, id, dir, mbr) && ReadingsWithin(run, from, to) && from <= to
    ensures Forwarded(run, id, dir) <= Allowance(mbr, to - from)
  {
    var spent := SpentBound(run, id, dir, mbr, from, to);
    WithinAllowance(BucketOf(MeterOf(MetersAfter(run), id), dir), spent, mbr, from, to);
  }

  /** The whole-run bound.  Whatever packets are offered, through however many QERs each,
      whatever overrides start and end in between and however the clock readings are
      ordered, the bits let through one QER in one direction are at most one second at
      the largest rate used, in kilobits per second, plus that rate over the span of the
      readings. */
  lemma {:induction false} ForwardedBound(run: seq<Offer>, id: QerId, dir: Direction, mbr: nat, from: Time, to: Time)
    requires RatesAtMost(run, id, dir, mbr) && ReadingsWithin(run, from, to) && from <= to
    ensures 8.0 * Forwarded(run, id, dir) <= 1000.0 * mbr as real * (1.0 + (to - from))
  {
    hide Forwarded, RatesAtMost, ReadingsWithin, BytesPerSecond;
    BoundInBytes(run, id, dir, mbr, from, to);
    InBits(mbr, 1.0 + (to - from), Forwarded(run, id, dir));
  }

  /** Rates are in kilobits per second and buckets in bytes. */
  lemma {:induction false} InBits(mbr: nat, span: real, bytes: real)
    ensures bytes <= BytesPerSecond(mbr) * span <==> 8.0 * bytes <= 1000.0 * mbr as real * span
  {
    Eightfold(BytesPerSecond(mbr), span);
  }

  lemma {:induction false} Eightfold(a: real, b: real)
    ensures 8.0 * (a * b) == (8.0 * a) * b
  {
  }

  // ---- which packets pass ----

  /** The bucket that a QER's packets in one direction are charged to holds enough for the packet,
      which is the case for a new one exactly up to one second's worth. */
  predicate HasRoom(meters: map<QerId, Meter>, id: QerId, dir: Direction, mbr: nat, bytes: nat, now: Time) {
    bytes as real <= Refill(BucketOf(MeterOf(meters, id), dir), BytesPerSecond(mbr), now).tokens
  }

  lemma {:induction false} NewHasRoom(meters: map<QerId, Meter>, id: QerId, dir: Direction, mbr: nat, bytes: nat, now: Time)
    requires id !in meters
    ensures HasRoom(meters, id, dir, mbr, bytes, now) <==> 8 * bytes <= 1000 * mbr
  {
    InBits(mbr, 1.0, bytes as real);
  }

  predicate DistinctQers(qers: seq<(QerId, Qer)>) {
    forall i, j | 0 <= i < j < |qers| :: qers[i].0 != qers[j].0
  }

  /** The QER at `i` limits the packet. */
  predicate LimitsAt(o: Offer, i: nat)
    requires i < |o.qers|
  {
    EffectiveMbr(o.overrides, o.qers[i].0, o.qers[i].1, o.dir, o.now) != 0
  }

  predicate RoomAt(meters: map<QerId, Meter>, o: Offer, i: nat)
    requires i < |o.qers|
  {
    HasRoom(meters, o.qers[i].0, o.dir, EffectiveMbr(o.overrides, o.qers[i].0, o.qers[i].1, o.dir, o.now), o.bytes, o.now)
  }

  lemma {:induction false} PolicePasses(meters: map<QerId, Meter>, o: Offer)
    requires DistinctQers(o.qers)
    ensures Police(meters, o.overrides, o.qers, o.bytes, o.dir, o.now).1 <==>
      forall i | 0 <= i < |o.qers| && LimitsAt(o, i) :: RoomAt(meters, o, i)
    decreases |o.qers|
  {
    hide Refill, EffectiveMbr;
    if o.qers != [] {
      var (id, q) := o.qers[0];
      var mbr := EffectiveMbr(o.overrides, id, q, o.dir, o.now);
      var meter := MeterOf(meters, id);
      var (b, ok) := Consume(BucketOf(meter, o.dir), mbr, o.bytes, o.now);
      var charged := if mbr == 0 then meters else meters[id := WithBucket(meter, o.dir, b)];
      var rest := o.(qers := o.qers[1..]);
      assert LimitsAt(o, 0) ==> (RoomAt(meters, o, 0) <==> ok);
      PolicePasses(charged, rest);
      forall i | 0 <= i < |rest.qers|
        ensures LimitsAt(rest, i) <==> LimitsAt(o, i + 1)
        ensures RoomAt(charged, rest, i) <==> RoomAt(meters, o, i + 1)
      {
        assert rest.qers[i] == o.qers[i + 1] && o.qers[i + 1].0 != id;
      }
      forall i | 0 < i < |o.qers|
        ensures LimitsAt(o, i) <==> LimitsAt(rest, i - 1)
        ensures RoomAt(meters, o, i) <==> RoomAt(charged, rest, i - 1)
      {
        assert rest.qers[i - 1] == o.qers[i];
      }
    }
  }

  /** A packet passes if and only if every QER of its binding that limits it has room for it; an empty
      packet always does. */
  lemma {:induction false} PassesExactly(meters: map<QerId, Meter>, o: Offer)
    requires DistinctQers(o.qers)
    ensures Metered(meters, o).1 <==>
      o.bytes == 0 || forall i | 0 <= i < |o.qers| && LimitsAt(o, i) :: RoomAt(meters, o, i)
  {
    hide Police, RoomAt, LimitsAt;
    PolicePasses(meters, o);
  }

  /** The bucket of QER `id` and direction `dir`. */
  function BucketAt(meters: map<QerId, Meter>, id: QerId, dir: Direction): Bucket { BucketOf(MeterOf(meters, id), dir) }

  lemma {:induction false} MeterStored(meters: map<QerId, Meter>, id: QerId, b: Bucket, dir: Direction, other: QerId, d: Direction)
    ensures BucketAt(meters[id := WithBucket(MeterOf(meters, id), dir, b)], other, d)
         == if other == id && d == dir then b else BucketAt(meters, other, d)
  {
  }

  /** What a packet is charged: nothing in the other direction, nothing to a QER that does not limit it,
      and its bytes once to each one that does, if it passes. */
  lemma {:induction false} ChargesExactly(meters: map<QerId, Meter>, o: Offer, id: QerId, dir: Direction)
    requires DistinctQers(o.qers)
    ensures var (after, pass) := Police(meters, o.overrides, o.qers, o.bytes, o.dir, o.now);
      && (dir != o.dir ==> BucketAt(after, id, dir) == BucketAt(meters, id, dir))
      && ((forall i | 0 <= i < |o.qers| && o.qers[i].0 == id :: !LimitsAt(o, i)) ==>
            BucketAt(after, id, dir) == BucketAt(meters, id, dir))
      && (pass && dir == o.dir ==> forall i | 0 <= i < |o.qers| && o.qers[i].0 == id && LimitsAt(o, i) ::
            var rate := BytesPerSecond(EffectiveMbr(o.overrides, id, o.qers[i].1, dir, o.now));
            var found := Refill(BucketAt(meters, id, dir), rate, o.now);
            BucketAt(after, id, dir) == found.(tokens := found.tokens - o.bytes as real))
    decreases |o.qers|
  {
    hide Refill, EffectiveMbr, BytesPerSecond, BucketOf, WithBucket, MeterOf;
    if o.qers != [] {
      var (qid, q) := o.qers[0];
      var mbr := EffectiveMbr(o.overrides, qid, q, o.dir, o.now);
      var rest := o.(qers := o.qers[1..]);
      forall i | 0 <= i < |rest.qers| ensures rest.qers[i] == o.qers[i + 1] && (LimitsAt(rest, i) <==> LimitsAt(o, i + 1)) {}
      forall i | 0 < i < |o.qers| ensures rest.qers[i - 1] == o.qers[i] && o.qers[i].0 != qid {}
      if mbr == 0 {
        ChargesExactly(meters, rest, id, dir);
      } else {
        var meter := MeterOf(meters, qid);
        assert meter == if qid in meters then meters[qid] else EMPTY_METER by { MeterIs(meters, qid); }
        var (b, ok) := Consume(BucketOf(meter, o.dir), mbr, o.bytes, o.now);
        MeterStored(meters, qid, b, o.dir, id, dir);
        ChargesExactly(meters[qid := WithBucket(meter, o.dir, b)], rest, id, dir);
      }
    }
  }

  lemma {:induction false} MeterIs(meters: map<QerId, Meter>, id: QerId)
    ensures MeterOf(meters, id) == if id in meters then meters[id] else EMPTY_METER
  {
  }

  /** The rate that an installed QER names for a direction does not forbid this many bytes at once. */
  predicate WithinOneSecond(q: Qer, dir: Direction, bytes: nat) {
    match dir
    case Uplink => q.mbrUl.Some? && q.mbrUl.value != 0 ==> 8 * bytes <= 1000 * q.mbrUl.value
    case Downlink => q.mbrDl.Some? && q.mbrDl.value != 0 ==> 8 * bytes <= 1000 * q.mbrDl.value
  }

  /** The first packet of a session, under QERs without override: each rate limit of its own direction
      must allow it within one second. */
  lemma {:induction false} FirstPacket(o: Offer)
    requires DistinctQers(o.qers) && o.overrides == map[]
    ensures Metered(map[], o).1 <==>
      o.bytes == 0 || forall i | 0 <= i < |o.qers| :: WithinOneSecond(o.qers[i].1, o.dir, o.bytes)
  {
    hide Metered, HasRoom, DistinctQers;
    PassesExactly(map[], o);
    forall i | 0 <= i < |o.qers|
      ensures WithinOneSecond(o.qers[i].1, o.dir, o.bytes) <==> (LimitsAt(o, i) ==> RoomAt(map[], o, i))
    {
      NewHasRoom(map[], o.qers[i].0, o.dir, EffectiveMbr(map[], o.qers[i].0, o.qers[i].1, o.dir, o.now), o.bytes, o.now);
    }
  }

  /** mbrAllows as written: a loop over the QERs of the binding, charging one bucket after
      the other in the session's meters and stopping at the first refusal. */
  method MbrAllows(meters: map<QerId, Meter>, o: Offer) returns (meters': map<QerId, Meter>, pass: bool)
    ensures (meters', pass) == Metered(meters, o)
  {
    meters', pass := meters, true;
    if o.bytes == 0 || o.qers == [] { return; }
    for i := 0 to |o.qers|
      invariant pass
      invariant Police(meters, o.overrides, o.qers, o.bytes, o.dir, o.now)
             == Police(meters', o.overrides, o.qers[i..], o.bytes, o.dir, o.now)
    {
      var (id, q) := o.qers[i];
      assert o.qers[i..][1..] == o.qers[i + 1..];
      var mbr := EffectiveMbr(o.overrides, id, q, o.dir, o.now);
      if mbr == 0 { continue; }
      var meter := if id in meters' then meters'[id] else EMPTY_METER;
      var (b, ok) := Consume(BucketOf(meter, o.dir), mbr, o.bytes, o.now);
      meters' := meters'[id := WithBucket(meter, o.dir, b)];
      if !ok { return meters', false; }
    }
  }
}
