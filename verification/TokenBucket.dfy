/** What one token bucket admits, said without tokens. */
module TokenBucket {
  import opened Rules
  import opened RateLimit

  datatype Packet = Packet(now: Time, bytes: nat)

  function After(ps: seq<Packet>, mbr: nat): Bucket {
    if ps == [] then Bucket(0.0, None)
    else Consume(After(ps[..|ps| - 1], mbr), mbr, ps[|ps| - 1].bytes, ps[|ps| - 1].now).0
  }

  /** The packet at `k` is let through. */
  predicate Admits(ps: seq<Packet>, k: nat, mbr: nat)
    requires k < |ps|
  {
    Consume(After(ps[..k], mbr), mbr, ps[k].bytes, ps[k].now).1
  }

  /** Bytes let through from the packet at `j` up to, not including, the one at `k`. */
  function Admitted(ps: seq<Packet>, j: nat, k: nat, mbr: nat): real
    requires j <= k <= |ps|
    decreases k - j
  {
    if j == k then 0.0
    else Admitted(ps, j, k - 1, mbr) + if Admits(ps, k - 1, mbr) then ps[k - 1].bytes as real else 0.0
  }

  predicate InOrder(ps: seq<Packet>) {
    forall i, j | 0 <= i < j < |ps| :: ps[i].now <= ps[j].now
  }

  /** What the packets from `j` on leave room for at `k`: one second's worth at the rate, plus
      what accrued since, less what was let through. */
  function Room(ps: seq<Packet>, j: nat, k: nat, mbr: nat): real
    requires j <= k < |ps|
  {
    BytesPerSecond(mbr) * (1.0 + (ps[k].now - ps[j].now)) - Admitted(ps, j, k, mbr)
  }

  /** The tokens that the packet at `k` finds. */
  function Found(ps: seq<Packet>, k: nat, mbr: nat): real
    requires k < |ps|
  {
    Refill(After(ps[..k], mbr), BytesPerSecond(mbr), ps[k].now).tokens
  }

  lemma {:induction false} LastRefill(ps: seq<Packet>, k: nat, mbr: nat)
    requires 0 < k <= |ps| && mbr > 0 && InOrder(ps)
    ensures After(ps[..k], mbr).lastRefill == Some(ps[k - 1].now)
    ensures After(ps[..k], mbr).tokens
         == Found(ps, k - 1, mbr) - if Admits(ps, k - 1, mbr) then ps[k - 1].bytes as real else 0.0
  {
    assert ps[..k][..k - 1] == ps[..k - 1];
    if k > 1 { LastRefill(ps, k - 1, mbr); }
  }

  lemma {:induction false} RoomGrows(ps: seq<Packet>, j: nat, k: nat, mbr: nat)
    requires j < k < |ps|
    ensures Room(ps, j, k, mbr) == Room(ps, j, k - 1, mbr) + BytesPerSecond(mbr) * (ps[k].now - ps[k - 1].now)
                                 - if Admits(ps, k - 1, mbr) then ps[k - 1].bytes as real else 0.0
  {
    hide Admits, BytesPerSecond;
    Spread(BytesPerSecond(mbr), 1.0 + (ps[k - 1].now - ps[j].now), ps[k].now - ps[k - 1].now);
  }

  lemma {:induction false} Spread(r: real, a: real, b: real)
    ensures r * (a + b) == r * a + r * b
  {
  }

  lemma {:induction false} RoomHere(ps: seq<Packet>, k: nat, mbr: nat)
    requires k < |ps|
    ensures Room(ps, k, k, mbr) == BytesPerSecond(mbr)
  {
  }

  /** The refill in terms of what the previous packet left. */
  lemma {:induction false} FoundNext(ps: seq<Packet>, k: nat, mbr: nat)
    requires 0 < k < |ps| && mbr > 0 && InOrder(ps)
    ensures var rate := BytesPerSecond(mbr);
            var filled := Found(ps, k - 1, mbr) + rate * (ps[k].now - ps[k - 1].now)
                        - if Admits(ps, k - 1, mbr) then ps[k - 1].bytes as real else 0.0;
      Found(ps, k, mbr) == filled || (filled > rate && Found(ps, k, mbr) == rate)
    ensures Found(ps, k, mbr) <= BytesPerSecond(mbr)
  {
    hide Admits, After, BytesPerSecond, Refill, InOrder;
    LastRefill(ps, k, mbr);
    FoundBelow(ps, k - 1, mbr);
    Ordered(ps, k);
    assert After(ps[..k], mbr).tokens <= BytesPerSecond(mbr);
    RefillIs(After(ps[..k], mbr), ps[k - 1].now, BytesPerSecond(mbr), ps[k].now);
  }

  lemma {:induction false} Ordered(ps: seq<Packet>, k: nat)
    requires 0 < k < |ps| && InOrder(ps)
    ensures ps[k - 1].now <= ps[k].now
  {
  }

  /** A refill adds what accrued, up to one second's worth. */
  lemma {:induction false} RefillIs(b: Bucket, last: Time, rate: real, now: Time)
    requires b.lastRefill == Some(last) && last <= now && b.tokens <= rate
    ensures var filled := b.tokens + rate * (now - last);
      Refill(b, rate, now).tokens == if filled > rate then rate else filled
  {
    assert (now - last) * rate == rate * (now - last);
    if now == last { assert rate * 0.0 == 0.0; }
  }

  lemma {:induction false} FoundBelow(ps: seq<Packet>, k: nat, mbr: nat)
    requires k < |ps| && mbr > 0 && InOrder(ps)
    ensures Found(ps, k, mbr) <= BytesPerSecond(mbr)
  {
    if k > 0 {
      LastRefill(ps, k, mbr);
      FoundBelow(ps, k - 1, mbr);
    }
  }

  /** The tokens found are the least room over all starting points. */
  lemma {:induction false} FoundIsLeastRoom(ps: seq<Packet>, k: nat, mbr: nat)
    requires k < |ps| && mbr > 0 && InOrder(ps)
    ensures forall j | 0 <= j <= k :: Found(ps, k, mbr) <= Room(ps, j, k, mbr)
    ensures exists j :: 0 <= j <= k && Found(ps, k, mbr) == Room(ps, j, k, mbr)
  {
    hide Found, Room, Admits;
    RoomHere(ps, k, mbr);
    if k == 0 {
      FirstFound(ps, mbr);
    } else {
      FoundIsLeastRoom(ps, k - 1, mbr);
      FoundNext(ps, k, mbr);
      forall j | 0 <= j < k
        ensures Room(ps, j, k, mbr) == Room(ps, j, k - 1, mbr) + BytesPerSecond(mbr) * (ps[k].now - ps[k - 1].now)
                                 - if Admits(ps, k - 1, mbr) then ps[k - 1].bytes as real else 0.0
      {
        RoomGrows(ps, j, k, mbr);
      }
      var i :| 0 <= i <= k - 1 && Found(ps, k - 1, mbr) == Room(ps, i, k - 1, mbr);
      assert Found(ps, k, mbr) == Room(ps, i, k, mbr) || Found(ps, k, mbr) == Room(ps, k, k, mbr);
    }
  }

  lemma {:induction false} FirstFound(ps: seq<Packet>, mbr: nat)
    requires 0 < |ps|
    ensures Found(ps, 0, mbr) == BytesPerSecond(mbr)
  {
    assert ps[..0] == [];
  }

  lemma {:induction false} AdmitsInBytes(ps: seq<Packet>, k: nat, mbr: nat)
    requires k < |ps| && mbr > 0 && InOrder(ps)
    ensures Admits(ps, k, mbr) <==>
      forall j | 0 <= j <= k ::
        Admitted(ps, j, k, mbr) + ps[k].bytes as real <= BytesPerSecond(mbr) * (1.0 + (ps[k].now - ps[j].now))
  {
    FoundIsLeastRoom(ps, k, mbr);
    var i :| 0 <= i <= k && Found(ps, k, mbr) == Room(ps, i, k, mbr);
    assert Admits(ps, k, mbr) <==> ps[k].bytes as real <= Found(ps, k, mbr);
    hide Found, Admits, After, BytesPerSecond;
    forall j | 0 <= j <= k
      ensures Room(ps, j, k, mbr) + Admitted(ps, j, k, mbr) == BytesPerSecond(mbr) * (1.0 + (ps[k].now - ps[j].now)) {}
  }

  /** The policer is exact.  With one rate and clock readings in order, a packet is let through
      if and only if, from every earlier packet on, the bits let through and its own stay within
      the rate, in kilobits per second, times the elapsed time plus one second. */
  lemma {:induction false} AdmitsExactly(ps: seq<Packet>, k: nat, mbr: nat)
    requires k < |ps| && mbr > 0 && InOrder(ps)
    ensures Admits(ps, k, mbr) <==>
      forall j | 0 <= j <= k ::
        8.0 * (Admitted(ps, j, k, mbr) + ps[k].bytes as real) <= 1000.0 * mbr as real * (1.0 + (ps[k].now - ps[j].now))
  {
    hide Admits, Admitted, BytesPerSecond, InOrder;
    AdmitsInBytes(ps, k, mbr);
    forall j | 0 <= j <= k
      ensures Admitted(ps, j, k, mbr) + ps[k].bytes as real <= BytesPerSecond(mbr) * (1.0 + (ps[k].now - ps[j].now))
         <==> 8.0 * (Admitted(ps, j, k, mbr) + ps[k].bytes as real)
              <= 1000.0 * mbr as real * (1.0 + (ps[k].now - ps[j].now))
    {
      InBits(mbr, 1.0 + (ps[k].now - ps[j].now), Admitted(ps, j, k, mbr) + ps[k].bytes as real);
    }
  }
}
