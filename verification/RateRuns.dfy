/** The bound on forwarded bytes carried over to runs of the driver: between the creation of a
    session and its deletion its meters change only when packets are policed. */
module RateRuns {
  import opened Rules
  import opened RateLimit
  import opened Driver

  function OfferOf(d: State, e: Event): Offer
    requires e.Policed? && e.binding.seid in d.sessions
  {
    Offer(e.binding.qers, d.sessions[e.binding.seid].overrides, e.bytes, e.dir, e.now)
  }

  predicate Polices(d: State, e: Event, seid: Seid) {
    e.Policed? && e.binding.seid == seid && seid in d.sessions
  }

  /** The packets that a run offers to the policer of a session. */
  function Offers(d: State, events: seq<Event>, seid: Seid): seq<Offer>
    decreases |events|
  {
    if events == [] then []
    else
      (if Polices(d, events[0], seid) then [OfferOf(d, events[0])] else [])
      + Offers(Step(d, events[0]), events[1..], seid)
  }

  /** Bytes of the packets of the run that the session's meters let through and that QER `id`
      limits. */
  function Passed(d: State, events: seq<Event>, seid: Seid, id: QerId, dir: Direction): real
    decreases |events|
  {
    if events == [] then 0.0
    else
      var e := events[0];
      (if Polices(d, e, seid) && Metered(d.sessions[seid].meters, OfferOf(d, e)).1 && Limits(OfferOf(d, e), id, dir)
       then e.bytes as real else 0.0)
      + Passed(Step(d, e), events[1..], seid, id, dir)
  }

  /** The session is there all through the run. */
  predicate Lives(d: State, events: seq<Event>, seid: Seid)
    decreases |events|
  {
    seid in d.sessions && (events == [] || Lives(Step(d, events[0]), events[1..], seid))
  }

  lemma {:induction false} DataMeters(d: State, e: Event, seid: Seid)
    requires e.Buffered? || e.Counted? || e.Policed?
    requires seid in d.sessions && seid in Step(d, e).sessions
    ensures Step(d, e).sessions[seid].meters
         == if Polices(d, e, seid) then Metered(d.sessions[seid].meters, OfferOf(d, e)).0 else d.sessions[seid].meters
  {
    hide CountAll, Metered, Enqueue, BufferOf, BufferLimit;
  }

  lemma {:induction false} FlowMeters(d: State, e: Event, seid: Seid)
    requires e.FlowStarted? || e.FlowEnded? || e.FlowsReset?
    requires seid in d.sessions && seid in Step(d, e).sessions
    ensures Step(d, e).sessions[seid].meters == d.sessions[seid].meters
  {
    hide StartFlow, EndFlow, Apply, CountAll, TickSession, Buffer, Schedule, Metered, Store;
    match e
    case FlowStarted(at, flow, p, now) =>
      if at in d.sessions {
        StartKeeps(d.sessions[at], flow, p, now);
        FlowKeepsMeters(d, at, StartFlow(d.sessions[at], flow, p, now), seid);
      }
    case FlowEnded(at, flow) =>
      if at in d.sessions {
        EndKeeps(d.sessions[at], flow);
        FlowKeepsMeters(d, at, EndFlow(d.sessions[at], flow), seid);
      }
    case FlowsReset =>
  }

  lemma {:induction false} StartKeeps(s: SessionState, flow: FlowId, p: Profile, now: Time)
    ensures StartFlow(s, flow, p, now).meters == s.meters
  {
    hide AdaptiveQers;
  }

  lemma {:induction false} EndKeeps(s: SessionState, flow: FlowId)
    ensures EndFlow(s, flow).meters == s.meters
  {
  }

  lemma {:induction false} FlowKeepsMeters(d: State, at: Seid, s: SessionState, seid: Seid)
    requires at in d.sessions && s.meters == d.sessions[at].meters && seid in d.sessions
    ensures seid in Store(d, at, s).sessions && Store(d, at, s).sessions[seid].meters == d.sessions[seid].meters
  {
  }

  /** Nothing but policing changes the meters of a session that stays. */
  lemma {:induction false} StepMeters(d: State, e: Event, seid: Seid)
    requires seid in d.sessions && seid in Step(d, e).sessions
    ensures Step(d, e).sessions[seid].meters
         == if Polices(d, e, seid) then Metered(d.sessions[seid].meters, OfferOf(d, e)).0 else d.sessions[seid].meters
  {
    hide Apply, TickSession, Metered, OfferOf, Buffer, StartFlow, EndFlow, CountAll;
    match e
    case Control(at, req) => ControlMeters(d, at, req, seid);
    case Ticked(now) => TickMeters(d.sessions[seid], now);
    case Buffered(_, _) => DataMeters(d, e, seid);
    case Counted(_, _, _) => DataMeters(d, e, seid);
    case Policed(_, _, _, _) => DataMeters(d, e, seid);
    case Scheduled(_, _) =>
    case NotificationDue(_) =>
    case FlowStarted(_, _, _, _) => FlowMeters(d, e, seid);
    case FlowEnded(_, _) => FlowMeters(d, e, seid);
    case FlowsReset => FlowMeters(d, e, seid);
  }

  lemma {:induction false} TickMeters(s: SessionState, now: Time)
    ensures TickSession(s, now).meters == s.meters
  {
  }

  lemma {:induction false} ControlMeters(d: State, at: Seid, req: Request, seid: Seid)
    requires seid in d.sessions && seid in Apply(d, at, req).state.sessions
    ensures Apply(d, at, req).state.sessions[seid].meters == d.sessions[seid].meters
  {
    hide After, Names, Decodes, Cancelled, Disposable;
    if Refusal(d, at, req).None? && at == seid { AfterFrame(d.sessions[seid], req); }
  }

  lemma {:induction false} OneOffer(before: seq<Offer>, o: Offer, id: QerId, dir: Direction)
    ensures MetersAfter(before + [o]) == Metered(MetersAfter(before), o).0
    ensures Forwarded(before + [o], id, dir)
         == Forwarded(before, id, dir) + if Metered(MetersAfter(before), o).1
             && Limits(o, id, dir) then o.bytes as real else 0.0
  {
    hide Metered, Limits;
    assert (before + [o])[..|before|] == before;
  }

  /** The driver's decisions over a run are those of the policer over the offers. */
  lemma {:induction false} RunIsOffers(d: State, events: seq<Event>, seid: Seid, before: seq<Offer>, id: QerId,
          dir: Direction)
    requires Lives(d, events, seid) && d.sessions[seid].meters == MetersAfter(before)
    ensures Forwarded(before + Offers(d, events, seid), id, dir)
        == Forwarded(before, id, dir) + Passed(d, events, seid, id, dir)
    decreases |events|
  {
    hide Step, Metered, Limits, Forwarded, MetersAfter, OfferOf;
    if events == [] {
      assert before + [] == before;
    } else {
      var e := events[0];
      StepMeters(d, e, seid);
      var rest := Offers(Step(d, e), events[1..], seid);
      if Polices(d, e, seid) {
        var o := OfferOf(d, e);
        OfferReads(d, e);
        OneOffer(before, o, id, dir);
        RunIsOffers(Step(d, e), events[1..], seid, before + [o], id, dir);
        assert before + ([o] + rest) == before + [o] + rest;
      } else {
        RunIsOffers(Step(d, e), events[1..], seid, before, id, dir);
        assert [] + rest == rest;
      }
    }
  }

  /** From the moment a session is created without meters, over every run of control, data and
      adaptive events through which it lives: the bits let through that one QER limits in one
      direction are at most its largest rate, in kilobits per second, times the elapsed time plus one
      second. */
  lemma {:induction false} RunBound(d: State, events: seq<Event>, seid: Seid, id: QerId, dir: Direction, mbr: nat,
          from: Time, to: Time)
    requires Lives(d, events, seid) && d.sessions[seid].meters == map[]
    requires RatesAtMost(Offers(d, events, seid), id, dir, mbr)
    requires ReadingsWithin(Offers(d, events, seid), from, to) && from <= to
    ensures 8.0 * Passed(d, events, seid, id, dir) <= 1000.0 * mbr as real * (1.0 + (to - from))
  {
    hide Lives, Offers, Passed, RatesAtMost, ReadingsWithin;
    RunIsOffers(d, events, seid, [], id, dir);
    assert [] + Offers(d, events, seid) == Offers(d, events, seid);
    ForwardedBound(Offers(d, events, seid), id, dir, mbr, from, to);
  }

  // ---- one SEID through deletions and re-creations ----

  /** How often the run creates the session. */
  function Creations(d: State, events: seq<Event>, seid: Seid): nat
    decreases |events|
  {
    if events == [] then 0
    else
      var d' := Step(d, events[0]);
      (if seid !in d.sessions && seid in d'.sessions then 1 else 0) + Creations(d', events[1..], seid)
  }

  /** The lives of the session follow one another in time: the readings of each, in any order, lie
      between two consecutive entries of `ends`. */
  predicate InWindows(d: State, events: seq<Event>, seid: Seid, ends: seq<Time>)
    decreases |events|
  {
    && (if seid in d.sessions then |ends| >= 2 && ends[0] <= ends[1] else |ends| >= 1)
    && (events != [] ==>
          var e, d' := events[0], Step(d, events[0]);
          && (Polices(d, e, seid) ==> ends[0] <= e.now <= ends[1])
          && InWindows(d', events[1..], seid, if seid in d.sessions && seid !in d'.sessions then ends[1..] else ends))
  }

  /** Bursts of one second and a span, at the given rate. */
  function Total(mbr: nat, bursts: nat, span: real): real { BytesPerSecond(mbr) * (bursts as real + span) }

  lemma {:induction false} TotalAdds(mbr: nat, m: nat, a: real, n: nat, b: real)
    ensures Total(mbr, m, a) + Total(mbr, n, b) == Total(mbr, m + n, a + b)
    ensures Allowance(mbr, a) == Total(mbr, 1, a)
    ensures Total(mbr, 0, 0.0) == 0.0
  {
    var r := BytesPerSecond(mbr);
    assert r * (m as real + a) + r * (n as real + b) == r * ((m as real + a) + (n as real + b));
  }

  lemma {:induction false} FreshMeters(d: State, e: Event, seid: Seid)
    requires seid !in d.sessions && seid in Step(d, e).sessions
    ensures Step(d, e).sessions[seid].meters == map[]
  {
    hide After, Names, Cancelled, Disposable, TickSession;
    if e.Control? && e.seid == seid && Refusal(d, seid, e.req).None? { AfterFrame(FRESH_SESSION, e.req); }
  }

  lemma {:induction false} OffersFirst(d: State, events: seq<Event>, seid: Seid, id: QerId, dir: Direction, mbr: nat)
    requires events != [] && RatesAtMost(Offers(d, events, seid), id, dir, mbr)
    ensures RatesAtMost(Offers(Step(d, events[0]), events[1..], seid), id, dir, mbr)
    ensures Polices(d, events[0], seid) ==> RatesAtMost([OfferOf(d, events[0])], id, dir, mbr)
  {
    hide Step, EffectiveMbr, OfferOf;
    var all, rest := Offers(d, events, seid), Offers(Step(d, events[0]), events[1..], seid);
    var first := if Polices(d, events[0], seid) then [OfferOf(d, events[0])] else [];
    assert all == first + rest;
    forall k, i | 0 <= k < |rest| && 0 <= i < |rest[k].qers|
      ensures rest[k].dir == dir && rest[k].qers[i].0 == id
              ==> EffectiveMbr(rest[k].overrides, id, rest[k].qers[i].1, dir, rest[k].now) <= mbr
    {
      assert all[|first| + k] == rest[k];
    }
    if first != [] { assert all[0] == first[0]; }
  }

  lemma {:induction false} OneMore(before: seq<Offer>, o: Offer, id: QerId, dir: Direction, mbr: nat, from: Time, to: Time)
    requires RatesAtMost(before, id, dir, mbr) && RatesAtMost([o], id, dir, mbr)
    requires ReadingsWithin(before, from, to) && from <= o.now <= to
    ensures RatesAtMost(before + [o], id, dir, mbr) && ReadingsWithin(before + [o], from, to)
  {
    hide EffectiveMbr;
    assert [o][0] == o;
  }

  /** What the session's meters let through since its creation stays within its window. */
  predicate Metering(d: State, seid: Seid, before: seq<Offer>, id: QerId, dir: Direction, mbr: nat, ends: seq<Time>) {
    if seid in d.sessions
    then
      && d.sessions[seid].meters == MetersAfter(before) && RatesAtMost(before, id, dir, mbr)
      && |ends| >= 2 && ReadingsWithin(before, ends[0], ends[1])
    else before == []
  }

  /** A life that has ended and those that follow. */
  lemma {:induction false} OneLifeMore(before: seq<Offer>, id: QerId, dir: Direction, mbr: nat, ends: seq<Time>, k: nat,
          later: real)
    requires |ends| > k + 1 && ends[0] <= ends[1]
    requires RatesAtMost(before, id, dir, mbr) && ReadingsWithin(before, ends[0], ends[1])
    requires later <= Total(mbr, k, ends[1..][k] - ends[1..][0])
    ensures Forwarded(before, id, dir) + later <= Total(mbr, k + 1, ends[k + 1] - ends[0])
  {
    hide Forwarded, RatesAtMost, ReadingsWithin, Total, Allowance;
    BoundInBytes(before, id, dir, mbr, ends[0], ends[1]);
    TotalAdds(mbr, 1, ends[1] - ends[0], k, ends[1 + k] - ends[1]);
    TotalAdds(mbr, 0, ends[1] - ends[0], 0, 0.0);
  }

  /** What the session's lives let through from here on. */
  predicate WithinLives(d: State, events: seq<Event>, seid: Seid, before: seq<Offer>, id: QerId, dir: Direction, mbr: nat,
                        ends: seq<Time>) {
    var lives := (if seid in d.sessions then 1 else 0) + Creations(d, events, seid);
    && lives < |ends|
    && Forwarded(before, id, dir) + Passed(d, events, seid, id, dir) <= Total(mbr, lives, ends[lives] - ends[0])
  }

  lemma {:induction false} LivesBound(d: State, events: seq<Event>, seid: Seid, before: seq<Offer>, id: QerId,
          dir: Direction, mbr: nat, ends: seq<Time>)
    requires InWindows(d, events, seid, ends) && Metering(d, seid, before, id, dir, mbr, ends)
    requires RatesAtMost(Offers(d, events, seid), id, dir, mbr)
    ensures WithinLives(d, events, seid, before, id, dir, mbr, ends)
    decreases |events|
  {
    hide Step, Metered, Limits, Forwarded, MetersAfter, RatesAtMost, ReadingsWithin, Offers, OfferOf, Total, WithinLives,
      Creations, Passed;
    if events == [] {
      LivesOver(d, seid, before, id, dir, mbr, ends);
    } else {
      var e, d' := events[0], Step(d, events[0]);
      OffersFirst(d, events, seid, id, dir, mbr);
      if seid in d.sessions && seid in d'.sessions {
        StepMeters(d, e, seid);
        if Polices(d, e, seid) {
          var o := OfferOf(d, e);
          OfferReads(d, e);
          OneOffer(before, o, id, dir);
          OneMore(before, o, id, dir, mbr, ends[0], ends[1]);
          LivesBound(d', events[1..], seid, before + [o], id, dir, mbr, ends);
          PolicedLife(d, events, seid, before, id, dir, mbr, ends);
        } else {
          LivesBound(d', events[1..], seid, before, id, dir, mbr, ends);
          QuietLife(d, events, seid, before, id, dir, mbr, ends);
        }
      } else if seid in d.sessions {
        LivesBound(d', events[1..], seid, [], id, dir, mbr, ends[1..]);
        EndedLife(d, events, seid, before, id, dir, mbr, ends);
      } else {
        if seid in d'.sessions { FreshMeters(d, e, seid); }
        NoOffers(id, dir, mbr, ends);
        LivesBound(d', events[1..], seid, [], id, dir, mbr, ends);
        NoLife(d, events, seid, id, dir, mbr, ends);
      }
    }
  }

  lemma {:induction false} LivesOver(d: State, seid: Seid, before: seq<Offer>, id: QerId, dir: Direction, mbr: nat,
          ends: seq<Time>)
    requires InWindows(d, [], seid, ends) && Metering(d, seid, before, id, dir, mbr, ends)
    ensures WithinLives(d, [], seid, before, id, dir, mbr, ends)
  {
    hide Step, Forwarded, MetersAfter, RatesAtMost, ReadingsWithin, Total, Allowance;
    NothingForwarded(id, dir);
    TotalAdds(mbr, 0, 0.0, 0, 0.0);
    if seid in d.sessions {
      BoundInBytes(before, id, dir, mbr, ends[0], ends[1]);
      TotalAdds(mbr, 0, ends[1] - ends[0], 0, 0.0);
    }
  }

  lemma {:induction false} PolicedLife(d: State, events: seq<Event>, seid: Seid, before: seq<Offer>, id: QerId,
          dir: Direction, mbr: nat, ends: seq<Time>)
    requires events != [] && seid in d.sessions && seid in Step(d, events[0]).sessions && Polices(d, events[0], seid)
    requires d.sessions[seid].meters == MetersAfter(before)
    requires WithinLives(Step(d, events[0]), events[1..], seid, before + [OfferOf(d, events[0])], id, dir, mbr, ends)
    ensures WithinLives(d, events, seid, before, id, dir, mbr, ends)
  {
    hide Step, Metered, Limits, Forwarded, MetersAfter, OfferOf, Total;
    OfferReads(d, events[0]);
    OneOffer(before, OfferOf(d, events[0]), id, dir);
  }

  lemma {:induction false} QuietLife(d: State, events: seq<Event>, seid: Seid, before: seq<Offer>, id: QerId,
          dir: Direction, mbr: nat, ends: seq<Time>)
    requires events != [] && seid in d.sessions && seid in Step(d, events[0]).sessions && !Polices(d, events[0], seid)
    requires WithinLives(Step(d, events[0]), events[1..], seid, before, id, dir, mbr, ends)
    ensures WithinLives(d, events, seid, before, id, dir, mbr, ends)
  {
    hide Step, Metered, Limits, Forwarded, MetersAfter, OfferOf, Total, Polices;
  }

  lemma {:induction false} EndedLife(d: State, events: seq<Event>, seid: Seid, before: seq<Offer>, id: QerId,
          dir: Direction, mbr: nat, ends: seq<Time>)
    requires events != [] && seid in d.sessions && seid !in Step(d, events[0]).sessions
    requires |ends| >= 2 && ends[0] <= ends[1]
    requires RatesAtMost(before, id, dir, mbr) && ReadingsWithin(before, ends[0], ends[1])
    requires WithinLives(Step(d, events[0]), events[1..], seid, [], id, dir, mbr, ends[1..])
    ensures WithinLives(d, events, seid, before, id, dir, mbr, ends)
  {
    hide Step, Metered, Limits, Forwarded, MetersAfter, OfferOf, Total, RatesAtMost, ReadingsWithin;
    NothingForwarded(id, dir);
    PolicedStays(d, events[0], seid);
    var d' := Step(d, events[0]);
    OneLifeMore(before, id, dir, mbr, ends, Creations(d', events[1..], seid), Passed(d', events[1..], seid, id, dir));
  }

  lemma {:induction false} NoLife(d: State, events: seq<Event>, seid: Seid, id: QerId, dir: Direction, mbr: nat,
          ends: seq<Time>)
    requires events != [] && seid !in d.sessions
    requires WithinLives(Step(d, events[0]), events[1..], seid, [], id, dir, mbr, ends)
    ensures WithinLives(d, events, seid, [], id, dir, mbr, ends)
  {
    hide Step, Metered, Limits, Forwarded, MetersAfter, OfferOf, Total;
  }

  lemma {:induction false} NothingThere(seid: Seid)
    ensures seid !in INITIAL.sessions
  {
  }

  lemma {:induction false} NothingForwarded(id: QerId, dir: Direction)
    ensures Forwarded([], id, dir) == 0.0
  {
  }

  lemma {:induction false} NoOffers(id: QerId, dir: Direction, mbr: nat, ends: seq<Time>)
    ensures MetersAfter([]) == map[] && RatesAtMost([], id, dir, mbr)
    ensures |ends| >= 2 ==> ReadingsWithin([], ends[0], ends[1])
  {
  }

  lemma {:induction false} OfferReads(d: State, e: Event)
    requires e.Policed? && e.binding.seid in d.sessions
    ensures OfferOf(d, e).bytes == e.bytes && OfferOf(d, e).now == e.now
  {
  }

  lemma {:induction false} PolicedStays(d: State, e: Event, seid: Seid)
    requires seid in d.sessions && seid !in Step(d, e).sessions
    ensures e.Control?
  {
    hide Apply, TickSession, CountAll, Metered, AdaptiveQers;
  }

  /** Over every run of the driver from the start, through any number of deletions and re-creations of
      a session whose lives follow one another in time: the bits let through under its SEID that one
      QER limits in one direction are at most its largest rate, in kilobits per second, times the elapsed
      time plus one second for each time the session was created. */
  lemma {:induction false} SeidBound(events: seq<Event>, seid: Seid, id: QerId, dir: Direction, mbr: nat,
          ends: seq<Time>)
    requires InWindows(INITIAL, events, seid, ends) && RatesAtMost(Offers(INITIAL, events, seid), id, dir, mbr)
    ensures var lives := Creations(INITIAL, events, seid);
      && lives < |ends|
      && 8.0 * Passed(INITIAL, events, seid, id, dir) <= 1000.0 * mbr as real * (lives as real + (ends[lives] - ends[0]))
  {
    hide Creations, InWindows, Offers, Passed, RatesAtMost, BytesPerSecond;
    NothingForwarded(id, dir);
    NothingThere(seid);
    LivesBound(INITIAL, events, seid, [], id, dir, mbr, ends);
    var lives := Creations(INITIAL, events, seid);
    InBits(mbr, lives as real + (ends[lives] - ends[0]), Passed(INITIAL, events, seid, id, dir));
  }
}
