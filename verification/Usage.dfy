/** Conservation of metered usage.  For every URR of every SEID and each of its counters,
    over every interleaving of packets, ticks and rule changes, what was metered is what
    periodic and final reports carried away plus what the accumulator still holds. */
module UsageConservation {
  import opened Rules
  import RateLimit
  import opened Driver

  datatype Counter = UpBytes | DownBytes | UpPackets | DownPackets

  function Value(u: Usage, c: Counter): nat {
    match c
    case UpBytes => u.up
    case DownBytes => u.down
    case UpPackets => u.upPkts
    case DownPackets => u.downPkts
  }

  /** What one packet adds to a counter. */
  function OnePacket(bytes: nat, up: bool, c: Counter): nat {
    match c
    case UpBytes => if up then bytes else 0
    case DownBytes => if up then 0 else bytes
    case UpPackets => if up then 1 else 0
    case DownPackets => if up then 0 else 1
  }

  /** The reports of one URR in a list, added up. */
  function SumOf(reports: seq<Usage>, u: UrrId, c: Counter): nat {
    if reports == [] then 0
    else
      SumOf(reports[..|reports| - 1], u, c) +
        if reports[|reports| - 1].urr == u then Value(reports[|reports| - 1], c) else 0
  }

  function HeldIn(reports: map<UrrId, seq<Usage>>, u: UrrId, c: Counter): nat {
    if u in reports then SumOf(reports[u], u, c) else 0
  }

  /** What the accumulator of a URR holds. */
  function Held(d: State, seid: Seid, u: UrrId, c: Counter): nat {
    if seid in d.sessions then HeldIn(d.sessions[seid].urrReports, u, c) else 0
  }

  /** What a packet meters to a URR: once for each time its binding lists the URR. */
  function MeteredTo(urrs: seq<(UrrId, Urr)>, u: UrrId, bytes: nat, up: bool, c: Counter): nat {
    if urrs == [] then 0
    else
      MeteredTo(urrs[..|urrs| - 1], u, bytes, up, c) +
        if urrs[|urrs| - 1].0 == u then OnePacket(bytes, up, c) else 0
  }

  function MeteredBy(d: State, e: Event, seid: Seid, u: UrrId, c: Counter): nat {
    if e.Counted? && e.binding.seid == seid && seid in d.sessions
    then MeteredTo(e.binding.urrs, u, e.bytes, e.up, c)
    else 0
  }

  /** What leaves in the final report of a removal or in a periodic report. */
  function ReportedBy(d: State, e: Event, seid: Seid, u: UrrId, c: Counter): nat {
    if e.Control? && e.seid == seid && e.req.RemoveUrr? then SumOf(Apply(d, seid, e.req).reports, u, c)
    else if e.Ticked? && seid in d.sessions && Due(d.sessions[seid], u, e.now)
    then Value(PeriodicReport(d.sessions[seid], u), c)
    else 0
  }

  function Metered(d: State, events: seq<Event>, seid: Seid, u: UrrId, c: Counter): nat
    decreases |events|
  {
    if events == [] then 0
    else MeteredBy(d, events[0], seid, u, c) + Metered(Step(d, events[0]), events[1..], seid, u, c)
  }

  function Reported(d: State, events: seq<Event>, seid: Seid, u: UrrId, c: Counter): nat
    decreases |events|
  {
    if events == [] then 0
    else ReportedBy(d, events[0], seid, u, c) + Reported(Step(d, events[0]), events[1..], seid, u, c)
  }

  lemma {:induction false} SumOfOne(r: Usage, u: UrrId, c: Counter)
    ensures SumOf([r], u, c) == if r.urr == u then Value(r, c) else 0
  {
    assert [r][..0] == [];
  }

  lemma {:induction false} CountAdds(acc: seq<Usage>, u: UrrId, urr: Urr, bytes: nat, up: bool, c: Counter)
    requires |acc| <= 1 && (acc != [] ==> acc[0].urr == u)
    ensures SumOf([Count(acc, u, urr, bytes, up)], u, c) == SumOf(acc, u, c) + OnePacket(bytes, up, c)
  {
    SumOfOne(Count(acc, u, urr, bytes, up), u, c);
    if acc != [] {
      assert acc == [acc[0]];
      SumOfOne(acc[0], u, c);
    }
  }

  lemma {:induction false} CountAllAdds(reports: map<UrrId, seq<Usage>>, urrs: seq<(UrrId, Urr)>,
                                        bytes: nat, up: bool, u: UrrId, c: Counter)
    requires SoundReports(reports)
    ensures HeldIn(CountAll(reports, urrs, bytes, up), u, c)
         == HeldIn(reports, u, c) + MeteredTo(urrs, u, bytes, up, c)
    decreases |urrs|
  {
    hide Count, OnePacket;
    if urrs != [] {
      var front := urrs[..|urrs| - 1];
      var (id, urr) := urrs[|urrs| - 1];
      CountAllAdds(reports, front, bytes, up, u, c);
      CountAllSound(reports, front, bytes, up);
      var rest := CountAll(reports, front, bytes, up);
      if id == u {
        CountAdds(if u in rest then rest[u] else [], u, urr, bytes, up, c);
      }
    }
  }

  /** A rule request on a session moves the accumulator of a removed URR into the reply. */
  lemma {:induction false} ControlConserves(d: State, seid: Seid, req: Request, u: UrrId, c: Counter)
    requires Sound(d)
    ensures Held(Apply(d, seid, req).state, seid, u, c)
            + (if req.RemoveUrr? then SumOf(Apply(d, seid, req).reports, u, c) else 0)
         == Held(d, seid, u, c)
  {
    hide After, Names, Decodes, Cancelled, Value, SumOf;
    var r := Apply(d, seid, req);
    EmptySum(u, c);
    if Refusal(d, seid, req).None? {
      var s := Lookup(d, seid);
      AfterFrame(s, req);
      assert HeldIn(After(s, req).urrReports, u, c) == Held(r.state, seid, u, c);
      if seid in d.sessions { assert SoundSession(s); }
      if req.RemoveUrr? && req.uid in s.urrReports {
        var acc := s.urrReports[req.uid];
        assert r.reports == acc == [acc[0]];
        SumOfOne(acc[0], u, c);
      }
    }
  }

  lemma {:induction false} EmptySum(u: UrrId, c: Counter)
    ensures SumOf([], u, c) == 0
  {
  }

  lemma {:induction false} OtherSessionsKept(d: State, at: Seid, req: Request, seid: Seid, u: UrrId, c: Counter)
    requires at != seid
    ensures Held(Apply(d, at, req).state, seid, u, c) == Held(d, seid, u, c)
  {
    hide After, Names, Decodes, Cancelled, HeldIn;
  }

  lemma {:induction false} TickConserves(d: State, now: Time, seid: Seid, u: UrrId, c: Counter)
    requires Sound(d)
    ensures Held(Step(d, Ticked(now)), seid, u, c) + ReportedBy(d, Ticked(now), seid, u, c) == Held(d, seid, u, c)
  {
    hide Due;
    if seid in d.sessions {
      var s := d.sessions[seid];
      assert SoundSession(s);
      if u in s.urrReports {
        var acc := s.urrReports[u];
        assert acc == [acc[0]];
        SumOfOne(acc[0], u, c);
        SumOfOne(ZeroUsage(u), u, c);
      } else {
        NotDue(s, u, now);
      }
    }
  }

  lemma {:induction false} NotDue(s: SessionState, u: UrrId, now: Time)
    requires u !in s.urrReports
    ensures !Due(s, u, now)
  {
  }

  lemma {:induction false} BufferKeeps(d: State, b: Binding, payload: Payload, seid: Seid, u: UrrId, c: Counter)
    ensures Held(Buffer(d, b, payload), seid, u, c) == Held(d, seid, u, c)
  {
    hide HeldIn, Enqueue, BufferLimit;
  }

  /** One step: held after plus reported equals held before plus metered. */
  lemma {:induction false} StepConserves(d: State, e: Event, seid: Seid, u: UrrId, c: Counter)
    requires Sound(d)
    ensures Held(Step(d, e), seid, u, c) + ReportedBy(d, e, seid, u, c)
         == Held(d, seid, u, c) + MeteredBy(d, e, seid, u, c)
  {
    hide SumOf, HeldIn, MeteredTo, CountAll, Apply, Buffer, TickSession, RateLimit.Metered, AdaptiveQers, Sound, Due;
    match e
    case Control(at, req) =>
      if at == seid { ControlConserves(d, seid, req, u, c); } else { OtherSessionsKept(d, at, req, seid, u, c); }
    case Ticked(now) => TickConserves(d, now, seid, u, c);
    case Buffered(b, payload) => BufferKeeps(d, b, payload, seid, u, c);
    case Scheduled(_, _) =>
    case Counted(b, bytes, up) =>
      if b.seid == seid && seid in d.sessions {
        SoundAt(d, seid);
        CountAllAdds(d.sessions[seid].urrReports, b.urrs, bytes, up, u, c);
      }
    case Policed(_, _, _, _) =>
    case NotificationDue(_) =>
    case FlowStarted(_, _, _, _) =>
    case FlowEnded(_, _) =>
    case FlowsReset =>
  }

  lemma {:induction false} SoundAt(d: State, seid: Seid)
    requires Sound(d) && seid in d.sessions
    ensures SoundReports(d.sessions[seid].urrReports)
  {
  }

  lemma {:induction false} ConservationFrom(d: State, events: seq<Event>, seid: Seid, u: UrrId, c: Counter)
    requires Sound(d)
    ensures Held(d, seid, u, c) + Metered(d, events, seid, u, c)
         == Reported(d, events, seid, u, c) + Held(Run(d, events), seid, u, c)
    decreases |events|
  {
    hide Step, Held, MeteredBy, ReportedBy, Sound;
    if events != [] {
      var d' := Step(d, events[0]);
      StepSound(d, events[0]);
      StepConserves(d, events[0], seid, u, c);
      ConservationFrom(d', events[1..], seid, u, c);
    }
  }

  /** Conservation over every run, for every URR identifier of every SEID: removal and
      re-creation, deletion of the session and reuse of its SEID, and metering through a
      binding older than the removal of its URR are all covered. */
  lemma {:induction false} Conservation(events: seq<Event>, seid: Seid, u: UrrId, c: Counter)
    ensures Metered(INITIAL, events, seid, u, c)
         == Reported(INITIAL, events, seid, u, c) + Held(Run(INITIAL, events), seid, u, c)
  {
    hide Run, Metered, Reported;
    ConservationFrom(INITIAL, events, seid, u, c);
  }

  /** In every reachable state an accumulator's total is its uplink plus its downlink, in
      bytes and in packets, and reports taken from it inherit that. */
  lemma {:induction false} TotalsAgree(events: seq<Event>, seid: Seid, u: UrrId)
    ensures var d := Run(INITIAL, events);
      forall r | r in Accumulated(Lookup(d, seid), u) :: r.urr == u && Balanced(r)
  {
    hide Run;
    RunSound(INITIAL, events);
    assert seid in Run(INITIAL, events).sessions ==> SoundSession(Run(INITIAL, events).sessions[seid]);
  }
}
