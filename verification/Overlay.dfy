/** The adaptive overlay on QER enforcement: temporary overrides owned by flows, laid over
    the installed QERs and taken away when the flow ends. */
module Overlay {
  import opened Rules
  import opened Driver
  import RateLimit

  /** Every override belongs to an active flow of its session that lists its QER. */
  predicate Owned(s: SessionState) {
    forall q | q in s.overrides :: s.overrides[q].flow in s.flows && q in s.flows[s.overrides[q].flow]
  }

  /** Starting `flow` again would cover every QER it still overrides. */
  predicate Covers(s: SessionState, flow: FlowId) {
    forall q | q in s.overrides && s.overrides[q].flow == flow :: q in AdaptiveQers(s)
  }

  /** The exact condition under which a start keeps the ownership of overrides: a restart
      must still reach every QER that the flow overrides. */
  lemma {:induction false} StartKeepsOwned(s: SessionState, flow: FlowId, p: Profile, now: Time)
    requires Owned(s)
    ensures Owned(StartFlow(s, flow, p, now)) <==> Covers(s, flow)
  {
    hide AdaptiveQers;
    var s' := StartFlow(s, flow, p, now);
    if Owned(s') {
      forall q | q in s.overrides && s.overrides[q].flow == flow ensures q in AdaptiveQers(s) {
        assert q in s'.overrides;
      }
    }
  }

  lemma {:induction false} EndKeepsOwned(s: SessionState, flow: FlowId)
    requires Owned(s)
    ensures Owned(EndFlow(s, flow))
  {
  }

  /** Two session states that differ in the overlay at most. */
  predicate SameUnderOverlay(s: SessionState, t: SessionState) {
    && s.pdrs == t.pdrs && s.fars == t.fars && s.qers == t.qers && s.urrs == t.urrs && s.bars == t.bars
    && s.buffers == t.buffers && s.urrReports == t.urrReports && s.urrPeriodAt == t.urrPeriodAt && s.meters == t.meters
  }

  /** Adaptive reports change no installed rule, buffer, meter or accumulator of any session. */
  lemma {:induction false} ReportsKeepRules(d: State, e: Event)
    requires e.FlowStarted? || e.FlowEnded? || e.FlowsReset?
    ensures Step(d, e).sessions.Keys == d.sessions.Keys && Step(d, e).pending == d.pending
    ensures forall k | k in d.sessions :: SameUnderOverlay(d.sessions[k], Step(d, e).sessions[k])
  {
    hide AdaptiveQers, Apply, Buffer, TickSession, CountAll, RateLimit.Metered;
    match e
    case FlowStarted(_, _, _, _) =>
    case FlowEnded(_, _) =>
    case FlowsReset =>
  }

  predicate AllOwned(d: State) {
    forall k | k in d.sessions :: Owned(d.sessions[k])
  }

  /** Every start in the run covers what its flow overrides at that point. */
  predicate RestartsCover(d: State, events: seq<Event>)
    decreases |events|
  {
    events == [] ||
    (&& (events[0].FlowStarted? && events[0].seid in d.sessions ==> Covers(d.sessions[events[0].seid], events[0].flow))
     && RestartsCover(Step(d, events[0]), events[1..]))
  }

  lemma {:induction false} StepOwned(d: State, e: Event)
    requires AllOwned(d)
    requires e.FlowStarted? && e.seid in d.sessions ==> Covers(d.sessions[e.seid], e.flow)
    ensures AllOwned(Step(d, e))
  {
    hide After, Names, Decodes, Cancelled, CountAll, RateLimit.Metered, AdaptiveQers, Enqueue, Disposable,
        StartFlow, EndFlow, Covers, Owned, Due, Restarts;
    match e
    case Control(seid, req) =>
      if Refusal(d, seid, req).None? {
        AfterFrame(Lookup(d, seid), req);
        OwnedByFields(Lookup(d, seid), After(Lookup(d, seid), req));
        FreshOwned();
      }
    case FlowStarted(seid, flow, p, now) =>
      if seid in d.sessions { StartKeepsOwned(d.sessions[seid], flow, p, now); }
    case FlowEnded(seid, flow) => if seid in d.sessions { EndKeepsOwned(d.sessions[seid], flow); }
    case FlowsReset => forall k | k in d.sessions { ResetOwned(d.sessions[k]); }
    case Ticked(now) => forall k | k in d.sessions { OwnedByFields(d.sessions[k], TickSession(d.sessions[k], now)); }
    case Buffered(b, _) => if b.seid in d.sessions { OwnedByFields(d.sessions[b.seid], Step(d, e).sessions[b.seid]); }
    case Counted(b, _, _) => if b.seid in d.sessions { OwnedByFields(d.sessions[b.seid], Step(d, e).sessions[b.seid]); }
    case Policed(b, _, _, _) => if b.seid in d.sessions { OwnedByFields(d.sessions[b.seid], Step(d,
        e).sessions[b.seid]); }
    case Scheduled(_, _) =>
    case NotificationDue(_) =>
  }

  lemma {:induction false} OwnedByFields(s: SessionState, s': SessionState)
    requires s.overrides == s'.overrides && s.flows == s'.flows
    ensures Owned(s) == Owned(s')
  {
  }

  lemma {:induction false} FreshOwned()
    ensures Owned(FRESH_SESSION)
  {
  }

  lemma {:induction false} ResetOwned(s: SessionState)
    ensures Owned(s.(overrides := map[], flows := map[]))
  {
  }

  /** Reversibility over every run whose restarts cover: whenever all flows of a session
      have ended, every gate and every rate it enforces is the installed one. */
  lemma {:induction false} Reversible(d: State, events: seq<Event>, seid: Seid, q: QerId, installed: Qer,
          dir: Direction, now: Time)
    requires AllOwned(d) && RestartsCover(d, events)
    requires seid in Run(d, events).sessions && Run(d, events).sessions[seid].flows == map[]
    ensures var o := Run(d, events).sessions[seid].overrides;
      && o == map[]
      && RateLimit.EffectiveMbr(o, q, installed, dir, now) == RateLimit.InstalledMbr(installed, dir)
      && RateLimit.EffectiveGateClosed(o, q, installed, dir, now) == RateLimit.InstalledGateClosed(installed, dir)
    decreases |events|
  {
    hide Step, Covers;
    if events != [] {
      StepOwned(d, events[0]);
      Reversible(Step(d, events[0]), events[1..], seid, q, installed, dir, now);
    }
  }

  // ---- how long a started override lasts ----

  function OverrideOf(flow: FlowId, p: Profile, now: Time): Override {
    Override(flow, p.gateUl, p.gateDl, p.mbrUl, p.mbrDl, Some(now + p.duration))
  }

  predicate Written(d: State, seid: Seid, q: QerId, o: Override) {
    seid in d.sessions && q in d.sessions[seid].overrides && d.sessions[seid].overrides[q] == o
  }

  /** The override is the one that gates and rates are looked up in at time `at`. */
  predicate InForce(d: State, seid: Seid, q: QerId, o: Override, at: Time) {
    seid in d.sessions && RateLimit.EffectiveOverride(d.sessions[seid].overrides, q, at) == Some(o)
  }

  /** The event replaces or takes away whatever override the QER has: a start of any flow that
      reaches it, an end of any flow that lists it, a reset, or the end of the session. */
  predicate Reaches(d: State, e: Event, seid: Seid, q: QerId) {
    seid in d.sessions &&
    match e
    case FlowStarted(at, _, _, _) => at == seid && q in AdaptiveQers(d.sessions[seid])
    case FlowEnded(at, f) => at == seid && f in d.sessions[seid].flows && q in d.sessions[seid].flows[f]
    case FlowsReset => true
    case Control(_, _) => seid !in Step(d, e).sessions
    case _ => false
  }

  predicate Undisturbed(d: State, events: seq<Event>, seid: Seid, q: QerId)
    decreases |events|
  {
    events == [] || (!Reaches(d, events[0], seid, q) && Undisturbed(Step(d, events[0]), events[1..], seid, q))
  }

  /** The event starts the same flow with the same override once more. */
  predicate Repeats(e: Event, seid: Seid, o: Override) {
    e.FlowStarted? && e.seid == seid && OverrideOf(e.flow, e.profile, e.now) == o
  }

  lemma {:induction false} SessionWritten(d: State, d': State, seid: Seid, q: QerId, o: Override)
    requires seid in d.sessions <==> seid in d'.sessions
    requires seid in d.sessions ==> d'.sessions[seid].overrides == d.sessions[seid].overrides
    ensures Written(d', seid, q, o) <==> Written(d, seid, q, o)
  {
  }

  lemma {:induction false} ControlWritten(d: State, e: Event, seid: Seid, q: QerId, o: Override)
    requires e.Control?
    ensures Written(Step(d, e), seid, q, o) <==> Written(d, seid, q, o) && seid in Step(d, e).sessions
  {
    hide After, Names, Decodes, Cancelled, Disposable;
    if Refusal(d, e.seid, e.req).None? && e.seid == seid { AfterFrame(Lookup(d, seid), e.req); }
  }

  lemma {:induction false} FlowWritten(d: State, e: Event, seid: Seid, q: QerId, o: Override)
    requires e.FlowStarted? || e.FlowEnded? || e.FlowsReset?
    requires !Repeats(e, seid, o)
    ensures Written(Step(d, e), seid, q, o) <==> Written(d, seid, q, o) && !Reaches(d, e, seid, q)
  {
    hide AdaptiveQers, Apply, CountAll, TickSession, Buffer, Schedule, RateLimit.Metered;
  }

  lemma {:induction false} QuietWritten(d: State, e: Event, seid: Seid, q: QerId, o: Override)
    requires e.Buffered? || e.Scheduled? || e.Counted? || e.Policed? || e.Ticked? || e.NotificationDue?
    ensures Written(Step(d, e), seid, q, o) <==> Written(d, seid, q, o)
  {
    hide AdaptiveQers, Apply, CountAll, Enqueue, RateLimit.Metered, Due, Restarts, StartFlow, EndFlow, Written;
    SessionWritten(d, Step(d, e), seid, q, o);
  }

  lemma {:induction false} StepWritten(d: State, e: Event, seid: Seid, q: QerId, o: Override)
    requires !Repeats(e, seid, o)
    ensures Written(Step(d, e), seid, q, o) <==> Written(d, seid, q, o) && !Reaches(d, e, seid, q)
  {
    hide Step, AdaptiveQers;
    if e.Control? {
      ControlWritten(d, e, seid, q, o);
    } else if e.FlowStarted? || e.FlowEnded? || e.FlowsReset? {
      FlowWritten(d, e, seid, q, o);
    } else {
      QuietWritten(d, e, seid, q, o);
    }
  }

  /** Over every run that does not repeat it, an override is still there exactly if nothing
      reached its QER. */
  lemma {:induction false} RunWritten(d: State, events: seq<Event>, seid: Seid, q: QerId, o: Override)
    requires forall i | 0 <= i < |events| :: !Repeats(events[i], seid, o)
    ensures Written(Run(d, events), seid, q, o) <==> Written(d, seid, q, o) && Undisturbed(d, events, seid, q)
    decreases |events|
  {
    hide Step, Written, Reaches, Repeats;
    if events != [] {
      StepWritten(d, events[0], seid, q, o);
      RunWritten(Step(d, events[0]), events[1..], seid, q, o);
    }
  }

  /** When a started flow's override is in force, over every run after its start: at a time not
      after its expiry, and exactly as long as no start of any flow reached the QER again, no flow
      that lists the QER ended, no reset happened and the session was not deleted.  While it is in
      force the profile's gates and nonzero rates are the effective ones, whatever is installed. */
  lemma {:induction false} StartInForce(d: State, start: Event, events: seq<Event>, q: QerId, at: Time)
    requires start.FlowStarted? && start.seid in d.sessions && q in AdaptiveQers(d.sessions[start.seid])
    requires forall i | 0 <= i < |events| ::
      !Repeats(events[i], start.seid, OverrideOf(start.flow, start.profile, start.now))
    ensures var seid, p, o := start.seid, start.profile, OverrideOf(start.flow, start.profile, start.now);
            var end := Run(Step(d, start), events);
      InForce(end, seid, q, o, at) <==> at <= start.now + p.duration && Undisturbed(Step(d, start), events, seid, q)
    ensures var seid, o := start.seid, OverrideOf(start.flow, start.profile, start.now);
            var end := Run(Step(d, start), events);
      InForce(end, seid, q, o, at) ==>
        forall installed, dir :: Overridden(end.sessions[seid].overrides, q, installed, dir, at, start.profile)
  {
    hide Step, Run, Undisturbed, AdaptiveQers, Repeats, Overridden;
    var seid, o := start.seid, OverrideOf(start.flow, start.profile, start.now);
    StartWrites(d, start, q);
    RunWritten(Step(d, start), events, seid, q, o);
    var end := Run(Step(d, start), events);
    if InForce(end, seid, q, o, at) {
      forall installed, dir ensures Overridden(end.sessions[seid].overrides, q, installed, dir, at, start.profile) {
        InForceApplies(end.sessions[seid].overrides, q, o, installed, dir, at, start.profile);
      }
    }
  }

  /** The profile's gate and nonzero rate count, the installed ones otherwise. */
  predicate Overridden(overrides: map<QerId, Override>, q: QerId, installed: Qer, dir: Direction, at: Time, p: Profile) {
    var rate, gate := if dir.Uplink? then p.mbrUl else p.mbrDl, if dir.Uplink? then p.gateUl else p.gateDl;
    && RateLimit.EffectiveMbr(overrides, q, installed, dir, at)
       == (if rate != 0 then rate else RateLimit.InstalledMbr(installed, dir))
    && RateLimit.EffectiveGateClosed(overrides, q, installed, dir, at)
       == if gate.Some? then !gate.value else RateLimit.InstalledGateClosed(installed, dir)
  }

  lemma {:induction false} InForceApplies(overrides: map<QerId, Override>, q: QerId, o: Override, installed: Qer,
                                          dir: Direction, at: Time, p: Profile)
    requires RateLimit.EffectiveOverride(overrides, q, at) == Some(o)
    requires o.mbrUl == p.mbrUl && o.mbrDl == p.mbrDl && o.gateUl == p.gateUl && o.gateDl == p.gateDl
    ensures Overridden(overrides, q, installed, dir, at, p)
  {
  }

  lemma {:induction false} StartWrites(d: State, start: Event, q: QerId)
    requires start.FlowStarted? && start.seid in d.sessions && q in AdaptiveQers(d.sessions[start.seid])
    ensures Written(Step(d, start), start.seid, q, OverrideOf(start.flow, start.profile, start.now))
  {
    hide AdaptiveQers;
  }

  // ---- two runs of driver events in which an override is not where it is expected ----

  const OPEN_PROFILE := Profile(Some(true), Some(true), 1000000, 1000000, 30.0)
  const SLOW := Qer(None, Some(500), Some(500), None)

  function Using(ids: seq<QerId>): Pdr { Pdr(None, None, None, ids, []) }

  /** A driver with one session. */
  function One(s: SessionState): State { State(map[7 := s], map[]) }

  lemma {:induction false} OneStored(s: SessionState, t: SessionState)
    ensures Lookup(INITIAL, 7) == FRESH_SESSION && Store(INITIAL, 7, t) == One(t)
    ensures Lookup(One(s), 7) == s && Store(One(s), 7, t) == One(t)
  {
  }

  lemma {:induction false} Installs(d: State, req: Request, s: SessionState)
    requires Creates(req) && Decodes(req) && ((d == INITIAL && s == FRESH_SESSION) || d == One(s))
    ensures Step(d, Control(7, req)) == One(After(s, req))
  {
    hide After, Decodes;
    ApplyCreate(d, 7, req);
    OneStored(s, After(s, req));
  }

  lemma {:induction false} Changes(s: SessionState, req: Request)
    requires req.UpdatePdr? && Decodes(req) && Names(s, req)
    ensures Step(One(s), Control(7, req)) == One(After(s, req))
  {
    hide After, Decodes, Names;
    ApplyUpdate(One(s), 7, req);
    CancelNone(One(s), 7);
    OneStored(s, After(s, req));
  }

  lemma {:induction false} Flows(s: SessionState, flow: FlowId, p: Profile, now: Time)
    ensures Step(One(s), FlowStarted(7, flow, p, now)) == One(StartFlow(s, flow, p, now))
    ensures Step(One(s), FlowEnded(7, flow)) == One(EndFlow(s, flow))
  {
    hide StartFlow, EndFlow, Apply;
    OneStored(s, StartFlow(s, flow, p, now));
    OneStored(s, EndFlow(s, flow));
  }

  /** If some installed QER is used, exactly the used ones are adapted. */
  lemma {:induction false} OnlyUsedAdapted(s: SessionState, used: QerId, q: QerId)
    requires used in s.qers && Uses(s, used) && q in s.qers
    ensures q in AdaptiveQers(s) <==> Uses(s, q)
  {
    hide Uses;
    assert used in UsedQers(s);
  }

  /** Flow "f" starts on QERs 1 and 2, the PDR drops QER 2, "f" starts again and ends. */
  function LeakEvents(): seq<Event> {
    [Control(7, CreateQer(1, SLOW, true)), Control(7, CreateQer(2, SLOW, true)),
     Control(7, CreatePdr(1, Using([1, 2]), true)), FlowStarted(7, "f", OPEN_PROFILE, 0.0),
     Control(7, UpdatePdr(1, Using([1]), true, [])), FlowStarted(7, "f", OPEN_PROFILE, 1.0), FlowEnded(7, "f")]
  }

  /** The run reaches a state in which no flow is left, yet QER 2 is still enforced at the
      override's rate until it expires: the covering condition cannot be dropped. */
  lemma {:induction false} UncoveredRestartLeaks()
    ensures var d := Run(INITIAL, LeakEvents());
      && 7 in d.sessions && d.sessions[7].flows == map[]
      && d.sessions[7].qers == map[1 := SLOW, 2 := SLOW] && 2 in d.sessions[7].overrides
      && RateLimit.EffectiveMbr(d.sessions[7].overrides, 2, SLOW, Uplink, 2.0) == 1000000
      && RateLimit.InstalledMbr(SLOW, Uplink) == 500
  {
    hide AdaptiveQers, Step, Run;
    var s0 := FRESH_SESSION.(qers := map[1 := SLOW, 2 := SLOW], pdrs := map[1 := Using([1, 2])]);
    var s1 := StartFlow(s0, "f", OPEN_PROFILE, 0.0);
    var s2 := s1.(pdrs := map[1 := Using([1])]);
    var s3 := StartFlow(s2, "f", OPEN_PROFILE, 1.0);
    LeakRun(s0, s1, s2, s3);
    assert Uses(s0, 2) by { assert s0.pdrs[1].qerIds[1] == 2; }
    OnlyUsedAdapted(s0, 2, 2);
    assert Uses(s2, 1) by { assert s2.pdrs[1].qerIds[0] == 1; }
    OnlyUsedAdapted(s2, 1, 2);
  }

  lemma {:induction false} LeakSetup(a: SessionState, b: SessionState, s0: SessionState)
    requires a == FRESH_SESSION.(qers := map[1 := SLOW]) && b == FRESH_SESSION.(qers := map[1 := SLOW, 2 := SLOW])
    requires s0 == b.(pdrs := map[1 := Using([1, 2])])
    ensures Step(INITIAL, Control(7, CreateQer(1, SLOW, true))) == One(a)
    ensures Step(One(a), Control(7, CreateQer(2, SLOW, true))) == One(b)
    ensures Step(One(b), Control(7, CreatePdr(1, Using([1, 2]), true))) == One(s0)
  {
    hide Step, One, AfterFar, AfterUrr, AfterBar;
    Installs(INITIAL, CreateQer(1, SLOW, true), FRESH_SESSION);
    Installs(One(a), CreateQer(2, SLOW, true), a);
    Installs(One(b), CreatePdr(1, Using([1, 2]), true), b);
  }

  lemma {:induction false} LeakDrop(s0: SessionState, s1: SessionState, s2: SessionState)
    requires s0.pdrs == map[1 := Using([1, 2])] && s1 == StartFlow(s0, "f", OPEN_PROFILE, 0.0)
    requires s2 == s1.(pdrs := map[1 := Using([1])])
    ensures Step(One(s1), Control(7, UpdatePdr(1, Using([1]), true, []))) == One(s2)
  {
    hide Step, One, AdaptiveQers, AfterFar, AfterQer, AfterUrr, AfterBar;
    var drop := UpdatePdr(1, Using([1]), true, []);
    assert MergePdr(s1.pdrs[1], Using([1])) == Using([1]);
    assert s1.pdrs[1 := Using([1])] == map[1 := Using([1])];
    Changes(s1, drop);
  }

  lemma {:induction false} LeakRun(s0: SessionState, s1: SessionState, s2: SessionState, s3: SessionState)
    requires s0 == FRESH_SESSION.(qers := map[1 := SLOW, 2 := SLOW], pdrs := map[1 := Using([1, 2])])
    requires s1 == StartFlow(s0, "f", OPEN_PROFILE, 0.0)
    requires s2 == s1.(pdrs := map[1 := Using([1])])
    requires s3 == StartFlow(s2, "f", OPEN_PROFILE, 1.0)
    ensures Run(INITIAL, LeakEvents()) == One(EndFlow(s3, "f"))
  {
    hide AdaptiveQers, Step, One, StartFlow, EndFlow, After, Run;
    var a := FRESH_SESSION.(qers := map[1 := SLOW]);
    var b := FRESH_SESSION.(qers := map[1 := SLOW, 2 := SLOW]);
    var drop := UpdatePdr(1, Using([1]), true, []);
    LeakSetup(a, b, s0);
    LeakDrop(s0, s1, s2);
    Flows(s0, "f", OPEN_PROFILE, 0.0);
    Flows(s2, "f", OPEN_PROFILE, 1.0);
    Flows(s3, "f", OPEN_PROFILE, 1.0);
    var e7 := [FlowEnded(7, "f")] + [];
    var e6 := [FlowStarted(7, "f", OPEN_PROFILE, 1.0)] + e7;
    var e5 := [Control(7, drop)] + e6;
    var e4 := [FlowStarted(7, "f", OPEN_PROFILE, 0.0)] + e5;
    var e3 := [Control(7, CreatePdr(1, Using([1, 2]), true))] + e4;
    var e2 := [Control(7, CreateQer(2, SLOW, true))] + e3;
    assert LeakEvents() == [Control(7, CreateQer(1, SLOW, true))] + e2;
    RunFirst(INITIAL, Control(7, CreateQer(1, SLOW, true)), e2);
    RunFirst(One(a), Control(7, CreateQer(2, SLOW, true)), e3);
    RunFirst(One(b), Control(7, CreatePdr(1, Using([1, 2]), true)), e4);
    RunFirst(One(s0), FlowStarted(7, "f", OPEN_PROFILE, 0.0), e5);
    RunFirst(One(s1), Control(7, drop), e6);
    RunFirst(One(s2), FlowStarted(7, "f", OPEN_PROFILE, 1.0), e7);
    RunFirst(One(s3), FlowEnded(7, "f"), []);
    RunNothing(One(EndFlow(s3, "f")));
  }

  lemma {:induction false} RunNothing(d: State)
    ensures Run(d, []) == d
  {
  }

  /** Flows "f" and "g" start on the same QER, and "f" ends. */
  function EndOfAnother(): seq<Event> {
    [Control(7, CreateQer(1, SLOW, true)), FlowStarted(7, "f", OPEN_PROFILE, 0.0),
     FlowStarted(7, "g", OPEN_PROFILE, 1.0), FlowEnded(7, "f")]
  }

  /** Then "g" is still active, not expired and lists the QER, but the end of "f" has taken its
      override away: the installed rate is the effective one. */
  lemma {:induction false} EndOfAnotherTakesIt()
    ensures var d := Run(INITIAL, EndOfAnother());
      && 7 in d.sessions && "g" in d.sessions[7].flows && d.sessions[7].flows["g"] == {1}
      && d.sessions[7].overrides == map[]
      && RateLimit.EffectiveMbr(d.sessions[7].overrides, 1, SLOW, Uplink, 2.0) == 500
  {
    hide Step, Run, AdaptiveQers;
    var s0 := FRESH_SESSION.(qers := map[1 := SLOW]);
    OnlyQer(s0);
    var s1 := StartFlow(s0, "f", OPEN_PROFILE, 0.0);
    OnlyQer(s1);
    EndRun(s0);
  }

  lemma {:induction false} EndRun(s0: SessionState)
    requires s0 == FRESH_SESSION.(qers := map[1 := SLOW])
    ensures Run(INITIAL, EndOfAnother())
         == One(EndFlow(StartFlow(StartFlow(s0, "f", OPEN_PROFILE, 0.0), "g", OPEN_PROFILE, 1.0), "f"))
  {
    hide Step, Run, One, StartFlow, EndFlow, AfterPdr, AfterFar, AfterUrr, AfterBar;
    var s1 := StartFlow(s0, "f", OPEN_PROFILE, 0.0);
    var s2 := StartFlow(s1, "g", OPEN_PROFILE, 1.0);
    Installs(INITIAL, CreateQer(1, SLOW, true), FRESH_SESSION);
    Flows(s0, "f", OPEN_PROFILE, 0.0);
    Flows(s1, "g", OPEN_PROFILE, 1.0);
    Flows(s2, "f", OPEN_PROFILE, 1.0);
    var e4 := [FlowEnded(7, "f")] + [];
    var e3 := [FlowStarted(7, "g", OPEN_PROFILE, 1.0)] + e4;
    var e2 := [FlowStarted(7, "f", OPEN_PROFILE, 0.0)] + e3;
    assert EndOfAnother() == [Control(7, CreateQer(1, SLOW, true))] + e2;
    RunFirst(INITIAL, Control(7, CreateQer(1, SLOW, true)), e2);
    RunFirst(One(s0), FlowStarted(7, "f", OPEN_PROFILE, 0.0), e3);
    RunFirst(One(s1), FlowStarted(7, "g", OPEN_PROFILE, 1.0), e4);
    RunFirst(One(s2), FlowEnded(7, "f"), []);
    RunNothing(One(EndFlow(s2, "f")));
  }

  lemma {:induction false} OnlyQer(s: SessionState)
    requires s.pdrs == map[] && s.qers == map[1 := SLOW]
    ensures AdaptiveQers(s) == {1}
  {
    assert UsedQers(s) == {};
  }
}
