/** What happens to one packet: decoded, classified against the published snapshot, gated,
    policed, then forwarded or buffered, and counted.  Each part is a critical section of its
    own; here they follow one another without anything in between. */
module Pipeline {
  import opened Rules
  import opened Forwarding
  import opened Buffering
  import Classify
  import DriverLoops
  import Gtpu
  import M = Driver
  import RateLimit
  import Snapshot
  import U = UsageConservation
  import UserspaceDriver

  predicate GateClosed(b: Binding, overrides: map<QerId, Override>, dir: Direction, now: Time) {
    exists i :: 0 <= i < |b.qers| && RateLimit.EffectiveGateClosed(overrides, b.qers[i].0, b.qers[i].1, dir, now)
  }

  /** The action once the gates are looked at: one closed gate drops the packet. */
  function Gated(d: M.State, b: Binding, dir: Direction, now: Time): Action {
    if GateClosed(b, M.Lookup(d, b.seid).overrides, dir, now) then DropPacket else ActionOf(b)
  }

  /** The policer lets the packet through; without the session it does not look. */
  predicate Admitted(d: M.State, b: Binding, bytes: nat, dir: Direction, now: Time) {
    b.seid in d.sessions ==>
      var s := d.sessions[b.seid];
      RateLimit.Metered(s.meters, RateLimit.Offer(b.qers, s.overrides, bytes, dir, now)).1
  }

  /** What becomes of a matched packet. */
  function Verdict(d: M.State, b: Binding, bytes: nat, dir: Direction, gateAt: Time, rateAt: Time): Action {
    var a := Gated(d, b, dir, gateAt);
    if a.ForwardPacket? && !Admitted(d, b, bytes, dir, rateAt) then DropPacket else a
  }

  /** The steps of the driver that a matched packet takes. */
  function Steps(a: Action, b: Binding, payload: Payload, dir: Direction, rateAt: Time): seq<M.Event> {
    (match a
     case ForwardPacket => [M.Policed(b, |payload|, dir, rateAt)]
     case BufferPacket => [M.Buffered(b, payload), M.Scheduled(b, payload)]
     case _ => [])
    + [M.Counted(b, |payload|, dir.Uplink?)]
  }

  lemma {:induction false} StepsRun(d: M.State, a: Action, b: Binding, payload: Payload, dir: Direction, rateAt: Time)
    ensures var last := M.Counted(b, |payload|, dir.Uplink?);
      M.Run(d, Steps(a, b, payload, dir, rateAt)) ==
        match a
        case ForwardPacket => M.Step(M.Step(d, M.Policed(b, |payload|, dir, rateAt)), last)
        case BufferPacket => M.Step(M.Step(M.Step(d, M.Buffered(b, payload)), M.Scheduled(b, payload)), last)
        case _ => M.Step(d, last)
  {
    hide M.Step;
    var last := M.Counted(b, |payload|, dir.Uplink?);
    M.RunAppend(d, [], last);
    match a
    case ForwardPacket =>
      M.RunAppend(d, [M.Policed(b, |payload|, dir, rateAt)], last);
      M.RunAppend(d, [], M.Policed(b, |payload|, dir, rateAt));
      assert [] + [M.Policed(b, |payload|, dir, rateAt)] == [M.Policed(b, |payload|, dir, rateAt)];
    case BufferPacket =>
      M.RunAppend(d, [M.Buffered(b, payload), M.Scheduled(b, payload)], last);
      M.RunAppend(d, [M.Buffered(b, payload)], M.Scheduled(b, payload));
      M.RunAppend(d, [], M.Buffered(b, payload));
      assert [] + [M.Buffered(b, payload)] == [M.Buffered(b, payload)];
      assert [M.Buffered(b, payload)] + [M.Scheduled(b, payload)] == [M.Buffered(b, payload), M.Scheduled(b, payload)];
    case _ => assert [] + [last] == [last];
  }

  method CheckGates(d: UserspaceDriver.Driver, b: Binding, dir: Direction, now: Time) returns (closed: bool)
    ensures closed == GateClosed(b, M.Lookup(d.State(), b.seid).overrides, dir, now)
  {
    var overrides := if b.seid in d.sessions then d.sessions[b.seid].overrides else map[];
    for i := 0 to |b.qers|
      invariant forall j | 0 <= j < i :: !RateLimit.EffectiveGateClosed(overrides, b.qers[j].0, b.qers[j].1, dir, now)
    {
      if RateLimit.EffectiveGateClosed(overrides, b.qers[i].0, b.qers[i].1, dir, now) { return true; }
    }
    return false;
  }

  /** Before it is counted a packet leaves sessions and accumulators as they are. */
  lemma {:induction false} KeepsAccumulators(d: M.State, e: M.Event, seid: Seid)
    requires e.Policed? || e.Buffered? || e.Scheduled?
    ensures seid in M.Step(d, e).sessions <==> seid in d.sessions
    ensures seid in d.sessions ==> M.Step(d, e).sessions[seid].urrReports == d.sessions[seid].urrReports
  {
    hide RateLimit.Metered, M.Enqueue, M.Apply, M.CountAll, M.TickSession;
  }

  // ---- what becomes of a packet, said of the FAR's flags ----

  predicate HasFlag(b: Binding, f: ApplyFlag) { b.far.Some? && f in b.far.value.action }

  /** FORW alone sends a packet, BUFF buffers it whatever FORW says, and DROP overrides both. */
  predicate ToSend(b: Binding) { HasFlag(b, FORW) && !HasFlag(b, BUFF) && !HasFlag(b, DROP) }
  predicate ToBuffer(b: Binding) { HasFlag(b, BUFF) && !HasFlag(b, DROP) }

  /** Whether a QER shuts the packet's direction: by an override that has not expired and names a gate,
      or else as installed. */
  predicate Shuts(overrides: map<QerId, Override>, id: QerId, q: Qer, dir: Direction, now: Time) {
    var current := id in overrides && !(overrides[id].expiresAt.Some? && overrides[id].expiresAt.value < now);
    match dir
    case Uplink =>
      if current && overrides[id].gateUl.Some? then overrides[id].gateUl == Some(false)
      else q.gate.Some? && q.gate.value.ulClosed
    case Downlink =>
      if current && overrides[id].gateDl.Some? then overrides[id].gateDl == Some(false)
      else q.gate.Some? && q.gate.value.dlClosed
  }

  /** Some QER of the binding shuts its direction; without the session there are no overrides. */
  ghost predicate Shut(d: M.State, b: Binding, dir: Direction, now: Time) {
    exists i :: 0 <= i < |b.qers| &&
      Shuts(if b.seid in d.sessions then d.sessions[b.seid].overrides else map[], b.qers[i].0, b.qers[i].1, dir, now)
  }

  /** What a buffer holds after a packet: everything, or the newest ones if the BAR suggests a count. */
  predicate Buffers(after: seq<Payload>, before: seq<Payload>, payload: Payload, bar: Option<Bar>) {
    var all := before + [payload];
    if bar.Some? && bar.value.suggestedCount.Some? && 0 < bar.value.suggestedCount.value < |all|
    then after == all[|all| - bar.value.suggestedCount.value..]
    else after == all
  }

  /** A notification for the packet is asked for, and the BAR delays it. */
  predicate Delayed(b: Binding) {
    && HasFlag(b, NOCP)
    && b.bar.Some? && b.bar.value.delay.Some? && b.bar.value.delay.value > 0.0
  }

  lemma {:induction false} GateLaw(d: M.State, b: Binding, dir: Direction, now: Time)
    ensures GateClosed(b, M.Lookup(d, b.seid).overrides, dir, now) <==> Shut(d, b, dir, now)
  {
    var o := M.Lookup(d, b.seid).overrides;
    forall i | 0 <= i < |b.qers|
      ensures RateLimit.EffectiveGateClosed(o, b.qers[i].0, b.qers[i].1, dir, now)
         <==> Shuts(if b.seid in d.sessions then d.sessions[b.seid].overrides else map[], b.qers[i].0, b.qers[i].1, dir, now) {}
  }

  /** The verdict on a matched packet. */
  lemma {:induction false} VerdictLaw(d: M.State, b: Binding, bytes: nat, dir: Direction, gateAt: Time, rateAt: Time)
    ensures Verdict(d, b, bytes, dir, gateAt, rateAt).ForwardPacket?
       <==> ToSend(b) && !Shut(d, b, dir, gateAt) && Admitted(d, b, bytes, dir, rateAt)
    ensures Gated(d, b, dir, gateAt).BufferPacket? <==> ToBuffer(b) && !Shut(d, b, dir, gateAt)
  {
    hide GateClosed, Shut, Admitted;
    GateLaw(d, b, dir, gateAt);
  }

  lemma {:induction false} CountedKeepsBuffers(d: M.State, e: M.Event, k: Seid, p: PdrId)
    requires e.Policed? || e.Counted? || e.Scheduled?
    ensures Held(M.Step(d, e), k, p) == Held(d, k, p)
  {
    hide RateLimit.Metered, M.CountAll, M.Apply, M.TickSession;
  }

  lemma {:induction false} BufferedHolds(d: M.State, b: Binding, payload: Payload, k: Seid, p: PdrId)
    ensures var now := Held(M.Step(d, M.Buffered(b, payload)), k, p);
      if k == b.seid && p == b.pdrId && k in d.sessions then Buffers(now, Held(d, k, p), payload, b.bar)
      else now == Held(d, k, p)
  {
    hide M.Apply;
  }

  /** The steps put the packet into its PDR's buffer exactly if it is to be buffered, no gate is shut and
      the session is there, and change no other buffer. */
  lemma {:induction false} StepsHeld(d: M.State, b: Binding, payload: Payload, dir: Direction, gateAt: Time, rateAt: Time,
          k: Seid, p: PdrId)
    ensures var now := Held(M.Run(d, Steps(Gated(d, b, dir, gateAt), b, payload, dir, rateAt)), k, p);
      if k == b.seid && p == b.pdrId && k in d.sessions && ToBuffer(b) && !Shut(d, b, dir, gateAt)
      then Buffers(now, Held(d, k, p), payload, b.bar)
      else now == Held(d, k, p)
  {
    hide M.Run, M.Step, Gated, Held, Steps, Buffers, Shut, Verdict;
    var a := Gated(d, b, dir, gateAt);
    StepsRun(d, a, b, payload, dir, rateAt);
    VerdictLaw(d, b, |payload|, dir, gateAt, rateAt);
    var policed, buffered := M.Policed(b, |payload|, dir, rateAt), M.Buffered(b, payload);
    var last := M.Counted(b, |payload|, dir.Uplink?);
    CountedKeepsBuffers(d, last, k, p);
    CountedKeepsBuffers(d, policed, k, p);
    CountedKeepsBuffers(M.Step(d, policed), last, k, p);
    BufferedHolds(d, b, payload, k, p);
    var d1 := M.Step(d, buffered);
    CountedKeepsBuffers(d1, M.Scheduled(b, payload), k, p);
    CountedKeepsBuffers(M.Step(d1, M.Scheduled(b, payload)), last, k, p);
  }

  lemma {:induction false} PendingStep(d: M.State, e: M.Event)
    requires e.Policed? || e.Counted? || e.Buffered? || e.Scheduled?
    ensures M.Step(d, e).pending ==
      if e.Scheduled? && Delayed(e.binding)
      then d.pending[M.DdnKey(e.binding.seid, e.binding.pdrId) := M.Pending(e.payload, e.binding.far.value.action)]
      else d.pending
  {
    hide RateLimit.Metered, M.CountAll, M.Apply, M.TickSession, M.Enqueue;
  }

  /** The steps leave a pending notification for the packet exactly if it is to be buffered, no gate is
      shut, and it asks for one that the BAR delays. */
  lemma {:induction false} StepsPending(d: M.State, b: Binding, payload: Payload, dir: Direction, gateAt: Time, rateAt: Time)
    ensures M.Run(d, Steps(Gated(d, b, dir, gateAt), b, payload, dir, rateAt)).pending ==
      if ToBuffer(b) && !Shut(d, b, dir, gateAt) && Delayed(b)
      then d.pending[M.DdnKey(b.seid, b.pdrId) := M.Pending(payload, b.far.value.action)]
      else d.pending
  {
    hide M.Run, M.Step, Gated, Steps, Shut, Verdict;
    var a := Gated(d, b, dir, gateAt);
    StepsRun(d, a, b, payload, dir, rateAt);
    VerdictLaw(d, b, |payload|, dir, gateAt, rateAt);
    var policed, buffered := M.Policed(b, |payload|, dir, rateAt), M.Buffered(b, payload);
    var last := M.Counted(b, |payload|, dir.Uplink?);
    PendingStep(d, last);
    PendingStep(d, policed);
    PendingStep(M.Step(d, policed), last);
    PendingStep(d, buffered);
    var d1 := M.Step(d, buffered);
    PendingStep(d1, M.Scheduled(b, payload));
    PendingStep(M.Step(d1, M.Scheduled(b, payload)), last);
  }

  lemma {:induction false} NoticeLaw(b: Binding, payload: Payload)
    ensures DriverLoops.AtOnce(b, payload) ==
      if HasFlag(b, NOCP) && !Delayed(b) then Some(M.Pending(payload, b.far.value.action)) else None
  {
  }

  /** What a matched packet does to the outside and to the buffers, in terms of its binding: it is sent
      exactly if its FAR has FORW and neither BUFF nor DROP, no gate is shut, the rates admit it and the
      proxy does not take it; it is buffered exactly if its FAR has BUFF and not DROP and no gate is shut;
      otherwise neither happens. */
  ghost predicate Fate(was: M.State, now: M.State, sent: seq<Outcome>, b: Binding, payload: Payload, dir: Direction,
                       taken: bool, gateAt: Time, rateAt: Time) {
    var open := !Shut(was, b, dir, gateAt);
    && sent == (if ToSend(b) && open && Admitted(was, b, |payload|, dir, rateAt) && !taken
                then [Forward(b, payload, dir.Uplink?)] else [])
    && (forall k: Seid, p: PdrId ::
          if k == b.seid && p == b.pdrId && k in was.sessions && ToBuffer(b) && open
          then Buffers(Held(now, k, p), Held(was, k, p), payload, b.bar)
          else Held(now, k, p) == Held(was, k, p))
    && now.pending == (if ToBuffer(b) && open && Delayed(b)
                       then was.pending[M.DdnKey(b.seid, b.pdrId) := M.Pending(payload, b.far.value.action)]
                       else was.pending)
  }

  lemma {:induction false} FateOf(d: M.State, sent: seq<Outcome>, b: Binding, payload: Payload, dir: Direction, taken: bool,
          gateAt: Time, rateAt: Time)
    requires sent == if Verdict(d, b, |payload|, dir, gateAt, rateAt).ForwardPacket? && !taken
                     then [Forward(b, payload, dir.Uplink?)] else []
    ensures Fate(d, M.Run(d, Steps(Gated(d, b, dir, gateAt), b, payload, dir, rateAt)), sent, b, payload, dir, taken,
                 gateAt, rateAt)
  {
    hide M.Run, Gated, Held, Steps, Buffers, Shut, Verdict, Admitted, Forward;
    VerdictLaw(d, b, |payload|, dir, gateAt, rateAt);
    StepsPending(d, b, payload, dir, gateAt, rateAt);
    forall k: Seid, p: PdrId { StepsHeld(d, b, payload, dir, gateAt, rateAt, k, p); }
  }

  /** The common tail of processUplink and processDownlink, from the matched binding on.  `taken`
      says that the adaptive proxy intercepts the packet: it is then charged and counted like a
      forwarded one, but not sent. */
  method ProcessMatched(d: UserspaceDriver.Driver, b: Binding, payload: Payload, dir: Direction, taken: bool,
                        gateAt: Time, rateAt: Time)
    returns (action: Action, notice: Option<M.Pending>, over: seq<Usage>)
    requires d.Valid()
    modifies d
    ensures d.Valid()
    ensures action == Verdict(old(d.State()), b, |payload|, dir, gateAt, rateAt)
    ensures d.State() == M.Run(old(d.State()), Steps(Gated(old(d.State()), b, dir, gateAt), b, payload, dir, rateAt))
    ensures d.egress == old(d.egress) +
        if action.ForwardPacket? && !taken then [Forward(b, payload, dir.Uplink?)] else []
    ensures d.egress == old(d.egress) + d.egress[|old(d.egress)|..]
    ensures Fate(old(d.State()), d.State(), d.egress[|old(d.egress)|..], b, payload, dir, taken, gateAt, rateAt)
    ensures notice == if ToBuffer(b) && !Shut(old(d.State()), b, dir, gateAt) && HasFlag(b, NOCP) && !Delayed(b)
        then Some(M.Pending(payload, b.far.value.action)) else None
    ensures over == if b.seid in old(d.sessions)
                    then DriverLoops.OverLimit(old(d.sessions)[b.seid].urrReports, b.urrs, |payload|,
                        dir.Uplink?) else []
  {
    hide M.Step, M.Run, M.Sound, Snapshot.IsIndex, Steps, RateLimit.Metered, GateClosed, Forward, DriverLoops.OverLimit, Fate,
      Shut;
    ghost var was := d.State();
    ghost var gated := Gated(was, b, dir, gateAt);
    StepsRun(was, gated, b, payload, dir, rateAt);
    notice := None;
    action := ActionOf(b);
    var closed := CheckGates(d, b, dir, gateAt);
    if closed { action := DropPacket; }
    if action.ForwardPacket? {
      KeepsAccumulators(was, M.Policed(b, |payload|, dir, rateAt), b.seid);
      var pass := d.MbrAllows(b, |payload|, dir, rateAt);
      if !pass {
        action := DropPacket;
      } else if !taken {
        d.PublishOutcome(Forward(b, payload, dir.Uplink?));
      }
    } else if action.BufferPacket? {
      KeepsAccumulators(was, M.Buffered(b, payload), b.seid);
      d.BufferPacket(b, payload);
      KeepsAccumulators(d.State(), M.Scheduled(b, payload), b.seid);
      notice := d.ScheduleNotification(b, payload);
    }
    over := d.UpdateUsage(b, |payload|, dir.Uplink?);
    VerdictLaw(was, b, |payload|, dir, gateAt, rateAt);
    NoticeLaw(b, payload);
    FateOf(was, d.egress[|old(d.egress)|..], b, payload, dir, taken, gateAt, rateAt);
  }

  datatype Result = Undecodable | Unparsable | Unmatched | Handled(binding: Binding, action: Action)

  /** processUplink; `parse` reads the IPv4 header of the inner packet, and `intercepts` is the
      adaptive proxy, if there is one. */
  method ProcessUplink(d: UserspaceDriver.Driver, packet: seq<Byte>, ue: Option<Ipv4>, parse: Payload -> Option<Meta>,
                       intercepts: Payload -> bool, gateAt: Time, rateAt: Time)
    returns (r: Result, notice: Option<M.Pending>, over: seq<Usage>)
    requires d.Valid()
    modifies d
    ensures d.Valid()
    ensures r.Undecodable? <==> !Gtpu.Decode(packet).Accepted?
    ensures !r.Handled? ==> d.State() == old(d.State()) && d.egress == old(d.egress)
    ensures r.Unmatched? || r.Handled? ==>
      var g := Gtpu.Decode(packet).value;
      var meta := parse(g.inner);
      && meta.Some?
      && Classify.UplinkVerdict(old(d.sessions), g.teid, if ue.Some? then ue else Some(meta.value.src), meta,
                                if r.Handled? then Some(r.binding) else None)
    ensures r.Handled? ==>
      var payload := Gtpu.Decode(packet).value.inner;
      && r.action == Verdict(old(d.State()), r.binding, |payload|, Uplink, gateAt, rateAt)
      && d.State() == M.Run(old(d.State()), Steps(Gated(old(d.State()), r.binding, Uplink, gateAt), r.binding,
          payload, Uplink, rateAt))
      && d.egress == old(d.egress) +
           (if r.action.ForwardPacket? && !intercepts(payload) then [Forward(r.binding, payload, true)] else [])
      && Fate(old(d.State()), d.State(), d.egress[|old(d.egress)|..], r.binding, payload, Uplink, intercepts(payload),
              gateAt, rateAt)
  {
    hide M.Run, M.Sound, Snapshot.IsIndex, Steps, Verdict, Gated, Forward, Gtpu.Decode, Classify.UplinkVerdict, Fate;
    notice, over := None, [];
    var g := Gtpu.DecodeGtpu(packet);
    if !g.Accepted? { return Undecodable, None, []; }
    var payload: Payload := g.value.inner;
    var meta := parse(payload);
    if meta.None? { return Unparsable, None, []; }
    var found := d.ClassifyUplink(g.value.teid, if ue.Some? then ue else Some(meta.value.src), meta);
    if found.None? { return Unmatched, None, []; }
    var action;
    action, notice, over := ProcessMatched(d, found.value, payload, Uplink, intercepts(payload), gateAt, rateAt);
    return Handled(found.value, action), notice, over;
  }

  /** processDownlink. */
  method ProcessDownlink(d: UserspaceDriver.Driver, payload: Payload, ue: Option<Ipv4>, parse: Payload -> Option<Meta>,
                         gateAt: Time, rateAt: Time)
    returns (r: Result, notice: Option<M.Pending>, over: seq<Usage>)
    requires d.Valid()
    modifies d
    ensures d.Valid()
    ensures r.Unparsable? <==> parse(payload).None?
    ensures !r.Undecodable?
    ensures !r.Handled? ==> d.State() == old(d.State()) && d.egress == old(d.egress)
    ensures r.Unmatched? || r.Handled? ==>
      var meta := parse(payload);
      var slot := Snapshot.ByAddress(if ue.Some? then ue.value else meta.value.dst);
      if r.Handled? then Classify.Best(old(d.sessions), slot, meta, Downlink, r.binding)
      else !exists b: Binding :: Classify.Candidate(old(d.sessions), slot, meta, Downlink, b)
    ensures r.Handled? ==>
      && r.action == Verdict(old(d.State()), r.binding, |payload|, Downlink, gateAt, rateAt)
      && d.State() == M.Run(old(d.State()), Steps(Gated(old(d.State()), r.binding, Downlink, gateAt), r.binding,
          payload, Downlink, rateAt))
      && d.egress == old(d.egress) + (if r.action.ForwardPacket? then [Forward(r.binding, payload, false)] else [])
      && Fate(old(d.State()), d.State(), d.egress[|old(d.egress)|..], r.binding, payload, Downlink, false, gateAt, rateAt)
  {
    hide M.Run, M.Sound, Snapshot.IsIndex, Steps, Verdict, Gated, Forward, Classify.Best, Classify.Candidate, Fate;
    notice, over := None, [];
    var meta := parse(payload);
    if meta.None? { return Unparsable, None, []; }
    var found := d.ClassifyDownlink(if ue.Some? then ue else Some(meta.value.dst), meta);
    if found.None? { return Unmatched, None, []; }
    var action;
    action, notice, over := ProcessMatched(d, found.value, payload, Downlink, false, gateAt, rateAt);
    return Handled(found.value, action), notice, over;
  }

  // ---- what the order of the parts means ----

  /** A matched packet is counted exactly once for each URR its binding lists, whatever becomes
      of it: dropped packets are counted like forwarded ones. */
  lemma {:induction false} CountedWhateverHappens(d: M.State, a: Action, b: Binding, payload: Payload,
          dir: Direction, rateAt: Time,
                                                  u: UrrId, c: U.Counter)
    ensures U.Metered(d, Steps(a, b, payload, dir, rateAt), b.seid, u, c)
         == if b.seid in d.sessions then U.MeteredTo(b.urrs, u, |payload|, dir.Uplink?, c) else 0
  {
    hide U.MeteredTo, RateLimit.Metered, M.Enqueue, M.CountAll, M.Apply, M.TickSession, M.StartFlow, M.EndFlow;
    var steps := Steps(a, b, payload, dir, rateAt);
    MeteredLast(d, steps[..|steps| - 1], steps[|steps| - 1], b.seid, u, c);
    assert steps == steps[..|steps| - 1] + [steps[|steps| - 1]];
  }

  lemma {:induction false} MeteredLast(d: M.State, front: seq<M.Event>, last: M.Event, seid: Seid, u: UrrId,
          c: U.Counter)
    requires forall i | 0 <= i < |front| :: front[i].Policed? || front[i].Buffered? || front[i].Scheduled?
    requires last.Counted? && last.binding.seid == seid
    ensures U.Metered(d, front + [last], seid, u, c)
         == if seid in d.sessions then U.MeteredTo(last.binding.urrs, u, last.bytes, last.up, c) else 0
    decreases |front|
  {
    hide U.MeteredTo, M.Step;
    if front == [] {
      assert front + [last] == [last];
    } else {
      assert (front + [last])[1..] == front[1..] + [last];
      KeepsAccumulators(d, front[0], seid);
      MeteredLast(M.Step(d, front[0]), front[1..], last, seid, u, c);
    }
  }

  /** A packet that a gate drops, or that is buffered, is not charged to any rate. */
  lemma {:induction false} OnlyForwardedCharged(d: M.State, b: Binding, payload: Payload, dir: Direction,
          gateAt: Time, rateAt: Time)
    requires b.seid in d.sessions && !Gated(d, b, dir, gateAt).ForwardPacket?
    ensures var d' := M.Run(d, Steps(Gated(d, b, dir, gateAt), b, payload, dir, rateAt));
      b.seid in d'.sessions && d'.sessions[b.seid].meters == d.sessions[b.seid].meters
  {
    hide M.Run, Gated, Steps, M.CountAll, M.Enqueue, RateLimit.Metered;
    StepsRun(d, Gated(d, b, dir, gateAt), b, payload, dir, rateAt);
  }
}
