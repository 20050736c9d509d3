/** Buffered packets: what a PDR's buffer holds over any run, what a FAR update releases
    and to whom, and the delayed notification that goes with it. */
module Buffering {
  import opened Rules
  import opened Driver
  import opened Forwarding
  import RateLimit
  import Snapshot
  import Gtpu

  function Held(d: State, seid: Seid, p: PdrId): seq<Payload> {
    if seid in d.sessions then BufferOf(d.sessions[seid], p) else []
  }

  /** The event is an accepted FAR update that empties this buffer. */
  predicate Drains(d: State, e: Event, seid: Seid, p: PdrId) {
    && e.Control? && e.seid == seid && e.req.UpdateFar? && Refusal(d, seid, e.req).None?
    && p in Drained(d.sessions[seid], e.req.fid, d.sessions[seid].fars[e.req.fid])
  }

  predicate Arrives(d: State, e: Event, seid: Seid, p: PdrId) {
    e.Buffered? && e.binding.seid == seid && e.binding.pdrId == p && seid in d.sessions
  }

  /** What arrived for the buffer since its last drain, given what had arrived before. */
  function Arrived(d: State, e: Event, seid: Seid, p: PdrId, before: seq<Payload>): seq<Payload> {
    if Drains(d, e, seid, p) then []
    else if Arrives(d, e, seid, p) then before + [e.payload]
    else before
  }

  function Arrivals(d: State, events: seq<Event>, seid: Seid, p: PdrId, before: seq<Payload>): seq<Payload>
    decreases |events|
  {
    if events == [] then before
    else Arrivals(Step(d, events[0]), events[1..], seid, p, Arrived(d, events[0], seid, p, before))
  }

  predicate Suffix(s: seq<Payload>, of: seq<Payload>) {
    |s| <= |of| && s == of[|of| - |s|..]
  }

  function Min(a: nat, b: nat): nat { if a <= b then a else b }

  /** The newest `limit` packets, or all of them if the limit is zero. */
  function Newest(arrived: seq<Payload>, limit: nat): seq<Payload> {
    if 0 < limit < |arrived| then arrived[|arrived| - limit..] else arrived
  }

  /** The buffer is a suffix of what arrived, and lost nothing of the newest `keep`. */
  predicate Faithful(buffer: seq<Payload>, arrived: seq<Payload>, keep: nat) {
    Suffix(buffer, arrived) && |buffer| >= Min(|arrived|, keep)
  }

  /** Every limit applied to this buffer in the run is zero, for none, or at least `keep`. */
  predicate LimitsAtLeast(events: seq<Event>, seid: Seid, p: PdrId, keep: nat) {
    forall i | 0 <= i < |events| && events[i].Buffered? && events[i].binding.seid == seid
        && events[i].binding.pdrId == p ::
      BufferLimit(events[i].binding) == 0 || BufferLimit(events[i].binding) >= keep
  }

  predicate LimitsAre(events: seq<Event>, seid: Seid, p: PdrId, limit: nat) {
    forall i | 0 <= i < |events| && events[i].Buffered? && events[i].binding.seid == seid
        && events[i].binding.pdrId == p ::
      BufferLimit(events[i].binding) == limit
  }

  lemma {:induction false} EnqueueFaithful(buffer: seq<Payload>, arrived: seq<Payload>, x: Payload, limit: nat,
          keep: nat)
    requires Faithful(buffer, arrived, keep) && (limit == 0 || limit >= keep)
    ensures Faithful(Enqueue(buffer, x, limit), arrived + [x], keep)
  {
    var r := Enqueue(buffer, x, limit);
    assert Suffix(buffer + [x], arrived + [x]);
    assert r == (arrived + [x])[|arrived| + 1 - |r|..];
  }

  lemma {:induction false} EnqueueNewest(arrived: seq<Payload>, x: Payload, limit: nat)
    ensures Enqueue(Newest(arrived, limit), x, limit) == Newest(arrived + [x], limit)
  {
  }

  /** A session that is deleted had no buffers left. */
  lemma {:induction false} ControlBuffers(d: State, at: Seid, req: Request, seid: Seid, p: PdrId)
    ensures Held(Apply(d, at, req).state, seid, p)
         == if Drains(d, Control(at, req), seid, p) then [] else Held(d, seid, p)
  {
    hide After, Names, Decodes, Cancelled, Drained;
    if Refusal(d, at, req).None? && at == seid {
      AfterFrame(Lookup(d, seid), req);
      if req.UpdateFar? { UpdateFarNames(d, seid, req); }
    }
  }

  lemma {:induction false} UpdateFarNames(d: State, seid: Seid, req: Request)
    requires Refusal(d, seid, req).None? && req.UpdateFar?
    ensures seid in d.sessions && req.fid in d.sessions[seid].fars
  {
  }

  /** What one step does to one buffer: empties it, appends to it within the limit of the
      packet's binding, or leaves it alone. */
  lemma {:induction false} StepHeld(d: State, e: Event, seid: Seid, p: PdrId)
    ensures Held(Step(d, e), seid, p) ==
      if Drains(d, e, seid, p) then []
      else if Arrives(d, e, seid, p) then Enqueue(Held(d, seid, p), e.payload, BufferLimit(e.binding))
      else Held(d, seid, p)
  {
    hide Apply, CountAll, TickSession, RateLimit.Metered, AdaptiveQers, Refusal, Drained, Enqueue, BufferLimit;
    match e
    case Control(at, req) => ControlBuffers(d, at, req, seid, p);
    case Ticked(now) => if seid in d.sessions { TickBuffers(d.sessions[seid], now); }
    case Buffered(_, _) =>
    case Scheduled(_, _) =>
    case Counted(_, _, _) =>
    case Policed(_, _, _, _) =>
    case NotificationDue(_) =>
    case FlowStarted(_, _, _, _) =>
    case FlowEnded(_, _) =>
    case FlowsReset =>
  }

  lemma {:induction false} TickBuffers(s: SessionState, now: Time)
    ensures TickSession(s, now).buffers == s.buffers
  {
  }

  /** Over every run a PDR's buffer is a suffix of its arrivals since the last drain, at
      least as long as the smallest limit in use allows. */
  lemma {:induction false} BufferIsSuffix(d: State, events: seq<Event>, seid: Seid, p: PdrId, before: seq<Payload>,
          keep: nat)
    requires Faithful(Held(d, seid, p), before, keep) && LimitsAtLeast(events, seid, p, keep)
    ensures Faithful(Held(Run(d, events), seid, p), Arrivals(d, events, seid, p, before), keep)
    decreases |events|
  {
    hide Step, Held, Drains, Faithful, Enqueue, BufferLimit;
    if events != [] {
      var e := events[0];
      var now := Arrived(d, e, seid, p, before);
      StepHeld(d, e, seid, p);
      EmptyFaithful(keep);
      if !Drains(d, e, seid, p) && Arrives(d, e, seid, p) {
        EnqueueFaithful(Held(d, seid, p), before, e.payload, BufferLimit(e.binding), keep);
      }
      BufferIsSuffix(Step(d, e), events[1..], seid, p, now, keep);
    }
  }

  lemma {:induction false} EmptyFaithful(keep: nat)
    ensures Faithful([], [], keep)
  {
  }

  /** With one limit throughout, the buffer is exactly the newest arrivals it allows. */
  lemma {:induction false} BufferIsNewest(d: State, events: seq<Event>, seid: Seid, p: PdrId, before: seq<Payload>,
          limit: nat)
    requires Held(d, seid, p) == Newest(before, limit) && LimitsAre(events, seid, p, limit)
    ensures Held(Run(d, events), seid, p) == Newest(Arrivals(d, events, seid, p, before), limit)
    decreases |events|
  {
    hide Step, Held, Drains, Enqueue, BufferLimit;
    if events != [] {
      var e := events[0];
      StepHeld(d, e, seid, p);
      if !Drains(d, e, seid, p) && Arrives(d, e, seid, p) { EnqueueNewest(before, e.payload, limit); }
      BufferIsNewest(Step(d, e), events[1..], seid, p, Arrived(d, e, seid, p, before), limit);
    }
  }

  // ---- the drain ----

  /** The binding a drained buffer is sent through: its PDR's own entry in the published
      bucket of its UE address or, failing that, the first entry of that bucket in a freshly
      built snapshot.  With no such bucket the source indexes an empty list. */
  datatype Target = Own(binding: Binding) | Other(binding: Binding) | Crash

  function Find(bs: seq<Binding>, seid: Seid, p: PdrId): Option<Binding> {
    if bs == [] then None
    else if bs[0].seid == seid && bs[0].pdrId == p then Some(bs[0])
    else Find(bs[1..], seid, p)
  }

  function DrainTarget(idx: Snapshot.Index, again: Snapshot.Index, seid: Seid, p: PdrId, pdr: Pdr): Target {
    if pdr.pdi.None? || pdr.pdi.value.ue.None? then Crash
    else
      var slot := Snapshot.ByAddress(pdr.pdi.value.ue.value);
      var own := Find(Snapshot.Listing(idx, slot), seid, p);
      var others := Snapshot.Listing(again, slot);
      if own.Some? then Own(own.value) else if others != [] then Other(others[0]) else Crash
  }

  lemma {:induction false} FindFinds(bs: seq<Binding>, seid: Seid, p: PdrId)
    ensures var r := Find(bs, seid, p);
      && (r.Some? ==> r.value in bs && r.value.seid == seid && r.value.pdrId == p)
      && (r.None? ==> forall b | b in bs :: b.seid != seid || b.pdrId != p)
  {
    if bs != [] && !(bs[0].seid == seid && bs[0].pdrId == p) {
      FindFinds(bs[1..], seid, p);
    }
  }

  predicate CoreWithAddress(pdr: Pdr) {
    pdr.pdi.Some? && pdr.pdi.value.srcIf == Some(Core) && pdr.pdi.value.ue.Some?
  }

  /** A drained buffer goes through its own PDR's binding if and only if that PDR is a core
      PDR with a UE address; any other PDR's packets leave through a stranger's binding or
      stop the process. */
  lemma {:induction false} DrainedThroughOwnBinding(idx: Snapshot.Index, again: Snapshot.Index,
          sessions: Snapshot.Sessions,
                                                    seid: Seid, p: PdrId)
    requires Snapshot.IsIndex(idx, sessions) && seid in sessions && p in sessions[seid].pdrs
    ensures DrainTarget(idx, again, seid, p, sessions[seid].pdrs[p]) == Own(Snapshot.BindingOf(seid, sessions[seid], p))
       <==> CoreWithAddress(sessions[seid].pdrs[p])
    ensures DrainTarget(idx, again, seid, p, sessions[seid].pdrs[p]).Own? <==> CoreWithAddress(sessions[seid].pdrs[p])
  {
    hide Snapshot.BindingOf, Find;
    var pdr := sessions[seid].pdrs[p];
    Snapshot.BindingNames(seid, sessions[seid], p);
    if pdr.pdi.Some? && pdr.pdi.value.ue.Some? {
      var slot := Snapshot.ByAddress(pdr.pdi.value.ue.value);
      assert Snapshot.SlotExact(idx, sessions, slot);
      FindFinds(Snapshot.Listing(idx, slot), seid, p);
      assert Snapshot.BindingOf(seid, sessions[seid], p) in Snapshot.Listing(idx, slot) <==> CoreWithAddress(pdr);
    }
  }

  /** Each buffered packet, once, in arrival order. */
  function Released(b: Binding, buffer: seq<Payload>): (r: seq<Outcome>)
    ensures |r| == |buffer|
  {
    seq(|buffer|, i requires 0 <= i < |buffer| => Forward(b, buffer[i], false))
  }

  /** What an update to FAR `merged` sends out of one drained buffer. */
  function Emitted(idx: Snapshot.Index, again: Snapshot.Index, merged: Far, seid: Seid, p: PdrId, pdr: Pdr,
          buffer: seq<Payload>): seq<Outcome> {
    if FORW !in merged.action then []
    else
      match DrainTarget(idx, again, seid, p, pdr)
      case Own(b) => Released(b, buffer)
      case Other(b) => Released(b, buffer)
      case Crash => []
  }

  /** A FAR update that takes a buffering FAR to forwarding.  The buffer of every core PDR
      with a UE address that uses it is sent through that PDR's binding with the updated
      FAR, each packet once, intact and in order; then the buffer is empty and no
      notification for it is pending. */
  lemma {:induction false} ForwardingUpdateReleases(d: State, seid: Seid, fid: FarId, far: Far, ok: bool,
                                                    p: PdrId, idx: Snapshot.Index, again: Snapshot.Index)
    requires Drains(d, Control(seid, UpdateFar(fid, far, ok)), seid, p)
    requires CoreWithAddress(d.sessions[seid].pdrs[p])
    requires FORW in MergeFar(d.sessions[seid].fars[fid], far).action
    requires Snapshot.IsIndex(idx, Apply(d, seid, UpdateFar(fid, far, ok)).state.sessions)
    ensures var d' := Apply(d, seid, UpdateFar(fid, far, ok)).state;
            var merged := MergeFar(d.sessions[seid].fars[fid], far);
            var b := Snapshot.BindingOf(seid, d'.sessions[seid], p);
            var buffer := Held(d, seid, p);
            var out := Emitted(idx, again, merged, seid, p, d.sessions[seid].pdrs[p], buffer);
      && b.far == Some(merged)
      && |out| == |buffer|
      && (forall i | 0 <= i < |buffer| :: Carries(out[i], OuterOf(b), buffer[i]))
      && Held(d', seid, p) == []
      && DdnKey(seid, p) !in d'.pending
  {
    hide Snapshot.IsIndex, MergeFar, OuterOf, Forward, DrainTarget, Names, Decodes, Cancelled;
    var req := UpdateFar(fid, far, ok);
    UpdateFarNames(d, seid, req);
    var d' := Apply(d, seid, req).state;
    assert d'.sessions[seid].pdrs == d.sessions[seid].pdrs;
    DrainedThroughOwnBinding(idx, again, d'.sessions, seid, p);
    CancelledByUpdate(d.sessions[seid], req);
    var b := Snapshot.BindingOf(seid, d'.sessions[seid], p);
    var buffer := Held(d, seid, p);
    forall i | 0 <= i < |buffer| ensures Carries(Released(b, buffer)[i], OuterOf(b), buffer[i]) {
      CarriesEach(b, buffer[i]);
    }
  }

  /** The packet goes to the header's peer as a G-PDU that decodes to the payload under the
      header's TEID; without a header it goes as it is. */
  predicate Carries(o: Outcome, outer: Option<OuterHeader>, payload: Payload) {
    match o
    case RawIp(_, _, p) => outer.None? && p == payload
    case Encapsulated(_, _, p, peer, _) =>
      && outer.Some? && peer == outer.value.ip
      && Gtpu.Decode(p) == Gtpu.Accepted(Gtpu.Decoded(outer.value.teid, payload))
  }

  lemma {:induction false} CarriesEach(b: Binding, payload: Payload)
    ensures Carries(Forward(b, payload, false), OuterOf(b), payload)
  {
    ForwardCarries(b, payload, false);
  }

  lemma {:induction false} CancelledByUpdate(s: SessionState, req: Request)
    requires req.UpdateFar? && req.fid in s.fars
    ensures Cancelled(s, req) == Drained(s, req.fid, s.fars[req.fid])
  {
  }

  /** When an update of its FAR loses a core PDR's buffered packets: exactly if the old
      action buffers and the new one does not forward.  An update that goes on buffering,
      such as one that only changes the outer header, discards them. */
  lemma {:induction false} BufferedPacketsLost(d: State, seid: Seid, fid: FarId, far: Far, ok: bool,
                                               p: PdrId, idx: Snapshot.Index, again: Snapshot.Index)
    requires Refusal(d, seid, UpdateFar(fid, far, ok)).None?
    requires p in Users(d.sessions[seid], fid) && Held(d, seid, p) != []
    requires CoreWithAddress(d.sessions[seid].pdrs[p])
    requires Snapshot.IsIndex(idx, Apply(d, seid, UpdateFar(fid, far, ok)).state.sessions)
    ensures var d' := Apply(d, seid, UpdateFar(fid, far, ok)).state;
            var prev := d.sessions[seid].fars[fid];
            var out := Emitted(idx, again, MergeFar(prev, far), seid, p, d.sessions[seid].pdrs[p], Held(d, seid, p));
      Held(d', seid, p) == [] && out == [] <==> BUFF in prev.action && FORW !in MergeFar(prev, far).action
  {
    hide MergeFar, Snapshot.IsIndex, DrainTarget, Forward;
    var req := UpdateFar(fid, far, ok);
    UpdateFarNames(d, seid, req);
    ControlBuffers(d, seid, req, seid, p);
    var d' := Apply(d, seid, req).state;
    assert d'.sessions[seid].pdrs == d.sessions[seid].pdrs;
    DrainedThroughOwnBinding(idx, again, d'.sessions, seid, p);
  }

  // ---- the delayed notification ----

  /** What a timer that fires reports: the pending notification, if the buffer still holds
      something. */
  function FiredReport(d: State, key: DdnKey): Option<Pending> {
    if key in d.pending && Held(d, key.seid, key.pdrId) != [] then Some(d.pending[key]) else None
  }

  predicate SchedulesFor(e: Event, key: DdnKey) {
    e.Scheduled? && e.binding.seid == key.seid && e.binding.pdrId == key.pdrId
  }

  predicate BuffersFor(e: Event, key: DdnKey) {
    e.Buffered? && e.binding.seid == key.seid && e.binding.pdrId == key.pdrId
  }

  lemma {:induction false} StepPending(d: State, e: Event, key: DdnKey)
    requires key !in d.pending && !SchedulesFor(e, key)
    ensures key !in Step(d, e).pending
  {
    hide After, Names, Decodes, Cancelled, CountAll, TickSession, RateLimit.Metered, AdaptiveQers, Enqueue, Disposable;
  }

  /** Once cancelled, a notification stays silent over every run until one is scheduled again,
      even if its timer had already fired. */
  lemma {:induction false} CancelledStaysSilent(d: State, events: seq<Event>, key: DdnKey)
    requires key !in d.pending
    requires forall i | 0 <= i < |events| :: !SchedulesFor(events[i], key)
    ensures FiredReport(Run(d, events), key).None?
    decreases |events|
  {
    hide Step;
    if events != [] {
      StepPending(d, events[0], key);
      CancelledStaysSilent(Step(d, events[0]), events[1..], key);
    }
  }

  /** Once drained, a notification stays silent over every run until another packet is
      buffered for its PDR, even if a worker schedules it late for a packet that the drain
      already took. */
  lemma {:induction false} DrainedStaysSilent(d: State, events: seq<Event>, key: DdnKey)
    requires Held(d, key.seid, key.pdrId) == []
    requires forall i | 0 <= i < |events| :: !BuffersFor(events[i], key)
    ensures FiredReport(Run(d, events), key).None?
    decreases |events|
  {
    hide Step, Held, Drains;
    if events != [] {
      StepHeld(d, events[0], key.seid, key.pdrId);
      DrainedStaysSilent(Step(d, events[0]), events[1..], key);
    }
  }

  /** Whatever a run did before, a notification that its last event schedules is reported when it
      fires exactly if a packet arrived for the buffer since its last drain. */
  lemma {:induction false} ScheduleReports(d: State, events: seq<Event>, b: Binding, payload: Payload)
    requires DelaysNotification(b)
    ensures FiredReport(Run(d, events + [Scheduled(b, payload)]), DdnKey(b.seid, b.pdrId))
         == if Arrivals(d, events, b.seid, b.pdrId, Held(d, b.seid, b.pdrId)) == [] then None
            else Some(Pending(payload, b.far.value.action))
  {
    hide Run, Held, Arrivals;
    var before := Held(d, b.seid, b.pdrId);
    RunAppend(d, events, Scheduled(b, payload));
    BufferIsSuffix(d, events, b.seid, b.pdrId, before, 1);
    StepHeld(Run(d, events), Scheduled(b, payload), b.seid, b.pdrId);
  }

  /** An accepted removal of the PDR or of the FAR it forwards through. */
  predicate Uninstalls(d: State, seid: Seid, req: Request, p: PdrId) {
    && Refusal(d, seid, req).None? && seid in d.sessions
    && ((req.RemovePdr? && req.pid == p) || (req.RemoveFar? && p in Users(d.sessions[seid], req.fid)))
  }

  /** The rule that the removal names is not installed. */
  predicate Gone(d: State, seid: Seid, req: Request) {
    && (req.RemovePdr? ==> req.pid !in Lookup(d, seid).pdrs)
    && (req.RemoveFar? ==> req.fid !in Lookup(d, seid).fars)
  }

  lemma {:induction false} UninstallCancels(d: State, seid: Seid, req: Request, p: PdrId)
    requires Uninstalls(d, seid, req, p)
    ensures var d' := Step(d, Control(seid, req));
      && DdnKey(seid, p) !in d'.pending && Gone(d', seid, req) && Held(d', seid, p) == Held(d, seid, p)
  {
    StepHeld(d, Control(seid, req), seid, p);
    hide Held, Decodes, AfterQer, AfterUrr, AfterBar, Users;
  }

  /** A removal of a PDR or of its FAR cancels the pending notification, but leaves the buffer alone.
      A worker that schedules one late, for a packet that it buffered before the removal, therefore has
      it reported for a rule that is no longer installed: exactly if the buffer held something. */
  lemma {:induction false} LateScheduleReports(d: State, req: Request, b: Binding, payload: Payload)
    requires Uninstalls(d, b.seid, req, b.pdrId) && DelaysNotification(b)
    ensures var key := DdnKey(b.seid, b.pdrId);
            var removed := Run(d, [Control(b.seid, req)]);
            var late := Run(d, [Control(b.seid, req), Scheduled(b, payload)]);
      && FiredReport(removed, key).None? && Gone(removed, b.seid, req) && Gone(late, b.seid, req)
      && FiredReport(late, key) == if Held(d, b.seid, b.pdrId) == [] then None
                                   else Some(Pending(payload, b.far.value.action))
  {
    hide DelaysNotification, Held, Run, Step, Arrivals, Gone;
    var e, late := Control(b.seid, req), Scheduled(b, payload);
    UninstallCancels(d, b.seid, req, b.pdrId);
    RunOne(d, e);
    assert [e] + [late] == [e, late];
    RunAppend(d, [e], late);
    ScheduleReports(d, [e], b, payload);
    ScheduleKeepsRules(Step(d, e), b, payload, req);
    ControlArrives(d, e, b.seid, b.pdrId);
    StepHeld(d, e, b.seid, b.pdrId);
  }

  lemma {:induction false} RunOne(d: State, e: Event)
    ensures Run(d, [e]) == Step(d, e)
  {
    hide Step;
  }

  lemma {:induction false} ScheduleKeepsRules(d: State, b: Binding, payload: Payload, req: Request)
    ensures Gone(Step(d, Scheduled(b, payload)), b.seid, req) <==> Gone(d, b.seid, req)
  {
  }

  lemma {:induction false} ControlArrives(d: State, e: Event, seid: Seid, p: PdrId)
    requires e.Control? && e.seid == seid && (e.req.RemovePdr? || e.req.RemoveFar?)
    ensures Arrivals(d, [e], seid, p, Held(d, seid, p)) == Held(d, seid, p)
  {
    hide Step, Held;
  }

  /** A drain that does not go through the PDR's own binding goes through a core PDR with the same UE
      address, of any session, that no other such PDR outranks. */
  lemma {:induction false} DrainedThroughOther(idx: Snapshot.Index, again: Snapshot.Index, sessions: Snapshot.Sessions,
          seid: Seid, p: PdrId, pdr: Pdr)
    requires Snapshot.IsIndex(again, sessions) && DrainTarget(idx, again, seid, p, pdr).Other?
    ensures pdr.pdi.Some? && pdr.pdi.value.ue.Some?
    ensures var b, slot := DrainTarget(idx, again, seid, p, pdr).binding, Snapshot.ByAddress(pdr.pdi.value.ue.value);
      && Snapshot.Live(sessions, b) && Snapshot.InSlot(b.pdr, slot)
      && forall c: Binding | Snapshot.Live(sessions, c) && Snapshot.InSlot(c.pdr, slot) :: !Snapshot.Better(c, b)
  {
    hide Snapshot.Live, Snapshot.InSlot, Find, Snapshot.Better;
    var slot := Snapshot.ByAddress(pdr.pdi.value.ue.value);
    assert Snapshot.SlotExact(again, sessions, slot);
    var bs := Snapshot.Listing(again, slot);
    forall c: Binding | Snapshot.Live(sessions, c) && Snapshot.InSlot(c.pdr, slot) ensures !Snapshot.Better(c, bs[0]) {
      var j :| 0 <= j < |bs| && bs[j] == c;
      if j == 0 { NotAboveItself(c); }
    }
  }

  lemma {:induction false} NotAboveItself(b: Binding)
    ensures !Snapshot.Better(b, b)
  {
  }
}
