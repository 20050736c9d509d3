/** The userspace driver as an object whose sessions, pending notifications, published snapshot
    and egress queue change in place under its lock.  Every method is one critical section; it
    does what the state machine of module Driver says and leaves a published snapshot that is
    the exact index of the live sessions. */
module UserspaceDriver {
  import opened Rules
  import opened Snapshot
  import opened Forwarding
  import opened Buffering
  import opened DriverLoops
  import Classify
  import M = Driver
  import RateLimit

  class Driver {
    var sessions: Sessions
    var pending: map<M.DdnKey, M.Pending>
    var snapshot: Index
    var egress: seq<Outcome>

    ghost function State(): M.State
      reads this
    {
      M.State(sessions, pending)
    }

    /** The accumulators are sound, no session is empty, and the published snapshot is exactly
        the sorted index of the live sessions. */
    ghost predicate Valid()
      reads this
    {
      M.Sound(State()) && IsIndex(snapshot, sessions)
    }

    constructor ()
      ensures Valid() && State() == M.INITIAL && egress == []
    {
      sessions, pending, snapshot, egress := map[], map[], Index(map[], map[]), [];
    }

    /** publishSnapshotLocked. */
    method Publish()
      modifies this`snapshot
      ensures IsIndex(snapshot, sessions)
    {
      snapshot := Build(sessions);
    }

    method EnsureSession(seid: Seid)
      modifies this`sessions
      ensures sessions == old(sessions)[seid := M.Lookup(old(State()), seid)]
    {
      if seid !in sessions { sessions := sessions[seid := FRESH_SESSION]; }
    }

    method CancelPending(key: M.DdnKey)
      modifies this`pending
      ensures pending == old(pending) - {key}
    {
      pending := pending - {key};
    }

    /** deleteSessionIfEmptyLocked. */
    method DeleteSessionIfEmpty(seid: Seid)
      requires seid in sessions
      modifies this`sessions, this`pending
      ensures State() == M.StoreOrDelete(old(State()), seid, old(sessions)[seid])
    {
      if !M.Disposable(sessions[seid]) {
        assert sessions == sessions[seid := sessions[seid]];
        return;
      }
      var keys := pending.Keys;
      while keys != {}
        invariant keys <= old(pending).Keys
        invariant pending == map k | k in old(pending) && (k in keys || k.seid != seid) :: old(pending)[k]
        invariant sessions == old(sessions)
      {
        var key :| key in keys;
        if key.seid == seid { CancelPending(key); }
        keys := keys - {key};
      }
      sessions := sessions - {seid};
    }

    method CancelUsers(seid: Seid, s: SessionState, fid: FarId)
      modifies this`pending
      ensures pending == old(pending) - M.Keys(seid, M.Users(s, fid))
    {
      var pids := s.pdrs.Keys;
      while pids != {}
        invariant pids <= s.pdrs.Keys
        invariant pending == old(pending) - M.Keys(seid, M.Users(s, fid) - pids)
      {
        var p :| p in pids;
        if s.pdrs[p].farId == Some(fid) { CancelPending(M.DdnKey(seid, p)); }
        pids := pids - {p};
      }
    }

    // ---- draining buffers ----

    /** One drained buffer: sent through the PDR's own entry of the published snapshot or, if it
        has none, through the first entry of a freshly built one. */
    method Release(seid: Seid, p: PdrId, pdr: Pdr, next: Far, buffered: seq<Payload>)
      returns (crashed: bool, ghost again: Index)
      requires IsIndex(snapshot, sessions)
      modifies this`egress
      ensures crashed <==> Stranded(snapshot, seid, p, pdr)
      ensures crashed ==> egress == old(egress)
      ensures IsIndex(again, sessions)
      ensures !crashed ==> egress == old(egress) + Emitted(snapshot, again, next, seid, p, pdr, buffered)
    {
      hide IsIndex, Forward, Find;
      again := snapshot;
      if pdr.pdi.None? || pdr.pdi.value.ue.None? { return true, again; }
      var ue := pdr.pdi.value.ue.value;
      var found := FindBinding(Listing(snapshot, ByAddress(ue)), seid, p);
      var matched: Binding;
      if found.Some? {
        matched := found.value;
        BucketIsCore(snapshot, sessions, ue, matched);
      } else {
        var rebuilt := Build(sessions);
        again := rebuilt;
        SameStranded(snapshot, again, sessions, seid, p, pdr);
        var others := Listing(rebuilt, ByAddress(ue));
        if others == [] { return true, again; }
        matched := others[0];
        BucketIsCore(again, sessions, ue, matched);
      }
      if FORW in next.action {
        for i := 0 to |buffered|
          invariant egress == old(egress) + Released(matched, buffered)[..i]
        {
          var uplink := !(matched.pdr.pdi.Some? && matched.pdr.pdi.value.srcIf == Some(Core));
          PublishOutcome(Forward(matched, buffered[i], uplink));
        }
        assert Released(matched, buffered)[..|buffered|] == Released(matched, buffered);
      }
      return false, again;
    }

    /** One round of the loop: notification cancelled, buffer taken out, packets released. */
    method DrainOne(ghost was: M.State, ghost done: set<PdrId>, seid: Seid, p: PdrId, pdr: Pdr, next: Far,
            buffered: seq<Payload>)
      returns (crashed: bool, ghost again: Index)
      requires seid in sessions && p !in done && TakenOut(was, State(), seid, done) && IsIndex(snapshot, was.sessions)
      modifies this`sessions, this`pending, this`egress
      ensures TakenOut(was, State(), seid, done + {p})
      ensures crashed <==> Stranded(snapshot, seid, p, pdr)
      ensures IsIndex(again, was.sessions)
      ensures !crashed ==> egress == old(egress) + Emitted(snapshot, again, next, seid, p, pdr, buffered)
    {
      hide IsIndex, Stranded, Emitted, TakenOut, SameBindings;
      ghost var before := State();
      CancelPending(M.DdnKey(seid, p));
      var t := sessions[seid];
      sessions := sessions[seid := t.(buffers := t.buffers - {p})];
      OneMoreTakenOut(was, before, State(), seid, done, p);
      IndexFrame(snapshot, was.sessions, sessions);
      crashed, again := Release(seid, p, pdr, next, buffered);
      IndexFrame(again, sessions, was.sessions);
    }

    /** handleFARTransitionLocked: the buffers of the PDRs that use a FAR which buffered are
        taken out and, if the FAR forwards now, sent. */
    method HandleFarTransition(seid: Seid, fid: FarId, prev: Far, next: Far)
      returns (crashed: bool, ghost walk: seq<(PdrId, Index)>)
      requires seid in sessions && IsIndex(snapshot, sessions)
      modifies this`sessions, this`pending, this`egress
      ensures var s := old(sessions)[seid];
        var drained := M.Drained(s, fid, prev);
        && (crashed <==> SomeStranded(snapshot, seid, s, drained))
        && (!crashed ==>
              && sessions == old(sessions)[seid := s.(buffers := s.buffers - drained)]
              && pending == old(pending) - M.Keys(seid, drained)
              && WalksAll(walk, drained, old(sessions))
              && (forall i | 0 <= i < |walk| :: walk[i].0 in s.pdrs)
              && egress == old(egress) + Sent(snapshot, walk, next, seid, s))
    {
      hide IsIndex, Stranded, Emitted, TakenOut, WalksAll, SameBindings, M.Drained, Sent;
      var s := sessions[seid];
      ghost var was := State();
      ghost var drained := M.Drained(s, fid, prev);
      crashed, walk := false, [];
      NothingTakenOut(was, seid, snapshot);
      SentNothing(snapshot, next, seid, s);
      DrainedPdrs(s, fid, prev);
      if BUFF !in prev.action {
        AllTakenOut(was, State(), seid, drained);
        return;
      }
      var pids := s.pdrs.Keys;
      assert drained - pids == {};
      while pids != {}
        invariant pids <= s.pdrs.Keys && !crashed
        invariant TakenOut(was, State(), seid, drained - pids)
        invariant WalksAll(walk, drained - pids, was.sessions)
        invariant forall i | 0 <= i < |walk| :: walk[i].0 in s.pdrs
        invariant egress == old(egress) + Sent(snapshot, walk, next, seid, s)
        invariant forall p | p in drained - pids :: !Stranded(snapshot, seid, p, s.pdrs[p])
      {
        var p :| p in pids;
        ghost var done := drained - pids;
        NextDrained(s, fid, prev, pids, p);
        StillHeld(was, State(), seid, done, p);
        pids := pids - {p};
        var buffered := M.BufferOf(sessions[seid], p);
        if s.pdrs[p].farId != Some(fid) || buffered == [] { continue; }
        ghost var again;
        crashed, again := DrainOne(was, done, seid, p, s.pdrs[p], next, buffered);
        if crashed { return; }
        WalkOneMore(walk, p, again, done, was.sessions);
        SentMore(snapshot, walk, p, again, next, seid, s);
        walk := walk + [(p, again)];
      }
      assert drained - {} == drained;
      AllTakenOut(was, State(), seid, drained);
    }

    // ---- the rule interface ----

    method CreatePdr(seid: Seid, id: PdrId, pdr: Pdr, ok: bool) returns (e: Option<Error>)
      requires Valid()
      modifies this
      ensures Valid() && egress == old(egress)
      ensures M.Reply(State(), e, []) == M.Apply(old(State()), seid, Request.CreatePdr(id, pdr, ok))
    {
      hide M.Sound, IsIndex, M.Apply;
      ghost var d, req := State(), Request.CreatePdr(id, pdr, ok);
      M.ControlSound(d, seid, req);
      M.ApplyCreate(d, seid, req);
      if !ok || id == 0 { return Some(DecodeError); }
      EnsureSession(seid);
      var s := sessions[seid];
      sessions := sessions[seid := s.(pdrs := s.pdrs[id := pdr])];
      assert State() == M.Apply(d, seid, req).state;
      Publish();
      return None;
    }

    method CreateFar(seid: Seid, id: FarId, far: Far, ok: bool) returns (e: Option<Error>)
      requires Valid()
      modifies this
      ensures Valid() && egress == old(egress)
      ensures M.Reply(State(), e, []) == M.Apply(old(State()), seid, Request.CreateFar(id, far, ok))
    {
      hide M.Sound, IsIndex, M.Apply;
      ghost var d, req := State(), Request.CreateFar(id, far, ok);
      M.ControlSound(d, seid, req);
      M.ApplyCreate(d, seid, req);
      if !ok || id == 0 { return Some(DecodeError); }
      EnsureSession(seid);
      var s := sessions[seid];
      sessions := sessions[seid := s.(fars := s.fars[id := far])];
      assert State() == M.Apply(d, seid, req).state;
      Publish();
      return None;
    }

    method CreateQer(seid: Seid, id: QerId, qer: Qer, ok: bool) returns (e: Option<Error>)
      requires Valid()
      modifies this
      ensures Valid() && egress == old(egress)
      ensures M.Reply(State(), e, []) == M.Apply(old(State()), seid, Request.CreateQer(id, qer, ok))
    {
      hide M.Sound, IsIndex, M.Apply;
      ghost var d, req := State(), Request.CreateQer(id, qer, ok);
      M.ControlSound(d, seid, req);
      M.ApplyCreate(d, seid, req);
      if !ok || id == 0 { return Some(DecodeError); }
      EnsureSession(seid);
      var s := sessions[seid];
      sessions := sessions[seid := s.(qers := s.qers[id := qer])];
      assert State() == M.Apply(d, seid, req).state;
      Publish();
      return None;
    }

    method CreateUrr(seid: Seid, id: UrrId, urr: Urr, ok: bool, now: Time) returns (e: Option<Error>)
      requires Valid()
      modifies this
      ensures Valid() && egress == old(egress)
      ensures M.Reply(State(), e, []) == M.Apply(old(State()), seid, Request.CreateUrr(id, urr, ok, now))
    {
      hide M.Sound, IsIndex, M.Apply;
      ghost var d, req := State(), Request.CreateUrr(id, urr, ok, now);
      M.ControlSound(d, seid, req);
      M.ApplyCreate(d, seid, req);
      if !ok || id == 0 { return Some(DecodeError); }
      EnsureSession(seid);
      var s := sessions[seid];
      s := s.(urrs := s.urrs[id := urr]);
      if id !in s.urrPeriodAt { s := s.(urrPeriodAt := s.urrPeriodAt[id := now]); }
      sessions := sessions[seid := s];
      assert State() == M.Apply(d, seid, req).state;
      Publish();
      return None;
    }

    method CreateBar(seid: Seid, id: BarId, bar: Bar, ok: bool) returns (e: Option<Error>)
      requires Valid()
      modifies this
      ensures Valid() && egress == old(egress)
      ensures M.Reply(State(), e, []) == M.Apply(old(State()), seid, Request.CreateBar(id, bar, ok))
    {
      hide M.Sound, IsIndex, M.Apply;
      ghost var d, req := State(), Request.CreateBar(id, bar, ok);
      M.ControlSound(d, seid, req);
      M.ApplyCreate(d, seid, req);
      if !ok || id == 0 { return Some(DecodeError); }
      EnsureSession(seid);
      var s := sessions[seid];
      sessions := sessions[seid := s.(bars := s.bars[id := bar])];
      assert State() == M.Apply(d, seid, req).state;
      Publish();
      return None;
    }

    method UpdatePdr(seid: Seid, id: PdrId, pdr: Pdr, ok: bool, ghost hint: seq<UrrId>) returns (e: Option<Error>)
      requires Valid()
      modifies this
      ensures Valid() && egress == old(egress)
      ensures M.Reply(State(), e, []) == M.Apply(old(State()), seid, Request.UpdatePdr(id, pdr, ok, hint))
    {
      hide M.Sound, IsIndex, M.Apply;
      ghost var d, req := State(), Request.UpdatePdr(id, pdr, ok, hint);
      M.ControlSound(d, seid, req);
      M.ApplyUpdate(d, seid, req);
      if !ok || id == 0 { return Some(DecodeError); }
      if seid !in sessions { return Some(SessionNotFound); }
      var s := sessions[seid];
      if id !in s.pdrs { return Some(RuleNotFound); }
      sessions := sessions[seid := s.(pdrs := s.pdrs[id := M.MergePdr(s.pdrs[id], pdr)])];
      assert State() == M.Apply(d, seid, req).state;
      Publish();
      return None;
    }

    method UpdateQer(seid: Seid, id: QerId, qer: Qer, ok: bool) returns (e: Option<Error>)
      requires Valid()
      modifies this
      ensures Valid() && egress == old(egress)
      ensures M.Reply(State(), e, []) == M.Apply(old(State()), seid, Request.UpdateQer(id, qer, ok))
    {
      hide M.Sound, IsIndex, M.Apply;
      ghost var d, req := State(), Request.UpdateQer(id, qer, ok);
      M.ControlSound(d, seid, req);
      M.ApplyUpdate(d, seid, req);
      if !ok || id == 0 { return Some(DecodeError); }
      if seid !in sessions { return Some(SessionNotFound); }
      var s := sessions[seid];
      if id !in s.qers { return Some(RuleNotFound); }
      sessions := sessions[seid := s.(qers := s.qers[id := qer])];
      assert State() == M.Apply(d, seid, req).state;
      Publish();
      return None;
    }

    method UpdateUrr(seid: Seid, id: UrrId, urr: Urr, ok: bool, now: Time) returns (e: Option<Error>)
      requires Valid()
      modifies this
      ensures Valid() && egress == old(egress)
      ensures M.Reply(State(), e, []) == M.Apply(old(State()), seid, Request.UpdateUrr(id, urr, ok, now))
    {
      hide M.Sound, IsIndex, M.Apply;
      ghost var d, req := State(), Request.UpdateUrr(id, urr, ok, now);
      M.ControlSound(d, seid, req);
      M.ApplyUpdate(d, seid, req);
      if !ok || id == 0 { return Some(DecodeError); }
      if seid !in sessions { return Some(SessionNotFound); }
      var s := sessions[seid];
      if id !in s.urrs { return Some(RuleNotFound); }
      s := s.(urrs := s.urrs[id := urr]);
      if id !in s.urrPeriodAt { s := s.(urrPeriodAt := s.urrPeriodAt[id := now]); }
      sessions := sessions[seid := s];
      assert State() == M.Apply(d, seid, req).state;
      Publish();
      return None;
    }

    method UpdateBar(seid: Seid, id: BarId, bar: Bar, ok: bool) returns (e: Option<Error>)
      requires Valid()
      modifies this
      ensures Valid() && egress == old(egress)
      ensures M.Reply(State(), e, []) == M.Apply(old(State()), seid, Request.UpdateBar(id, bar, ok))
    {
      hide M.Sound, IsIndex, M.Apply;
      ghost var d, req := State(), Request.UpdateBar(id, bar, ok);
      M.ControlSound(d, seid, req);
      M.ApplyUpdate(d, seid, req);
      if !ok || id == 0 { return Some(DecodeError); }
      if seid !in sessions { return Some(SessionNotFound); }
      var s := sessions[seid];
      if id !in s.bars { return Some(RuleNotFound); }
      sessions := sessions[seid := s.(bars := s.bars[id := bar])];
      assert State() == M.Apply(d, seid, req).state;
      Publish();
      return None;
    }

    method RemovePdr(seid: Seid, id: PdrId, ghost hint: seq<UrrId>) returns (e: Option<Error>)
      requires Valid()
      modifies this
      ensures Valid() && egress == old(egress)
      ensures M.Reply(State(), e, []) == M.Apply(old(State()), seid, Request.RemovePdr(id, hint))
    {
      hide M.Sound, IsIndex, M.Apply;
      ghost var d, req := State(), Request.RemovePdr(id, hint);
      M.ControlSound(d, seid, req);
      M.ApplyRemove(d, seid, req);
      if seid !in sessions { return Some(SessionNotFound); }
      var s := sessions[seid];
      if id !in s.pdrs { return Some(RuleNotFound); }
      CancelPending(M.DdnKey(seid, id));
      sessions := sessions[seid := s.(pdrs := s.pdrs - {id})];
      Settled(d, State(), seid, req);
      DeleteSessionIfEmpty(seid);
      assert State() == M.Apply(d, seid, req).state;
      Publish();
      return None;
    }

    method RemoveFar(seid: Seid, id: FarId) returns (e: Option<Error>)
      requires Valid()
      modifies this
      ensures Valid() && egress == old(egress)
      ensures M.Reply(State(), e, []) == M.Apply(old(State()), seid, Request.RemoveFar(id))
    {
      hide M.Sound, IsIndex, M.Apply;
      ghost var d, req := State(), Request.RemoveFar(id);
      M.ControlSound(d, seid, req);
      M.ApplyRemove(d, seid, req);
      if seid !in sessions { return Some(SessionNotFound); }
      var s := sessions[seid];
      if id !in s.fars { return Some(RuleNotFound); }
      CancelUsers(seid, s, id);
      sessions := sessions[seid := s.(fars := s.fars - {id})];
      Settled(d, State(), seid, req);
      DeleteSessionIfEmpty(seid);
      assert State() == M.Apply(d, seid, req).state;
      Publish();
      return None;
    }

    method RemoveQer(seid: Seid, id: QerId) returns (e: Option<Error>)
      requires Valid()
      modifies this
      ensures Valid() && egress == old(egress)
      ensures M.Reply(State(), e, []) == M.Apply(old(State()), seid, Request.RemoveQer(id))
    {
      hide M.Sound, IsIndex, M.Apply;
      ghost var d, req := State(), Request.RemoveQer(id);
      M.ControlSound(d, seid, req);
      M.ApplyRemove(d, seid, req);
      if seid !in sessions { return Some(SessionNotFound); }
      var s := sessions[seid];
      if id !in s.qers { return Some(RuleNotFound); }
      sessions := sessions[seid := s.(qers := s.qers - {id})];
      Settled(d, State(), seid, req);
      DeleteSessionIfEmpty(seid);
      assert State() == M.Apply(d, seid, req).state;
      Publish();
      return None;
    }

    method RemoveUrr(seid: Seid, id: UrrId) returns (e: Option<Error>, finals: seq<Usage>)
      requires Valid()
      modifies this
      ensures Valid() && egress == old(egress)
      ensures M.Reply(State(), e, finals) == M.Apply(old(State()), seid, Request.RemoveUrr(id))
    {
      hide M.Sound, IsIndex, M.Apply;
      ghost var d, req := State(), Request.RemoveUrr(id);
      M.ControlSound(d, seid, req);
      M.ApplyRemove(d, seid, req);
      if seid !in sessions { return Some(SessionNotFound), []; }
      var s := sessions[seid];
      if id !in s.urrs { return Some(RuleNotFound), []; }
      finals := if id in s.urrReports then s.urrReports[id] else [];
      sessions := sessions[seid := s.(urrs := s.urrs - {id}, urrPeriodAt := s.urrPeriodAt - {id},
          urrReports := s.urrReports - {id})];
      Settled(d, State(), seid, req);
      DeleteSessionIfEmpty(seid);
      assert State() == M.Apply(d, seid, req).state;
      Publish();
      return None, finals;
    }

    method RemoveBar(seid: Seid, id: BarId) returns (e: Option<Error>)
      requires Valid()
      modifies this
      ensures Valid() && egress == old(egress)
      ensures M.Reply(State(), e, []) == M.Apply(old(State()), seid, Request.RemoveBar(id))
    {
      hide M.Sound, IsIndex, M.Apply;
      ghost var d, req := State(), Request.RemoveBar(id);
      M.ControlSound(d, seid, req);
      M.ApplyRemove(d, seid, req);
      if seid !in sessions { return Some(SessionNotFound); }
      var s := sessions[seid];
      if id !in s.bars { return Some(RuleNotFound); }
      sessions := sessions[seid := s.(bars := s.bars - {id})];
      Settled(d, State(), seid, req);
      DeleteSessionIfEmpty(seid);
      assert State() == M.Apply(d, seid, req).state;
      Publish();
      return None;
    }

    /** UpdateFAR.  `crashed` is the index out of range that stops the process while draining the
        buffer of a PDR without a downlink entry for its UE address; otherwise `walk` is the order
        in which the buffers were drained. */
    method UpdateFar(seid: Seid, id: FarId, far: Far, ok: bool)
      returns (e: Option<Error>, crashed: bool, ghost walk: seq<(PdrId, Index)>)
      requires Valid()
      modifies this
      ensures e == M.Refusal(old(State()), seid, Request.UpdateFar(id, far, ok))
      ensures crashed <==> Crashes(old(State()), seid, Request.UpdateFar(id, far, ok))
      ensures e.Some? ==> Valid() && State() == old(State()) && egress == old(egress) && !crashed
      ensures e.None? ==> seid in old(sessions) && id in old(sessions)[seid].fars
      ensures e.None? ==> DidUpdateFar(old(State()), seid, Request.UpdateFar(id, far, ok), snapshot, crashed, walk,
          old(egress), egress)
      ensures e.None? && !crashed ==>
        Valid() && State() == M.Apply(old(State()), seid, Request.UpdateFar(id, far, ok)).state
    {
      hide M.Sound, IsIndex, M.Apply, M.MergeFar, Sent, SomeStranded, M.Drained, WalksAll, SameBindings, NoWayOut;
      ghost var d, req := State(), Request.UpdateFar(id, far, ok);
      M.ControlSound(d, seid, req);
      crashed, walk := false, [];
      if !ok || id == 0 { return Some(DecodeError), false, []; }
      if seid !in sessions { return Some(SessionNotFound), false, []; }
      var s := sessions[seid];
      if id !in s.fars { return Some(RuleNotFound), false, []; }
      UpdateFarNames(d, seid, req);
      var prev := s.fars[id];
      var merged := M.MergeFar(prev, far);
      sessions := sessions[seid := s.(fars := s.fars[id := merged])];
      ghost var mid := State();
      Publish();
      crashed, walk := HandleFarTransition(seid, id, prev, merged);
      CrashesExactly(d, mid.sessions, snapshot, seid, req);
      DrainedOf(s, mid.sessions[seid], id, prev);
      StrandedSame(snapshot, seid, s, mid.sessions[seid], M.Drained(s, id, prev));
      if !crashed {
        TransitionApplied(d, mid, State(), seid, req);
        IndexFrame(snapshot, mid.sessions, sessions);
        WalkFrame(walk, M.Drained(s, id, prev), mid.sessions, sessions);
        SentSame(snapshot, walk, merged, seid, s, mid.sessions[seid]);
      }
      return None, crashed, walk;
    }

    method QueryUrr(seid: Seid, id: UrrId) returns (e: Option<Error>, reports: seq<Usage>)
      requires Valid()
      ensures M.Reply(State(), e, reports) == M.Apply(State(), seid, Request.QueryUrr(id))
    {
      if seid !in sessions { return Some(SessionNotFound), []; }
      var s := sessions[seid];
      if id !in s.urrs { return Some(RuleNotFound), []; }
      M.CancelNone(State(), seid);
      assert sessions == sessions[seid := s];
      return None, if id in s.urrReports then s.urrReports[id] else [];
    }

    // ---- the data plane ----

    method BufferPacket(b: Binding, payload: Payload)
      requires Valid()
      modifies this`sessions
      ensures Valid() && State() == M.Step(old(State()), M.Buffered(b, payload))
    {
      hide M.Sound, IsIndex;
      ghost var d, was := State(), sessions;
      M.StepSound(d, M.Buffered(b, payload));
      var limit := M.BufferLimit(b);
      if b.seid in sessions {
        var s := sessions[b.seid];
        var queue := M.BufferOf(s, b.pdrId) + [payload];
        if limit > 0 && |queue| > limit { queue := queue[|queue| - limit..]; }
        sessions := sessions[b.seid := s.(buffers := s.buffers[b.pdrId := queue])];
      }
      assert State() == M.Step(d, M.Buffered(b, payload));
      IndexFrame(snapshot, was, sessions);
    }

    /** scheduleBufferedNotification; `now` is a notification that goes out at once. */
    method ScheduleNotification(b: Binding, payload: Payload) returns (now: Option<M.Pending>)
      requires Valid()
      modifies this`pending
      ensures Valid() && State() == M.Step(old(State()), M.Scheduled(b, payload))
      ensures now == AtOnce(b, payload)
    {
      hide M.Sound, IsIndex;
      M.StepSound(State(), M.Scheduled(b, payload));
      if b.far.None? || NOCP !in b.far.value.action { return None; }
      var delay := if b.bar.Some? && b.bar.value.delay.Some? then b.bar.value.delay.value else 0.0;
      if delay <= 0.0 { return Some(M.Pending(payload, b.far.value.action)); }
      pending := pending[M.DdnKey(b.seid, b.pdrId) := M.Pending(payload, b.far.value.action)];
      return None;
    }

    /** fireBufferedNotification. */
    method FireNotification(key: M.DdnKey) returns (r: Option<M.Pending>)
      requires Valid()
      modifies this`pending
      ensures Valid() && State() == M.Step(old(State()), M.NotificationDue(key))
      ensures r == FiredReport(old(State()), key)
    {
      hide M.Sound, IsIndex;
      M.StepSound(State(), M.NotificationDue(key));
      if key !in pending {
        assert pending - {key} == pending;
        return None;
      }
      r := if key.seid in sessions && M.BufferOf(sessions[key.seid], key.pdrId) != [] then Some(pending[key]) else None;
      pending := pending - {key};
    }

    /** updateUsage; `over` are the accumulators that reached a limit. */
    method UpdateUsage(b: Binding, bytes: nat, up: bool) returns (over: seq<Usage>)
      requires Valid()
      modifies this`sessions, this`snapshot
      ensures Valid() && State() == M.Step(old(State()), M.Counted(b, bytes, up))
      ensures b.seid in old(sessions) ==> over == OverLimit(old(sessions)[b.seid].urrReports, b.urrs, bytes, up)
      ensures b.seid !in old(sessions) ==> over == []
    {
      hide M.Sound, IsIndex, M.Count, M.Reached;
      ghost var d := State();
      M.StepSound(d, M.Counted(b, bytes, up));
      over := [];
      if b.seid !in sessions { return; }
      var s := sessions[b.seid];
      if b.urrs == [] {
        assert s.(urrReports := s.urrReports) == s && sessions[b.seid := s] == sessions;
        return;
      }
      var reports;
      reports, over := CountPacket(s.urrReports, b.urrs, bytes, up);
      sessions := sessions[b.seid := s.(urrReports := reports)];
      assert State() == M.Step(d, M.Counted(b, bytes, up));
      Publish();
    }

    method MbrAllows(b: Binding, bytes: nat, dir: Direction, now: Time) returns (pass: bool)
      requires Valid()
      modifies this`sessions
      ensures Valid() && State() == M.Step(old(State()), M.Policed(b, bytes, dir, now))
      ensures b.seid in old(sessions) ==>
        var s := old(sessions)[b.seid];
        pass == RateLimit.Metered(s.meters, RateLimit.Offer(b.qers, s.overrides, bytes, dir, now)).1
      ensures b.seid !in old(sessions) ==> pass
    {
      hide M.Sound, IsIndex, RateLimit.Police;
      ghost var d, was := State(), sessions;
      M.StepSound(d, M.Policed(b, bytes, dir, now));
      if b.seid !in sessions { return true; }
      var s := sessions[b.seid];
      var meters;
      meters, pass := RateLimit.MbrAllows(s.meters, RateLimit.Offer(b.qers, s.overrides, bytes, dir, now));
      sessions := sessions[b.seid := s.(meters := meters)];
      IndexFrame(snapshot, was, sessions);
    }

    /** emitPeriodicURRReports: the reports that go out, by session. */
    method EmitPeriodicReports(now: Time) returns (out: map<Seid, seq<Usage>>)
      requires Valid()
      modifies this`sessions, this`snapshot
      ensures Valid() && State() == M.Step(old(State()), M.Ticked(now))
      ensures forall k :: k in out <==> k in old(sessions) && exists u :: M.Due(old(sessions)[k], u, now)
      ensures forall k | k in out :: exists walk :: PeriodicReports(old(sessions)[k], now, walk, out[k])
    {
      hide M.Sound, IsIndex, M.TickSession, M.Due, SameBindings, PeriodicReports;
      ghost var d, was := State(), sessions;
      M.StepSound(d, M.Ticked(now));
      var after;
      after, out := TickAll(sessions, now);
      sessions := after;
      assert State() == M.Step(d, M.Ticked(now));
      TickBindings(was, sessions, now);
      if out != map[] { Publish(); } else { IndexFrame(snapshot, was, sessions); }
    }

    method StartAdaptiveFlow(seid: Seid, flow: FlowId, p: M.Profile, now: Time)
      requires Valid()
      modifies this`sessions, this`snapshot
      ensures Valid() && State() == M.Step(old(State()), M.FlowStarted(seid, flow, p, now))
    {
      hide M.Sound, IsIndex, M.AdaptiveQers;
      ghost var d := State();
      M.StepSound(d, M.FlowStarted(seid, flow, p, now));
      if seid in sessions {
        var s := sessions[seid];
        var applied := CollectAdaptiveQers(s);
        var overrides := SetOverrides(s.overrides, applied, Override(flow, p.gateUl, p.gateDl, p.mbrUl, p.mbrDl,
            Some(now + p.duration)));
        sessions := sessions[seid := s.(overrides := overrides, flows := s.flows[flow := applied])];
        assert overrides == M.StartFlow(s, flow, p, now).overrides;
        assert sessions[seid] == M.StartFlow(s, flow, p, now);
      }
      assert State() == M.Step(d, M.FlowStarted(seid, flow, p, now));
      Publish();
    }

    /** resetAdaptiveState. */
    method ResetAdaptiveState()
      requires Valid()
      modifies this`sessions, this`snapshot
      ensures Valid() && State() == M.Step(old(State()), M.FlowsReset)
    {
      hide M.Sound, IsIndex;
      ghost var d := State();
      M.StepSound(d, M.FlowsReset);
      var after := ClearFlows(sessions);
      sessions := after;
      assert State() == M.Step(d, M.FlowsReset);
      Publish();
    }

    /** endAdaptiveFlow: the first session found that has the flow; `seid` is any other one if
        none has. */
    method EndAdaptiveFlow(flow: FlowId) returns (ghost seid: Seid)
      requires Valid()
      modifies this`sessions, this`snapshot
      ensures Valid() && State() == M.Step(old(State()), M.FlowEnded(seid, flow))
      ensures (seid in old(sessions) && flow in old(sessions)[seid].flows)
           || forall k | k in old(sessions) :: flow !in old(sessions)[k].flows
    {
      hide M.Sound, IsIndex;
      ghost var d := State();
      var seids := sessions.Keys;
      while seids != {}
        invariant seids <= sessions.Keys && State() == d && IsIndex(snapshot, sessions)
        invariant forall k | k in sessions.Keys - seids :: flow !in sessions[k].flows
      {
        var k :| k in seids;
        var s := sessions[k];
        if flow in s.flows {
          M.StepSound(d, M.FlowEnded(k, flow));
          sessions := sessions[k := s.(overrides := s.overrides - s.flows[flow], flows := s.flows - {flow})];
          assert State() == M.Step(d, M.FlowEnded(k, flow));
          Publish();
          return k;
        }
        seids := seids - {k};
      }
      if 0 in sessions { assert sessions == sessions[0 := sessions[0]]; }
      Publish();
      return 0;
    }

    /** publishOutcome. */
    method PublishOutcome(o: Outcome)
      modifies this`egress
      ensures egress == old(egress) + [o]
    {
      egress := egress + [o];
    }

    // ---- classification over the published snapshot ----

    method ClassifyDownlink(ue: Option<Ipv4>, meta: Option<Meta>) returns (r: Option<Binding>)
      requires Valid()
      ensures ue.Some? && r.Some? ==> Classify.Best(sessions, ByAddress(ue.value), meta, Downlink, r.value)
      ensures ue.Some? && r.None?
          ==> !exists b: Binding :: Classify.Candidate(sessions, ByAddress(ue.value), meta, Downlink, b)
      ensures ue.None? ==> r.None?
    {
      hide IsIndex, M.Sound, Classify.Best, Classify.Candidate;
      r := Classify.MatchDownlink(snapshot, sessions, ue, meta);
    }

    method ClassifyUplink(teid: Teid, ue: Option<Ipv4>, meta: Option<Meta>) returns (r: Option<Binding>)
      requires Valid()
      ensures Classify.UplinkVerdict(sessions, teid, ue, meta, r)
    {
      hide IsIndex, M.Sound, Classify.UplinkVerdict;
      r := Classify.MatchUplink(snapshot, sessions, teid, ue, meta);
    }
  }
}
