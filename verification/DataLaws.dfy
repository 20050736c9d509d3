/** What the steps of the data plane do, said in raw terms: metering and its triggers, periodic
    reports, buffering, and which QERs an adaptive flow reaches. */
module DataLaws {
  import opened Rules
  import opened Driver
  import DriverLoops

  // ---- metering ----

  /** The limit is set and the volume has come up to it. */
  predicate Full(limit: Option<nat>, total: nat) { limit.Some? && limit.value > 0 && total >= limit.value }

  /** One packet on one accumulator: the total and the packet's direction grow by its length and by one
      packet; the volume threshold and the quota set their triggers once the total has come up to them,
      and no trigger goes. */
  lemma {:induction false} CountLaw(acc: seq<Usage>, id: UrrId, urr: Urr, bytes: nat, up: bool)
    requires |acc| <= 1
    ensures var was := if acc == [] then Usage(id, {}, 0, 0, 0, 0, 0, 0) else acc[0];
            var now := Count(acc, id, urr, bytes, up);
      && now.urr == was.urr && now.total == was.total + bytes && now.totalPkts == was.totalPkts + 1
      && now.up == was.up + (if up then bytes else 0) && now.down == was.down + (if up then 0 else bytes)
      && now.upPkts == was.upPkts + (if up then 1 else 0) && now.downPkts == was.downPkts + (if up then 0 else 1)
      && (VOLTH in now.triggers <==> VOLTH in was.triggers || Full(urr.threshold, now.total))
      && (VOLQU in now.triggers <==> VOLQU in was.triggers || Full(urr.quota, now.total))
      && (forall t: Trigger | t != VOLTH && t != VOLQU :: t in now.triggers <==> t in was.triggers)
  {
  }

  predicate DistinctUrrs(urrs: seq<(UrrId, Urr)>) {
    forall i, j | 0 <= i < j < |urrs| :: urrs[i].0 != urrs[j].0
  }

  function Held(reports: map<UrrId, seq<Usage>>, u: UrrId): seq<Usage> { if u in reports then reports[u] else [] }

  /** A packet counts once on each URR of a binding that lists none twice, and on no other. */
  lemma {:induction false} CountsEach(reports: map<UrrId, seq<Usage>>, urrs: seq<(UrrId, Urr)>, bytes: nat, up: bool, u: UrrId)
    requires DistinctUrrs(urrs)
    ensures var after := CountAll(reports, urrs, bytes, up);
      && ((forall i | 0 <= i < |urrs| :: urrs[i].0 != u) ==>
            (u in after <==> u in reports) && Held(after, u) == Held(reports, u))
      && forall i | 0 <= i < |urrs| && urrs[i].0 == u ::
           u in after && after[u] == [Count(Held(reports, u), u, urrs[i].1, bytes, up)]
    decreases |urrs|
  {
    hide Count;
    if urrs != [] {
      var n := |urrs| - 1;
      CountsEach(reports, urrs[..n], bytes, up, u);
      if urrs[n].0 == u {
        assert forall i | 0 <= i < n :: urrs[i].0 != u;
      }
    }
  }

  /** What is reported at once: each listed URR that has come up to its threshold or quota, in the order of
      the binding, as its accumulator stands after the packet. */
  lemma {:induction false} OverLimitLaw(reports: map<UrrId, seq<Usage>>, urrs: seq<(UrrId, Urr)>, bytes: nat, up: bool,
          r: Usage)
    requires DistinctUrrs(urrs)
    ensures r in DriverLoops.OverLimit(reports, urrs, bytes, up) <==>
      exists i :: 0 <= i < |urrs| && Over(reports, urrs[i], bytes, up, r)
    decreases |urrs|
  {
    hide Count, Full, Over;
    if urrs != [] {
      var n := |urrs| - 1;
      var front := urrs[..n];
      OverLimitLaw(reports, front, bytes, up, r);
      CountsEach(reports, urrs, bytes, up, urrs[n].0);
      OverIs(reports, urrs[n], bytes, up, r);
      assert forall i | 0 <= i < n :: front[i] == urrs[i];
    }
  }

  predicate Over(reports: map<UrrId, seq<Usage>>, urr: (UrrId, Urr), bytes: nat, up: bool, r: Usage) {
    && r == Count(Held(reports, urr.0), urr.0, urr.1, bytes, up)
    && (Full(urr.1.threshold, r.total) || Full(urr.1.quota, r.total))
  }

  lemma {:induction false} OverIs(reports: map<UrrId, seq<Usage>>, urr: (UrrId, Urr), bytes: nat, up: bool, r: Usage)
    ensures Over(reports, urr, bytes, up, r) <==>
      && r == Count(Held(reports, urr.0), urr.0, urr.1, bytes, up)
      && (Reached(urr.1.threshold, r.total) || Reached(urr.1.quota, r.total))
  {
    hide Count;
  }

  // ---- a tick ----

  /** The URR's period has run out: it reports periodically, its period is positive and started, and at
      least that much time has passed. */
  predicate RunOut(s: SessionState, u: UrrId, now: Time) {
    && u in s.urrs && s.urrs[u].perio && s.urrs[u].period > 0.0
    && u in s.urrPeriodAt && s.urrPeriodAt[u] + s.urrs[u].period <= now
  }

  /** A tick: a URR whose period has run out starts it again, and if anything is in its accumulator
      reports that with PERIO alone and starts from zero; a periodic URR whose period never started
      starts it; nothing else changes, and no rule, buffer or meter. */
  lemma {:induction false} TickLaw(s: SessionState, u: UrrId, now: Time)
    requires SoundReports(s.urrReports)
    ensures var t := TickSession(s, now);
      && t == s.(urrReports := t.urrReports, urrPeriodAt := t.urrPeriodAt)
      && (u in t.urrReports <==> u in s.urrReports)
      && (u in s.urrReports ==>
            t.urrReports[u] == if RunOut(s, u, now) then [Usage(u, {}, 0, 0, 0, 0, 0, 0)] else s.urrReports[u])
      && (Due(s, u, now) <==> RunOut(s, u, now) && u in s.urrReports)
      && (Due(s, u, now) ==> PeriodicReport(s, u) == s.urrReports[u][0].(triggers := {PERIO}))
      && (if RunOut(s, u, now) || (u in s.urrs && s.urrs[u].perio && s.urrs[u].period > 0.0 && u !in s.urrPeriodAt)
          then u in t.urrPeriodAt && t.urrPeriodAt[u] == now
          else (u in t.urrPeriodAt <==> u in s.urrPeriodAt)
               && (u in s.urrPeriodAt ==> t.urrPeriodAt[u] == s.urrPeriodAt[u]))
  {
  }

  // ---- adaptive flows ----

  /** The QERs that a started flow overrides: the installed ones that some PDR lists; or, if no PDR lists
      any installed one, all of them. */
  lemma {:induction false} AdaptedExactly(s: SessionState, q: QerId)
    ensures q in AdaptiveQers(s) <==>
      && q in s.qers
      && ((exists p :: p in s.pdrs && q in s.pdrs[p].qerIds)
          || !exists p, x :: p in s.pdrs && x in s.pdrs[p].qerIds && x in s.qers)
  {
    if UsedQers(s) != {} {
      var x :| x in UsedQers(s);
      var p :| p in s.pdrs && x in s.pdrs[p].qerIds;
      assert p in s.pdrs && x in s.pdrs[p].qerIds && x in s.qers;
    } else {
      forall p, x | p in s.pdrs && x in s.pdrs[p].qerIds ensures x !in s.qers {
        assert Uses(s, x);
        assert x !in UsedQers(s);
      }
    }
  }

  /** What a start records: the flow with the QERs it overrides, each override with the flow, the profile's
      gates and rates and its end; nothing else of the session changes. */
  lemma {:induction false} StartLaw(s: SessionState, flow: FlowId, p: Profile, now: Time, q: QerId)
    ensures var t := StartFlow(s, flow, p, now);
      && t == s.(overrides := t.overrides, flows := t.flows)
      && flow in t.flows && t.flows[flow] == AdaptiveQers(s)
      && (forall f | f != flow :: (f in t.flows <==> f in s.flows) && (f in s.flows ==> t.flows[f] == s.flows[f]))
      && (if q in AdaptiveQers(s)
          then
            && q in t.overrides
            && var o := t.overrides[q];
               && o.flow == flow && o.gateUl == p.gateUl && o.gateDl == p.gateDl && o.mbrUl == p.mbrUl && o.mbrDl == p.mbrDl
               && o.expiresAt == Some(now + p.duration)
          else (q in t.overrides <==> q in s.overrides) && (q in s.overrides ==> t.overrides[q] == s.overrides[q]))
  {
    hide AdaptiveQers;
  }

  /** What an end takes away: the flow, and the overrides of all QERs it lists, whoever they belong to. */
  lemma {:induction false} EndLaw(s: SessionState, flow: FlowId, q: QerId)
    ensures var t := EndFlow(s, flow);
      && t == s.(overrides := t.overrides, flows := t.flows)
      && flow !in t.flows
      && (forall f | f != flow :: (f in t.flows <==> f in s.flows) && (f in s.flows ==> t.flows[f] == s.flows[f]))
      && (q in t.overrides <==> q in s.overrides && !(flow in s.flows && q in s.flows[flow]))
      && (q in t.overrides ==> t.overrides[q] == s.overrides[q])
  {
  }

  // ---- a FAR update ----

  /** Whose buffers an update of the FAR takes out: those that hold something, of the PDRs that forward
      through it, if it buffered. */
  lemma {:induction false} DrainedExactly(s: SessionState, fid: FarId, prev: Far, p: PdrId)
    ensures p in Drained(s, fid, prev) <==>
      BUFF in prev.action && p in s.pdrs && s.pdrs[p].farId == Some(fid) && p in s.buffers && |s.buffers[p]| > 0
  {
  }
}
