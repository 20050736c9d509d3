/** The loops of the userspace driver over values, and what each kind of request comes down to:
    the parts that class UserspaceDriver.Driver is made of. */
module DriverLoops {
  import opened Rules
  import opened Snapshot
  import opened Forwarding
  import opened Buffering
  import M = Driver
  import RateLimit

  /** Equal in what a snapshot's bindings are made of. */
  predicate SameBindings(a: Sessions, b: Sessions) {
    && a.Keys == b.Keys
    && forall k | k in a :: SameRuleMaps(a[k], b[k])
  }

  predicate SameRuleMaps(s: SessionState, t: SessionState) {
    s.pdrs == t.pdrs && s.fars == t.fars && s.qers == t.qers && s.urrs == t.urrs && s.bars == t.bars
  }

  /** Buffers, accumulators, meters and overrides are no part of the index. */
  lemma {:induction false} IndexFrame(idx: Index, a: Sessions, b: Sessions)
    requires IsIndex(idx, a) && SameBindings(a, b)
    ensures IsIndex(idx, b)
  {
    hide InSlot, Resolve;
    forall slot: Slot ensures SlotExact(idx, b, slot) {
      assert SlotExact(idx, a, slot);
      forall x: Binding ensures Live(a, x) <==> Live(b, x) {}
    }
  }

  /** The packets that a drain sends, one PDR after the other in the order `walk`; each PDR
      comes with the snapshot that was freshly built if its own entry was not found. */
  function Sent(idx: Index, walk: seq<(PdrId, Index)>, next: Far, seid: Seid, s: SessionState): seq<Outcome>
    requires forall i | 0 <= i < |walk| :: walk[i].0 in s.pdrs
  {
    if walk == [] then []
    else
      var (p, again) := walk[|walk| - 1];
      Sent(idx, walk[..|walk| - 1], next, seid, s) + Emitted(idx, again, next, seid, p, s.pdrs[p], M.BufferOf(s, p))
  }

  /** Where the packets of the `i`-th drained buffer stand. */
  function Before(idx: Index, walk: seq<(PdrId, Index)>, next: Far, seid: Seid, s: SessionState, i: nat): nat
    requires i <= |walk| && forall j | 0 <= j < |walk| :: walk[j].0 in s.pdrs
  {
    if i == 0 then 0
    else
      Before(idx, walk, next, seid, s, i - 1)
        + |Emitted(idx, walk[i - 1].1, next, seid, walk[i - 1].0, s.pdrs[walk[i - 1].0], M.BufferOf(s, walk[i - 1].0))|
  }

  /** What is sent is, for each drained buffer in the order of the walk, all that its drain emits, and
      nothing else. */
  lemma {:induction false} SentBlocks(idx: Index, walk: seq<(PdrId, Index)>, next: Far, seid: Seid, s: SessionState, i: nat)
    requires i < |walk| && forall j | 0 <= j < |walk| :: walk[j].0 in s.pdrs
    ensures var out := Sent(idx, walk, next, seid, s);
            var from, to := Before(idx, walk, next, seid, s, i), Before(idx, walk, next, seid, s, i + 1);
            var p := walk[i].0;
      && from <= to <= |out| && |out| == Before(idx, walk, next, seid, s, |walk|)
      && out[from..to] == Emitted(idx, walk[i].1, next, seid, p, s.pdrs[p], M.BufferOf(s, p))
    decreases |walk|
  {
    hide Emitted;
    var n := |walk| - 1;
    SentLength(idx, walk, next, seid, s);
    SentLength(idx, walk[..n], next, seid, s);
    BeforeSame(idx, walk, next, seid, s, n);
    if i < n {
      SentBlocks(idx, walk[..n], next, seid, s, i);
      BeforeSame(idx, walk, next, seid, s, i);
      BeforeSame(idx, walk, next, seid, s, i + 1);
    }
  }

  lemma {:induction false} SentLength(idx: Index, walk: seq<(PdrId, Index)>, next: Far, seid: Seid, s: SessionState)
    requires forall j | 0 <= j < |walk| :: walk[j].0 in s.pdrs
    ensures |Sent(idx, walk, next, seid, s)| == Before(idx, walk, next, seid, s, |walk|)
    decreases |walk|
  {
    hide Emitted;
    if walk != [] {
      SentLength(idx, walk[..|walk| - 1], next, seid, s);
      BeforeSame(idx, walk, next, seid, s, |walk| - 1);
    }
  }

  lemma {:induction false} BeforeSame(idx: Index, walk: seq<(PdrId, Index)>, next: Far, seid: Seid, s: SessionState, i: nat)
    requires walk != [] && i < |walk| && forall j | 0 <= j < |walk| :: walk[j].0 in s.pdrs
    ensures Before(idx, walk[..|walk| - 1], next, seid, s, i) == Before(idx, walk, next, seid, s, i)
  {
    hide Emitted;
    if i > 0 { BeforeSame(idx, walk, next, seid, s, i - 1); }
  }

  predicate Walked(walk: seq<(PdrId, Index)>, p: PdrId) {
    exists i :: 0 <= i < |walk| && walk[i].0 == p
  }

  /** Every PDR of the set once, in some order, with a snapshot of the same sessions. */
  ghost predicate WalksAll(walk: seq<(PdrId, Index)>, pdrs: set<PdrId>, sessions: Sessions) {
    && (forall i, j | 0 <= i < j < |walk| :: walk[i].0 != walk[j].0)
    && (forall p :: Walked(walk, p) <==> p in pdrs)
    && (forall i | 0 <= i < |walk| :: IsIndex(walk[i].1, sessions))
  }

  lemma {:induction false} SentNothing(idx: Index, next: Far, seid: Seid, s: SessionState)
    ensures Sent(idx, [], next, seid, s) == []
  {
  }

  lemma {:induction false} SentMore(idx: Index, walk: seq<(PdrId, Index)>, p: PdrId, again: Index, next: Far,
          seid: Seid, s: SessionState)
    requires p in s.pdrs && forall i | 0 <= i < |walk| :: walk[i].0 in s.pdrs
    ensures Sent(idx, walk + [(p, again)], next, seid, s)
         == Sent(idx, walk, next, seid, s) + Emitted(idx, again, next, seid, p, s.pdrs[p], M.BufferOf(s, p))
  {
    hide Emitted;
    assert (walk + [(p, again)])[..|walk|] == walk;
  }

  lemma {:induction false} DrainedPdrs(s: SessionState, fid: FarId, prev: Far)
    ensures M.Drained(s, fid, prev) <= s.pdrs.Keys
    ensures BUFF !in prev.action ==> M.Drained(s, fid, prev) == {}
  {
  }

  /** Whether the next PDR of the loop is one whose buffer is drained. */
  lemma {:induction false} NextDrained(s: SessionState, fid: FarId, prev: Far, left: set<PdrId>, p: PdrId)
    requires p in left && left <= s.pdrs.Keys && BUFF in prev.action
    ensures var drained := M.Drained(s, fid, prev);
      if s.pdrs[p].farId == Some(fid) && M.BufferOf(s, p) != []
      then p in drained && drained - (left - {p}) == drained - left + {p}
      else p !in drained && drained - (left - {p}) == drained - left
  {
  }

  /** The accumulators that reach a limit as a packet is counted, in the order of the binding. */
  function OverLimit(reports: map<UrrId, seq<Usage>>, urrs: seq<(UrrId, Urr)>, bytes: nat, up: bool): seq<Usage>
    decreases |urrs|
  {
    if urrs == [] then []
    else
      var (id, urr) := urrs[|urrs| - 1];
      var front := urrs[..|urrs| - 1];
      var u := M.CountAll(reports, urrs, bytes, up)[id][0];
      OverLimit(reports, front, bytes, up)
          + if M.Reached(urr.threshold, u.total) || M.Reached(urr.quota, u.total) then [u] else []
  }

  /** The periodic reports of one session: one for each due URR, in the order of `walk`. */
  ghost predicate PeriodicReports(s: SessionState, now: Time, walk: seq<UrrId>, reports: seq<Usage>) {
    && (forall u :: u in walk <==> M.Due(s, u, now))
    && (forall i, j | 0 <= i < j < |walk| :: walk[i] != walk[j])
    && |reports| == |walk|
    && forall i | 0 <= i < |walk| :: M.Due(s, walk[i], now) && reports[i] == M.PeriodicReport(s, walk[i])
  }

  /** A buffer whose drain finds no binding at all to send through. */
  predicate Stranded(idx: Index, seid: Seid, p: PdrId, pdr: Pdr) {
    DrainTarget(idx, idx, seid, p, pdr).Crash?
  }

  predicate SomeStranded(idx: Index, seid: Seid, s: SessionState, drained: set<PdrId>) {
    exists p :: p in drained && p in s.pdrs && Stranded(idx, seid, p, s.pdrs[p])
  }

  /** Two snapshots of the same sessions have the same empty buckets. */
  lemma {:induction false} SameStranded(idx: Index, again: Index, sessions: Sessions, seid: Seid, p: PdrId, pdr: Pdr)
    requires IsIndex(idx, sessions) && IsIndex(again, sessions)
    ensures DrainTarget(idx, again, seid, p, pdr).Crash? <==> Stranded(idx, seid, p, pdr)
  {
    hide InSlot, Live, Find;
    if pdr.pdi.Some? && pdr.pdi.value.ue.Some? {
      var slot := ByAddress(pdr.pdi.value.ue.value);
      assert SlotExact(idx, sessions, slot) && SlotExact(again, sessions, slot);
      var a, b := Listing(idx, slot), Listing(again, slot);
      if a != [] { assert a[0] in b; }
      if b != [] { assert b[0] in a; }
    }
  }

  /** Some installed core PDR, of whatever session, has the UE address. */
  ghost predicate CoreInstalled(sessions: Sessions, ue: Ipv4) {
    exists k: Seid, q: PdrId | k in sessions && q in sessions[k].pdrs :: InSlot(sessions[k].pdrs[q], ByAddress(ue))
  }

  /** In terms of the rules: a drain finds no binding exactly if its PDR names no UE address, or one
      that no installed core PDR has. */
  lemma {:induction false} StrandedExactly(idx: Index, sessions: Sessions, seid: Seid, p: PdrId, pdr: Pdr)
    requires IsIndex(idx, sessions)
    ensures Stranded(idx, seid, p, pdr) <==>
      pdr.pdi.None? || pdr.pdi.value.ue.None? || !CoreInstalled(sessions, pdr.pdi.value.ue.value)
  {
    hide InSlot, Find, BindingOf;
    if pdr.pdi.Some? && pdr.pdi.value.ue.Some? {
      var slot := ByAddress(pdr.pdi.value.ue.value);
      assert SlotExact(idx, sessions, slot);
      FindFinds(Listing(idx, slot), seid, p);
      if Listing(idx, slot) != [] {
        var b := Listing(idx, slot)[0];
        BindingNames(b.seid, sessions[b.seid], b.pdrId);
      }
      forall k: Seid, q: PdrId | k in sessions && q in sessions[k].pdrs && InSlot(sessions[k].pdrs[q], slot)
        ensures BindingOf(k, sessions[k], q) in Listing(idx, slot)
      {
        BindingNames(k, sessions[k], q);
      }
    }
  }

  /** Every binding of a downlink bucket belongs to a core PDR. */
  lemma {:induction false} BucketIsCore(idx: Index, sessions: Sessions, ue: Ipv4, b: Binding)
    requires IsIndex(idx, sessions) && b in Listing(idx, ByAddress(ue))
    ensures b.pdr.pdi.Some? && b.pdr.pdi.value.srcIf == Some(Core)
  {
    assert SlotExact(idx, sessions, ByAddress(ue));
  }

  method FindBinding(bs: seq<Binding>, seid: Seid, p: PdrId) returns (r: Option<Binding>)
    ensures r == Find(bs, seid, p)
    ensures r.Some? ==> r.value in bs
  {
    for i := 0 to |bs|
      invariant Find(bs, seid, p) == Find(bs[i..], seid, p)
    {
      if bs[i].seid == seid && bs[i].pdrId == p { return Some(bs[i]); }
    }
    return None;
  }

  lemma {:induction false} WalkOneMore(walk: seq<(PdrId, Index)>, p: PdrId, again: Index, pdrs: set<PdrId>,
          sessions: Sessions)
    requires WalksAll(walk, pdrs, sessions) && p !in pdrs && IsIndex(again, sessions)
    ensures WalksAll(walk + [(p, again)], pdrs + {p}, sessions)
  {
    hide IsIndex;
    var w := walk + [(p, again)];
    forall q ensures Walked(w, q) <==> q in pdrs + {p} {
      if Walked(walk, q) {
        var i :| 0 <= i < |walk| && walk[i].0 == q;
        assert w[i].0 == q;
      }
      assert w[|walk|].0 == p;
    }
    forall i | 0 <= i < |walk| ensures w[i].0 != p { assert Walked(walk, walk[i].0); }
  }

  /** The buffers of these PDRs have been taken out and their notifications cancelled. */
  predicate TakenOut(was: M.State, now: M.State, seid: Seid, done: set<PdrId>) {
    && seid in was.sessions
    && now.sessions == was.sessions[seid := was.sessions[seid].(buffers := was.sessions[seid].buffers - done)]
    && now.pending == was.pending - M.Keys(seid, done)
  }

  lemma {:induction false} NothingTakenOut(was: M.State, seid: Seid, idx: Index)
    requires seid in was.sessions
    ensures TakenOut(was, was, seid, {}) && WalksAll([], {}, was.sessions)
  {
    var s := was.sessions[seid];
    assert s.buffers - {} == s.buffers && M.Keys(seid, {}) == {};
    assert s.(buffers := s.buffers) == s && was.sessions[seid := s] == was.sessions;
  }

  lemma {:induction false} StillHeld(was: M.State, now: M.State, seid: Seid, done: set<PdrId>, p: PdrId)
    requires TakenOut(was, now, seid, done)
    ensures seid in now.sessions && now.sessions.Keys == was.sessions.Keys
    ensures p !in done ==> M.BufferOf(now.sessions[seid], p) == M.BufferOf(was.sessions[seid], p)
  {
  }

  lemma {:induction false} OneMoreTakenOut(was: M.State, before: M.State, now: M.State, seid: Seid,
          done: set<PdrId>, p: PdrId)
    requires TakenOut(was, before, seid, done) && p !in done
    requires seid in before.sessions
    requires now.sessions
        == before.sessions[seid := before.sessions[seid].(buffers := before.sessions[seid].buffers - {p})]
    requires now.pending == before.pending - {M.DdnKey(seid, p)}
    ensures TakenOut(was, now, seid, done + {p})
    ensures SameBindings(was.sessions, now.sessions) && SameBindings(now.sessions, was.sessions)
  {
    var s := was.sessions[seid];
    assert s.buffers - (done + {p}) == s.buffers - done - {p};
    assert M.Keys(seid, done + {p}) == M.Keys(seid, done) + {M.DdnKey(seid, p)};
    assert now.pending == was.pending - M.Keys(seid, done + {p});
  }

  lemma {:induction false} AllTakenOut(was: M.State, now: M.State, seid: Seid, done: set<PdrId>)
    requires TakenOut(was, now, seid, done)
    ensures seid in was.sessions
    ensures now.sessions == was.sessions[seid := was.sessions[seid].(buffers := was.sessions[seid].buffers - done)]
    ensures now.pending == was.pending - M.Keys(seid, done)
    ensures SameBindings(was.sessions, now.sessions)
  {
  }

  // ---- removals and FAR updates, taken apart ----

  /** The state before the check for an empty session is the one the removal settles on. */
  lemma {:induction false} Settled(d: M.State, now: M.State, seid: Seid, req: Request)
    requires M.Removes(req) && M.Refusal(d, seid, req).None? && seid in now.sessions
    requires now == M.Store(M.Cancel(d, M.Keys(seid, M.Cancelled(d.sessions[seid], req))), seid,
        M.After(d.sessions[seid], req))
    ensures M.StoreOrDelete(now, seid, now.sessions[seid]) == M.Apply(d, seid, req).state
  {
    M.ApplyRemove(d, seid, req);
    hide M.After, M.Names, M.Decodes, M.Cancelled, M.Apply;
  }

  lemma {:induction false} SentSame(idx: Index, walk: seq<(PdrId, Index)>, next: Far, seid: Seid, s: SessionState,
          t: SessionState)
    requires s.pdrs == t.pdrs && s.buffers == t.buffers
    requires forall i | 0 <= i < |walk| :: walk[i].0 in s.pdrs
    ensures Sent(idx, walk, next, seid, s) == Sent(idx, walk, next, seid, t)
  {
    hide Emitted;
    if walk != [] { SentSame(idx, walk[..|walk| - 1], next, seid, s, t); }
  }

  /** Storing the merged FAR and then taking the buffers out is what the request does. */
  lemma {:induction false} TransitionApplied(d: M.State, mid: M.State, now: M.State, seid: Seid, req: Request)
    requires req.UpdateFar? && M.Refusal(d, seid, req).None? && seid in d.sessions && req.fid in d.sessions[seid].fars
    requires var s := d.sessions[seid];
      && mid.sessions == d.sessions[seid := s.(fars := s.fars[req.fid := M.MergeFar(s.fars[req.fid], req.far)])]
      && mid.pending == d.pending
      && var drained := M.Drained(mid.sessions[seid], req.fid, s.fars[req.fid]);
         && now.sessions == mid.sessions[seid := mid.sessions[seid].(buffers := s.buffers - drained)]
         && now.pending == mid.pending - M.Keys(seid, drained)
    ensures M.Drained(mid.sessions[seid], req.fid, d.sessions[seid].fars[req.fid])
         == M.Drained(d.sessions[seid], req.fid, d.sessions[seid].fars[req.fid])
    ensures M.Apply(d, seid, req).state == now
    ensures SameBindings(mid.sessions, now.sessions)
  {
    hide M.MergeFar, M.Apply;
    M.ApplyUpdate(d, seid, req);
    var s, m := d.sessions[seid], mid.sessions[seid];
    assert M.Users(m, req.fid) == M.Users(s, req.fid);
  }

  lemma {:induction false} WalkFrame(walk: seq<(PdrId, Index)>, pdrs: set<PdrId>, a: Sessions, b: Sessions)
    requires WalksAll(walk, pdrs, a) && SameBindings(a, b)
    ensures WalksAll(walk, pdrs, b)
  {
    hide IsIndex, SameBindings, Walked;
    forall i | 0 <= i < |walk| ensures IsIndex(walk[i].1, b) { IndexFrame(walk[i].1, a, b); }
  }

  lemma {:induction false} StrandedSame(idx: Index, seid: Seid, s: SessionState, t: SessionState, drained: set<PdrId>)
    requires s.pdrs == t.pdrs
    ensures SomeStranded(idx, seid, s, drained) <==> SomeStranded(idx, seid, t, drained)
  {
  }

  lemma {:induction false} DrainedOf(s: SessionState, t: SessionState, fid: FarId, prev: Far)
    requires s.pdrs == t.pdrs && s.buffers == t.buffers
    ensures M.Drained(s, fid, prev) == M.Drained(t, fid, prev)
  {
    assert M.Users(s, fid) == M.Users(t, fid);
  }

  /** A drain of the PDR's buffer would index an empty list: the PDR names no UE address, or one that no
      installed core PDR has. */
  ghost predicate NoWayOut(sessions: Sessions, pdr: Pdr) {
    pdr.pdi.None? || pdr.pdi.value.ue.None? || !CoreInstalled(sessions, pdr.pdi.value.ue.value)
  }

  /** The request stops the process: an accepted update of a FAR that buffers, while a PDR that uses it
      has packets buffered and no way out. */
  ghost predicate Crashes(d: M.State, seid: Seid, req: Request) {
    && req.UpdateFar? && req.ok && req.fid > 0
    && seid in d.sessions && req.fid in d.sessions[seid].fars
    && var s := d.sessions[seid];
       && BUFF in s.fars[req.fid].action
       && exists p :: p in s.pdrs && s.pdrs[p].farId == Some(req.fid) && p in s.buffers && s.buffers[p] != []
                      && NoWayOut(d.sessions, s.pdrs[p])
  }

  lemma {:induction false} SameWayOut(a: Sessions, b: Sessions, pdr: Pdr)
    requires a.Keys == b.Keys && forall k | k in a :: a[k].pdrs == b[k].pdrs
    ensures NoWayOut(a, pdr) <==> NoWayOut(b, pdr)
  {
    hide InSlot;
    assert forall k | k in b :: k in a.Keys;
  }

  lemma {:induction false} CrashesExactly(d: M.State, mid: Sessions, idx: Index, seid: Seid, req: Request)
    requires req.UpdateFar? && req.ok && req.fid != 0 && seid in d.sessions && req.fid in d.sessions[seid].fars
    requires IsIndex(idx, mid) && mid.Keys == d.sessions.Keys && forall k | k in mid :: mid[k].pdrs == d.sessions[k].pdrs
    ensures var s := d.sessions[seid];
      Crashes(d, seid, req) <==> SomeStranded(idx, seid, s, M.Drained(s, req.fid, s.fars[req.fid]))
  {
    hide IsIndex, Stranded, NoWayOut;
    var s := d.sessions[seid];
    forall p | p in s.pdrs ensures Stranded(idx, seid, p, s.pdrs[p]) <==> NoWayOut(d.sessions, s.pdrs[p]) {
      StrandedIs(idx, mid, seid, p, s.pdrs[p]);
      SameWayOut(mid, d.sessions, s.pdrs[p]);
    }
  }

  lemma {:induction false} StrandedIs(idx: Index, sessions: Sessions, seid: Seid, p: PdrId, pdr: Pdr)
    requires IsIndex(idx, sessions)
    ensures Stranded(idx, seid, p, pdr) <==> NoWayOut(sessions, pdr)
  {
    hide IsIndex, Stranded, CoreInstalled;
    StrandedExactly(idx, sessions, seid, p, pdr);
  }

  /** What an accepted UpdateFAR sends, or that it stops the process. */
  ghost predicate DidUpdateFar(d: M.State, seid: Seid, req: Request, idx: Index, crashed: bool,
                               walk: seq<(PdrId, Index)>, before: seq<Outcome>, after: seq<Outcome>)
    requires req.UpdateFar? && seid in d.sessions && req.fid in d.sessions[seid].fars
  {
    var s := d.sessions[seid];
    var prev := s.fars[req.fid];
    var drained := M.Drained(s, req.fid, prev);
    && (crashed <==> SomeStranded(idx, seid, s, drained))
    && (!crashed ==>
          && WalksAll(walk, drained, M.Apply(d, seid, req).state.sessions)
          && (forall i | 0 <= i < |walk| :: walk[i].0 in s.pdrs)
          && after == before + Sent(idx, walk, M.MergeFar(prev, req.far), seid, s))
  }

  method CountPacket(reports: map<UrrId, seq<Usage>>, urrs: seq<(UrrId, Urr)>, bytes: nat, up: bool)
    returns (after: map<UrrId, seq<Usage>>, over: seq<Usage>)
    ensures after == M.CountAll(reports, urrs, bytes, up)
    ensures over == OverLimit(reports, urrs, bytes, up)
  {
    hide M.Count, M.Reached;
    after, over := reports, [];
    for i := 0 to |urrs|
      invariant after == M.CountAll(reports, urrs[..i], bytes, up)
      invariant over == OverLimit(reports, urrs[..i], bytes, up)
    {
      var (id, urr) := urrs[i];
      assert urrs[..i + 1][..i] == urrs[..i] && urrs[..i + 1][i] == urrs[i];
      var usage := M.Count(if id in after then after[id] else [], id, urr, bytes, up);
      after := after[id := [usage]];
      if M.Reached(urr.threshold, usage.total) || M.Reached(urr.quota, usage.total) { over := over + [usage]; }
    }
    assert urrs[..|urrs|] == urrs;
  }

  // ---- periodic reports ----

  /** What a session holds for one URR: its accumulator and when its period started. */
  datatype Entry = Entry(acc: Option<seq<Usage>>, since: Option<Time>)

  function EntryOf(s: SessionState, u: UrrId): Entry {
    Entry(if u in s.urrReports then Some(s.urrReports[u]) else None,
          if u in s.urrPeriodAt then Some(s.urrPeriodAt[u]) else None)
  }

  predicate OnlyEntries(s: SessionState, t: SessionState) {
    t == s.(urrReports := t.urrReports, urrPeriodAt := t.urrPeriodAt)
  }

  /** A tick, URR by URR. */
  lemma {:induction false} TickEntry(s: SessionState, u: UrrId, now: Time)
    ensures EntryOf(M.TickSession(s, now), u) ==
      if M.Due(s, u, now) then Entry(Some([M.ZeroUsage(u)]), Some(now))
      else if M.Restarts(s, u, now) then Entry(EntryOf(s, u).acc, Some(now))
      else EntryOf(s, u)
    ensures u !in s.urrs ==> !M.Due(s, u, now) && !M.Restarts(s, u, now)
  {
  }

  lemma {:induction false} SameEntries(a: SessionState, b: SessionState)
    requires OnlyEntries(a, b) && forall u :: EntryOf(a, u) == EntryOf(b, u)
    ensures a == b
  {
    assert forall u :: u in a.urrReports <==> EntryOf(a, u).acc.Some?;
    assert forall u :: u in b.urrReports <==> EntryOf(b, u).acc.Some?;
    assert forall u :: u in a.urrPeriodAt <==> EntryOf(a, u).since.Some?;
    assert forall u :: u in b.urrPeriodAt <==> EntryOf(b, u).since.Some?;
    assert a.urrReports == b.urrReports;
    assert a.urrPeriodAt == b.urrPeriodAt;
  }

  /** The body of the loop of emitPeriodicURRReports for one URR. */
  method TickUrr(s: SessionState, id: UrrId, now: Time) returns (t: SessionState, report: Option<Usage>)
    requires id in s.urrs
    ensures OnlyEntries(s, t) && forall u | u != id :: EntryOf(t, u) == EntryOf(s, u)
    ensures EntryOf(t, id) == EntryOf(M.TickSession(s, now), id)
    ensures report.Some? <==> M.Due(s, id, now)
    ensures report.Some? ==> report == Some(M.PeriodicReport(s, id))
  {
    TickEntry(s, id, now);
    var urr := s.urrs[id];
    if urr.period <= 0.0 || !urr.perio { return s, None; }
    if id !in s.urrPeriodAt { return s.(urrPeriodAt := s.urrPeriodAt[id := now]), None; }
    if now - s.urrPeriodAt[id] < urr.period { return s, None; }
    var current := if id in s.urrReports then s.urrReports[id] else [];
    if current == [] { return s.(urrPeriodAt := s.urrPeriodAt[id := now]), None; }
    report := Some(current[|current| - 1].(triggers := {PERIO}));
    t := s.(urrReports := s.urrReports[id := [M.ZeroUsage(id)]], urrPeriodAt := s.urrPeriodAt[id := now]);
  }

  lemma {:induction false} SameAtUrr(s: SessionState, t: SessionState, u: UrrId, now: Time)
    requires OnlyEntries(s, t) && EntryOf(s, u) == EntryOf(t, u)
    ensures M.Due(s, u, now) <==> M.Due(t, u, now)
    ensures EntryOf(M.TickSession(s, now), u) == EntryOf(M.TickSession(t, now), u)
    ensures M.Due(s, u, now) ==> M.PeriodicReport(s, u) == M.PeriodicReport(t, u)
  {
    TickEntry(s, u, now);
    TickEntry(t, u, now);
  }

  /** One session's share of a tick: its URRs in any order. */
  method TickUrrs(s: SessionState, now: Time) returns (t: SessionState, reports: seq<Usage>, ghost walk: seq<UrrId>)
    ensures t == M.TickSession(s, now)
    ensures PeriodicReports(s, now, walk, reports)
  {
    hide M.Due, EntryOf, M.TickSession, M.PeriodicReport, M.Accumulated;
    t, reports, walk := s, [], [];
    var ids := s.urrs.Keys;
    while ids != {}
      invariant ids <= s.urrs.Keys
      invariant OnlyEntries(s, t)
      invariant forall u | u in ids :: EntryOf(t, u) == EntryOf(s, u)
      invariant forall u | u in s.urrs.Keys - ids :: EntryOf(t, u) == EntryOf(M.TickSession(s, now), u)
      invariant forall u | u !in s.urrs :: EntryOf(t, u) == EntryOf(s, u)
      invariant |reports| == |walk|
      invariant forall u :: u in walk <==> u in s.urrs.Keys - ids && M.Due(s, u, now)
      invariant forall i, j | 0 <= i < j < |walk| :: walk[i] != walk[j]
      invariant forall i | 0 <= i < |walk| :: M.Accumulated(s, walk[i]) != []
      invariant forall i | 0 <= i < |walk| :: reports[i] == M.PeriodicReport(s, walk[i])
    {
      var id :| id in ids;
      SameAtUrr(s, t, id, now);
      DueHolds(s, id, now);
      DueHolds(t, id, now);
      var report;
      t, report := TickUrr(t, id, now);
      ids := ids - {id};
      if report.Some? {
        reports, walk := reports + [report.value], walk + [id];
      }
    }
    forall u ensures EntryOf(t, u) == EntryOf(M.TickSession(s, now), u) && (M.Due(s, u, now) ==> u in s.urrs) {
      TickEntry(s, u, now);
    }
    TickOnlyEntries(s, now);
    SameEntries(t, M.TickSession(s, now));
  }

  lemma {:induction false} DueHolds(s: SessionState, u: UrrId, now: Time)
    ensures M.Due(s, u, now) ==> M.Accumulated(s, u) != []
  {
  }

  lemma {:induction false} TickOnlyEntries(s: SessionState, now: Time)
    ensures OnlyEntries(s, M.TickSession(s, now))
  {
  }

  /** The notification that goes out without delay when a packet is buffered. */
  function AtOnce(b: Binding, payload: Payload): Option<M.Pending> {
    if b.far.Some? && NOCP in b.far.value.action
        && !M.DelaysNotification(b) then Some(M.Pending(payload, b.far.value.action))
    else None
  }

  // ---- adaptive flows ----

  /** collectAdaptiveQERIDs. */
  method CollectAdaptiveQers(s: SessionState) returns (r: set<QerId>)
    ensures r == M.AdaptiveQers(s)
  {
    r := {};
    var pids := s.pdrs.Keys;
    while pids != {}
      invariant pids <= s.pdrs.Keys
      invariant forall q :: q in r <==> q in s.qers && exists p :: p in s.pdrs.Keys - pids && q in s.pdrs[p].qerIds
    {
      var p :| p in pids;
      var ids := s.pdrs[p].qerIds;
      ghost var before := r;
      for i := 0 to |ids|
        invariant forall q :: q in r <==> q in before || (q in s.qers && q in ids[..i])
      {
        if ids[i] in s.qers { r := r + {ids[i]}; }
      }
      assert ids[..|ids|] == ids;
      pids := pids - {p};
    }
    assert r == M.UsedQers(s);
    if r == {} { r := s.qers.Keys; }
  }

  method SetOverrides(overrides: map<QerId, Override>, qers: set<QerId>, o: Override) returns (r: map<QerId, Override>)
    ensures r == map q | q in overrides.Keys + qers :: if q in qers then o else overrides[q]
  {
    r := overrides;
    var left := qers;
    while left != {}
      invariant left <= qers
      invariant r == map q | q in overrides.Keys + (qers - left) :: if q in qers - left then o else overrides[q]
    {
      var q :| q in left;
      r := r[q := o];
      left := left - {q};
    }
  }

  lemma {:induction false} TickBindings(was: Sessions, r: Sessions, now: Time)
    requires r.Keys == was.Keys && forall k | k in was :: r[k] == M.TickSession(was[k], now)
    ensures SameBindings(was, r)
  {
    hide M.Due, M.Restarts;
  }

  method ClearFlows(was: Sessions) returns (r: Sessions)
    ensures r == map k | k in was :: was[k].(overrides := map[], flows := map[])
  {
    r := was;
    var seids := was.Keys;
    while seids != {}
      invariant seids <= was.Keys
      invariant r == map k | k in was :: if k in seids then was[k] else was[k].(overrides := map[], flows := map[])
    {
      var k :| k in seids;
      r := r[k := r[k].(overrides := map[], flows := map[])];
      seids := seids - {k};
    }
  }

  /** The nested loops of emitPeriodicURRReports: all sessions in any order, and the reports of
      those that have some. */
  method TickAll(was: Sessions, now: Time) returns (r: Sessions, out: map<Seid, seq<Usage>>)
    ensures r == map k | k in was :: M.TickSession(was[k], now)
    ensures forall k :: k in out <==> k in was && exists u :: M.Due(was[k], u, now)
    ensures forall k | k in out :: exists walk :: PeriodicReports(was[k], now, walk, out[k])
  {
    hide M.TickSession, M.Due;
    r, out := was, map[];
    var seids := was.Keys;
    while seids != {}
      invariant seids <= was.Keys
      invariant r == map k | k in was :: if k in seids then was[k] else M.TickSession(was[k], now)
      invariant forall k :: k in out <==> k in was.Keys - seids && exists u :: M.Due(was[k], u, now)
      invariant forall k | k in out :: exists walk :: PeriodicReports(was[k], now, walk, out[k])
    {
      var k :| k in seids;
      var t, reports;
      ghost var walk;
      t, reports, walk := TickUrrs(was[k], now);
      r := r[k := t];
      seids := seids - {k};
      assert reports != [] <==> exists u :: M.Due(was[k], u, now) by { if walk != [] { assert walk[0] in walk; } }
      if reports != [] { out := out[k := reports]; }
    }
  }
}
