/** What Close leaves in the driver besides rules: exactly when the driver keeps a session, what is
    in it, and that the next session on the recycled SEID finds it. */
module Leftovers {
  import opened Rules
  import opened Session
  import opened Closing
  import opened Numbering
  import opened Node
  import NodeRuns
  import Driver
  import Buffering

  /** Something of the session that no removal of a rule takes away: a packet buffer, even an
      emptied one, or an accumulator whose URR is not installed, metered through an older binding. */
  predicate Outlives(t: SessionState) {
    t.buffers != map[] || exists u :: u in t.urrReports && u !in t.urrs
  }

  /** What is left of a session that outlives its rules. */
  function Remains(t: SessionState): SessionState {
    t.(pdrs := map[], fars := map[], qers := map[], urrs := map[], bars := map[],
       urrReports := t.urrReports - t.urrs.Keys, urrPeriodAt := t.urrPeriodAt - t.urrs.Keys)
  }

  /** The driver's session is the given one, and is there exactly if that is not disposable. */
  predicate Settled(d: Driver.State, seid: Seid, c: SessionState) {
    && (seid in d.sessions <==> !Driver.Disposable(c))
    && (seid in d.sessions ==> d.sessions[seid] == c)
  }

  lemma {:induction false} NamesRules(c: SessionState, op: Request)
    requires Driver.Removes(op) && Driver.Disposable(c)
    ensures !Driver.Names(c, op)
  {
  }

  lemma {:induction false} RemovalSettles(d: Driver.State, seid: Seid, op: Request, c: SessionState)
    requires Driver.Removes(op) && Settled(d, seid, c)
    ensures Settled(Driver.Apply(d, seid, op).state, seid, Cut(c, op))
  {
    hide Driver.After, Driver.Names, Driver.Disposable, Driver.Apply;
    Driver.ApplyRemove(d, seid, op);
    if seid !in d.sessions { NamesRules(c, op); }
  }

  lemma {:induction false} CloseSettles(s: Sess, d: Driver.State, ops: seq<Request>, k: nat)
    requires ClosePlan(s, ops) && k <= |ops|
    requires Link(s, Driver.Lookup(d, s.localId)) && Driver.Sound(d)
    ensures Settled(DoAll(s, d, ops[..k]).driver, s.localId, CutAll(Driver.Lookup(d, s.localId), ops[..k]))
    decreases k
  {
    hide Driver.Lookup, Do, Cut, Driver.SoundReports, ClosePlan, Settled, Driver.Sound, Midway;
    var t := Driver.Lookup(d, s.localId);
    PlanRemoves(s, ops);
    if k == 0 {
      StartSettled(d, s.localId);
    } else {
      LookupSound(d, s.localId);
      CloseSettles(s, d, ops, k - 1);
      CloseProgress(s, d, ops, k - 1);
      SettleStep(s, t, ops, k - 1, DoAll(s, d, ops[..k - 1]));
      assert ops[..k][..k - 1] == ops[..k - 1];
    }
  }

  lemma {:induction false} SettleStep(s: Sess, t: SessionState, ops: seq<Request>, k: nat, f: Result)
    requires ClosePlan(s, ops) && k < |ops| && Midway(s, t, ops, k, f)
    requires Settled(f.driver, s.localId, CutAll(t, ops[..k]))
    ensures Settled(Do(f.sess, f.driver, ops[k]).driver, s.localId, CutAll(t, ops[..k + 1]))
  {
    hide Driver.Lookup, Do, Cut, Settled, RecordsAt, SameRules, ReportsAt, Recorded, SameRule, Rank, RemovesPdr;
    PlannedRemoval(s, ops, k, f.sess);
    RecordedApplies(f.sess, f.driver, ops[k]);
    RemovalSettles(f.driver, s.localId, ops[k], CutAll(t, ops[..k]));
    assert ops[..k + 1][..k] == ops[..k];
  }

  lemma {:induction false} StartSettled(d: Driver.State, seid: Seid)
    requires Driver.Sound(d)
    ensures Settled(d, seid, Driver.Lookup(d, seid))
  {
    assert seid in d.sessions ==> Driver.SoundSession(d.sessions[seid]);
  }

  lemma {:induction false} PlanRemoves(s: Sess, ops: seq<Request>)
    requires ClosePlan(s, ops)
    ensures forall i | 0 <= i < |ops| :: Driver.Removes(ops[i])
  {
  }

  lemma {:induction false} PlannedRemoval(s: Sess, ops: seq<Request>, k: nat, n: Sess)
    requires ClosePlan(s, ops) && k < |ops| && RecordsAt(s, ops, k, n)
    ensures Driver.Removes(ops[k]) && Recorded(n, ops[k]) && n.localId == s.localId
  {
  }

  lemma {:induction false} RecordedApplies(s: Sess, d: Driver.State, op: Request)
    requires Recorded(s, op)
    ensures Do(s, d, op).driver == Driver.Apply(d, s.localId, op).state
  {
    hide Driver.Apply, Collected, Noted, Confirmed;
  }

  /** What the cuts leave besides rules. */
  lemma {:induction false} CutAllFrame(t: SessionState, ops: seq<Request>)
    requires forall i | 0 <= i < |ops| :: Driver.Removes(ops[i])
    ensures var c := CutAll(t, ops);
      && c.buffers == t.buffers && c.meters == t.meters && c.overrides == t.overrides && c.flows == t.flows
      && (forall u :: u in c.urrReports <==> u in t.urrReports && !(u in t.urrs && RemoveUrr(u) in ops))
      && (forall u | u in c.urrReports :: c.urrReports[u] == t.urrReports[u])
      && (forall u :: u in c.urrPeriodAt <==> u in t.urrPeriodAt && !(u in t.urrs && RemoveUrr(u) in ops))
      && (forall u | u in c.urrPeriodAt :: c.urrPeriodAt[u] == t.urrPeriodAt[u])
    decreases |ops|
  {
    hide Cut;
    if ops != [] {
      var front, last := ops[..|ops| - 1], ops[|ops| - 1];
      assert ops == front + [last];
      CutAllFrame(t, front);
      CutAllRules(t, front);
      CutFrame(CutAll(t, front), last);
    }
  }

  lemma {:induction false} PeriodsAfter(c: SessionState, op: Request)
    requires Driver.Removes(op) && Driver.Names(c, op)
    ensures Driver.After(c, op).urrPeriodAt == if op.RemoveUrr? then c.urrPeriodAt - {op.uid} else c.urrPeriodAt
  {
    hide Driver.Names, Driver.Drained, Driver.MergeFar, Driver.MergePdr;
  }

  lemma {:induction false} CutFrame(c: SessionState, op: Request)
    requires Driver.Removes(op)
    ensures var c' := Cut(c, op);
      && c'.buffers == c.buffers && c'.meters == c.meters && c'.overrides == c.overrides && c'.flows == c.flows
      && c'.urrReports == (if op.RemoveUrr? && op.uid in c.urrs then c.urrReports - {op.uid} else c.urrReports)
      && c'.urrPeriodAt == (if op.RemoveUrr? && op.uid in c.urrs then c.urrPeriodAt - {op.uid} else c.urrPeriodAt)
  {
    hide Driver.MergePdr, Driver.MergeFar, Driver.Drained, Driver.AfterPdr, Driver.AfterFar, Driver.AfterQer, Driver.AfterBar;
    if Driver.Names(c, op) {
      Driver.AfterFrame(c, op);
      PeriodsAfter(c, op);
    }
    if op.RemoveUrr? { NamesUrr(c, op); }
  }

  lemma {:induction false} PlanLeaves(s: Sess, t: SessionState, ops: seq<Request>)
    requires ClosePlan(s, ops) && Link(s, t)
    ensures CutAll(t, ops) == Remains(t)
    ensures Driver.Disposable(Remains(t)) <==> !Outlives(t)
  {
    hide ClosePlan, CutAll, Remains, Outlives, Driver.Disposable;
    PlanRemoves(s, ops);
    PlanCovers(s, t, ops);
    CutAllFrame(t, ops);
    var c := CutAll(t, ops);
    forall u | u in t.urrs ensures RemoveUrr(u) in ops { assert u in s.urrs; }
    RemainsByFields(t, c);
    AccumulatorsLeft(t, c);
  }

  lemma {:induction false} RemainsByFields(t: SessionState, c: SessionState)
    requires Driver.NoRules(c)
    requires c.buffers == t.buffers && c.meters == t.meters && c.overrides == t.overrides && c.flows == t.flows
    requires forall u :: u in c.urrReports <==> u in t.urrReports && u !in t.urrs
    requires forall u | u in c.urrReports :: c.urrReports[u] == t.urrReports[u]
    requires forall u :: u in c.urrPeriodAt <==> u in t.urrPeriodAt && u !in t.urrs
    requires forall u | u in c.urrPeriodAt :: c.urrPeriodAt[u] == t.urrPeriodAt[u]
    ensures c == Remains(t)
  {
    assert c.urrReports == t.urrReports - t.urrs.Keys;
    assert c.urrPeriodAt == t.urrPeriodAt - t.urrs.Keys;
  }

  lemma {:induction false} AccumulatorsLeft(t: SessionState, c: SessionState)
    requires c == Remains(t)
    ensures Driver.Disposable(c) <==> !Outlives(t)
  {
    forall u ensures u in c.urrReports <==> u in t.urrReports && u !in t.urrs {}
    if c.urrReports.Keys != {} {
      var u :| u in c.urrReports.Keys;
      assert u in t.urrReports && u !in t.urrs;
    }
  }

  /** Close removes the session from the driver if and only if nothing of it outlives its rules;
      otherwise the driver keeps it with its buffers, meters, overrides, flows and the accumulators
      of URRs that were not installed. */
  lemma {:induction false} CloseLeaves(s: Sess, d: Driver.State, ops: seq<Request>)
    requires ClosePlan(s, ops)
    requires Link(s, Driver.Lookup(d, s.localId)) && Driver.Sound(d)
    ensures var t := Driver.Lookup(d, s.localId);
            var d' := DoAll(s, d, ops).driver;
      && (s.localId in d'.sessions <==> Outlives(t))
      && (Outlives(t) ==> d'.sessions[s.localId] == Remains(t))
  {
    hide Driver.Lookup, ClosePlan, Driver.Sound, CutAll, Link, Remains, Outlives, DoAll, Driver.Disposable;
    CloseSettles(s, d, ops, |ops|);
    assert ops[..|ops|] == ops;
    PlanLeaves(s, Driver.Lookup(d, s.localId), ops);
  }

  // ---- the next session on the SEID ----

  /** In every world of a run: the SEID of a deleted session is the next one given out, and its new
      owner finds in the driver what outlived the old session, or nothing. */
  lemma {:induction false} NextSessionInherits(w: World, seid: Seid, plan: seq<Request>, n: nat, remoteId: nat)
    requires Inv(w) && Wired(w) && Live(w, seid) && ClosePlan(SessOf(w, seid), plan) && n < |w.nodes|
    ensures var w' := Step(w, Delete(seid, plan));
            var t := Driver.Lookup(w.driver, seid);
      && Wired(w') && |w'.nodes| == |w.nodes|
      && NewSess(w', n, remoteId).1 == seid
      && Driver.Lookup(w'.driver, seid) == if Outlives(t) then Remains(t) else FRESH_SESSION
  {
    hide ClosePlan, Driver.Sound, Link, Remains, Outlives, DoAll, InRange, Driver.NoRules, Inv;
    var s := SessOf(w, seid);
    OwnerDelete(w, seid, plan);
    LinkedParts(w, seid);
    CloseLeaves(s, w.driver, plan);
    var w' := Step(w, Delete(seid, plan));
    assert Inv(w');
    InvWired(w');
    assert w'.free == w.free + [seid];
  }

  lemma {:induction false} LinkedParts(w: World, seid: Seid)
    requires Inv(w) && Live(w, seid)
    ensures Link(SessOf(w, seid), Driver.Lookup(w.driver, seid)) && SessOf(w, seid).localId == seid && Driver.Sound(w.driver)
  {
    hide Link, Driver.Lookup, Driver.Sound, InRange;
    assert Linked(w, seid);
  }

  /** Over every run from the start. */
  lemma {:induction false} InheritsInEveryRun(events: seq<Event>, seid: Seid, plan: seq<Request>, n: nat, remoteId: nat)
    requires PossibleRun(START, events) && Live(Run(START, events), seid) && n < |Run(START, events).nodes|
    requires ClosePlan(SessOf(Run(START, events), seid), plan)
    ensures var w := Run(START, events);
            var t := Driver.Lookup(w.driver, seid);
      && Wired(w) && Possible(w, Delete(seid, plan))
      && var w' := Step(w, Delete(seid, plan));
         && Wired(w') && |w'.nodes| == |w.nodes| && NewSess(w', n, remoteId).1 == seid
         && Driver.Lookup(w'.driver, seid) == if Outlives(t) then Remains(t) else FRESH_SESSION
  {
    hide Run, PossibleRun, Inv, ClosePlan, Driver.Lookup, Remains, Outlives, Step, NewSess;
    StartInv();
    RunInv(START, events);
    InvWired(Run(START, events));
    NextSessionInherits(Run(START, events), seid, plan, n, remoteId);
  }

  // ---- a run in which it happens ----

  const UE: Ipv4 := 0x0A00_0001
  const HOLD := Far({BUFF}, None, None)
  const SEND := Far({FORW}, None, None)
  const CORE := Pdr(None, Some(Pdi(Some(Core), None, Some(UE), [])), Some(1), [], [])
  const RULES := [CreateFar(1, HOLD, true), CreatePdr(1, CORE, true)]
  const PLAN := [RemoveFar(1), RemovePdr(1, [])]
  const OLD_PACKET: Payload := [42]
  const ARRIVAL := Driver.Buffered(Binding(1, 1, CORE, Some(HOLD), [], [], None), OLD_PACKET)

  /** A session is established, a packet for it is buffered, it is deleted, and another one is
      established. */
  const HANDOVER := [
    Associate("smf", "A", [], map[]), Establish("smf", 10, RULES), Data(ARRIVAL), Delete(1, PLAN),
    Establish("smf", 20, RULES)]

  function WithRules(t: SessionState): SessionState {
    t.(fars := map[1 := HOLD], pdrs := map[1 := CORE])
  }

  lemma {:induction false} RulesInstalled(s: Sess, d: Driver.State)
    requires s.urrs == map[] && s.pdrs == map[] && s.fars == {} && Driver.NoRules(Driver.Lookup(d, s.localId))
    ensures var r := DoAll(s, d, RULES);
      && r.sess == s.(fars := {1}, pdrs := map[1 := {}])
      && r.driver == Driver.Store(d, s.localId, WithRules(Driver.Lookup(d, s.localId)))
  {
    hide Driver.Apply, Driver.After, Collected;
    var t := Driver.Lookup(d, s.localId);
    var far, pdr := CreateFar(1, HOLD, true), CreatePdr(1, CORE, true);
    var t1 := t.(fars := map[1 := HOLD]);
    var d1 := Driver.Store(d, s.localId, t1);
    Driver.ApplyCreate(d, s.localId, far);
    AfterFarCreated(t);
    assert Do(s, d, far).driver == d1;
    Driver.ApplyCreate(d1, s.localId, pdr);
    AfterPdrCreated(t1);
    assert RULES[..1] == [far] && [far][..0] == [] && RULES[1] == pdr;
    assert d1.sessions[s.localId := WithRules(t)] == d.sessions[s.localId := WithRules(t)];
    assert DoAll(s, d, [far]).driver == d1 && DoAll(s, d, [far]).sess == s.(fars := {1});
    assert UrrSet([]) == {};
  }

  lemma {:induction false} AfterFarCreated(t: SessionState)
    requires Driver.NoRules(t)
    ensures Driver.After(t, CreateFar(1, HOLD, true)) == t.(fars := map[1 := HOLD])
  {
    assert t.fars[1 := HOLD] == map[1 := HOLD];
  }

  lemma {:induction false} AfterPdrCreated(t: SessionState)
    requires t.pdrs == map[]
    ensures Driver.After(t, CreatePdr(1, CORE, true)) == t.(pdrs := map[1 := CORE])
  {
    assert t.pdrs[1 := CORE] == map[1 := CORE];
  }

  /** The world with one node and one slot. */
  function Single(slots: seq<Option<Sess>>, free: seq<Seid>, own: set<Seid>, d: Driver.State): World {
    World(slots, free, [RemoteNode("smf", "A", own)], map["smf" := 0], d)
  }

  function Record(remoteId: nat): Sess { Sess(1, remoteId, 0, map[1 := {}], {1}, {}, map[], {}) }

  lemma {:induction false} Associated()
    ensures Wired(START) && Possible(START, HANDOVER[0]) && Step(START, HANDOVER[0]) == Single([], [], {}, Driver.INITIAL)
  {
    hide Reset;
    assert [] + [RemoteNode("smf", "A", {})] == [RemoteNode("smf", "A", {})];
  }

  /** Establishing a session on SEID 1, new or recycled. */
  lemma {:induction false} Established(w: World, remoteId: nat)
    requires w == Single(w.slots, w.free, {}, w.driver)
    requires (w.slots == [] && w.free == []) || (w.slots == [None] && w.free == [1])
    requires Driver.NoRules(Driver.Lookup(w.driver, 1))
    ensures var e := Establish("smf", remoteId, RULES);
      && Wired(w) && Possible(w, e)
      && Step(w, e) == Single([Some(Record(remoteId))], [], {1},
                              Driver.Store(w.driver, 1, WithRules(Driver.Lookup(w.driver, 1))))
  {
    hide DoAll, Driver.NoRules, Driver.Lookup, Driver.Store, WithRules;
    var s := Sess(1, remoteId, 0, map[], {}, {}, map[], {});
    RulesInstalled(s, w.driver);
    var w1 := Single([Some(s)], [], {1}, w.driver);
    assert NewSess(w, 0, remoteId) == (w1, 1) by {
      assert w.free == [1] ==> w.free[..0] == [];
      assert {} + {1} == {1};
      assert [RemoteNode("smf", "A", {})][0 := RemoteNode("smf", "A", {1})] == [RemoteNode("smf", "A", {1})];
      assert [None][0 := Some(s)] == [Some(s)] && [] + [Some(s)] == [Some(s)];
    }
    assert [Some(s)][0 := Some(Record(remoteId))] == [Some(Record(remoteId))];
  }

  lemma {:induction false} Planned(remoteId: nat)
    ensures ClosePlan(Record(remoteId), PLAN)
  {
    assert PLAN[0] == RemoveFar(1) && PLAN[1].RemovePdr? && PLAN[1].pid == 1;
  }

  /** The session is deleted, and the driver keeps the buffer. */
  lemma {:induction false} Deleted(w: World, t: SessionState)
    requires Inv(w) && w == Single([Some(Record(10))], [], {1}, w.driver)
    requires t == Driver.Lookup(w.driver, 1) && t.buffers == map[1 := [OLD_PACKET]]
    ensures Wired(w) && Possible(w, Delete(1, PLAN))
    ensures var w' := Step(w, Delete(1, PLAN));
      && w' == Single([None], [1], {}, w'.driver)
      && Driver.Lookup(w'.driver, 1) == Remains(t)
  {
    hide ClosePlan, DoAll, Driver.Lookup, Remains, Inv, Link, Driver.Sound;
    Planned(10);
    InvWired(w);
    LinkedParts(w, 1);
    CloseLeaves(Record(10), w.driver, PLAN);
    KeptIsRead(DoAll(Record(10), w.driver, PLAN).driver, 1);
    assert 1 in t.buffers;
    assert {1} - {1} == {} && [] + [1] == [1];
  }

  lemma {:induction false} KeptIsRead(d: Driver.State, seid: Seid)
    ensures seid in d.sessions ==> Driver.Lookup(d, seid) == d.sessions[seid]
  {
  }

  /** The run ends with a second session alive on SEID 1 that has received no packet, and in whose
      buffer the first one's packet waits; the next update of its FAR to forwarding sends it. */
  lemma {:induction false} OldPacketWaits()
    ensures PossibleRun(START, HANDOVER)
    ensures var w := Run(START, HANDOVER);
      && Live(w, 1) && SessOf(w, 1).remoteId == 20
      && Buffering.Held(w.driver, 1, 1) == [OLD_PACKET]
      && Buffering.Drains(w.driver, Driver.Control(1, UpdateFar(1, SEND, true)), 1, 1)
  {
    hide Step, Run, PossibleRun, Wired, Possible, Inv, Driver.Step, Driver.Store, Driver.Lookup, Remains, WithRules;
    var t1 := WithRules(FRESH_SESSION);
    var d1 := Driver.Store(Driver.INITIAL, 1, t1);
    var w1 := Single([], [], {}, Driver.INITIAL);
    var w2 := Single([Some(Record(10))], [], {1}, d1);
    Associated();
    NothingInstalled();
    Established(w1, 10);
    Arrived(d1, t1);
    var d2 := Driver.Step(d1, ARRIVAL);
    var w3 := Single([Some(Record(10))], [], {1}, d2);
    StartInv();
    StepInv(START, HANDOVER[0]);
    StepInv(w1, HANDOVER[1]);
    ArrivesBetween(w2, w3);
    var t2 := Driver.Lookup(d2, 1);
    Deleted(w3, t2);
    var w4 := Step(w3, HANDOVER[3]);
    RemainsOf(t2);
    Established(w4, 20);
    var w5 := Step(w4, HANDOVER[4]);
    Waits(w4.driver, Remains(t2));
    NodeRuns.RunNothing(w5);
    NodeRuns.RunFirst(w4, HANDOVER[4], []);
    NodeRuns.RunFirst(w3, HANDOVER[3], [HANDOVER[4]] + []);
    NodeRuns.RunFirst(w2, HANDOVER[2], [HANDOVER[3]] + ([HANDOVER[4]] + []));
    NodeRuns.RunFirst(w1, HANDOVER[1], [HANDOVER[2]] + ([HANDOVER[3]] + ([HANDOVER[4]] + [])));
    NodeRuns.RunFirst(START, HANDOVER[0], [HANDOVER[1]] + ([HANDOVER[2]] + ([HANDOVER[3]] + ([HANDOVER[4]] + []))));
    assert HANDOVER == [HANDOVER[0]] + ([HANDOVER[1]] + ([HANDOVER[2]] + ([HANDOVER[3]] + ([HANDOVER[4]] + []))));
  }

  lemma {:induction false} NothingInstalled()
    ensures Driver.Lookup(Driver.INITIAL, 1) == FRESH_SESSION && Driver.NoRules(FRESH_SESSION)
  {
  }

  lemma {:induction false} Arrived(d: Driver.State, t: SessionState)
    requires d == Driver.Store(Driver.INITIAL, 1, t) && t == WithRules(FRESH_SESSION)
    ensures Driver.Lookup(Driver.Step(d, ARRIVAL), 1) == t.(buffers := map[1 := [OLD_PACKET]])
  {
    assert [] + [OLD_PACKET] == [OLD_PACKET];
    assert t.buffers[1 := [OLD_PACKET]] == map[1 := [OLD_PACKET]];
  }

  lemma {:induction false} ArrivesBetween(w2: World, w3: World)
    requires Inv(w2) && w3 == w2.(driver := Driver.Step(w2.driver, ARRIVAL))
    ensures Wired(w2) && Possible(w2, Data(ARRIVAL)) && Step(w2, Data(ARRIVAL)) == w3 && Inv(w3)
  {
    hide Inv, Driver.Step;
    InvWired(w2);
    DataInv(w2, ARRIVAL);
  }

  lemma {:induction false} RemainsOf(t: SessionState)
    requires t == WithRules(FRESH_SESSION).(buffers := map[1 := [OLD_PACKET]])
    ensures Driver.NoRules(Remains(t)) && Remains(t).buffers == map[1 := [OLD_PACKET]]
  {
  }

  lemma {:induction false} Waits(d: Driver.State, r: SessionState)
    requires r.buffers == map[1 := [OLD_PACKET]]
    ensures var d' := Driver.Store(d, 1, WithRules(r));
      && Buffering.Held(d', 1, 1) == [OLD_PACKET]
      && Buffering.Drains(d', Driver.Control(1, UpdateFar(1, SEND, true)), 1, 1)
  {
    hide Driver.Apply, Driver.After;
  }
}
