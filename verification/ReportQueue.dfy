/** Usage reports that the data plane sends on its own initiative wait in a channel until the PFCP
    loop numbers them.  Sessions come and go meanwhile: whose number a waiting report takes. */
module ReportQueue {
  import opened Rules
  import opened Session
  import opened Closing
  import opened Numbering
  import opened Node
  import NodeRuns
  import Leftovers
  import Driver
  import DriverLoops

  /** A waiting message; `under` is when the session was created that was on the SEID when the message
      was sent, or nothing if there was none.  The program has no such field. */
  datatype Waiting = Waiting(seid: Seid, reports: seq<Usage>, under: Option<nat>)

  /** `births` says when the session now on each SEID was created, `clock` counts the steps. */
  datatype System = System(world: World, queue: seq<Waiting>, births: map<Seid, nat>, clock: nat)

  const EMPTY := System(START, [], map[], 0)

  /** A tick sends what its sessions have due, one message a session in the order of `walk`; a
      metered packet sends what reached a limit.  The messages of different goroutines may be
      delivered in any order, so any one of the waiting ones can be served next. */
  datatype Act =
    | Handle(event: Event)
    | Tick(now: Time, due: map<Seid, seq<Usage>>, walk: seq<Seid>)
    | Measure(binding: Binding, bytes: nat, up: bool)
    | Serve(i: nat)

  function BirthOf(s: System, seid: Seid): Option<nat> {
    if seid in s.births then Some(s.births[seid]) else None
  }

  /** What a tick collects: exactly the sessions with a URR that is due, and its periodic reports. */
  ghost predicate Collects(d: Driver.State, now: Time, due: map<Seid, seq<Usage>>) {
    && (forall k :: k in due <==> k in d.sessions && exists u :: Driver.Due(d.sessions[k], u, now))
    && forall k | k in due :: exists walk :: DriverLoops.PeriodicReports(d.sessions[k], now, walk, due[k])
  }

  function OverLimit(d: Driver.State, b: Binding, bytes: nat, up: bool): seq<Usage> {
    if b.seid in d.sessions then DriverLoops.OverLimit(d.sessions[b.seid].urrReports, b.urrs, bytes, up) else []
  }

  function EventOf(s: System, a: Act): Event
    requires a.Serve? ==> a.i < |s.queue|
  {
    match a
    case Handle(e) => e
    case Tick(now, _, _) => Data(Driver.Ticked(now))
    case Measure(b, bytes, up) => Data(Driver.Counted(b, bytes, up))
    case Serve(i) => Report(s.queue[i].seid, s.queue[i].reports)
  }

  /** The loop takes reports from the queue only; ticks and metering are acts of their own. */
  ghost predicate CanAct(s: System, a: Act) {
    && (a.Serve? ==> a.i < |s.queue|)
    && (a.Handle? ==> !a.event.Report? && (a.event.Data? ==> !a.event.event.Ticked? && !a.event.event.Counted?))
    && (a.Tick? ==> Collects(s.world.driver, a.now, a.due) && Enumerates(a.walk, a.due.Keys))
    && Wired(s.world) && Possible(s.world, EventOf(s, a))
  }

  function Sends(s: System, a: Act): seq<Waiting>
    requires a.Tick? ==> forall k | k in a.walk :: k in a.due
  {
    match a
    case Tick(_, due, walk) =>
      seq(|walk|, i requires 0 <= i < |walk| => Waiting(walk[i], due[walk[i]], BirthOf(s, walk[i])))
    case Measure(b, bytes, up) =>
      var over := OverLimit(s.world.driver, b, bytes, up);
      if over == [] then [] else [Waiting(b.seid, over, BirthOf(s, b.seid))]
    case _ => []
  }

  function Births(was: map<Seid, nat>, w: World, clock: nat): map<Seid, nat> {
    map k | k in NodeRuns.LiveSeids(w) :: if k in was then was[k] else clock
  }

  ghost function After(s: System, a: Act): System
    requires CanAct(s, a)
  {
    var w := Step(s.world, EventOf(s, a));
    System(w,
           if a.Serve? then s.queue[..a.i] + s.queue[a.i + 1..] else s.queue + Sends(s, a),
           Births(s.births, w, s.clock),
           s.clock + 1)
  }

  ghost predicate CanRun(s: System, acts: seq<Act>)
    decreases |acts|
  {
    acts == [] || (CanAct(s, acts[0]) && CanRun(After(s, acts[0]), acts[1..]))
  }

  ghost function RunAll(s: System, acts: seq<Act>): System
    requires CanRun(s, acts)
    decreases |acts|
  {
    if acts == [] then s else RunAll(After(s, acts[0]), acts[1..])
  }

  ghost function Events(s: System, acts: seq<Act>): seq<Event>
    requires CanRun(s, acts)
    decreases |acts|
  {
    if acts == [] then [] else [EventOf(s, acts[0])] + Events(After(s, acts[0]), acts[1..])
  }

  /** A run of the whole is a run of the server over the driver, so all that holds for those holds
      here. */
  lemma {:induction false} RunsTheServer(s: System, acts: seq<Act>)
    requires CanRun(s, acts)
    ensures PossibleRun(s.world, Events(s, acts)) && Run(s.world, Events(s, acts)) == RunAll(s, acts).world
    decreases |acts|
  {
    hide Step, Possible, Wired, Collects, Births, Sends;
    if acts != [] {
      RunsTheServer(After(s, acts[0]), acts[1..]);
      NodeRuns.RunFirst(s.world, EventOf(s, acts[0]), Events(After(s, acts[0]), acts[1..]));
    }
  }

  // ---- births ----

  /** Births are those of the live sessions, and all are in the past. */
  ghost predicate Tracked(s: System) {
    && Inv(s.world)
    && (forall k: Seid :: k in s.births <==> Live(s.world, k))
    && (forall k | k in s.births :: s.births[k] < s.clock)
  }

  lemma {:induction false} EmptyTracked()
    ensures Tracked(EMPTY)
  {
    StartInv();
  }

  lemma {:induction false} ActTracked(s: System, a: Act)
    requires Tracked(s) && CanAct(s, a)
    ensures Tracked(After(s, a))
  {
    hide Inv, Step, Possible, Collects, Sends, Live;
    StepInv(s.world, EventOf(s, a));
    LiveOnes(After(s, a).world);
  }

  lemma {:induction false} LiveOnes(w: World)
    ensures forall k: Seid :: k in NodeRuns.LiveSeids(w) <==> Live(w, k)
  {
  }

  lemma {:induction false} RunTracked(s: System, acts: seq<Act>)
    requires Tracked(s) && CanRun(s, acts)
    ensures Tracked(RunAll(s, acts))
    decreases |acts|
  {
    hide Tracked, CanAct, After;
    if acts != [] {
      ActTracked(s, acts[0]);
      RunTracked(After(s, acts[0]), acts[1..]);
    }
  }

  /** Periodic reports are of live sessions. */
  lemma {:induction false} TickedByLive(s: System, a: Act, m: Waiting)
    requires Tracked(s) && CanAct(s, a) && a.Tick? && m in Sends(s, a)
    ensures Live(s.world, m.seid) && m.under == BirthOf(s, m.seid)
  {
    hide Inv, Live, Driver.Due, DriverLoops.PeriodicReports;
    var i :| 0 <= i < |Sends(s, a)| && Sends(s, a)[i] == m;
    var k := a.walk[i];
    var u :| Driver.Due(s.world.driver.sessions[k], u, a.now);
    DueInstalled(s.world.driver.sessions[k], u, a.now);
    HeldLive(s.world, k, u);
  }

  lemma {:induction false} DueInstalled(t: SessionState, u: UrrId, now: Time)
    requires Driver.Due(t, u, now)
    ensures u in t.urrs
  {
  }

  // ---- whose number it takes ----

  /** The session on the SEID is the one that was there when the message was sent. */
  predicate SameSession(s: System, m: Waiting) {
    m.under.Some? && m.under == BirthOf(s, m.seid)
  }

  /** The session is alive all through the run. */
  ghost predicate LivesThrough(s: System, acts: seq<Act>, seid: Seid)
    requires CanRun(s, acts)
    decreases |acts|
  {
    Live(s.world, seid) && (acts == [] || LivesThrough(After(s, acts[0]), acts[1..], seid))
  }

  /** Once that session is gone a message never gets it back, whoever takes the SEID. */
  lemma {:induction false} NeverAgain(s: System, acts: seq<Act>, m: Waiting)
    requires Tracked(s) && CanRun(s, acts)
    requires !SameSession(s, m) && m.under.Some? && m.under.value < s.clock
    ensures !SameSession(RunAll(s, acts), m)
    decreases |acts|
  {
    hide Inv, Step, Possible, Collects, Sends, Live, Wired;
    if acts != [] {
      ActTracked(s, acts[0]);
      NeverAgain(After(s, acts[0]), acts[1..], m);
    }
  }

  /** What serving a message sends: the session's remote SEID and the numbered reports; nothing for
      a SEID that is not live. */
  datatype Delivery = Nothing | ToPeer(remoteId: nat, reports: seq<Numbered>)

  function Delivered(w: World, m: Waiting): Delivery {
    if Live(w, m.seid) then ToPeer(SessOf(w, m.seid).remoteId, Number(SessOf(w, m.seid), m.reports, {}, false).1)
    else Nothing
  }

  /** A waiting message is numbered under the session that was on the SEID when it was sent if and only
      if that session was not deleted in between; then it goes to that session's peer. */
  lemma {:induction false} NumberedUnderSame(s: System, acts: seq<Act>, m: Waiting)
    requires Tracked(s) && CanRun(s, acts) && SameSession(s, m)
    ensures var t := RunAll(s, acts);
      && (SameSession(t, m) <==> LivesThrough(s, acts, m.seid))
      && (SameSession(t, m) ==>
            && Live(s.world, m.seid) && Live(t.world, m.seid)
            && NodeRuns.SameHolder(SessOf(s.world, m.seid), SessOf(t.world, m.seid)))
    decreases |acts|
  {
    hide Inv, Step, Possible, Collects, Sends, Live, Wired;
    if acts != [] {
      var n := After(s, acts[0]);
      ActTracked(s, acts[0]);
      if Live(n.world, m.seid) {
        NodeRuns.StepIdentity(s.world, EventOf(s, acts[0]), m.seid);
        LiveOnes(n.world);
        NumberedUnderSame(n, acts[1..], m);
      } else {
        NeverAgain(n, acts[1..], m);
      }
    }
  }

  lemma {:induction false} TickQueues(s: System, a: Act, m: Waiting)
    requires Tracked(s) && CanAct(s, a) && a.Tick? && m in Sends(s, a)
    ensures m in After(s, a).queue && SameSession(After(s, a), m)
  {
    hide Inv, Possible, Sends, Wired, Collects, Driver.Step;
    TickedByLive(s, a, m);
    LiveOnes(After(s, a).world);
    var i :| 0 <= i < |Sends(s, a)| && Sends(s, a)[i] == m;
    assert (s.queue + Sends(s, a))[|s.queue| + i] == m;
    assert Live(After(s, a).world, m.seid);
  }

  /** From the tick on: its messages are of live sessions, and after any further run each is numbered
      under the session of the tick exactly if it was not deleted since.  Whose usage the message holds is
      another matter: see module Books. */
  lemma {:induction false} TickNumbered(s: System, a: Act, acts: seq<Act>, m: Waiting)
    requires Tracked(s) && CanAct(s, a) && a.Tick? && m in Sends(s, a) && CanRun(After(s, a), acts)
    ensures m in After(s, a).queue && SameSession(After(s, a), m)
    ensures SameSession(RunAll(After(s, a), acts), m) <==> LivesThrough(After(s, a), acts, m.seid)
  {
    hide Tracked, CanAct, After, SameSession, Sends, CanRun, RunAll, LivesThrough;
    TickQueues(s, a, m);
    ActTracked(s, a);
    NumberedUnderSame(After(s, a), acts, m);
  }

  // ---- a report that takes another session's number ----

  function Renewal(seid: Seid, plan: seq<Request>, id: string, remoteId: nat, u: UrrId, urr: Urr): seq<Act> {
    [Handle(Delete(seid, plan)), Handle(Establish(id, remoteId, [CreateUrr(u, urr, true, 0.0)]))]
  }

  lemma {:induction false} DeletedThere(w: World, seid: Seid, plan: seq<Request>)
    requires Inv(w) && Wired(w) && Live(w, seid) && ClosePlan(SessOf(w, seid), plan)
    ensures var w' := Step(w, Delete(seid, plan)); Inv(w') && w'.rnodes == w.rnodes && !Live(w', seid)
  {
    hide Inv, ClosePlan, DoAll;
    StepInv(w, Delete(seid, plan));
    OwnerInRange(w, seid);
  }

  lemma {:induction false} OneUrr(s: Sess, d: Driver.State, u: UrrId, urr: Urr)
    requires s.urrs == map[]
    ensures DoAll(s, d, [CreateUrr(u, urr, true, 0.0)]).sess == s.(urrs := map[u := UrrInfo(false, 0, 0)])
  {
    hide Driver.Apply;
    var op := CreateUrr(u, urr, true, 0.0);
    assert [op][..0] == [];
    assert s.urrs[u := UrrInfo(false, 0, 0)] == map[u := UrrInfo(false, 0, 0)];
  }

  lemma {:induction false} FreshlyEstablished(w: World, id: string, remoteId: nat, u: UrrId, urr: Urr)
    requires Inv(w) && Wired(w) && id in w.rnodes
    ensures var e := Establish(id, remoteId, [CreateUrr(u, urr, true, 0.0)]);
            var n := w.rnodes[id];
            var seid := NewSess(w, n, remoteId).1;
      && Possible(w, e) && Live(Step(w, e), seid)
      && SessOf(Step(w, e), seid) == Sess(seid, remoteId, n, map[], {}, {}, map[u := UrrInfo(false, 0, 0)], {})
      && Step(w, e).rnodes == w.rnodes
  {
    hide Inv, NewSess, DoAll;
    var n := w.rnodes[id];
    NewInv(w, n, remoteId);
    NewOne(w, n, remoteId);
    var (w1, seid) := NewSess(w, n, remoteId);
    OneUrr(SessOf(w1, seid), w1.driver, u, urr);
  }

  lemma {:induction false} NewOne(w: World, n: nat, remoteId: nat)
    requires Inv(w) && Wired(w) && n < |w.nodes|
    ensures var (w', seid) := NewSess(w, n, remoteId);
      && Live(w', seid) && SessOf(w', seid) == Sess(seid, remoteId, n, map[], {}, {}, map[], {})
  {
    hide Owned, Registered, Driver.Sound, Linked;
    NewLive(w, n, remoteId);
  }

  lemma {:induction false} NumberedFirst(s: Sess, r: Usage)
    requires r.urr in s.urrs && s.urrs[r.urr] == UrrInfo(false, 0, 0)
    ensures Number(s, [r], {}, false).1 == [Numbered(r, 0)]
  {
    assert r.triggers + {} == r.triggers;
    assert [r][1..] == [];
  }

  /** In every reachable state: if the session of a waiting report is deleted first, the report is
      lost; if the recycled SEID then goes to a new session with a URR of the same identifier, the
      report goes to the new session's peer as the first of that URR's series. */
  lemma {:induction false} StaleReport(s: System, i: nat, plan: seq<Request>, id: string, remoteId: nat, r: Usage, urr: Urr)
    requires Tracked(s) && i < |s.queue| && s.queue[i].reports == [r] && SameSession(s, s.queue[i])
    requires Live(s.world, s.queue[i].seid) && ClosePlan(SessOf(s.world, s.queue[i].seid), plan) && id in s.world.rnodes
    ensures var m := s.queue[i];
            var acts := Renewal(m.seid, plan, id, remoteId, r.urr, urr);
      && CanRun(s, acts)
      && Delivered(RunAll(s, acts[..1]).world, m) == Nothing
      && var t := RunAll(s, acts);
         && i < |t.queue| && t.queue[i] == m && !SameSession(t, m)
         && Delivered(t.world, m) == ToPeer(remoteId, [Numbered(r, 0)])
  {
    hide Inv, Step, Possible, ClosePlan, NewSess, Number, Wired, Live;
    var m := s.queue[i];
    var acts := Renewal(m.seid, plan, id, remoteId, r.urr, urr);
    var w := s.world;
    InvWired(w);
    CanDelete(w, m.seid, plan);
    DeletedThere(w, m.seid, plan);
    RegisteredIn(w, id);
    Leftovers.NextSessionInherits(w, m.seid, plan, w.rnodes[id], remoteId);
    var s1 := After(s, acts[0]);
    FreshlyEstablished(s1.world, id, remoteId, r.urr, urr);
    var s2 := After(s1, acts[1]);
    NumberedFirst(SessOf(s2.world, m.seid), r);
    ActTracked(s, acts[0]);
    TwoActs(s, acts[0], acts[1]);
    assert acts == [acts[0], acts[1]] && acts[..1] == [acts[0]];
    NeverAgain(s1, [acts[1]], m);
  }

  lemma {:induction false} CanDelete(w: World, seid: Seid, plan: seq<Request>)
    requires Wired(w) && Live(w, seid) && ClosePlan(SessOf(w, seid), plan)
    ensures Possible(w, Delete(seid, plan))
  {
  }

  lemma {:induction false} RegisteredIn(w: World, id: string)
    requires Inv(w) && id in w.rnodes
    ensures w.rnodes[id] < |w.nodes|
  {
  }

  lemma {:induction false} TwoActs(s: System, a: Act, b: Act)
    requires CanAct(s, a) && CanAct(After(s, a), b)
    ensures CanRun(s, [a]) && RunAll(s, [a]) == After(s, a)
    ensures CanRun(After(s, a), [b]) && RunAll(After(s, a), [b]) == After(After(s, a), b)
    ensures CanRun(s, [a, b]) && RunAll(s, [a, b]) == After(After(s, a), b)
  {
    hide CanAct, After;
    assert [a, b][1..] == [b];
  }

  // ---- a run in which it happens ----

  const LIMITED := Urr(false, 0.0, Some(1), None)
  const USED := Usage(1, {VOLTH}, 10, 10, 0, 1, 1, 0)
  const PACKET := Binding(1, 1, Driver.NO_PDR_CHANGE, None, [], [(1, LIMITED)], None)

  /** A session with one URR is established, and a packet takes the URR over its threshold. */
  const BEFORE := [
    Handle(Associate("smf", "A", [], map[])), Handle(Establish("smf", 10, [CreateUrr(1, LIMITED, true, 0.0)])),
    Measure(PACKET, 10, true)]

  function OneNode(): World { Leftovers.Single([], [], {}, Driver.INITIAL) }

  lemma {:induction false} NodeAssociated()
    ensures CanAct(EMPTY, BEFORE[0]) && After(EMPTY, BEFORE[0]) == System(OneNode(), [], map[], 1)
    ensures Inv(OneNode()) && Wired(OneNode()) && "smf" in OneNode().rnodes && OneNode().rnodes["smf"] == 0
  {
    hide Step, Possible, Inv;
    Leftovers.Associated();
    StartInv();
    StepInv(START, Leftovers.HANDOVER[0]);
    LiveOnes(OneNode());
  }

  lemma {:induction false} UrrInstalled(s: Sess, d: Driver.State)
    requires s.localId !in d.sessions
    ensures var d' := DoAll(s, d, [CreateUrr(1, LIMITED, true, 0.0)]).driver;
      s.localId in d'.sessions && d'.sessions[s.localId].urrReports == map[]
  {
    var op := CreateUrr(1, LIMITED, true, 0.0);
    assert [op][..0] == [];
    Driver.ApplyCreate(d, s.localId, op);
    hide Driver.Apply;
  }

  lemma {:induction false} UrrEstablished()
    ensures var w := OneNode(); var e := BEFORE[1].event;
      && Wired(w) && Possible(w, e)
      && var w' := Step(w, e);
         && Live(w', 1) && SessOf(w', 1) == Sess(1, 10, 0, map[], {}, {}, map[1 := UrrInfo(false, 0, 0)], {})
         && "smf" in w'.rnodes && 1 in w'.driver.sessions && w'.driver.sessions[1].urrReports == map[]
  {
    hide Inv, DoAll;
    NodeAssociated();
    FreshlyEstablished(OneNode(), "smf", 10, 1, LIMITED);
    UrrInstalled(Sess(1, 10, 0, map[], {}, {}, map[], {}), Driver.INITIAL);
  }

  lemma {:induction false} OverThreshold(d: Driver.State)
    requires 1 in d.sessions && d.sessions[1].urrReports == map[]
    ensures OverLimit(d, PACKET, 10, true) == [USED]
  {
    var urrs := PACKET.urrs;
    assert urrs[..0] == [];
    assert Driver.CountAll(map[], urrs, 10, true) == map[1 := [USED]] by {
      assert Driver.CountAll(map[], [], 10, true) == map[];
      assert {} + {VOLTH} + {} == {VOLTH};
    }
    assert DriverLoops.OverLimit(map[], [], 10, true) == [];
  }

  lemma {:induction false} OverThresholdWaits(s: System)
    requires Tracked(s) && s.queue == [] && BirthOf(s, 1) == Some(1) && Live(s.world, 1)
    requires 1 in s.world.driver.sessions && s.world.driver.sessions[1].urrReports == map[]
    ensures CanAct(s, BEFORE[2])
    ensures var t := After(s, BEFORE[2]);
      && Tracked(t) && t.queue == [Waiting(1, [USED], Some(1))] && BirthOf(t, 1) == Some(1)
      && t.world.rnodes == s.world.rnodes && Live(t.world, 1) && SessOf(t.world, 1) == SessOf(s.world, 1)
  {
    hide Step, Possible, Inv, Wired, Live;
    OverThreshold(s.world.driver);
    TrackedWired(s);
    MeterPossible(s.world);
    var t := After(s, BEFORE[2]);
    ActTracked(s, BEFORE[2]);
    MeterKeeps(s.world);
    LiveOnes(t.world);
    assert t.queue == [] + [Waiting(1, [USED], Some(1))];
  }

  /** After that run the report waits, and belongs to the session on SEID 1. */
  lemma {:induction false} ReportWaits()
    ensures CanRun(EMPTY, BEFORE)
    ensures var s := RunAll(EMPTY, BEFORE);
      && Tracked(s) && s.queue == [Waiting(1, [USED], Some(1))] && SameSession(s, s.queue[0])
      && Live(s.world, 1) && ClosePlan(SessOf(s.world, 1), [RemoveUrr(1)]) && "smf" in s.world.rnodes
  {
    hide Inv, Live, Tracked, CanAct, After, OneNode, ClosePlan;
    ClosesUrr();
    NodeAssociated();
    EmptyTracked();
    SecondBorn();
    ActTracked(EMPTY, BEFORE[0]);
    ActTracked(AfterFirst(), BEFORE[1]);
    OverThresholdWaits(After(AfterFirst(), BEFORE[1]));
    ThreeActs(EMPTY, BEFORE[0], BEFORE[1], BEFORE[2]);
  }

  lemma {:induction false} ClosesUrr()
    ensures ClosePlan(Sess(1, 10, 0, map[], {}, {}, map[1 := UrrInfo(false, 0, 0)], {}), [RemoveUrr(1)])
  {
    assert [RemoveUrr(1)][0] == RemoveUrr(1);
  }

  function AfterFirst(): System { System(OneNode(), [], map[], 1) }

  lemma {:induction false} SecondBorn()
    ensures CanAct(AfterFirst(), BEFORE[1])
    ensures var s := After(AfterFirst(), BEFORE[1]);
      && BirthOf(s, 1) == Some(1) && s.queue == [] && Live(s.world, 1)
      && SessOf(s.world, 1) == Sess(1, 10, 0, map[], {}, {}, map[1 := UrrInfo(false, 0, 0)], {})
      && "smf" in s.world.rnodes && 1 in s.world.driver.sessions && s.world.driver.sessions[1].urrReports == map[]
  {
    hide Step, Possible, Wired, Live;
    UrrEstablished();
    LiveOnes(After(AfterFirst(), BEFORE[1]).world);
  }

  lemma {:induction false} TrackedWired(s: System)
    requires Tracked(s)
    ensures Wired(s.world)
  {
    InvWired(s.world);
  }

  lemma {:induction false} MeterPossible(w: World)
    requires Wired(w)
    ensures Possible(w, Data(Driver.Counted(PACKET, 10, true)))
  {
  }

  lemma {:induction false} MeterKeeps(w: World)
    requires Wired(w) && Live(w, 1)
    ensures var e := Data(Driver.Counted(PACKET, 10, true));
      && Possible(w, e) && Step(w, e).rnodes == w.rnodes && Live(Step(w, e), 1) && SessOf(Step(w, e), 1) == SessOf(w, 1)
  {
    hide Driver.Step;
  }

  lemma {:induction false} ThreeActs(s: System, a: Act, b: Act, c: Act)
    requires CanAct(s, a) && CanAct(After(s, a), b) && CanAct(After(After(s, a), b), c)
    ensures CanRun(s, [a, b, c]) && RunAll(s, [a, b, c]) == After(After(After(s, a), b), c)
  {
    hide CanAct, After;
    assert [a, b, c][1..] == [b, c];
    TwoActs(After(s, a), b, c);
  }

  lemma {:induction false} RunOn(s: System, a: seq<Act>, b: seq<Act>)
    requires CanRun(s, a) && CanRun(RunAll(s, a), b)
    ensures CanRun(s, a + b) && RunAll(s, a + b) == RunAll(RunAll(s, a), b)
    decreases |a|
  {
    hide CanAct, After;
    if a == [] {
      assert a + b == b;
    } else {
      RunOn(After(s, a[0]), a[1..], b);
      assert (a + b)[1..] == a[1..] + b;
    }
  }

  /** Continued with the renewal, the run delivers what the session of peer SEID 10 used to peer SEID
      20, numbered 0. */
  lemma {:induction false} ReportMisdelivered()
    ensures var acts := BEFORE + Renewal(1, [RemoveUrr(1)], "smf", 20, 1, LIMITED);
      && CanRun(EMPTY, acts)
      && var t := RunAll(EMPTY, acts);
         |t.queue| > 0 && t.queue[0].reports == [USED] && Delivered(t.world, t.queue[0]) == ToPeer(20, [Numbered(USED, 0)])
  {
    hide CanRun, RunAll, Tracked, ClosePlan, SameSession, Live, Delivered;
    ReportWaits();
    var s := RunAll(EMPTY, BEFORE);
    StaleReport(s, 0, [RemoveUrr(1)], "smf", 20, USED, LIMITED);
    RunOn(EMPTY, BEFORE, Renewal(1, [RemoveUrr(1)], "smf", 20, 1, LIMITED));
  }
}
