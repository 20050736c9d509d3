/** What a waiting usage report holds, and a run in which a session's periodic report is the usage of
    the session that had its SEID before. */
module ForeignReport {
  import opened Rules
  import opened Session
  import opened Closing
  import opened Numbering
  import opened Node
  import opened ReportQueue
  import Turns
  import Books
  import Leftovers
  import NodeRuns
  import DriverLoops
  import Driver
  import U = UsageConservation

  // ---- a tick's message and the books ----

  lemma {:induction false} SumOfPeriodic(s: SessionState, now: Time, walk: seq<UrrId>, reports: seq<Usage>, u: UrrId,
          c: U.Counter)
    requires Driver.SoundReports(s.urrReports) && |reports| == |walk|
    requires forall i, j | 0 <= i < j < |walk| :: walk[i] != walk[j]
    requires forall i | 0 <= i < |walk| :: Driver.Due(s, walk[i], now) && reports[i] == Driver.PeriodicReport(s, walk[i])
    ensures u in walk ==> Driver.Due(s, u, now) && U.SumOf(reports, u, c) == U.Value(Driver.PeriodicReport(s, u), c)
    ensures u !in walk ==> U.SumOf(reports, u, c) == 0
    decreases |walk|
  {
    hide U.Value;
    if walk != [] {
      var n := |walk| - 1;
      SumOfPeriodic(s, now, walk[..n], reports[..n], u, c);
      assert walk == walk[..n] + [walk[n]];
      assert walk[n] in s.urrReports;
    }
  }

  lemma {:induction false} SentAt(s: System, a: ReportQueue.Act, m: Waiting)
    requires CanAct(s, a) && a.Tick? && m in Sends(s, a)
    ensures m.seid in a.due && m.reports == a.due[m.seid] && m.seid in s.world.driver.sessions
    ensures exists walk :: DriverLoops.PeriodicReports(s.world.driver.sessions[m.seid], a.now, walk, m.reports)
  {
    hide DriverLoops.PeriodicReports, Driver.Due, Wired, Possible;
    var i :| 0 <= i < |Sends(s, a)| && Sends(s, a)[i] == m;
    assert a.walk[i] in a.due;
  }

  /** The message of a tick holds exactly what the books say the tick takes from its session. */
  lemma {:induction false} MessageUsage(s: System, a: ReportQueue.Act, m: Waiting, u: UrrId, c: U.Counter)
    requires Tracked(s) && CanAct(s, a) && a.Tick? && m in Sends(s, a)
    ensures U.SumOf(m.reports, u, c) == U.ReportedBy(s.world.driver, Driver.Ticked(a.now), m.seid, u, c)
  {
    hide CanAct, Sends, Allocated, Owned, Registered, Linked, Driver.Due, U.SumOf, U.Value, Driver.PeriodicReport,
      Driver.SoundReports;
    var d := s.world.driver;
    SentAt(s, a, m);
    var t := d.sessions[m.seid];
    var walk :| DriverLoops.PeriodicReports(t, a.now, walk, m.reports);
    assert Driver.SoundSession(t);
    SumOfPeriodic(t, a.now, walk, m.reports, u, c);
  }

  function Wholes(events: seq<Event>): (turns: seq<Turns.Turn>)
    ensures |turns| == |events| && forall i | 0 <= i < |events| :: turns[i] == Turns.Whole(events[i])
  {
    seq(|events|, i requires 0 <= i < |events| => Turns.Whole(events[i]))
  }

  lemma {:induction false} WholesTaken(w: World, events: seq<Event>)
    requires PossibleRun(w, events)
    ensures Turns.CanTake(w, Wholes(events)) && Turns.Taken(w, Wholes(events)) == Run(w, events)
    decreases |events|
  {
    hide Step, Possible, Wired;
    if events != [] {
      WholesTaken(Step(w, events[0]), events[1..]);
      assert Wholes(events)[1..] == Wholes(events[1..]);
    }
  }

  /** The books of the SEID over a run of the whole. */
  ghost function QueueBook(acts: seq<ReportQueue.Act>, seid: Seid, u: UrrId, c: U.Counter): Books.Book
    requires CanRun(EMPTY, acts)
  {
    RunsTheServer(EMPTY, acts);
    WholesTaken(START, Events(EMPTY, acts));
    Books.BookAfter(Books.EMPTY_BOOK, START, Wholes(Events(EMPTY, acts)), seid, u, c)
  }

  /** Over every run from the start, with messages waiting or not: what the reports of the session on a
      SEID have taken of a URR and what its accumulator holds is what was metered on the SEID since the
      session was created plus what the driver held for it at that moment. */
  lemma {:induction false} QueueUsage(acts: seq<ReportQueue.Act>, seid: Seid, u: UrrId, c: U.Counter)
    requires CanRun(EMPTY, acts)
    ensures var s, b := RunAll(EMPTY, acts), QueueBook(acts, seid, u, c);
      && b.taken + U.Held(s.world.driver, seid, u, c) == b.inherited + b.metered
      && (!Live(s.world, seid) ==> b.taken == 0)
  {
    hide CanRun, RunAll, Events, PossibleRun, Run, Turns.Taken, Turns.CanTake, Books.BookAfter, U.Held, Live;
    RunsTheServer(EMPTY, acts);
    WholesTaken(START, Events(EMPTY, acts));
    Books.SessionUsage(Wholes(Events(EMPTY, acts)), seid, u, c);
  }

  // ---- single operations on the driver's only session ----

  /** A driver with one session, on SEID 1. */
  function Only(t: SessionState): Driver.State { Driver.State(map[1 := t], map[]) }

  lemma {:induction false} CreatesOnly(s: Sess, d: Driver.State, t: SessionState, op: Request)
    requires s.localId == 1 && Driver.Creates(op) && Driver.Decodes(op)
    requires (d == Driver.INITIAL && t == FRESH_SESSION) || d == Only(t)
    ensures Do(s, d, op) == Result(Noted(s, op), Only(Driver.After(t, op)), [], true)
  {
    hide Driver.Apply, Driver.After, Driver.Decodes, Refer;
    Driver.ApplyCreate(d, 1, op);
  }

  lemma {:induction false} RemovesOnly(s: Sess, t: SessionState, op: Request)
    requires s.localId == 1 && (op.RemoveFar? || op.RemoveUrr?) && Recorded(s, op) && Driver.Names(t, op)
    requires !Driver.Disposable(Driver.After(t, op)) && t.pdrs == map[]
    ensures Do(s, Only(t), op) == Result(Confirmed(Noted(s, op), op), Only(Driver.After(t, op)),
              if op.RemoveUrr? then Mark(Driver.Accumulated(t, op.uid), TERMR) else [], true)
  {
    hide Driver.Apply, Driver.After, Driver.Disposable, Driver.Names;
    Driver.ApplyRemove(Only(t), 1, op);
    assert Driver.Users(t, if op.RemoveFar? then op.fid else 0) == {};
    Driver.CancelNone(Only(t), 1);
  }

  lemma {:induction false} RefusedOnly(s: Sess, t: SessionState, u: UrrId)
    requires s.localId == 1 && u in s.urrs && u !in t.urrs
    ensures Do(s, Only(t), RemoveUrr(u)) == Result(Noted(s, RemoveUrr(u)), Only(t), [], false)
  {
    hide Driver.After, Driver.Cancelled;
  }

  lemma {:induction false} TwoOps(s: Sess, d: Driver.State, a: Request, b: Request)
    ensures DoAll(s, d, [a]) == Do(s, d, a).(ok := true)
    ensures var f := Do(s, d, a); var r := Do(f.sess, f.driver, b);
      DoAll(s, d, [a, b]) == Result(r.sess, r.driver, f.reports + r.reports, true)
  {
    hide Do;
    assert [a][..0] == [] && [a, b][..1] == [a] && [] + Do(s, d, a).reports == Do(s, d, a).reports;
  }

  // ---- the run ----

  const PERIODIC := Urr(true, 1.0, None, None)
  const CREATE := CreateUrr(1, PERIODIC, true, 0.0)
  const FIRST := [CreateFar(1, Leftovers.HOLD, true), CREATE]
  const PLAN := [RemoveFar(1), RemoveUrr(1)]
  const OLD := Binding(1, 1, Driver.NO_PDR_CHANGE, None, [], [(1, PERIODIC)], None)
  const VOLUME := Usage(1, {}, 10, 10, 0, 1, 1, 0)
  const REPORT := VOLUME.(triggers := {PERIO})

  /** A session is established with a FAR and a URR; the URR is removed; a worker meters a packet through
      a binding of before; the session is deleted; another is established with a periodic URR of the same
      identifier; its first tick comes. */
  const RUN := [
    Handle(Associate("smf", "A", [], map[])), Handle(Establish("smf", 10, FIRST)), Handle(Modify(1, None, [RemoveUrr(1)])),
    Measure(OLD, 10, true), Handle(Delete(1, PLAN)), Handle(Establish("smf", 20, [CREATE])),
    Tick(1.0, map[1 := [REPORT]], [1])]

  const T1 := FRESH_SESSION.(fars := map[1 := Leftovers.HOLD], urrs := map[1 := PERIODIC], urrPeriodAt := map[1 := 0.0])
  const T2 := FRESH_SESSION.(fars := map[1 := Leftovers.HOLD])
  const T3 := T2.(urrReports := map[1 := [VOLUME]])
  const T4 := FRESH_SESSION.(urrReports := map[1 := [VOLUME]])
  const T5 := T4.(urrs := map[1 := PERIODIC], urrPeriodAt := map[1 := 0.0])

  function Fresh(remoteId: nat): Sess { Sess(1, remoteId, 0, map[], {}, {}, map[], {}) }
  function WithUrr(removed: bool): Sess { Sess(1, 10, 0, map[], {1}, {}, map[1 := UrrInfo(removed, 0, 0)], {}) }
  function Second(): Sess { Sess(1, 20, 0, map[], {}, {}, map[1 := UrrInfo(false, 0, 0)], {}) }

  function World1(): World { Leftovers.Single([Some(WithUrr(false))], [], {1}, Only(T1)) }
  function World2(): World { Leftovers.Single([Some(WithUrr(true))], [], {1}, Only(T2)) }
  function World3(): World { Leftovers.Single([Some(WithUrr(true))], [], {1}, Only(T3)) }
  function World4(): World { Leftovers.Single([None], [1], {}, Only(T4)) }
  function World5(): World { Leftovers.Single([Some(Second())], [], {1}, Only(T5)) }

  lemma {:induction false} AfterCreations()
    ensures Driver.After(FRESH_SESSION, FIRST[0]) == T2 && Driver.After(T2, CREATE) == T1 && Driver.After(T4, CREATE) == T5
  {
    assert FRESH_SESSION.fars[1 := Leftovers.HOLD] == map[1 := Leftovers.HOLD];
    assert T2.urrs[1 := PERIODIC] == map[1 := PERIODIC] && T2.urrPeriodAt[1 := 0.0] == map[1 := 0.0];
    assert T4.urrs[1 := PERIODIC] == map[1 := PERIODIC] && T4.urrPeriodAt[1 := 0.0] == map[1 := 0.0];
  }

  lemma {:induction false} AfterRemovals()
    ensures Driver.Names(T1, RemoveUrr(1)) && Driver.After(T1, RemoveUrr(1)) == T2
    ensures Driver.Names(T3, RemoveFar(1)) && Driver.After(T3, RemoveFar(1)) == T4
    ensures !Driver.Disposable(T2) && !Driver.Disposable(T4)
  {
    assert T1.urrs - {1} == map[] && T1.urrPeriodAt - {1} == map[] && T1.urrReports - {1} == map[];
    assert T3.fars - {1} == map[];
    assert 1 in T2.fars && 1 in T4.urrReports;
  }

  lemma {:induction false} FirstOps()
    ensures DoAll(Fresh(10), Driver.INITIAL, FIRST) == Result(WithUrr(false), Only(T1), [], true)
  {
    hide Do, DoAll, Driver.After;
    AfterCreations();
    TwoOps(Fresh(10), Driver.INITIAL, FIRST[0], CREATE);
    CreatesOnly(Fresh(10), Driver.INITIAL, FRESH_SESSION, FIRST[0]);
    var s := Noted(Fresh(10), FIRST[0]);
    assert s == Fresh(10).(fars := {1}) by { assert {} + {1} == {1}; }
    CreatesOnly(s, Only(T2), T2, CREATE);
    assert s.urrs[1 := UrrInfo(false, 0, 0)] == map[1 := UrrInfo(false, 0, 0)];
  }

  lemma {:induction false} ModifyOps()
    ensures DoAll(WithUrr(false), Only(T1), [RemoveUrr(1)]) == Result(WithUrr(true), Only(T2), [], true)
  {
    hide Do, DoAll, Driver.After, Driver.Names, Driver.Disposable;
    AfterRemovals();
    TwoOps(WithUrr(false), Only(T1), RemoveUrr(1), RemoveUrr(1));
    RemovesOnly(WithUrr(false), T1, RemoveUrr(1));
    assert WithUrr(false).urrs[1 := UrrInfo(true, 0, 0)] == map[1 := UrrInfo(true, 0, 0)];
  }

  lemma {:induction false} CloseOps()
    ensures DoAll(WithUrr(true), Only(T3), PLAN).driver == Only(T4)
  {
    hide Do, DoAll, Driver.After, Driver.Names, Driver.Disposable;
    AfterRemovals();
    TwoOps(WithUrr(true), Only(T3), RemoveFar(1), RemoveUrr(1));
    RemovesOnly(WithUrr(true), T3, RemoveFar(1));
    RefusedOnly(WithUrr(true).(fars := {}), T4, 1);
    assert {1} - {1} == {};
  }

  lemma {:induction false} SecondOps()
    ensures DoAll(Fresh(20), Only(T4), [CREATE]) == Result(Second(), Only(T5), [], true)
  {
    hide Do, DoAll, Driver.After;
    AfterCreations();
    TwoOps(Fresh(20), Only(T4), CREATE, CREATE);
    CreatesOnly(Fresh(20), Only(T4), T4, CREATE);
    assert Fresh(20).urrs[1 := UrrInfo(false, 0, 0)] == map[1 := UrrInfo(false, 0, 0)];
  }

  lemma {:induction false} NewOnOne(w: World, remoteId: nat)
    requires w == OneNode() || w == World4()
    ensures Wired(w) && NewSess(w, 0, remoteId)
         == (Leftovers.Single([Some(Fresh(remoteId))], [], {1}, w.driver), 1)
  {
    assert w.free != [] ==> w.free[..0] == [];
    assert {} + {1} == {1};
    assert [RemoteNode("smf", "A", {})][0 := RemoteNode("smf", "A", {1})] == [RemoteNode("smf", "A", {1})];
    assert [None][0 := Some(Fresh(remoteId))] == [Some(Fresh(remoteId))];
    assert [] + [Some(Fresh(remoteId))] == [Some(Fresh(remoteId))];
  }

  lemma {:induction false} EstablishSteps()
    ensures Wired(OneNode()) && Possible(OneNode(), RUN[1].event) && Step(OneNode(), RUN[1].event) == World1()
    ensures Wired(World4()) && Possible(World4(), RUN[5].event) && Step(World4(), RUN[5].event) == World5()
  {
    hide DoAll, NewSess;
    NewOnOne(OneNode(), 10);
    NewOnOne(World4(), 20);
    FirstOps();
    SecondOps();
    assert [Some(Fresh(10))][0 := Some(WithUrr(false))] == [Some(WithUrr(false))];
    assert [Some(Fresh(20))][0 := Some(Second())] == [Some(Second())];
  }

  lemma {:induction false} ModifyStep()
    ensures Wired(World1()) && Possible(World1(), RUN[2].event) && Step(World1(), RUN[2].event) == World2()
  {
    hide DoAll;
    ModifyOps();
    assert [Some(WithUrr(false))][0 := Some(WithUrr(true))] == [Some(WithUrr(true))];
    assert [Some(WithUrr(true))][0 := Some(WithUrr(true))] == [Some(WithUrr(true))];
  }

  lemma {:induction false} CountsOld()
    ensures Driver.CountAll(map[], OLD.urrs, 10, true) == map[1 := [VOLUME]]
    ensures DriverLoops.OverLimit(map[], OLD.urrs, 10, true) == []
  {
    assert OLD.urrs[..0] == [];
    assert Driver.CountAll(map[], [], 10, true) == map[];
  }

  lemma {:induction false} MeasureStep()
    ensures Wired(World2()) && Possible(World2(), Data(Driver.Counted(OLD, 10, true)))
    ensures Step(World2(), Data(Driver.Counted(OLD, 10, true))) == World3()
    ensures OverLimit(World2().driver, OLD, 10, true) == []
  {
    CountsOld();
    hide Driver.CountAll, DriverLoops.OverLimit;
    assert Driver.Step(Only(T2), Driver.Counted(OLD, 10, true)) == Only(T3);
  }

  lemma {:induction false} DeleteStep()
    ensures Wired(World3()) && Possible(World3(), RUN[4].event) && Step(World3(), RUN[4].event) == World4()
  {
    hide DoAll, ClosePlan;
    CloseOps();
    Planned();
    assert {1} - {1} == {} && [] + [1] == [1];
    assert [Some(WithUrr(true))][0 := None] == [None];
  }

  lemma {:induction false} Planned()
    ensures ClosePlan(WithUrr(true), PLAN)
  {
    assert PLAN[0] == RemoveFar(1) && PLAN[1] == RemoveUrr(1);
  }

  lemma {:induction false} TickCollects()
    ensures Collects(Only(T5), 1.0, map[1 := [REPORT]])
  {
    var t := T5;
    assert Driver.Due(t, 1, 1.0) && Driver.PeriodicReport(t, 1) == REPORT;
    forall u | u != 1 ensures !Driver.Due(t, u, 1.0) {}
    assert DriverLoops.PeriodicReports(t, 1.0, [1], [REPORT]);
  }

  function System1(): System { System(World1(), [], map[1 := 1], 2) }
  function System2(): System { System(World2(), [], map[1 := 1], 3) }
  function System3(): System { System(World3(), [], map[1 := 1], 4) }
  function System4(): System { System(World4(), [], map[], 5) }
  function System5(): System { System(World5(), [], map[1 := 5], 6) }

  /** The births after a step to a world with one slot. */
  lemma {:induction false} BirthsOne(was: map<Seid, nat>, w: World, clock: nat)
    requires |w.slots| == 1
    ensures Births(was, w, clock) ==
      if w.slots[0].Some? then map[1 := if 1 in was then was[1] else clock] else map[]
  {
    forall k: Seid ensures Live(w, k) <==> k == 1 && w.slots[0].Some? {}
    assert NodeRuns.LiveSeids(w) == if w.slots[0].Some? then {1} else {};
  }

  lemma {:induction false} Handles(s: System, e: Event, w: World)
    requires !e.Report? && !e.Data? && |w.slots| == 1
    requires Wired(s.world) && Possible(s.world, e) && Step(s.world, e) == w
    ensures CanAct(s, Handle(e))
    ensures After(s, Handle(e)) == System(w, s.queue, Births(s.births, w, s.clock), s.clock + 1)
  {
    hide Step, Possible, Wired, Births;
    assert s.queue + [] == s.queue;
  }

  lemma {:induction false} EstablishesFirst()
    ensures CanAct(AfterFirst(), RUN[1]) && After(AfterFirst(), RUN[1]) == System1()
  {
    hide Step, Possible, Wired, Births, CanAct, After;
    EstablishSteps();
    Handles(AfterFirst(), RUN[1].event, World1());
    BirthsOne(map[], World1(), 1);
  }

  lemma {:induction false} Modifies()
    ensures CanAct(System1(), RUN[2]) && After(System1(), RUN[2]) == System2()
  {
    hide Step, Possible, Wired, Births, CanAct, After;
    ModifyStep();
    Handles(System1(), RUN[2].event, World2());
    BirthsOne(map[1 := 1], World2(), 2);
  }

  lemma {:induction false} MeasuresLate()
    ensures CanAct(System2(), RUN[3]) && After(System2(), RUN[3]) == System3()
  {
    hide Step, Possible, Wired, Births, OverLimit;
    MeasureStep();
    BirthsOne(map[1 := 1], World3(), 3);
  }

  lemma {:induction false} Deletes()
    ensures CanAct(System3(), RUN[4]) && After(System3(), RUN[4]) == System4()
  {
    hide Step, Possible, Wired, Births, CanAct, After;
    DeleteStep();
    Handles(System3(), RUN[4].event, World4());
    BirthsOne(map[1 := 1], World4(), 4);
  }

  lemma {:induction false} EstablishesSecond()
    ensures CanAct(System4(), RUN[5]) && After(System4(), RUN[5]) == System5()
  {
    hide Step, Possible, Wired, Births, CanAct, After;
    EstablishSteps();
    Handles(System4(), RUN[5].event, World5());
    BirthsOne(map[], World5(), 5);
  }

  lemma {:induction false} CanTick()
    ensures CanAct(System5(), RUN[6])
    ensures Wired(World5()) && Possible(World5(), Data(Driver.Ticked(1.0)))
    ensures Step(World5(), Data(Driver.Ticked(1.0))).slots == World5().slots
  {
    hide Collects, Driver.Step;
    TickCollects();
    WorldWired();
    assert map[1 := [REPORT]].Keys == {1};
  }

  lemma {:induction false} SendsOne()
    ensures forall k | k in RUN[6].walk :: k in RUN[6].due
    ensures Sends(System5(), RUN[6]) == [Waiting(1, [REPORT], Some(5))]
  {
  }

  /** The tick queues the message, and the session on the SEID stays. */
  lemma {:induction false} Ticks()
    ensures CanAct(System5(), RUN[6])
    ensures var s := After(System5(), RUN[6]);
      && s.queue == [Waiting(1, [REPORT], Some(5))] && BirthOf(s, 1) == Some(5)
      && s.world.slots == World5().slots
  {
    hide Births, CanAct, Step, Sends, World5;
    CanTick();
    SendsOne();
    OneSlot();
    BirthsOne(map[1 := 5], Step(World5(), Data(Driver.Ticked(1.0))), 6);
    assert [] + [Waiting(1, [REPORT], Some(5))] == [Waiting(1, [REPORT], Some(5))];
  }

  lemma {:induction false} OneSlot()
    ensures World5().slots == [Some(Second())]
  {
  }

  lemma {:induction false} WorldWired()
    ensures Wired(World5())
  {
  }

  /** The run is possible.  At its end the second session is alive on SEID 1, nothing has been metered
      since the first one was deleted, and the waiting message delivers what was metered under that one to
      the second one's peer, as number 0 of its series. */
  lemma {:induction false} UsageMisdelivered()
    ensures CanRun(EMPTY, RUN) && RUN[4].event.Delete? && forall i | 4 <= i < |RUN| :: !RUN[i].Measure?
    ensures var s := RunAll(EMPTY, RUN);
      && s.queue == [Waiting(1, [REPORT], Some(5))] && SameSession(s, s.queue[0])
      && Live(s.world, 1) && SessOf(s.world, 1).remoteId == 20
      && Delivered(s.world, s.queue[0]) == ToPeer(20, [Numbered(REPORT, 0)])
  {
    hide CanAct, After, Wired, Number, Births;
    NodeAssociated();
    EstablishesFirst();
    Modifies();
    MeasuresLate();
    Deletes();
    EstablishesSecond();
    Ticks();
    NumberedFirst(Second(), REPORT);
    SevenActs(EMPTY, RUN);
  }

  lemma {:induction false} SevenActs(s: System, acts: seq<ReportQueue.Act>)
    requires |acts| == 7 && CanAct(s, acts[0])
    requires var s1 := After(s, acts[0]);
      && CanAct(s1, acts[1]) && var s2 := After(s1, acts[1]);
      && CanAct(s2, acts[2]) && var s3 := After(s2, acts[2]);
      && CanAct(s3, acts[3]) && var s4 := After(s3, acts[3]);
      && CanAct(s4, acts[4]) && var s5 := After(s4, acts[4]);
      && CanAct(s5, acts[5]) && CanAct(After(s5, acts[5]), acts[6])
    ensures CanRun(s, acts)
    ensures RunAll(s, acts) == After(After(After(After(After(After(After(s, acts[0]), acts[1]), acts[2]), acts[3]),
                                   acts[4]), acts[5]), acts[6])
  {
    hide CanAct, After;
    var s1 := After(s, acts[0]);
    var s4 := After(After(After(s1, acts[1]), acts[2]), acts[3]);
    ThreeActs(s4, acts[4], acts[5], acts[6]);
    ThreeActs(s1, acts[1], acts[2], acts[3]);
    RunOn(s1, [acts[1], acts[2], acts[3]], [acts[4], acts[5], acts[6]]);
    assert acts[1..] == [acts[1], acts[2], acts[3]] + [acts[4], acts[5], acts[6]];
  }
}
