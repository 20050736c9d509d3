/** Whose usage a session's reports hold.  The server's runs as runs of the driver, and the balance of
    one SEID from the birth of each session on it to the next. */
module Books {
  import opened Rules
  import opened Session
  import opened Closing
  import opened Numbering
  import opened Node
  import opened Interleaved
  import opened Turns
  import opened U = UsageConservation
  import Leftovers
  import NodeRuns
  import Driver

  // ---- the steps of the driver in a run of the server ----

  ghost function DeleteTrace(w: World, n: nat, seid: Seid, plan: seq<Request>): seq<Driver.Event>
    requires n < |w.nodes|
  {
    if seid in w.nodes[n].sess && Live(w, seid) then Trace(SessOf(w, seid), w.driver, Asks(plan)) else []
  }

  ghost function ResetTrace(w: World, n: nat, order: seq<Seid>, plans: Plans): seq<Driver.Event>
    requires n < |w.nodes| && forall i | 0 <= i < |order| :: order[i] in plans
    decreases |order|
  {
    if order == [] then []
    else
      var k := |order| - 1;
      ResetTrace(w, n, order[..k], plans) + DeleteTrace(Reset(w, n, order[..k], plans), n, order[k], plans[order[k]])
  }

  ghost function EventTrace(w: World, e: Event): seq<Driver.Event>
    requires Wired(w) && Possible(w, e)
  {
    match e
    case Associate(id, _, order, plans) => if id in w.rnodes then ResetTrace(w, w.rnodes[id], order, plans) else []
    case Establish(id, remoteId, ops) =>
      if id !in w.rnodes then []
      else
        var (w1, seid) := NewSess(w, w.rnodes[id], remoteId);
        Trace(SessOf(w1, seid), w.driver, Asks(ops))
    case Modify(seid, _, ops) => if Live(w, seid) then Trace(SessOf(w, seid), w.driver, Asks(ops)) else []
    case Delete(seid, plan) => if Live(w, seid) then DeleteTrace(w, SessOf(w, seid).owner, seid, plan) else []
    case PeerForgot(remoteId, addr, plan) =>
      var f := RemoteSess(w, remoteId, addr, 0);
      if f.Found? then DeleteTrace(w, SessOf(w, f.seid).owner, f.seid, plan) else []
    case Report(_, _) => []
    case Data(d) => [d]
  }

  ghost function TurnTrace(w: World, t: Turn): seq<Driver.Event>
    requires Wired(w) && CanTurn(w, t)
  {
    match t
    case Whole(e) => EventTrace(w, e)
    case Requested(seid, parts) => if Live(w, seid) then Trace(SessOf(w, seid), w.driver, parts) else []
    case Closed(seid, parts) => if Live(w, seid) then Trace(SessOf(w, seid), w.driver, parts) else []
  }

  ghost function AllTrace(w: World, turns: seq<Turn>): seq<Driver.Event>
    requires CanTake(w, turns)
    decreases |turns|
  {
    if turns == [] then [] else TurnTrace(w, turns[0]) + AllTrace(Took(w, turns[0]), turns[1..])
  }

  lemma {:induction false} RunConcat(d: Driver.State, a: seq<Driver.Event>, b: seq<Driver.Event>)
    ensures Driver.Run(d, a + b) == Driver.Run(Driver.Run(d, a), b)
    decreases |a|
  {
    hide Driver.Step;
    if a == [] {
      assert a + b == b;
    } else {
      assert (a + b)[1..] == a[1..] + b;
      RunConcat(Driver.Step(d, a[0]), a[1..], b);
    }
  }

  lemma {:induction false} RunsNothing(d: Driver.State)
    ensures Driver.Run(d, []) == d
  {
  }

  lemma {:induction false} RunsOne(d: Driver.State, e: Driver.Event)
    ensures Driver.Run(d, [e]) == Driver.Step(d, e)
  {
    hide Driver.Step;
  }

  lemma {:induction false} AsksDrive(s: Sess, d: Driver.State, ops: seq<Request>)
    ensures DoAll(s, d, ops).driver == Driver.Run(d, Trace(s, d, Asks(ops)))
  {
    hide DoAll, Work, Trace, Driver.Run;
    Undisturbed(s, d, ops);
    WorkDrives(s, d, Asks(ops));
  }

  lemma {:induction false} DeleteDrives(w: World, n: nat, seid: Seid, plan: seq<Request>)
    requires n < |w.nodes|
    ensures DeleteSess(w, n, seid, plan).driver == Driver.Run(w.driver, DeleteTrace(w, n, seid, plan))
  {
    hide DoAll, Trace, Driver.Run;
    RunsNothing(w.driver);
    if seid in w.nodes[n].sess && Live(w, seid) { AsksDrive(SessOf(w, seid), w.driver, plan); }
  }

  lemma {:induction false} ResetDrives(w: World, n: nat, order: seq<Seid>, plans: Plans)
    requires n < |w.nodes| && forall i | 0 <= i < |order| :: order[i] in plans
    ensures Reset(w, n, order, plans).driver == Driver.Run(w.driver, ResetTrace(w, n, order, plans))
    decreases |order|
  {
    hide DeleteSess, DeleteTrace, Driver.Run;
    RunsNothing(w.driver);
    if order != [] {
      var k := |order| - 1;
      var f := Reset(w, n, order[..k], plans);
      ResetDrives(w, n, order[..k], plans);
      DeleteDrives(f, n, order[k], plans[order[k]]);
      RunConcat(w.driver, ResetTrace(w, n, order[..k], plans), DeleteTrace(f, n, order[k], plans[order[k]]));
    }
  }

  lemma {:induction false} EventDrives(w: World, e: Event)
    requires Wired(w) && Possible(w, e)
    ensures Step(w, e).driver == Driver.Run(w.driver, EventTrace(w, e))
  {
    hide DeleteSess, DeleteTrace, DoAll, Trace, Number, Reset, ResetTrace, Driver.Run, Driver.Step, ClosePlan, HandlerOrder;
    RunsNothing(w.driver);
    match e
    case Associate(id, _, order, plans) => if id in w.rnodes { ResetDrives(w, w.rnodes[id], order, plans); }
    case Establish(id, remoteId, ops) =>
      if id in w.rnodes {
        var (w1, seid) := NewSess(w, w.rnodes[id], remoteId);
        AsksDrive(SessOf(w1, seid), w.driver, ops);
      }
    case Modify(seid, _, ops) => if Live(w, seid) { AsksDrive(SessOf(w, seid), w.driver, ops); }
    case Delete(seid, plan) => if Live(w, seid) { DeleteDrives(w, SessOf(w, seid).owner, seid, plan); }
    case PeerForgot(remoteId, addr, plan) =>
      var f := RemoteSess(w, remoteId, addr, 0);
      if f.Found? { DeleteDrives(w, SessOf(w, f.seid).owner, f.seid, plan); }
    case Report(_, _) =>
    case Data(d) => RunsOne(w.driver, d);
  }

  lemma {:induction false} TurnDrives(w: World, t: Turn)
    requires Wired(w) && CanTurn(w, t)
    ensures Took(w, t).driver == Driver.Run(w.driver, TurnTrace(w, t))
  {
    hide Step, Possible, EventTrace, Work, Trace, Number, Driver.Run, ClosePlan;
    RunsNothing(w.driver);
    match t
    case Whole(e) => EventDrives(w, e);
    case Requested(seid, parts) => if Live(w, seid) { WorkDrives(SessOf(w, seid), w.driver, parts); }
    case Closed(seid, parts) => if Live(w, seid) { WorkDrives(SessOf(w, seid), w.driver, parts); }
  }

  /** Every run of the server is a run of the driver, so the theorems about runs of the driver hold of
      its traces. */
  lemma {:induction false} ServerDrives(w: World, turns: seq<Turn>)
    requires CanTake(w, turns)
    ensures Taken(w, turns).driver == Driver.Run(w.driver, AllTrace(w, turns))
    decreases |turns|
  {
    hide Took, CanTurn, TurnTrace, Driver.Run, Wired;
    RunsNothing(w.driver);
    if turns != [] {
      var w1 := Took(w, turns[0]);
      TurnDrives(w, turns[0]);
      ServerDrives(w1, turns[1..]);
      RunConcat(w.driver, TurnTrace(w, turns[0]), AllTrace(w1, turns[1..]));
    }
  }

  // ---- what a turn asks of the driver ----

  /** No rule request on the SEID. */
  predicate Spares(trace: seq<Driver.Event>, seid: Seid) {
    forall i | 0 <= i < |trace| && trace[i].Control? :: trace[i].seid != seid
  }

  lemma {:induction false} SparesBoth(a: seq<Driver.Event>, b: seq<Driver.Event>, seid: Seid)
    requires Spares(a, seid) && Spares(b, seid)
    ensures Spares(a + b, seid)
  {
  }

  lemma {:induction false} TraceSpares(s: Sess, d: Driver.State, parts: seq<Part>, seid: Seid)
    requires DataOnly(parts) && seid != s.localId
    ensures Spares(Trace(s, d, parts), seid)
    decreases |parts|
  {
    hide Work, Recorded;
    if parts != [] {
      TraceSpares(s, d, parts[..|parts| - 1], seid);
    }
  }

  lemma {:induction false} AsksSpare(s: Sess, d: Driver.State, ops: seq<Request>, seid: Seid)
    requires seid != s.localId
    ensures Spares(Trace(s, d, Asks(ops)), seid)
  {
    hide Trace, Spares;
    TraceSpares(s, d, Asks(ops), seid);
  }

  lemma {:induction false} DeleteSpares(w: World, n: nat, seid: Seid, plan: seq<Request>, k: Seid)
    requires Inv(w) && n < |w.nodes| && !Live(w, k)
    ensures Spares(DeleteTrace(w, n, seid, plan), k)
  {
    hide Owned, Registered, Linked, Driver.Sound, Trace;
    if seid in w.nodes[n].sess && Live(w, seid) { AsksSpare(SessOf(w, seid), w.driver, plan, k); }
  }

  lemma {:induction false} ResetSpares(w: World, n: nat, order: seq<Seid>, plans: Plans, k: Seid)
    requires Inv(w) && n < |w.nodes| && !Live(w, k)
    requires forall i, j | 0 <= i < j < |order| :: order[i] != order[j]
    requires forall i | 0 <= i < |order| :: order[i] in w.nodes[n].sess
    requires PlansFor(w, order, plans)
    ensures Spares(ResetTrace(w, n, order, plans), k)
    decreases |order|
  {
    hide Inv, Live, DeleteTrace, Spares, ClosePlan, Reset, GaveUp;
    if order == [] {
      NothingSpares(k);
    } else {
      var j := |order| - 1;
      ResetSpares(w, n, order[..j], plans, k);
      ResetInv(w, n, order[..j], plans);
      var f := Reset(w, n, order[..j], plans);
      DeadAfter(w, f, order[..j], k);
      DeleteSpares(f, n, order[j], plans[order[j]], k);
      SparesBoth(ResetTrace(w, n, order[..j], plans), DeleteTrace(f, n, order[j], plans[order[j]]), k);
    }
  }

  lemma {:induction false} DeadAfter(w: World, f: World, gone: seq<Seid>, k: Seid)
    requires !Live(w, k) && (forall x: Seid | x !in gone :: Untouched(w, f, x)) && (forall x: Seid | x in gone :: !Live(f, x))
    ensures !Live(f, k)
  {
    hide Live, Driver.Lookup;
    if k !in gone { assert Untouched(w, f, k); }
  }

  lemma {:induction false} NothingSpares(k: Seid)
    ensures Spares([], k)
  {
  }

  lemma {:induction false} EventSpares(w: World, e: Event, k: Seid)
    requires Inv(w) && Wired(w) && Possible(w, e) && !Live(w, k) && !Live(Step(w, e), k)
    ensures Spares(EventTrace(w, e), k)
  {
    hide Step, Inv, Live, DeleteTrace, Spares, ClosePlan, ResetTrace, Trace, HandlerOrder;
    NothingSpares(k);
    match e
    case Associate(id, _, order, plans) =>
      if id in w.rnodes {
        assert forall i | 0 <= i < |order| :: order[i] in w.nodes[w.rnodes[id]].sess;
        ResetSpares(w, w.rnodes[id], order, plans, k);
      }
    case Establish(id, remoteId, ops) =>
      if id in w.rnodes {
        EstablishedLives(w, id, remoteId, ops);
        var (w1, seid) := NewSess(w, w.rnodes[id], remoteId);
        AsksSpare(SessOf(w1, seid), w.driver, ops, k);
      }
    case Modify(seid, _, ops) =>
      if Live(w, seid) {
        LocalIdIs(w, seid);
        AsksSpare(SessOf(w, seid), w.driver, ops, k);
      }
    case Delete(seid, plan) =>
      if Live(w, seid) {
        OwnerInRange(w, seid);
        DeleteSpares(w, SessOf(w, seid).owner, seid, plan, k);
      }
    case PeerForgot(remoteId, addr, plan) =>
      var f := RemoteSess(w, remoteId, addr, 0);
      if f.Found? {
        OwnerInRange(w, f.seid);
        DeleteSpares(w, SessOf(w, f.seid).owner, f.seid, plan, k);
      }
    case Report(_, _) =>
    case Data(d) => OneSpares(d, k);
  }

  lemma {:induction false} OneSpares(d: Driver.Event, k: Seid)
    requires !d.Control?
    ensures Spares([d], k)
  {
  }

  lemma {:induction false} LocalIdIs(w: World, seid: Seid)
    requires Inv(w) && Live(w, seid)
    ensures SessOf(w, seid).localId == seid
  {
  }

  lemma {:induction false} EstablishedLives(w: World, id: string, remoteId: nat, ops: seq<Request>)
    requires Inv(w) && Wired(w) && id in w.rnodes
    ensures var (w1, seid) := NewSess(w, w.rnodes[id], remoteId);
      && Live(Step(w, Establish(id, remoteId, ops)), seid)
      && Live(w1, seid) && SessOf(w1, seid).localId == seid
  {
    hide Inv, NewSess, Operate, Live;
    NewInv(w, w.rnodes[id], remoteId);
    var (w1, seid) := NewSess(w, w.rnodes[id], remoteId);
    NodeRuns.OperateOwners(w1, seid, ops);
    LocalIdIs(w1, seid);
  }

  /** A turn that begins and ends without a session on the SEID asks nothing of the driver for it. */
  lemma {:induction false} TurnSpares(w: World, t: Turn, k: Seid)
    requires Inv(w) && Wired(w) && CanTurn(w, t) && !Live(w, k) && !Live(Took(w, t), k)
    ensures Spares(TurnTrace(w, t), k)
  {
    hide Inv, Step, Possible, EventTrace, Trace, Live, ClosePlan, Spares, Renumber, WithoutSess, Worked, DataOnly;
    NothingSpares(k);
    match t
    case Whole(e) => EventSpares(w, e, k);
    case Requested(seid, parts) =>
      if Live(w, seid) {
        LocalIdIs(w, seid);
        TraceSpares(SessOf(w, seid), w.driver, parts, k);
      }
    case Closed(seid, parts) =>
      if Live(w, seid) {
        LocalIdIs(w, seid);
        TraceSpares(SessOf(w, seid), w.driver, parts, k);
      }
  }

  // ---- a SEID without a session ----

  lemma {:induction false} SparedStep(d: Driver.State, e: Driver.Event, seid: Seid, u: UrrId, c: Counter)
    requires Driver.NoRules(Driver.Lookup(d, seid)) && (e.Control? ==> e.seid != seid)
    ensures Driver.NoRules(Driver.Lookup(Driver.Step(d, e), seid)) && ReportedBy(d, e, seid, u, c) == 0
    ensures seid !in d.sessions ==> seid !in Driver.Step(d, e).sessions && MeteredBy(d, e, seid, u, c) == 0
  {
    hide Driver.Step, Driver.Lookup, Driver.NoRules, Driver.Apply, SumOf;
    if e.Control? {
      ControlElsewhere(d, e, seid);
    } else {
      DataKeepsRules(d, e, seid);
      SameNoRules(Driver.Lookup(d, seid), Driver.Lookup(Driver.Step(d, e), seid));
      DataMakesNone(d, e, seid);
      NotDueWithout(d, e, seid, u);
    }
  }

  lemma {:induction false} ControlElsewhere(d: Driver.State, e: Driver.Event, seid: Seid)
    requires e.Control? && e.seid != seid
    ensures Driver.Lookup(Driver.Step(d, e), seid) == Driver.Lookup(d, seid)
    ensures seid in Driver.Step(d, e).sessions <==> seid in d.sessions
  {
    hide Driver.Apply, Driver.Lookup;
    ApplyFrame(d, e.seid, e.req, seid);
  }

  lemma {:induction false} SameNoRules(t: SessionState, t': SessionState)
    requires SameInstalled(t, t')
    ensures Driver.NoRules(t) <==> Driver.NoRules(t')
  {
  }

  lemma {:induction false} DataMakesNone(d: Driver.State, e: Driver.Event, seid: Seid)
    requires !e.Control?
    ensures seid in Driver.Step(d, e).sessions <==> seid in d.sessions
  {
    hide Driver.CountAll, Driver.TickSession, Driver.StartFlow, Driver.EndFlow, Driver.Enqueue, Driver.Apply;
  }

  lemma {:induction false} NotDueWithout(d: Driver.State, e: Driver.Event, seid: Seid, u: UrrId)
    requires Driver.NoRules(Driver.Lookup(d, seid))
    ensures e.Ticked? && seid in d.sessions ==> !Driver.Due(d.sessions[seid], u, e.now)
  {
  }

  lemma {:induction false} SparedRun(d: Driver.State, trace: seq<Driver.Event>, seid: Seid, u: UrrId, c: Counter)
    requires Driver.NoRules(Driver.Lookup(d, seid)) && Spares(trace, seid)
    ensures Reported(d, trace, seid, u, c) == 0
    ensures seid !in d.sessions ==> seid !in Driver.Run(d, trace).sessions && Metered(d, trace, seid, u, c) == 0
    decreases |trace|
  {
    hide Driver.Step, Driver.Lookup, Driver.NoRules, ReportedBy, MeteredBy;
    if trace != [] {
      SparedStep(d, trace[0], seid, u, c);
      SparedRun(Driver.Step(d, trace[0]), trace[1..], seid, u, c);
    }
  }

  // ---- the books of one SEID ----

  /** Since the last birth or death on the SEID: what the driver held of the URR then, what was metered
      since, and what periodic and final reports have taken since. */
  datatype Book = Book(inherited: nat, metered: nat, taken: nat)

  ghost function TurnMetered(w: World, t: Turn, seid: Seid, u: UrrId, c: Counter): nat
    requires Wired(w) && CanTurn(w, t)
  {
    Metered(w.driver, TurnTrace(w, t), seid, u, c)
  }

  ghost function TurnReported(w: World, t: Turn, seid: Seid, u: UrrId, c: Counter): nat
    requires Wired(w) && CanTurn(w, t)
  {
    Reported(w.driver, TurnTrace(w, t), seid, u, c)
  }

  /** A birth opens a new book with what the driver holds, and so does a death. */
  ghost function Entered(b: Book, w: World, t: Turn, seid: Seid, u: UrrId, c: Counter): Book
    requires Wired(w) && CanTurn(w, t)
  {
    var w' := Took(w, t);
    if Live(w, seid) && !Live(w', seid) then Book(Held(w'.driver, seid, u, c), 0, 0)
    else
      var start := if !Live(w, seid) && Live(w', seid) then Book(Held(w.driver, seid, u, c), 0, 0) else b;
      start.(metered := start.metered + TurnMetered(w, t, seid, u, c),
             taken := start.taken + TurnReported(w, t, seid, u, c))
  }

  ghost function BookAfter(b: Book, w: World, turns: seq<Turn>, seid: Seid, u: UrrId, c: Counter): Book
    requires CanTake(w, turns)
    decreases |turns|
  {
    if turns == [] then b else BookAfter(Entered(b, w, turns[0], seid, u, c), Took(w, turns[0]), turns[1..], seid, u, c)
  }

  /** The book balances, and nothing is taken while there is no session. */
  ghost predicate Balances(b: Book, w: World, seid: Seid, u: UrrId, c: Counter) {
    && b.taken + Held(w.driver, seid, u, c) == b.inherited + b.metered
    && (!Live(w, seid) ==> b.taken == 0)
  }

  lemma {:induction false} TurnBalance(w: World, t: Turn, seid: Seid, u: UrrId, c: Counter)
    requires Inv(w) && Wired(w) && CanTurn(w, t)
    ensures Held(w.driver, seid, u, c) + TurnMetered(w, t, seid, u, c)
         == TurnReported(w, t, seid, u, c) + Held(Took(w, t).driver, seid, u, c)
    ensures !Live(w, seid) && !Live(Took(w, t), seid) ==> TurnReported(w, t, seid, u, c) == 0
  {
    hide Allocated, Owned, Registered, Driver.Sound, Took, CanTurn, TurnTrace, Metered, Reported, Held, Driver.Run, Wired,
      Live, Driver.Lookup, Driver.NoRules;
    TurnDrives(w, t);
    ConservationFrom(w.driver, TurnTrace(w, t), seid, u, c);
    if !Live(w, seid) && !Live(Took(w, t), seid) {
      TurnSpares(w, t, seid);
      assert Linked(w, seid);
      SparedRun(w.driver, TurnTrace(w, t), seid, u, c);
    }
  }

  lemma {:induction false} EntryBalances(b: Book, w: World, t: Turn, seid: Seid, u: UrrId, c: Counter)
    requires Inv(w) && Wired(w) && CanTurn(w, t) && Balances(b, w, seid, u, c)
    ensures Balances(Entered(b, w, t, seid, u, c), Took(w, t), seid, u, c)
  {
    hide Inv, Took, CanTurn, TurnTrace, Metered, Reported, Held, Wired, Live, TurnMetered, TurnReported;
    TurnBalance(w, t, seid, u, c);
  }

  lemma {:induction false} BooksBalance(b: Book, w: World, turns: seq<Turn>, seid: Seid, u: UrrId, c: Counter)
    requires Inv(w) && CanTake(w, turns) && Balances(b, w, seid, u, c)
    ensures Balances(BookAfter(b, w, turns, seid, u, c), Taken(w, turns), seid, u, c)
    decreases |turns|
  {
    hide Inv, Took, CanTurn, Wired, Entered, Balances;
    if turns != [] {
      EntryBalances(b, w, turns[0], seid, u, c);
      TurnInv(w, turns[0]);
      BooksBalance(Entered(b, w, turns[0], seid, u, c), Took(w, turns[0]), turns[1..], seid, u, c);
    }
  }

  const EMPTY_BOOK := Book(0, 0, 0)

  /** Over every run from the start, whatever falls between the operations of requests: what the reports
      of the session on a SEID have taken of a URR and what its accumulator holds is what was metered on
      the SEID since the session was created plus what the driver held for it at that moment. */
  lemma {:induction false} SessionUsage(turns: seq<Turn>, seid: Seid, u: UrrId, c: Counter)
    requires CanTake(START, turns)
    ensures var w, b := Taken(START, turns), BookAfter(EMPTY_BOOK, START, turns, seid, u, c);
      && b.taken + Held(w.driver, seid, u, c) == b.inherited + b.metered
      && (!Live(w, seid) ==> b.taken == 0)
  {
    hide Inv, CanTake, Taken, BookAfter;
    StartInv();
    StartBalances(seid, u, c);
    BooksBalance(EMPTY_BOOK, START, turns, seid, u, c);
  }

  lemma {:induction false} StartBalances(seid: Seid, u: UrrId, c: Counter)
    ensures Balances(EMPTY_BOOK, START, seid, u, c)
  {
  }

  // ---- what a session inherits ----

  /** What a deletion leaves of one accumulator: nothing of an installed URR, all of any other. */
  function LeftOf(t: SessionState, u: UrrId, c: Counter): nat {
    if u in t.urrs then 0 else HeldIn(t.urrReports, u, c)
  }

  lemma {:induction false} LeftByDeletion(w: World, seid: Seid, plan: seq<Request>, u: UrrId, c: Counter)
    requires Inv(w) && Wired(w) && Live(w, seid) && ClosePlan(SessOf(w, seid), plan)
    ensures Held(Step(w, Delete(seid, plan)).driver, seid, u, c) == LeftOf(Driver.Lookup(w.driver, seid), u, c)
  {
    hide ClosePlan, Driver.Sound, Link, DoAll, InRange, Driver.NoRules, Inv, Leftovers.Outlives, Leftovers.Remains, HeldIn;
    OwnerInRange(w, seid);
    Leftovers.LinkedParts(w, seid);
    Leftovers.CloseLeaves(SessOf(w, seid), w.driver, plan);
    LeftInRemains(Driver.Lookup(w.driver, seid), u, c);
  }

  lemma {:induction false} LeftInRemains(t: SessionState, u: UrrId, c: Counter)
    ensures Leftovers.Outlives(t) ==> HeldIn(Leftovers.Remains(t).urrReports, u, c) == LeftOf(t, u, c)
    ensures !Leftovers.Outlives(t) ==> LeftOf(t, u, c) == 0
  {
  }

  lemma {:induction false} EnteredAtEnd(b: Book, w: World, turns: seq<Turn>, t: Turn, seid: Seid, u: UrrId, c: Counter)
    requires CanTake(w, turns) && Wired(Taken(w, turns)) && CanTurn(Taken(w, turns), t)
    ensures CanTake(w, turns + [t]) && Taken(w, turns + [t]) == Took(Taken(w, turns), t)
    ensures BookAfter(b, w, turns + [t], seid, u, c)
         == Entered(BookAfter(b, w, turns, seid, u, c), Taken(w, turns), t, seid, u, c)
    decreases |turns|
  {
    hide Took, CanTurn, Wired, Entered;
    if turns == [] {
      assert turns + [t] == [t];
    } else {
      assert (turns + [t])[1..] == turns[1..] + [t];
      EnteredAtEnd(Entered(b, w, turns[0], seid, u, c), Took(w, turns[0]), turns[1..], t, seid, u, c);
    }
  }

  /** What a session inherits, over every run from the start: what was on the SEID's book when it was
      created, that is, what the last deletion left and what was metered since without a session. */
  lemma {:induction false} InheritedAtBirth(turns: seq<Turn>, t: Turn, seid: Seid, u: UrrId, c: Counter)
    requires CanTake(START, turns) && Wired(Taken(START, turns)) && CanTurn(Taken(START, turns), t)
    requires !Live(Taken(START, turns), seid) && Live(Took(Taken(START, turns), t), seid)
    ensures CanTake(START, turns + [t])
    ensures var before := BookAfter(EMPTY_BOOK, START, turns, seid, u, c);
      BookAfter(EMPTY_BOOK, START, turns + [t], seid, u, c).inherited == before.inherited + before.metered
  {
    hide CanTake, Taken, BookAfter, CanTurn, Took, Live, Wired, Held, TurnMetered, TurnReported;
    SessionUsage(turns, seid, u, c);
    EnteredAtEnd(EMPTY_BOOK, START, turns, t, seid, u, c);
  }

  /** What a disturbed Close meters to the URR while it is not installed. */
  ghost function LateMetered(s: Sess, d: Driver.State, parts: seq<Part>, u: UrrId, c: Counter): nat {
    if parts == [] then 0
    else
      var front, last := parts[..|parts| - 1], parts[|parts| - 1];
      var f := Work(s, d, front);
      LateMetered(s, d, front, u, c) +
        if last.Meanwhile? && u !in Driver.Lookup(f.driver, s.localId).urrs
        then MeteredBy(f.driver, last.event, s.localId, u, c) else 0
  }

  lemma {:induction false} RemovalLeaves(s: Sess, d: Driver.State, op: Request, u: UrrId, c: Counter)
    requires Driver.Removes(op) && Recorded(s, op)
    ensures LeftOf(Driver.Lookup(Do(s, d, op).driver, s.localId), u, c) == LeftOf(Driver.Lookup(d, s.localId), u, c)
  {
    hide Driver.Lookup, Do, Cut, SumOf;
    RemovalCuts(s, d, op);
    CutOne(Driver.Lookup(d, s.localId), op);
  }

  lemma {:induction false} DataLeaves(d: Driver.State, e: Driver.Event, seid: Seid, u: UrrId, c: Counter)
    requires !e.Control? && Driver.Sound(d)
    ensures var t := Driver.Lookup(d, seid);
      LeftOf(Driver.Lookup(Driver.Step(d, e), seid), u, c)
      == LeftOf(t, u, c) + if u !in t.urrs then MeteredBy(d, e, seid, u, c) else 0
  {
    hide Driver.Lookup, Driver.Step, MeteredBy, ReportedBy, HeldIn, Driver.Due, Driver.Sound;
    StepConserves(d, e, seid, u, c);
    DataKeepsRules(d, e, seid);
    HeldLooked(d, seid, u, c);
    HeldLooked(Driver.Step(d, e), seid, u, c);
    if u !in Driver.Lookup(d, seid).urrs { UninstalledUnreported(d, e, seid, u, c); }
  }

  lemma {:induction false} HeldLooked(d: Driver.State, seid: Seid, u: UrrId, c: Counter)
    ensures Held(d, seid, u, c) == HeldIn(Driver.Lookup(d, seid).urrReports, u, c)
  {
  }

  lemma {:induction false} UninstalledUnreported(d: Driver.State, e: Driver.Event, seid: Seid, u: UrrId, c: Counter)
    requires !e.Control? && u !in Driver.Lookup(d, seid).urrs
    ensures ReportedBy(d, e, seid, u, c) == 0
  {
  }

  lemma {:induction false} LeftThrough(s: Sess, d: Driver.State, parts: seq<Part>, j: nat, u: UrrId, c: Counter)
    requires ClosePlan(s, Asked(parts)) && DataOnly(parts) && j <= |parts| && InRange(s)
    requires Link(s, Driver.Lookup(d, s.localId)) && Driver.Sound(d)
    ensures LeftOf(Driver.Lookup(Work(s, d, parts[..j]).driver, s.localId), u, c)
         == LeftOf(Driver.Lookup(d, s.localId), u, c) + LateMetered(s, d, parts[..j], u, c)
    decreases j
  {
    hide Driver.Lookup, Do, Driver.Step, ClosePlan, LeftOf, MeteredBy, Driver.Sound, Link, InRange;
    if j > 0 {
      LeftThrough(s, d, parts, j - 1, u, c);
      CloseStands(s, d, parts, j - 1);
      WorkKeeps(s, d, parts[..j - 1], s.localId);
      AskedPrefix(parts, j - 1);
      AskedPrefix(parts, j);
      var k := |Asked(parts[..j - 1])|;
      var f := Work(s, d, parts[..j - 1]);
      assert parts[..j][..j - 1] == parts[..j - 1];
      match parts[j - 1] {
        case Ask(op) =>
          assert Asked(parts)[k] == op by { assert Asked(parts[..j])[k] == op; }
          Leftovers.PlannedRemoval(s, Asked(parts), k, f.sess);
          RemovalLeaves(f.sess, f.driver, op, u, c);
        case Meanwhile(e) => DataLeaves(f.driver, e, s.localId, u, c);
      }
    }
  }

  /** What a Close leaves of an accumulator if it is disturbed: what it held of a URR that was not
      installed, and what was metered to the URR in between while it was not. */
  lemma {:induction false} LeftByClose(w: World, seid: Seid, parts: seq<Part>, u: UrrId, c: Counter)
    requires Inv(w) && Wired(w) && Live(w, seid) && CanTurn(w, Closed(seid, parts))
    ensures Held(Took(w, Closed(seid, parts)).driver, seid, u, c)
         == LeftOf(Driver.Lookup(w.driver, seid), u, c) + LateMetered(SessOf(w, seid), w.driver, parts, u, c)
  {
    hide Inv, Driver.Lookup, Work, ClosePlan, Link, InRange, Driver.Sound, DataOnly, HeldIn, LateMetered, SomethingLeft,
      Leftovers.Outlives;
    var s := SessOf(w, seid);
    WorkedKeeps(w, seid, parts);
    assert parts[..|parts|] == parts;
    LeftThrough(s, w.driver, parts, |parts|, u, c);
    ClosedEmpty(w, seid, parts);
    var d' := Worked(w, seid, parts).driver;
    HeldLooked(d', seid, u, c);
    NoUrrs(Driver.Lookup(d', seid));
  }

  lemma {:induction false} NoUrrs(t: SessionState)
    requires Driver.NoRules(t)
    ensures t.urrs == map[]
  {
  }

  /** What the end of a session enters in the book. */
  lemma {:induction false} LeftAtDeath(turns: seq<Turn>, t: Turn, seid: Seid, u: UrrId, c: Counter)
    requires CanTake(START, turns) && Wired(Taken(START, turns)) && CanTurn(Taken(START, turns), t)
    requires Live(Taken(START, turns), seid) && !Live(Took(Taken(START, turns), t), seid)
    ensures CanTake(START, turns + [t])
    ensures BookAfter(EMPTY_BOOK, START, turns + [t], seid, u, c)
         == Book(Held(Took(Taken(START, turns), t).driver, seid, u, c), 0, 0)
  {
    hide CanTake, Taken, BookAfter, CanTurn, Took, Live, Wired, Held, TurnMetered, TurnReported;
    EnteredAtEnd(EMPTY_BOOK, START, turns, t, seid, u, c);
  }

  /** The SEID has a session in every state of the run, or in none. */
  ghost predicate Stays(w: World, turns: seq<Turn>, seid: Seid, live: bool)
    requires CanTake(w, turns)
    decreases |turns|
  {
    (Live(w, seid) <==> live) && (turns == [] || Stays(Took(w, turns[0]), turns[1..], seid, live))
  }

  lemma {:induction false} InheritedStays(b: Book, w: World, turns: seq<Turn>, seid: Seid, live: bool, u: UrrId, c: Counter)
    requires CanTake(w, turns) && Stays(w, turns, seid, live)
    ensures BookAfter(b, w, turns, seid, u, c).inherited == b.inherited
    ensures Live(Taken(w, turns), seid) <==> live
    decreases |turns|
  {
    hide Took, CanTurn, Wired, Live, TurnMetered, TurnReported, Held;
    if turns != [] {
      InheritedStays(Entered(b, w, turns[0], seid, u, c), Took(w, turns[0]), turns[1..], seid, live, u, c);
    }
  }

  lemma {:induction false} BookConcat(b: Book, w: World, first: seq<Turn>, rest: seq<Turn>, seid: Seid, u: UrrId, c: Counter)
    requires CanTake(w, first) && CanTake(Taken(w, first), rest)
    ensures CanTake(w, first + rest) && Taken(w, first + rest) == Taken(Taken(w, first), rest)
    ensures BookAfter(b, w, first + rest, seid, u, c)
         == BookAfter(BookAfter(b, w, first, seid, u, c), Taken(w, first), rest, seid, u, c)
    decreases |first|
  {
    hide Took, CanTurn, Wired, Entered;
    if first == [] {
      assert first + rest == rest;
    } else {
      assert (first + rest)[1..] == first[1..] + rest;
      BookConcat(Entered(b, w, first[0], seid, u, c), Took(w, first[0]), first[1..], rest, seid, u, c);
    }
  }

  /** A run in which a session ends, its SEID has none for a while, and a new session then lives on it
      to the end.  What the reports and the accumulator of the new session hold is what was metered since
      its creation, and nothing else if and only if the end of the old one left nothing of the URR in the
      driver and nothing was metered while there was no session. */
  lemma {:induction false} ForeignUsage(before: seq<Turn>, death: Turn, gap: seq<Turn>, birth: Turn, life: seq<Turn>,
          seid: Seid, u: UrrId, c: Counter)
    requires CanTake(START, before) && Wired(Taken(START, before)) && CanTurn(Taken(START, before), death)
    requires Live(Taken(START, before), seid) && CanTake(START, before + [death])
    requires var w1 := Taken(START, before + [death]);
      && CanTake(w1, gap) && Stays(w1, gap, seid, false)
      && var w2 := Taken(w1, gap);
         && Wired(w2) && CanTurn(w2, birth)
         && CanTake(Took(w2, birth), life) && Stays(Took(w2, birth), life, seid, true)
    ensures var all := before + [death] + gap;
      && CanTake(START, all) && CanTake(START, all + [birth] + life)
      && var idle := BookAfter(EMPTY_BOOK, START, all, seid, u, c);
         var b := BookAfter(EMPTY_BOOK, START, all + [birth] + life, seid, u, c);
         var end := Taken(START, all + [birth] + life);
         var left := Held(Took(Taken(START, before), death).driver, seid, u, c);
         && b.taken + Held(end.driver, seid, u, c) == b.metered + left + idle.metered
         && (b.taken + Held(end.driver, seid, u, c) == b.metered <==> left == 0 && idle.metered == 0)
  {
    hide CanTake, Taken, BookAfter, CanTurn, Took, Live, Wired, Held, Stays;
    var closed := before + [death];
    var w1 := Taken(START, closed);
    EnteredAtEnd(EMPTY_BOOK, START, before, death, seid, u, c);
    LiveFirst(w1, gap, seid, false);
    LeftAtDeath(before, death, seid, u, c);
    BookConcat(EMPTY_BOOK, START, closed, gap, seid, u, c);
    InheritedStays(BookAfter(EMPTY_BOOK, START, closed, seid, u, c), w1, gap, seid, false, u, c);
    var all := closed + gap;
    LiveFirst(Took(Taken(w1, gap), birth), life, seid, true);
    InheritedAtBirth(all, birth, seid, u, c);
    EnteredAtEnd(EMPTY_BOOK, START, all, birth, seid, u, c);
    var w3 := Taken(START, all + [birth]);
    BookConcat(EMPTY_BOOK, START, all + [birth], life, seid, u, c);
    InheritedStays(BookAfter(EMPTY_BOOK, START, all + [birth], seid, u, c), w3, life, seid, true, u, c);
    SessionUsage(all + [birth] + life, seid, u, c);
  }

  lemma {:induction false} NeverThere(b: Book, w: World, turns: seq<Turn>, seid: Seid, u: UrrId, c: Counter)
    requires Inv(w) && CanTake(w, turns) && Stays(w, turns, seid, false) && seid !in w.driver.sessions
    ensures seid !in Taken(w, turns).driver.sessions && BookAfter(b, w, turns, seid, u, c) == b
    decreases |turns|
  {
    hide Allocated, Owned, Registered, Driver.Sound, Took, CanTurn, Wired, Live, TurnTrace, Metered, Reported, Driver.Run,
      Driver.Lookup, Driver.NoRules, Held;
    if turns != [] {
      var w1 := Took(w, turns[0]);
      LiveFirst(w1, turns[1..], seid, false);
      TurnInv(w, turns[0]);
      TurnDrives(w, turns[0]);
      TurnSpares(w, turns[0], seid);
      assert Linked(w, seid);
      SparedRun(w.driver, TurnTrace(w, turns[0]), seid, u, c);
      NeverThere(b, w1, turns[1..], seid, u, c);
    }
  }

  /** The first session on a SEID inherits nothing. */
  lemma {:induction false} FirstUsage(before: seq<Turn>, birth: Turn, life: seq<Turn>, seid: Seid, u: UrrId, c: Counter)
    requires CanTake(START, before) && Stays(START, before, seid, false)
    requires Wired(Taken(START, before)) && CanTurn(Taken(START, before), birth)
    requires CanTake(Took(Taken(START, before), birth), life) && Stays(Took(Taken(START, before), birth), life, seid, true)
    ensures CanTake(START, before + [birth] + life)
    ensures var b := BookAfter(EMPTY_BOOK, START, before + [birth] + life, seid, u, c);
      b.inherited == 0 && b.taken + Held(Taken(START, before + [birth] + life).driver, seid, u, c) == b.metered
  {
    hide Inv, CanTake, Taken, BookAfter, CanTurn, Took, Live, Wired, Held, Stays;
    StartInv();
    NeverThere(EMPTY_BOOK, START, before, seid, u, c);
    InheritedStays(EMPTY_BOOK, START, before, seid, false, u, c);
    LiveFirst(Took(Taken(START, before), birth), life, seid, true);
    InheritedAtBirth(before, birth, seid, u, c);
    EnteredAtEnd(EMPTY_BOOK, START, before, birth, seid, u, c);
    BookConcat(EMPTY_BOOK, START, before + [birth], life, seid, u, c);
    InheritedStays(BookAfter(EMPTY_BOOK, START, before + [birth], seid, u, c), Taken(START, before + [birth]), life, seid,
      true, u, c);
    SessionUsage(before + [birth] + life, seid, u, c);
  }

  lemma {:induction false} LiveFirst(w: World, turns: seq<Turn>, seid: Seid, live: bool)
    requires CanTake(w, turns) && Stays(w, turns, seid, live)
    ensures Live(w, seid) <==> live
  {
  }
}
