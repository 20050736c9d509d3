/** The driver's lock is taken and released for every single operation of a request, so packets,
    ticks and timers fall between them.  What the theorems about whole requests become then. */
module Interleaved {
  import opened Rules
  import opened Session
  import opened Closing
  import opened Numbering
  import opened Node
  import opened Leftovers
  import Driver
  import RateLimit

  /** While a request is worked on: one of its operations, or a critical section of the data plane. */
  datatype Part = Ask(op: Request) | Meanwhile(event: Driver.Event)

  predicate DataOnly(parts: seq<Part>) {
    forall i | 0 <= i < |parts| && parts[i].Meanwhile? :: !parts[i].event.Control?
  }

  function Asked(parts: seq<Part>): seq<Request> {
    if parts == [] then []
    else Asked(parts[..|parts| - 1]) + (match parts[|parts| - 1] case Ask(op) => [op] case Meanwhile(_) => [])
  }

  ghost function Work(s: Sess, d: Driver.State, parts: seq<Part>): Result {
    if parts == [] then Result(s, d, [], true)
    else
      var f := Work(s, d, parts[..|parts| - 1]);
      match parts[|parts| - 1]
      case Ask(op) =>
        var r := Do(f.sess, f.driver, op);
        Result(r.sess, r.driver, f.reports + r.reports, true)
      case Meanwhile(e) => f.(driver := Driver.Step(f.driver, e))
  }

  /** The steps of the driver: an operation that the record refuses does not reach it. */
  ghost function Trace(s: Sess, d: Driver.State, parts: seq<Part>): seq<Driver.Event> {
    if parts == [] then []
    else
      var f := Work(s, d, parts[..|parts| - 1]);
      Trace(s, d, parts[..|parts| - 1]) +
        match parts[|parts| - 1]
        case Ask(op) => if Recorded(f.sess, op) then [Driver.Control(s.localId, op)] else []
        case Meanwhile(e) => [e]
  }

  function Asks(ops: seq<Request>): (parts: seq<Part>)
    ensures |parts| == |ops| && forall i | 0 <= i < |ops| :: parts[i] == Ask(ops[i])
  {
    seq(|ops|, i requires 0 <= i < |ops| => Ask(ops[i]))
  }

  lemma {:induction false} WorkIdentity(s: Sess, d: Driver.State, parts: seq<Part>)
    ensures var r := Work(s, d, parts).sess; r.localId == s.localId && r.remoteId == s.remoteId && r.owner == s.owner
  {
    hide Do, Driver.Step;
    if parts != [] {
      var front, last := parts[..|parts| - 1], parts[|parts| - 1];
      WorkIdentity(s, d, front);
      var f := Work(s, d, front);
      if last.Ask? { DoKeepsIdentity(f.sess, f.driver, last.op); }
    }
  }

  /** Undisturbed, the work is that of a whole request. */
  lemma {:induction false} Undisturbed(s: Sess, d: Driver.State, ops: seq<Request>)
    ensures Work(s, d, Asks(ops)) == DoAll(s, d, ops)
    ensures Asked(Asks(ops)) == ops && DataOnly(Asks(ops))
    decreases |ops|
  {
    hide Do, Driver.Step;
    if ops != [] {
      var n := |ops| - 1;
      Undisturbed(s, d, ops[..n]);
      assert Asks(ops)[..n] == Asks(ops[..n]);
      assert ops == ops[..n] + [ops[n]];
    }
  }

  /** The driver goes through exactly these steps. */
  lemma {:induction false} WorkDrives(s: Sess, d: Driver.State, parts: seq<Part>)
    ensures Work(s, d, parts).driver == Driver.Run(d, Trace(s, d, parts))
  {
    hide Do, Driver.Step, Recorded;
    if parts != [] {
      var front, last := parts[..|parts| - 1], parts[|parts| - 1];
      var f := Work(s, d, front);
      WorkDrives(s, d, front);
      WorkIdentity(s, d, front);
      if last.Meanwhile? {
        Driver.RunAppend(d, Trace(s, d, front), last.event);
      } else {
        DoDrives(f.sess, f.driver, last.op);
        if Recorded(f.sess, last.op) {
          Driver.RunAppend(d, Trace(s, d, front), Driver.Control(s.localId, last.op));
        } else {
          assert Trace(s, d, front) + [] == Trace(s, d, front);
        }
      }
    }
  }

  lemma {:induction false} DoDrives(s: Sess, d: Driver.State, op: Request)
    ensures Do(s, d, op).driver == if Recorded(s, op) then Driver.Step(d, Driver.Control(s.localId, op)) else d
  {
    hide Driver.Apply, Collected, Noted, Confirmed, Recorded;
  }

  // ---- both layers stay in step ----

  lemma {:induction false} LinkByRules(s: Sess, t: SessionState, t': SessionState)
    requires SameInstalled(t, t')
    ensures Link(s, t) <==> Link(s, t')
    ensures Driver.NoRules(t) <==> Driver.NoRules(t')
  {
  }

  lemma {:induction false} SameInstalledTrans(a: SessionState, b: SessionState, c: SessionState)
    requires SameInstalled(a, b) && SameInstalled(b, c)
    ensures SameInstalled(a, c)
  {
  }

  lemma {:induction false} PartKeeps(f: Result, part: Part, k: Seid)
    requires Link(f.sess, Driver.Lookup(f.driver, f.sess.localId)) && Driver.Sound(f.driver) && InRange(f.sess)
    requires part.Meanwhile? ==> !part.event.Control?
    ensures var r := if part.Ask? then Do(f.sess, f.driver, part.op)
                     else f.(driver := Driver.Step(f.driver, part.event));
      && Link(r.sess, Driver.Lookup(r.driver, f.sess.localId)) && Driver.Sound(r.driver) && InRange(r.sess)
      && (k != f.sess.localId ==> SameInstalled(Driver.Lookup(f.driver, k), Driver.Lookup(r.driver, k)))
  {
    hide Do, Link, Driver.Sound, Driver.Lookup, Driver.Step, InRange;
    match part
    case Ask(op) =>
      DoKeepsLink(f.sess, f.driver, op);
      DoFrame(f.sess, f.driver, op, k);
      DoKeepsSeqn(f.sess, f.driver, op, 0);
    case Meanwhile(e) =>
      Driver.StepSound(f.driver, e);
      DataKeepsRules(f.driver, e, f.sess.localId);
      DataKeepsRules(f.driver, e, k);
      LinkByRules(f.sess, Driver.Lookup(f.driver, f.sess.localId), Driver.Lookup(Driver.Step(f.driver, e), f.sess.localId));
  }

  /** Whatever falls between the operations of a request: record and driver stay in step, and no rule
      of another session changes. */
  lemma {:induction false} WorkKeeps(s: Sess, d: Driver.State, parts: seq<Part>, k: Seid)
    requires Link(s, Driver.Lookup(d, s.localId)) && Driver.Sound(d) && InRange(s) && DataOnly(parts)
    ensures var r := Work(s, d, parts);
      && Link(r.sess, Driver.Lookup(r.driver, s.localId)) && Driver.Sound(r.driver) && InRange(r.sess)
      && (k != s.localId ==> SameInstalled(Driver.Lookup(d, k), Driver.Lookup(r.driver, k)))
  {
    hide Do, Link, Driver.Sound, Driver.Lookup, Driver.Step, InRange, SameInstalled;
    if parts == [] {
      SameItself(Driver.Lookup(d, k));
    } else {
      var front, last := parts[..|parts| - 1], parts[|parts| - 1];
      WorkKeeps(s, d, front, k);
      WorkIdentity(s, d, front);
      var f := Work(s, d, front);
      PartKeeps(f, last, k);
      var r := Work(s, d, parts);
      if k != s.localId {
        SameInstalledTrans(Driver.Lookup(d, k), Driver.Lookup(f.driver, k), Driver.Lookup(r.driver, k));
      }
    }
  }

  lemma {:induction false} SameItself(t: SessionState)
    ensures SameInstalled(t, t)
  {
  }

  // ---- a Close with packets in between ----

  /** The rules of `t'` are among those of `t`. */
  predicate Within(t: SessionState, t': SessionState) {
    && t'.pdrs.Keys <= t.pdrs.Keys && t'.fars.Keys <= t.fars.Keys && t'.qers.Keys <= t.qers.Keys
    && t'.urrs.Keys <= t.urrs.Keys && t'.bars.Keys <= t.bars.Keys
  }

  lemma {:induction false} WithinTrans(a: SessionState, b: SessionState, c: SessionState)
    requires Within(a, b) && Within(b, c)
    ensures Within(a, c)
  {
  }

  lemma {:induction false} WithinNames(t: SessionState, t': SessionState, op: Request)
    requires Within(t, t') && Driver.Removes(op) && !Driver.Names(t, op)
    ensures !Driver.Names(t', op)
  {
  }

  lemma {:induction false} CutWithin(t: SessionState, op: Request, t': SessionState)
    requires Driver.Removes(op) && SameRules(t', Cut(t, op))
    ensures Within(t, t') && !Driver.Names(t', op)
  {
    hide Cut;
    CutOne(t, op);
  }

  lemma {:induction false} InstalledWithin(t: SessionState, t': SessionState)
    requires SameInstalled(t, t')
    ensures Within(t, t')
  {
  }

  /** Where such a Close stands: the removals so far have left none of their rules behind. */
  ghost predicate Standing(s: Sess, t: SessionState, ops: seq<Request>, k: nat, r: Result)
    requires ClosePlan(s, ops) && k <= |ops|
  {
    && RecordsAt(s, ops, k, r.sess)
    && Within(t, Driver.Lookup(r.driver, s.localId))
    && forall i | 0 <= i < k :: !Driver.Names(Driver.Lookup(r.driver, s.localId), ops[i])
  }

  lemma {:induction false} StandingAsk(s: Sess, t: SessionState, ops: seq<Request>, k: nat, f: Result)
    requires ClosePlan(s, ops) && k < |ops| && Standing(s, t, ops, k, f)
    ensures Standing(s, t, ops, k + 1, Do(f.sess, f.driver, ops[k]))
  {
    hide Driver.Lookup, Do, Cut, SameRules, Recorded, SameRule, Rank, RemovesPdr, Within, Driver.Names;
    PlannedRemoval(s, ops, k, f.sess);
    StepRecords(s, ops, k, f.sess, f.driver);
    RemovalCuts(f.sess, f.driver, ops[k]);
    var e, e' := Driver.Lookup(f.driver, s.localId), Driver.Lookup(Do(f.sess, f.driver, ops[k]).driver, s.localId);
    CutWithin(e, ops[k], e');
    WithinTrans(t, e, e');
    forall i | 0 <= i < k ensures !Driver.Names(e', ops[i]) { WithinNames(e, e', ops[i]); }
  }

  lemma {:induction false} StandingData(s: Sess, t: SessionState, ops: seq<Request>, k: nat, f: Result, e: Driver.Event)
    requires ClosePlan(s, ops) && k <= |ops| && Standing(s, t, ops, k, f) && !e.Control?
    ensures Standing(s, t, ops, k, f.(driver := Driver.Step(f.driver, e)))
  {
    hide Driver.Lookup, Driver.Step, SameRule, Rank, RemovesPdr, Within, Driver.Names, SameInstalled, RecordsAt, Recorded;
    DataKeepsRules(f.driver, e, s.localId);
    var a, b := Driver.Lookup(f.driver, s.localId), Driver.Lookup(Driver.Step(f.driver, e), s.localId);
    InstalledWithin(a, b);
    WithinTrans(t, a, b);
    forall i | 0 <= i < k ensures !Driver.Names(b, ops[i]) { WithinNames(a, b, ops[i]); }
  }

  lemma {:induction false} AskedPrefix(parts: seq<Part>, j: nat)
    requires j <= |parts|
    ensures |Asked(parts[..j])| <= |Asked(parts)| && Asked(parts[..j]) == Asked(parts)[..|Asked(parts[..j])|]
    decreases |parts|
  {
    if j == |parts| {
      assert parts[..j] == parts;
    } else {
      var front := parts[..|parts| - 1];
      AskedPrefix(front, j);
      assert front[..j] == parts[..j];
    }
  }

  lemma {:induction false} CloseStands(s: Sess, d: Driver.State, parts: seq<Part>, j: nat)
    requires ClosePlan(s, Asked(parts)) && DataOnly(parts) && j <= |parts|
    ensures |Asked(parts[..j])| <= |Asked(parts)|
    ensures Standing(s, Driver.Lookup(d, s.localId), Asked(parts), |Asked(parts[..j])|, Work(s, d, parts[..j]))
    decreases j
  {
    hide Driver.Lookup, Do, Driver.Step, Standing, ClosePlan;
    AskedPrefix(parts, j);
    var ops, t := Asked(parts), Driver.Lookup(d, s.localId);
    if j == 0 {
      StandingStart(s, d, ops);
    } else {
      AskedPrefix(parts, j - 1);
      CloseStands(s, d, parts, j - 1);
      var k := |Asked(parts[..j - 1])|;
      var f := Work(s, d, parts[..j - 1]);
      assert parts[..j][..j - 1] == parts[..j - 1];
      match parts[j - 1] {
        case Ask(op) =>
          assert ops[k] == op by { assert Asked(parts[..j])[k] == op; }
          StandingAsk(s, t, ops, k, f);
          StandingReports(s, t, ops, k + 1, Do(f.sess, f.driver, op), Work(s, d, parts[..j]));
        case Meanwhile(e) => StandingData(s, t, ops, k, f, e);
      }
    }
  }

  lemma {:induction false} StandingReports(s: Sess, t: SessionState, ops: seq<Request>, k: nat, a: Result, b: Result)
    requires ClosePlan(s, ops) && k <= |ops| && Standing(s, t, ops, k, a) && b.sess == a.sess && b.driver == a.driver
    ensures Standing(s, t, ops, k, b)
  {
  }

  lemma {:induction false} StandingStart(s: Sess, d: Driver.State, ops: seq<Request>)
    requires ClosePlan(s, ops)
    ensures Standing(s, Driver.Lookup(d, s.localId), ops, 0, Result(s, d, [], true))
  {
    hide Driver.Lookup, Recorded, SameRule, Rank, RemovesPdr;
    assert ops[..0] == [];
  }

  lemma {:induction false} PlanEmpties(s: Sess, t: SessionState, ops: seq<Request>, t': SessionState)
    requires ClosePlan(s, ops) && Link(s, t) && Within(t, t')
    requires forall i | 0 <= i < |ops| :: !Driver.Names(t', ops[i])
    ensures Driver.NoRules(t')
  {
    hide ClosePlan, Link, Within, Driver.Names;
    forall i | 0 <= i < |ops| ensures Unnamed(t', ops[i]) { NamesNone(t', ops[i]); }
    OthersPlanned(s, t, ops);
    forall p | p in t.pdrs ensures p !in t'.pdrs { PdrPlanned(s, t, ops, p); }
    WithinEach(t, t');
  }

  predicate Unnamed(t: SessionState, op: Request) {
    && (op.RemoveFar? ==> op.fid !in t.fars)
    && (op.RemoveQer? ==> op.qid !in t.qers)
    && (op.RemoveUrr? ==> op.uid !in t.urrs)
    && (op.RemoveBar? ==> op.bid !in t.bars)
    && (op.RemovePdr? ==> op.pid !in t.pdrs)
  }

  lemma {:induction false} NamesNone(t: SessionState, op: Request)
    requires !Driver.Names(t, op)
    ensures Unnamed(t, op)
  {
  }

  lemma {:induction false} WithinEach(t: SessionState, t': SessionState)
    requires Within(t, t')
    requires forall p | p in t.pdrs :: p !in t'.pdrs
    requires forall x | x in t.fars :: x !in t'.fars
    requires forall x | x in t.qers :: x !in t'.qers
    requires forall x | x in t.urrs :: x !in t'.urrs
    requires forall x | x in t.bars :: x !in t'.bars
    ensures Driver.NoRules(t')
  {
    assert t'.pdrs.Keys == {} && t'.fars.Keys == {} && t'.qers.Keys == {} && t'.urrs.Keys == {} && t'.bars.Keys == {};
  }

  lemma {:induction false} PdrPlanned(s: Sess, t: SessionState, ops: seq<Request>, p: PdrId)
    requires ClosePlan(s, ops) && Link(s, t) && p in t.pdrs
    ensures exists i :: 0 <= i < |ops| && ops[i].RemovePdr? && ops[i].pid == p
  {
    hide Recorded, SameRule, Rank, Driver.Removes;
    assert RemovesPdr(ops, p);
  }

  lemma {:induction false} OthersPlanned(s: Sess, t: SessionState, ops: seq<Request>)
    requires ClosePlan(s, ops) && Link(s, t)
    ensures forall x | x in t.fars :: exists i :: 0 <= i < |ops| && ops[i] == RemoveFar(x)
    ensures forall x | x in t.qers :: exists i :: 0 <= i < |ops| && ops[i] == RemoveQer(x)
    ensures forall x | x in t.urrs :: exists i :: 0 <= i < |ops| && ops[i] == RemoveUrr(x)
    ensures forall x | x in t.bars :: exists i :: 0 <= i < |ops| && ops[i] == RemoveBar(x)
  {
    hide Recorded, SameRule, Rank, Driver.Removes, RemovesPdr;
  }

  /** A step of the data plane leaves something behind that no removal takes away: a packet in a
      buffer, or volume of a URR that is not installed. */
  predicate LeavesBehind(d: Driver.State, e: Driver.Event, seid: Seid) {
    && seid in d.sessions
    && ((e.Buffered? && e.binding.seid == seid)
        || (e.Counted? && e.binding.seid == seid
            && exists i :: 0 <= i < |e.binding.urrs| && e.binding.urrs[i].0 !in d.sessions[seid].urrs))
  }

  ghost predicate SomethingLeft(s: Sess, d: Driver.State, parts: seq<Part>) {
    parts != [] &&
    (var front, last := parts[..|parts| - 1], parts[|parts| - 1];
     SomethingLeft(s, d, front)
     || (last.Meanwhile? && LeavesBehind(Work(s, d, front).driver, last.event, s.localId)))
  }

  lemma {:induction false} OutlivesBy(t: SessionState, t': SessionState)
    requires t'.buffers == t.buffers
    requires forall u :: (u in t'.urrReports && u !in t'.urrs) <==> (u in t.urrReports && u !in t.urrs)
    ensures Outlives(t') <==> Outlives(t)
  {
    if Outlives(t) && t.buffers == map[] {
      var u :| u in t.urrReports && u !in t.urrs;
      assert u in t'.urrReports && u !in t'.urrs;
    }
    if Outlives(t') && t.buffers == map[] {
      var u :| u in t'.urrReports && u !in t'.urrs;
      assert u in t.urrReports && u !in t.urrs;
    }
  }

  lemma {:induction false} RemovalOutlives(s: Sess, d: Driver.State, op: Request)
    requires Driver.Removes(op) && Recorded(s, op)
    ensures Outlives(Driver.Lookup(Do(s, d, op).driver, s.localId)) <==> Outlives(Driver.Lookup(d, s.localId))
  {
    hide Driver.Lookup, Do, Cut, Outlives;
    var t, t' := Driver.Lookup(d, s.localId), Driver.Lookup(Do(s, d, op).driver, s.localId);
    RemovalCuts(s, d, op);
    CutOne(t, op);
    CutFrame(t, op);
    OutlivesBy(t, t');
  }

  lemma {:induction false} CountAllKeys(reports: map<UrrId, seq<Usage>>, urrs: seq<(UrrId, Urr)>, bytes: nat, up: bool, u: UrrId)
    ensures u in Driver.CountAll(reports, urrs, bytes, up) <==>
              u in reports || exists i :: 0 <= i < |urrs| && urrs[i].0 == u
    decreases |urrs|
  {
    if urrs != [] {
      var n := |urrs| - 1;
      var front := urrs[..n];
      CountAllKeys(reports, front, bytes, up, u);
      if exists i :: 0 <= i < |front| && front[i].0 == u {
        var i :| 0 <= i < |front| && front[i].0 == u;
        assert urrs[i].0 == u;
      }
      if urrs[n].0 != u && exists i :: 0 <= i < |urrs| && urrs[i].0 == u {
        var i :| 0 <= i < |urrs| && urrs[i].0 == u;
        assert front[i].0 == u;
      }
    }
  }

  lemma {:induction false} CountedOutlives(d: Driver.State, e: Driver.Event, seid: Seid)
    requires e.Counted? && e.binding.seid == seid && seid in d.sessions
    ensures Outlives(Driver.Lookup(Driver.Step(d, e), seid))
       <==> Outlives(Driver.Lookup(d, seid)) || LeavesBehind(d, e, seid)
  {
    hide Driver.CountAll;
    var t := d.sessions[seid];
    var t' := t.(urrReports := Driver.CountAll(t.urrReports, e.binding.urrs, e.bytes, e.up));
    assert Driver.Lookup(Driver.Step(d, e), seid) == t';
    forall u ensures u in t'.urrReports <==>
      u in t.urrReports || exists i :: 0 <= i < |e.binding.urrs| && e.binding.urrs[i].0 == u
    {
      CountAllKeys(t.urrReports, e.binding.urrs, e.bytes, e.up, u);
    }
    if LeavesBehind(d, e, seid) {
      var i :| 0 <= i < |e.binding.urrs| && e.binding.urrs[i].0 !in t.urrs;
      assert e.binding.urrs[i].0 in t'.urrReports;
    }
  }

  lemma {:induction false} DataOutlives(d: Driver.State, e: Driver.Event, seid: Seid)
    requires !e.Control?
    ensures Outlives(Driver.Lookup(Driver.Step(d, e), seid))
       <==> Outlives(Driver.Lookup(d, seid)) || LeavesBehind(d, e, seid)
  {
    hide Outlives, Driver.CountAll, Driver.Apply, RateLimit.Metered, Driver.AdaptiveQers, Driver.Due, Driver.Restarts;
    var t, t' := Driver.Lookup(d, seid), Driver.Lookup(Driver.Step(d, e), seid);
    if e.Counted? && e.binding.seid == seid && seid in d.sessions {
      CountedOutlives(d, e, seid);
    } else if e.Buffered? && e.binding.seid == seid && seid in d.sessions {
      assert e.binding.pdrId in t'.buffers;
      HasBuffer(t', e.binding.pdrId);
    } else {
      QuietKeys(d, e, seid);
      OutlivesBy(t, t');
    }
  }

  lemma {:induction false} HasBuffer(t: SessionState, p: PdrId)
    requires p in t.buffers
    ensures Outlives(t)
  {
  }

  predicate SameKeys(t: SessionState, t': SessionState) {
    t'.buffers == t.buffers && t'.urrs == t.urrs && t'.urrReports.Keys == t.urrReports.Keys
  }

  lemma {:induction false} StoredKeys(d: Driver.State, at: Seid, s: SessionState, seid: Seid)
    requires at in d.sessions && SameKeys(d.sessions[at], s)
    ensures SameKeys(Driver.Lookup(d, seid), Driver.Lookup(Driver.Store(d, at, s), seid))
  {
  }

  lemma {:induction false} EverywhereKeys(d: Driver.State, e: Driver.Event, seid: Seid)
    requires e.Ticked? || e.FlowsReset? || e.Scheduled? || e.NotificationDue?
    ensures SameKeys(Driver.Lookup(d, seid), Driver.Lookup(Driver.Step(d, e), seid))
  {
    hide Driver.Due, Driver.Restarts, Driver.Apply, Driver.Buffer;
  }

  lemma {:induction false} ElsewhereKeys(d: Driver.State, e: Driver.Event, seid: Seid)
    requires (e.Counted? || e.Buffered?) && !(e.binding.seid == seid && seid in d.sessions)
    ensures SameKeys(Driver.Lookup(d, seid), Driver.Lookup(Driver.Step(d, e), seid))
  {
    hide Driver.CountAll, Driver.Enqueue, Driver.BufferOf, Driver.BufferLimit, Driver.Apply;
  }

  lemma {:induction false} QuietKeys(d: Driver.State, e: Driver.Event, seid: Seid)
    requires !e.Control? && !((e.Counted? || e.Buffered?) && e.binding.seid == seid && seid in d.sessions)
    ensures SameKeys(Driver.Lookup(d, seid), Driver.Lookup(Driver.Step(d, e), seid))
  {
    hide Driver.CountAll, Driver.Apply, RateLimit.Metered, Driver.AdaptiveQers, Driver.TickSession, Driver.Buffer,
      Driver.Lookup, Driver.Store;
    match e
    case Policed(b, bytes, dir, now) =>
      if b.seid in d.sessions {
        var s := d.sessions[b.seid];
        StoredKeys(d, b.seid,
          s.(meters := RateLimit.Metered(s.meters, RateLimit.Offer(b.qers, s.overrides, bytes, dir, now)).0), seid);
      }
    case FlowStarted(at, flow, p, now) =>
      if at in d.sessions { StoredKeys(d, at, Driver.StartFlow(d.sessions[at], flow, p, now), seid); }
    case FlowEnded(at, flow) => if at in d.sessions { StoredKeys(d, at, Driver.EndFlow(d.sessions[at], flow), seid); }
    case Counted(_, _, _) => ElsewhereKeys(d, e, seid);
    case Buffered(_, _) => ElsewhereKeys(d, e, seid);
    case Ticked(_) => EverywhereKeys(d, e, seid);
    case FlowsReset => EverywhereKeys(d, e, seid);
    case Scheduled(_, _) => EverywhereKeys(d, e, seid);
    case NotificationDue(_) => EverywhereKeys(d, e, seid);
  }

  /** Through a Close, the session outlives its rules if it did so before or something was left
      behind. */
  lemma {:induction false} OutlivesThrough(s: Sess, d: Driver.State, parts: seq<Part>, j: nat)
    requires ClosePlan(s, Asked(parts)) && DataOnly(parts) && j <= |parts|
    ensures Outlives(Driver.Lookup(Work(s, d, parts[..j]).driver, s.localId))
       <==> Outlives(Driver.Lookup(d, s.localId)) || SomethingLeft(s, d, parts[..j])
    decreases j
  {
    hide Driver.Lookup, Do, Driver.Step, ClosePlan, Outlives, LeavesBehind;
    if j > 0 {
      OutlivesThrough(s, d, parts, j - 1);
      CloseStands(s, d, parts, j - 1);
      AskedPrefix(parts, j - 1);
      AskedPrefix(parts, j);
      var k := |Asked(parts[..j - 1])|;
      var f := Work(s, d, parts[..j - 1]);
      assert parts[..j][..j - 1] == parts[..j - 1];
      match parts[j - 1] {
        case Ask(op) =>
          assert Asked(parts)[k] == op by { assert Asked(parts[..j])[k] == op; }
          PlannedRemoval(s, Asked(parts), k, f.sess);
          RemovalOutlives(f.sess, f.driver, op);
        case Meanwhile(e) => DataOutlives(f.driver, e, s.localId);
      }
    }
  }

  /** Close, with any steps of the data plane between its removals: no rule of the session is left, and
      the driver keeps the session if and only if it outlived its rules before or one of those steps
      buffered a packet for it, or metered a URR that was not installed any more. */
  lemma {:induction false} CloseAmid(s: Sess, d: Driver.State, parts: seq<Part>)
    requires ClosePlan(s, Asked(parts)) && DataOnly(parts) && InRange(s)
    requires Link(s, Driver.Lookup(d, s.localId)) && Driver.Sound(d)
    ensures var d' := Work(s, d, parts).driver;
      && Driver.NoRules(Driver.Lookup(d', s.localId))
      && (s.localId in d'.sessions <==> Outlives(Driver.Lookup(d, s.localId)) || SomethingLeft(s, d, parts))
  {
    hide Driver.Lookup, ClosePlan, Outlives, Work, SomethingLeft, Driver.Sound, Driver.NoRules, Link, InRange, Within;
    var t, d' := Driver.Lookup(d, s.localId), Work(s, d, parts).driver;
    assert parts[..|parts|] == parts;
    CloseStands(s, d, parts, |parts|);
    PlanEmpties(s, t, Asked(parts), Driver.Lookup(d', s.localId));
    OutlivesThrough(s, d, parts, |parts|);
    WorkKeeps(s, d, parts, s.localId);
    StaysIfOutlives(d', s.localId);
  }

  lemma {:induction false} StaysIfOutlives(d: Driver.State, seid: Seid)
    requires Driver.Sound(d) && Driver.NoRules(Driver.Lookup(d, seid))
    ensures seid in d.sessions <==> Outlives(Driver.Lookup(d, seid))
  {
    if seid in d.sessions {
      assert Driver.SoundSession(d.sessions[seid]);
      var t := d.sessions[seid];
      if t.buffers == map[] {
        var u :| u in t.urrReports;
        assert u !in t.urrs;
      }
    }
  }
}
