/** Numbering of usage reports: each report that leaves in a response takes the next sequence
    number of its URR, and the record of a removed URR goes with its last report. */
module Numbering {
  import opened Rules
  import opened Session
  import opened Closing
  import Driver

  datatype Numbered = Numbered(report: Usage, seqn: nat)

  /** The record after one report of it is numbered.  Responses drop the record of a removed
      URR; reports sent on the UPF's own initiative (`drop` false) only count. */
  function Used(s: Sess, u: UrrId, drop: bool): Sess
    requires u in s.urrs
  {
    if drop && s.urrs[u].removed then s.(urrs := s.urrs - {u})
    else s.(urrs := s.urrs[u := s.urrs[u].(seqn := (s.urrs[u].seqn + 1) % SEQN_WRAP)])
  }

  /** The loop over the collected reports; a report without a record is skipped. */
  function Number(s: Sess, reports: seq<Usage>, extra: set<Trigger>, drop: bool): (Sess, seq<Numbered>)
    decreases |reports|
  {
    if reports == [] then (s, [])
    else
      var r := reports[0];
      if r.urr !in s.urrs then Number(s, reports[1..], extra, drop)
      else
        var rest := Number(Used(s, r.urr, drop), reports[1..], extra, drop);
        (rest.0, [Numbered(r.(triggers := r.triggers + extra), s.urrs[r.urr].seqn)] + rest.1)
  }

  function NumberedOf(out: seq<Numbered>, u: UrrId): seq<Numbered> {
    if out == [] then []
    else (if out[0].report.urr == u then [out[0]] else []) + NumberedOf(out[1..], u)
  }

  /** Reports numbered one after the other from `seqn`. */
  function Consecutive(reports: seq<Usage>, extra: set<Trigger>, seqn: nat): (r: seq<Numbered>)
    ensures |r| == |reports|
    ensures forall j | 0 <= j < |r| ::
      r[j] == Numbered(reports[j].(triggers := reports[j].triggers + extra), (seqn + j) % SEQN_WRAP)
  {
    seq(|reports|, j requires 0 <= j < |reports| =>
      Numbered(reports[j].(triggers := reports[j].triggers + extra), (seqn + j) % SEQN_WRAP))
  }

  /** Of the reports of one URR, those that find a record: all of them, or only the first if
      the record goes with it. */
  function Sent(s: Sess, u: UrrId, mine: seq<Usage>, drop: bool): seq<Usage> {
    if u !in s.urrs || mine == [] then []
    else if drop && s.urrs[u].removed then mine[..1]
    else mine
  }

  predicate InRange(s: Sess) {
    forall u | u in s.urrs :: s.urrs[u].seqn < SEQN_WRAP
  }

  /** Sequence numbers wrap around. */
  function Plus(seqn: nat, n: nat): nat { (seqn + n) % SEQN_WRAP }

  lemma {:induction false} OfUrrFront(reports: seq<Usage>, u: UrrId)
    requires reports != []
    ensures OfUrr(reports, u) == (if reports[0].urr == u then [reports[0]] else []) + OfUrr(reports[1..], u)
  {
    assert reports == [reports[0]] + reports[1..];
    OfUrrAppend([reports[0]], reports[1..], u);
    assert [reports[0]][..0] == [];
  }

  /** Per URR: the numbers sent continue the series of its record without a gap, and the record
      afterwards expects the next one, or is gone with the last report of a removed URR. */
  lemma {:induction false} NumberSeries(s: Sess, reports: seq<Usage>, extra: set<Trigger>, drop: bool, u: UrrId)
    requires InRange(s)
    ensures var (s', out) := Number(s, reports, extra, drop);
            var mine := OfUrr(reports, u);
      && InRange(s')
      && NumberedOf(out, u) == (if u in s.urrs then Consecutive(Sent(s, u, mine, drop), extra, s.urrs[u].seqn) else [])
      && (u in s'.urrs <==> u in s.urrs && !(drop && s.urrs[u].removed && mine != []))
      && (u in s'.urrs ==> s'.urrs[u] == s.urrs[u].(seqn := Plus(s.urrs[u].seqn, |Sent(s, u, mine, drop)|)))
    decreases |reports|
  {
    hide OfUrr, InRange, Plus;
    if reports == [] {
      NoReports(u);
      if u in s.urrs { PlusNothing(s, u); }
    } else {
      hide Consecutive, Sent, Used, Number, NumberedOf;
      var r := reports[0];
      OfUrrFront(reports, u);
      UsedKeeps(s, r.urr, drop);
      NumberFront(s, reports, extra, drop, u);
      var next := if r.urr in s.urrs then Used(s, r.urr, drop) else s;
      NumberSeries(next, reports[1..], extra, drop, u);
      if r.urr in s.urrs {
        if r.urr == u {
          SeriesStep(s, r, OfUrr(reports[1..], u), extra, drop);
        } else {
          SentSame(s, next, u, OfUrr(reports[1..], u), drop);
        }
      }
    }
  }

  lemma {:induction false} PlusNothing(s: Sess, u: UrrId)
    requires InRange(s) && u in s.urrs
    ensures Plus(s.urrs[u].seqn, 0) == s.urrs[u].seqn
  {
  }

  /** The first report, as far as one URR is concerned. */
  lemma {:induction false} NumberFront(s: Sess, reports: seq<Usage>, extra: set<Trigger>, drop: bool, u: UrrId)
    requires reports != []
    ensures var r := reports[0];
            var next := if r.urr in s.urrs then Used(s, r.urr, drop) else s;
            var (s', out), rest := Number(s, reports, extra, drop), Number(next, reports[1..], extra, drop);
      && s' == rest.0
      && NumberedOf(out, u) ==
           (if r.urr == u && u in s.urrs then [Numbered(r.(triggers := r.triggers + extra), s.urrs[u].seqn)] else [])
           + NumberedOf(rest.1, u)
  {
    hide Used;
    var r := reports[0];
    if r.urr in s.urrs {
      var out := Number(s, reports, extra, drop).1;
      assert out[1..] == Number(Used(s, r.urr, drop), reports[1..], extra, drop).1;
    }
  }

  lemma {:induction false} UsedKeeps(s: Sess, u: UrrId, drop: bool)
    requires InRange(s)
    ensures u in s.urrs ==>
      && InRange(Used(s, u, drop))
      && (u in Used(s, u, drop).urrs <==> !(drop && s.urrs[u].removed))
      && (u in Used(s, u, drop).urrs
          ==> Used(s, u, drop).urrs[u] == s.urrs[u].(seqn := (s.urrs[u].seqn + 1) % SEQN_WRAP))
      && forall v | v != u :: (v in Used(s, u, drop).urrs <==> v in s.urrs)
          && (v in s.urrs ==> Used(s, u, drop).urrs[v] == s.urrs[v])
  {
  }

  lemma {:induction false} SentSame(s: Sess, n: Sess, u: UrrId, mine: seq<Usage>, drop: bool)
    requires (u in n.urrs <==> u in s.urrs) && (u in s.urrs ==> n.urrs[u] == s.urrs[u])
    ensures Sent(n, u, mine, drop) == Sent(s, u, mine, drop)
  {
  }

  lemma {:induction false} SeriesStep(s: Sess, r: Usage, rest: seq<Usage>, extra: set<Trigger>, drop: bool)
    requires r.urr in s.urrs && InRange(s)
    ensures var u := r.urr; var n := Used(s, u, drop); var q := s.urrs[u].seqn;
      && Consecutive(Sent(s, u, [r] + rest, drop), extra, q)
         == [Numbered(r.(triggers := r.triggers + extra), q)]
            + (if u in n.urrs then Consecutive(Sent(n, u, rest, drop), extra, n.urrs[u].seqn) else [])
      && (u in n.urrs ==> Plus(n.urrs[u].seqn, |Sent(n, u, rest, drop)|) == Plus(q, |Sent(s, u, [r] + rest, drop)|))
      && (u in n.urrs && rest == [] ==> Sent(n, u, rest, drop) == [])
  {
    hide Consecutive, InRange;
    var u := r.urr;
    var q := s.urrs[u].seqn;
    assert q < SEQN_WRAP by { InRangeAt(s, u); }
    if drop && s.urrs[u].removed {
      assert ([r] + rest)[..1] == [r];
      ConsecutiveFront(r, [], extra, q);
      assert [r] + [] == [r];
    } else {
      var n := Used(s, u, drop);
      SentAll(s, u, [r] + rest, drop);
      SentAll(n, u, rest, drop);
      ModNext(q, |rest|);
      ConsecutiveFront(r, rest, extra, q);
    }
  }

  lemma {:induction false} InRangeAt(s: Sess, u: UrrId)
    requires InRange(s) && u in s.urrs
    ensures s.urrs[u].seqn < SEQN_WRAP
  {
  }

  lemma {:induction false} SentAll(s: Sess, u: UrrId, mine: seq<Usage>, drop: bool)
    requires u in s.urrs && !(drop && s.urrs[u].removed)
    ensures Sent(s, u, mine, drop) == mine
  {
  }

  lemma {:induction false} ConsecutiveFront(r: Usage, rest: seq<Usage>, extra: set<Trigger>, q: nat)
    requires q < SEQN_WRAP
    ensures Consecutive([r] + rest, extra, q)
         == [Numbered(r.(triggers := r.triggers + extra), q)] + Consecutive(rest, extra, (q + 1) % SEQN_WRAP)
    ensures Consecutive([], extra, q) == []
  {
    hide Consecutive;
    var a := Consecutive([r] + rest, extra, q);
    var b := [Numbered(r.(triggers := r.triggers + extra), q)] + Consecutive(rest, extra, (q + 1) % SEQN_WRAP);
    forall j | 0 <= j < |a| ensures a[j] == b[j] {
      if j > 0 {
        ModNext(q, j - 1);
        assert ([r] + rest)[j] == rest[j - 1];
      }
    }
  }

  lemma {:induction false} ModNext(q: nat, j: nat)
    ensures ((q + 1) % SEQN_WRAP + j) % SEQN_WRAP == (q + (j + 1)) % SEQN_WRAP
  {
  }

  // ---- session deletion ----

  /** The usage reports of the deletion response. */
  ghost function DeletionReports(s: Sess, d: Driver.State, ops: seq<Request>): seq<Numbered> {
    var r := DoAll(s, d, ops);
    Number(r.sess, r.reports, {TERMR}, true).1
  }

  /** What one URR had left when the session is deleted, as its one report. */
  function Residual(s: Sess, t: SessionState, u: UrrId): seq<Numbered>
    requires t.urrs.Keys <= s.urrs.Keys
  {
    var acc := Driver.Accumulated(t, u);
    if u in t.urrs && acc != [] then [Numbered(acc[0].(triggers := acc[0].triggers + {TERMR}), s.urrs[u].seqn)] else []
  }

  /** The deletion response reports each installed URR's residual usage exactly once, with
      TERMR set and the next number of its series, and reports nothing else. */
  lemma {:induction false} DeletionReportsResiduals(s: Sess, d: Driver.State, ops: seq<Request>, u: UrrId)
    requires ClosePlan(s, ops) && InRange(s)
    requires Link(s, Driver.Lookup(d, s.localId)) && Driver.SoundReports(Driver.Lookup(d, s.localId).urrReports)
    ensures NumberedOf(DeletionReports(s, d, ops), u) == Residual(s, Driver.Lookup(d, s.localId), u)
  {
    hide ClosePlan, DoAll, Driver.Lookup, Number, NumberedOf, OfUrr, Driver.NoRules;
    var t := Driver.Lookup(d, s.localId);
    CloseEmptiesAndReports(s, d, ops);
    var r := DoAll(s, d, ops);
    NumberSeries(r.sess, r.reports, {TERMR}, true, u);
    var acc := Driver.Accumulated(t, u);
    if u in t.urrs && acc != [] {
      var c := acc[0].(triggers := acc[0].triggers + {TERMR});
      assert |acc| == 1 && Final(t, u) == [c] && Sent(r.sess, u, Final(t, u), true) == [c];
      assert c.(triggers := c.triggers + {TERMR}) == c;
      assert s.urrs[u].seqn % SEQN_WRAP == s.urrs[u].seqn;
    }
  }

  // ---- session modification ----

  /** The order in which the modification handler works through a request. */
  function Stage(op: Request): nat {
    match op
    case CreateFar(_, _, _) => 0
    case CreateQer(_, _, _) => 1
    case CreateUrr(_, _, _, _) => 2
    case CreateBar(_, _, _) => 3
    case CreatePdr(_, _, _) => 4
    case RemoveFar(_) => 5
    case RemoveQer(_) => 6
    case RemoveUrr(_) => 7
    case RemoveBar(_) => 8
    case RemovePdr(_, _) => 9
    case UpdateFar(_, _, _) => 10
    case UpdateQer(_, _, _) => 11
    case UpdateUrr(_, _, _, _) => 12
    case UpdateBar(_, _, _) => 13
    case UpdatePdr(_, _, _, _) => 14
    case QueryUrr(_) => 15
  }

  predicate HandlerOrder(ops: seq<Request>) {
    forall i, j | 0 <= i < j < |ops| :: Stage(ops[i]) <= Stage(ops[j])
  }

  /** FARs, QERs, URRs, BARs and PDRs, in this order. */
  function KindOf(op: Request): nat {
    if op.CreateFar? || op.RemoveFar? || op.UpdateFar? then 0
    else if op.CreateQer? || op.RemoveQer? || op.UpdateQer? then 1
    else if op.CreateUrr? || op.RemoveUrr? || op.UpdateUrr? || op.QueryUrr? then 2
    else if op.CreateBar? || op.RemoveBar? || op.UpdateBar? then 3
    else 4
  }

  predicate SameStep(a: Request, b: Request) {
    || (Driver.Creates(a) && Driver.Creates(b))
    || (Driver.Removes(a) && Driver.Removes(b))
    || (Driver.Updates(a) && Driver.Updates(b))
  }

  /** The handler's order: all creations, then all removals, then all updates, then the queries, and each
      of these kind after kind. */
  lemma {:induction false} HandlerOrderMeans(ops: seq<Request>)
    ensures HandlerOrder(ops) <==> forall i, j | 0 <= i < j < |ops| ::
      var a, b := ops[i], ops[j];
      && (Driver.Creates(b) ==> Driver.Creates(a))
      && (Driver.Removes(b) ==> Driver.Creates(a) || Driver.Removes(a))
      && (a.QueryUrr? ==> b.QueryUrr?)
      && (SameStep(a, b) ==> KindOf(a) <= KindOf(b))
  {
    hide KindOf, Stage;
    forall i, j | 0 <= i < j < |ops| {
      StageMeans(ops[i], ops[j]);
    }
  }

  lemma {:induction false} StageMeans(a: Request, b: Request)
    ensures Stage(a) <= Stage(b) <==>
      && (Driver.Creates(b) ==> Driver.Creates(a))
      && (Driver.Removes(b) ==> Driver.Creates(a) || Driver.Removes(a))
      && (a.QueryUrr? ==> b.QueryUrr?)
      && (SameStep(a, b) ==> KindOf(a) <= KindOf(b))
  {
  }

  /** The reports gathered after some operations, the last one at `stage`, will all find a
      record: a removed URR has reported at most once, and nothing but removals of URRs has
      reported before the PDRs are touched. */
  ghost predicate AllFind(r: Result, stage: nat) {
    forall u :: var mine := OfUrr(r.reports, u); mine != [] ==>
      && u in r.sess.urrs
      && (r.sess.urrs[u].removed ==> |mine| <= 1)
      && (stage <= 8 ==> r.sess.urrs[u].removed)
      && stage >= 7
  }

  /** Reports are gained only for URRs that the driver holds, and one at most by a removal. */
  lemma {:induction false} GainsAreLive(s: Sess, d: Driver.State, op: Request, u: UrrId)
    requires Driver.SoundReports(Driver.Lookup(d, s.localId).urrReports)
    ensures var g := OfUrr(Do(s, d, op).reports, u); g != [] ==>
      && u in Driver.Lookup(d, s.localId).urrs
      && (op.RemoveUrr? || op.RemovePdr? || op.UpdatePdr? || op.QueryUrr?)
      && (op.RemoveUrr? ==> |g| <= 1 && op.uid == u)
  {
    hide Driver.Apply, Driver.SoundReports, Driver.After, Driver.Names, Driver.Lookup, Noted, Confirmed, OfUrr,
        LastReports, Recorded;
    NoReports(u);
    var e := Driver.Refusal(d, s.localId, op);
    if e.Some? {
      RefusedApply(d, s.localId, op);
    } else if op.RemoveUrr? || op.QueryUrr? {
      AcceptedApply(d, s.localId, op);
      DirectGains(s, d, op, u);
    } else if op.UpdatePdr? || op.RemovePdr? {
      PdrGains(s, d, op, u);
    }
  }

  lemma {:induction false} MarkedUniform(reports: seq<Usage>, t: Trigger, x: UrrId, u: UrrId)
    requires |reports| <= 1 && (reports != [] ==> reports[0].urr == x)
    ensures OfUrr(Mark(reports, t), u) != [] ==> u == x
    ensures |OfUrr(Mark(reports, t), u)| <= 1
  {
    OfUrrUniform(Mark(reports, t), x, u);
  }

  lemma {:induction false} HeldReports(d: Driver.State, seid: Seid, op: Request)
    requires op.RemoveUrr? || op.QueryUrr?
    requires Driver.SoundReports(Driver.Lookup(d, seid).urrReports)
    ensures var g := Driver.Apply(d, seid, op).reports;
      |g| <= 1 && (g != [] ==> g[0].urr == op.uid && op.uid in Driver.Lookup(d, seid).urrs)
  {
    hide Driver.After, Driver.Cancelled;
  }

  lemma {:induction false} DirectGains(s: Sess, d: Driver.State, op: Request, u: UrrId)
    requires (op.RemoveUrr? || op.QueryUrr?) && Driver.SoundReports(Driver.Lookup(d, s.localId).urrReports)
    ensures var g := OfUrr(Do(s, d, op).reports, u);
      |g| <= 1 && (g != [] ==> op.uid == u && u in Driver.Lookup(d, s.localId).urrs)
  {
    hide Driver.Apply, Driver.SoundReports, Driver.Lookup, OfUrr, Refer;
    NoReports(u);
    HeldReports(d, s.localId, op);
    MarkedUniform(Driver.Apply(d, s.localId, op).reports, if op.RemoveUrr? then TERMR else IMMER, op.uid, u);
    MarkEmpty(TERMR);
    MarkEmpty(IMMER);
  }

  lemma {:induction false} MarkEmpty(t: Trigger)
    ensures Mark([], t) == []
  {
  }

  lemma {:induction false} LastReportsLive(urrs: map<UrrId, UrrInfo>, d: Driver.State, seid: Seid,
          order: seq<UrrId>, u: UrrId)
    requires Driver.SoundReports(Driver.Lookup(d, seid).urrReports)
    ensures OfUrr(LastReports(urrs, d, seid, order), u) != [] ==> u in Driver.Lookup(d, seid).urrs
    decreases |order|
  {
    hide Driver.Apply, Driver.SoundReports, Driver.Lookup, OfUrr;
    NoReports(u);
    if order != [] {
      var id := order[|order| - 1];
      var front := LastReports(urrs, d, seid, order[..|order| - 1]);
      LastReportsLive(urrs, d, seid, order[..|order| - 1], u);
      var q := Driver.Apply(d, seid, QueryUrr(id)).reports;
      HeldReports(d, seid, QueryUrr(id));
      MarkedUniform(q, TERMR, id, u);
      MarkEmpty(TERMR);
      OfUrrAppend(front, if LastReference(urrs, id) then Mark(q, TERMR) else [], u);
    }
  }

  /** An accepted PDR update or removal keeps the URRs and their accumulators. */
  lemma {:induction false} PdrKeeps(d: Driver.State, seid: Seid, op: Request)
    requires (op.RemovePdr? || op.UpdatePdr?) && Driver.Refusal(d, seid, op).None?
    ensures var t, t' := Driver.Lookup(d, seid), Driver.Lookup(Driver.Apply(d, seid, op).state, seid);
      t'.urrs == t.urrs && t'.urrReports == t.urrReports
  {
    hide Driver.Apply, Driver.Names, Driver.Lookup, Driver.MergePdr;
    ApplyHere(d, seid, op);
    AcceptedApply(d, seid, op);
  }

  lemma {:induction false} PdrGains(s: Sess, d: Driver.State, op: Request, u: UrrId)
    requires (op.RemovePdr? || op.UpdatePdr?) && Driver.Refusal(d, s.localId, op).None?
    requires Driver.SoundReports(Driver.Lookup(d, s.localId).urrReports)
    ensures OfUrr(Do(s, d, op).reports, u) != [] ==> u in Driver.Lookup(d, s.localId).urrs
  {
    hide Driver.Apply, Driver.Names, Driver.Lookup, OfUrr, LastReports;
    NoReports(u);
    AcceptedApply(d, s.localId, op);
    PdrKeeps(d, s.localId, op);
    LastReportsLive(s.urrs, Driver.Apply(d, s.localId, op).state, s.localId, Walk(Dropped(s, op), op.hint), u);
  }

  /** Records an operation of a later stage may change: none is lost, and a removed one stays
      so unless it is created again. */
  lemma {:induction false} RecordsLast(s: Sess, d: Driver.State, op: Request, u: UrrId)
    requires u in s.urrs
    ensures u in Do(s, d, op).sess.urrs
    ensures Stage(op) > 4 ==> (Do(s, d, op).sess.urrs[u].removed <==>
              s.urrs[u].removed || (op.RemoveUrr? && op.uid == u))
  {
    hide Driver.Apply, Collected, Refer;
    if op.CreatePdr? { ReferKeys(s.urrs, op.pdr.urrIds); }
  }

  lemma {:induction false} StepFinds(f: Result, op: Request, stage: nat)
    requires AllFind(f, stage) && stage <= Stage(op)
    requires Link(f.sess, Driver.Lookup(f.driver, f.sess.localId))
    requires Driver.SoundReports(Driver.Lookup(f.driver, f.sess.localId).urrReports)
    ensures var r := Do(f.sess, f.driver, op);
      AllFind(Result(r.sess, r.driver, f.reports + r.reports, true), Stage(op))
  {
    hide Driver.Lookup, Do, OfUrr, Driver.SoundReports;
    var r := Do(f.sess, f.driver, op);
    var t := Driver.Lookup(f.driver, f.sess.localId);
    forall u | OfUrr(f.reports + r.reports, u) != []
      ensures u in r.sess.urrs
      ensures r.sess.urrs[u].removed ==> |OfUrr(f.reports + r.reports, u)| <= 1
      ensures Stage(op) <= 8 ==> r.sess.urrs[u].removed
      ensures Stage(op) >= 7
    {
      OfUrrAppend(f.reports, r.reports, u);
      GainsAreLive(f.sess, f.driver, op, u);
      var mine, g := OfUrr(f.reports, u), OfUrr(r.reports, u);
      assert u in f.sess.urrs;
      RecordsLast(f.sess, f.driver, op, u);
    }
  }

  lemma {:induction false} ModificationFinds(s: Sess, d: Driver.State, ops: seq<Request>)
    requires HandlerOrder(ops)
    requires Link(s, Driver.Lookup(d, s.localId)) && Driver.Sound(d)
    ensures AllFind(DoAll(s, d, ops), if ops == [] then 0 else Stage(ops[|ops| - 1]))
    decreases |ops|
  {
    hide Driver.Lookup, Do, Driver.SoundReports, AllFind, Stage, Link, Driver.Sound;
    if ops == [] {
      NothingToFind(s, d);
    } else {
      var n := |ops| - 1;
      ModificationFinds(s, d, ops[..n]);
      DoAllKeeps(s, d, ops[..n], s.localId);
      var f := DoAll(s, d, ops[..n]);
      LookupSound(f.driver, s.localId);
      StepFinds(f, ops[n], if n == 0 then 0 else Stage(ops[n - 1]));
    }
  }

  lemma {:induction false} NothingToFind(s: Sess, d: Driver.State)
    ensures AllFind(DoAll(s, d, []), 0)
  {
    forall u { NoReports(u); }
  }

  lemma {:induction false} LookupSound(d: Driver.State, seid: Seid)
    requires Driver.Sound(d)
    ensures Driver.SoundReports(Driver.Lookup(d, seid).urrReports)
  {
    assert seid in d.sessions ==> Driver.SoundSession(d.sessions[seid]);
  }

  /** A modification response loses no report: all that its operations collect for a URR are
      sent, in order, with consecutive numbers from the next one of the series. */
  lemma {:induction false} ModificationLosesNothing(s: Sess, d: Driver.State, ops: seq<Request>, u: UrrId)
    requires HandlerOrder(ops)
    requires Link(s, Driver.Lookup(d, s.localId)) && Driver.Sound(d)
    requires InRange(DoAll(s, d, ops).sess)
    ensures var r := DoAll(s, d, ops);
            var mine := OfUrr(r.reports, u);
      mine != [] ==>
        && u in r.sess.urrs
        && NumberedOf(Number(r.sess, r.reports, {}, true).1, u) == Consecutive(mine, {}, r.sess.urrs[u].seqn)
  {
    hide DoAll, Driver.Lookup, Link, Driver.Sound, OfUrr, Number, NumberedOf, HandlerOrder;
    ModificationFinds(s, d, ops);
    var r := DoAll(s, d, ops);
    NumberSeries(r.sess, r.reports, {}, true, u);
    var mine := OfUrr(r.reports, u);
    if mine != [] { assert |mine| <= 1 ==> mine[..1] == mine; }
  }

  // ---- the series over the life of a record ----

  /** What can happen to a session's record: an operation, with whatever the driver holds
      then, or a message that numbers some reports. */
  datatype Act =
    | Perform(op: Request, d: Driver.State)
    | Message(reports: seq<Usage>, extra: set<Trigger>, drop: bool)

  ghost function AfterAct(s: Sess, a: Act): Sess {
    match a
    case Perform(op, d) => Do(s, d, op).sess
    case Message(reports, extra, drop) => Number(s, reports, extra, drop).0
  }

  function Seqns(out: seq<Numbered>): (r: seq<nat>)
    ensures |r| == |out| && forall j | 0 <= j < |r| :: r[j] == out[j].seqn
  {
    seq(|out|, j requires 0 <= j < |out| => out[j].seqn)
  }

  /** The numbers issued for a URR since its record was last created. */
  ghost function Issued(s: Sess, acts: seq<Act>, u: UrrId, before: seq<nat>): seq<nat>
    decreases |acts|
  {
    if acts == [] then before
    else
      var a := acts[0];
      Issued(AfterAct(s, a), acts[1..], u,
        if a.Perform? && a.op.CreateUrr? && a.op.uid == u then []
        else if a.Message? then before + Seqns(NumberedOf(Number(s, a.reports, a.extra, a.drop).1, u))
        else before)
  }

  predicate Series(numbers: seq<nat>) {
    forall j | 0 <= j < |numbers| :: numbers[j] == j % 0x1_0000_0000
  }

  lemma {:induction false} DoKeepsSeqn(s: Sess, d: Driver.State, op: Request, u: UrrId)
    requires InRange(s)
    ensures var s' := Do(s, d, op).sess;
      && InRange(s')
      && (u in s'.urrs ==> if op.CreateUrr? && op.uid == u then s'.urrs[u].seqn == 0
                           else u in s.urrs && s'.urrs[u].seqn == s.urrs[u].seqn)
  {
    hide Driver.Apply, Collected, Refer;
    if op.CreatePdr? { ReferKeys(s.urrs, op.pdr.urrIds); }
  }

  lemma {:induction false} SeriesExtends(before: seq<nat>, reports: seq<Usage>, extra: set<Trigger>)
    requires Series(before)
    ensures Series(before + Seqns(Consecutive(reports, extra, |before| % SEQN_WRAP)))
  {
    var q := |before|;
    var all := before + Seqns(Consecutive(reports, extra, q % SEQN_WRAP));
    forall j | 0 <= j < |all| ensures all[j] == j % SEQN_WRAP {
      if j >= q { ModAdd(q, j - q); }
    }
  }

  lemma {:induction false} ModAdd(q: nat, j: nat)
    ensures (q % SEQN_WRAP + j) % SEQN_WRAP == (q + j) % SEQN_WRAP
  {
  }

  /** Over the whole life of a session, whatever its requests and reports, the numbers issued
      for a URR since its creation are 0, 1, 2 and so on, modulo 2^32. */
  lemma {:induction false} NumbersAreSeries(s: Sess, acts: seq<Act>, u: UrrId, before: seq<nat>)
    requires InRange(s) && Series(before) && (u in s.urrs ==> s.urrs[u].seqn == |before| % SEQN_WRAP)
    ensures Series(Issued(s, acts, u, before))
    decreases |acts|
  {
    hide Do, Number, NumberedOf, OfUrr;
    if acts != [] {
      match acts[0] {
        case Perform(op, d) =>
          DoKeepsSeqn(s, d, op, u);
          NumbersAreSeries(AfterAct(s, acts[0]), acts[1..], u, if op.CreateUrr? && op.uid == u then [] else before);
        case Message(reports, extra, drop) =>
          NumberSeries(s, reports, extra, drop, u);
          var mine := if u in s.urrs then Sent(s, u, OfUrr(reports, u), drop) else [];
          SeriesExtends(before, mine, extra);
          ModAdd(|before|, |mine|);
          NumbersAreSeries(AfterAct(s, acts[0]), acts[1..], u,
            before + Seqns(NumberedOf(Number(s, reports, extra, drop).1, u)));
      }
    }
  }
}
