/** The end of a session: Close removes every recorded rule, in any map order, and the
    deletion response reports what the URRs had left. */
module Closing {
  import opened Rules
  import opened Session
  import Driver

  // ---- an order of removals that Close may take ----

  /** FARs first, then QERs, URRs, BARs and PDRs. */
  function Rank(op: Request): nat {
    match op
    case RemoveFar(_) => 0
    case RemoveQer(_) => 1
    case RemoveUrr(_) => 2
    case RemoveBar(_) => 3
    case _ => 4
  }

  predicate SameRule(a: Request, b: Request) {
    || (a.RemoveFar? && b.RemoveFar? && a.fid == b.fid)
    || (a.RemoveQer? && b.RemoveQer? && a.qid == b.qid)
    || (a.RemoveUrr? && b.RemoveUrr? && a.uid == b.uid)
    || (a.RemoveBar? && b.RemoveBar? && a.bid == b.bid)
    || (a.RemovePdr? && b.RemovePdr? && a.pid == b.pid)
  }

  /** Each recorded rule is removed exactly once, kind after kind, each kind in any order. */
  predicate ClosePlan(s: Sess, ops: seq<Request>) {
    && (forall i | 0 <= i < |ops| :: Driver.Removes(ops[i]) && Recorded(s, ops[i]))
    && (forall i, j | 0 <= i < j < |ops| :: !SameRule(ops[i], ops[j]) && Rank(ops[i]) <= Rank(ops[j]))
    && (forall f | f in s.fars :: RemoveFar(f) in ops)
    && (forall q | q in s.qers :: RemoveQer(q) in ops)
    && (forall u | u in s.urrs :: RemoveUrr(u) in ops)
    && (forall b | b in s.bars :: RemoveBar(b) in ops)
    && (forall p | p in s.pdrs :: RemovesPdr(ops, p))
  }

  predicate RemovesPdr(ops: seq<Request>, p: PdrId) {
    exists i :: 0 <= i < |ops| && ops[i].RemovePdr? && ops[i].pid == p
  }

  // ---- what a removal leaves of the driver's session ----

  /** Equal in the rules, buffers and accumulators; a deleted session has none. */
  predicate SameRules(a: SessionState, b: SessionState) {
    && a.pdrs == b.pdrs && a.fars == b.fars && a.qers == b.qers && a.urrs == b.urrs && a.bars == b.bars
    && a.urrReports == b.urrReports && a.buffers == b.buffers
  }

  function Cut(t: SessionState, op: Request): SessionState
    requires Driver.Removes(op)
  {
    if Driver.Names(t, op) then Driver.After(t, op) else t
  }

  function CutAll(t: SessionState, ops: seq<Request>): SessionState
    requires forall i | 0 <= i < |ops| :: Driver.Removes(ops[i])
    decreases |ops|
  {
    if ops == [] then t else Cut(CutAll(t, ops[..|ops| - 1]), ops[|ops| - 1])
  }

  lemma {:induction false} CutSame(a: SessionState, b: SessionState, op: Request)
    requires SameRules(a, b) && Driver.Removes(op)
    ensures SameRules(Cut(a, op), Cut(b, op))
  {
  }

  /** A removal does to the driver's session what Cut says, whether the driver accepts it or
      not. */
  lemma {:induction false} RemovalCuts(s: Sess, d: Driver.State, op: Request)
    requires Driver.Removes(op) && Recorded(s, op)
    ensures SameRules(Driver.Lookup(Do(s, d, op).driver, s.localId), Cut(Driver.Lookup(d, s.localId), op))
  {
    hide Driver.Apply, Driver.After, Driver.Names, Collected, Noted, Confirmed;
    RefusalOf(d, s.localId, op);
    if Driver.Refusal(d, s.localId, op).Some? {
      RefusedApply(d, s.localId, op);
    } else {
      AcceptedApply(d, s.localId, op);
      ApplyHere(d, s.localId, op);
    }
  }

  lemma {:induction false} RefusalOf(d: Driver.State, seid: Seid, op: Request)
    requires Driver.Removes(op)
    ensures Driver.Refusal(d, seid, op).None? <==> Driver.Names(Driver.Lookup(d, seid), op)
  {
  }

  /** A removal keeps the other records, and all URR records with their numbers. */
  lemma {:induction false} RemovalKeepsRecords(s: Sess, d: Driver.State, op: Request, other: Request)
    requires Driver.Removes(op) && Recorded(s, op)
    ensures Driver.Removes(other) && Recorded(s, other) && !SameRule(op, other) ==> Recorded(Do(s, d, op).sess, other)
    ensures Do(s, d, op).sess.urrs.Keys == s.urrs.Keys
    ensures forall u | u in s.urrs :: Do(s, d, op).sess.urrs[u].seqn == s.urrs[u].seqn
    ensures op.RemoveUrr? ==> op.uid in Do(s, d, op).sess.urrs && Do(s, d, op).sess.urrs[op.uid].removed
    ensures forall u | u in s.urrs && s.urrs[u].removed :: Do(s, d, op).sess.urrs[u].removed
  {
    hide Driver.Apply, Collected;
  }

  /** Field by field, the effect of one removal. */
  predicate Removed(t: SessionState, op: Request, c: SessionState) {
    && c.fars == (if op.RemoveFar? then t.fars - {op.fid} else t.fars)
    && c.qers == (if op.RemoveQer? then t.qers - {op.qid} else t.qers)
    && c.urrs == (if op.RemoveUrr? then t.urrs - {op.uid} else t.urrs)
    && c.bars == (if op.RemoveBar? then t.bars - {op.bid} else t.bars)
    && c.pdrs == (if op.RemovePdr? then t.pdrs - {op.pid} else t.pdrs)
    && c.urrReports == (if op.RemoveUrr? && op.uid in t.urrs then t.urrReports - {op.uid} else t.urrReports)
  }

  lemma {:induction false} CutOne(t: SessionState, op: Request)
    requires Driver.Removes(op)
    ensures Removed(t, op, Cut(t, op))
  {
    if Driver.Names(t, op) {
      CutNamed(t, op);
    } else {
      CutUnnamed(t, op);
    }
  }

  lemma {:induction false} CutNamed(t: SessionState, op: Request)
    requires Driver.Removes(op) && Driver.Names(t, op)
    ensures Removed(t, op, Driver.After(t, op))
  {
  }

  lemma {:induction false} CutUnnamed(t: SessionState, op: Request)
    requires Driver.Removes(op) && !Driver.Names(t, op)
    ensures Removed(t, op, t)
  {
  }

  /** What the cuts remove, and that no other URR or accumulator goes. */
  lemma {:induction false} CutAllRules(t: SessionState, ops: seq<Request>)
    requires forall i | 0 <= i < |ops| :: Driver.Removes(ops[i])
    ensures var c := CutAll(t, ops);
      && (forall f | f in c.fars :: f in t.fars && RemoveFar(f) !in ops)
      && (forall q | q in c.qers :: q in t.qers && RemoveQer(q) !in ops)
      && (forall u :: u in c.urrs <==> u in t.urrs && RemoveUrr(u) !in ops)
      && (forall b | b in c.bars :: b in t.bars && RemoveBar(b) !in ops)
      && (forall p | p in c.pdrs :: p in t.pdrs && !RemovesPdr(ops, p))
      && (forall u | RemoveUrr(u) !in ops :: Driver.Accumulated(c, u) == Driver.Accumulated(t, u))
    decreases |ops|
  {
    hide Cut;
    if ops != [] {
      var front, last := ops[..|ops| - 1], ops[|ops| - 1];
      assert ops == front + [last];
      CutAllRules(t, front);
      CutOne(CutAll(t, front), last);
      forall p | !RemovesPdr(front, p) && !(last.RemovePdr? && last.pid == p) ensures !RemovesPdr(ops, p) {
      }
    }
  }

  // ---- the reports of the removals ----

  function OfUrr(reports: seq<Usage>, u: UrrId): seq<Usage> {
    if reports == [] then []
    else OfUrr(reports[..|reports| - 1], u) + if reports[|reports| - 1].urr == u then [reports[|reports| - 1]] else []
  }

  lemma {:induction false} OfUrrAppend(a: seq<Usage>, b: seq<Usage>, u: UrrId)
    ensures OfUrr(a + b, u) == OfUrr(a, u) + OfUrr(b, u)
    decreases |b|
  {
    if b == [] {
      assert a + b == a;
    } else {
      assert (a + b)[..|a + b| - 1] == a + b[..|b| - 1];
      OfUrrAppend(a, b[..|b| - 1], u);
    }
  }

  lemma {:induction false} OfUrrUniform(reports: seq<Usage>, x: UrrId, u: UrrId)
    requires forall i | 0 <= i < |reports| :: reports[i].urr == x
    ensures OfUrr(reports, u) == if u == x then reports else []
  {
    if reports != [] {
      OfUrrUniform(reports[..|reports| - 1], x, u);
      assert reports == reports[..|reports| - 1] + [reports[|reports| - 1]];
    }
  }

  /** What removing everything reports for one URR: what it had left, if it was installed. */
  function Final(t: SessionState, u: UrrId): seq<Usage> {
    if u in t.urrs then Mark(Driver.Accumulated(t, u), TERMR) else []
  }

  lemma {:induction false} NothingToQuery(urrs: map<UrrId, UrrInfo>, d: Driver.State, seid: Seid, order: seq<UrrId>)
    requires Driver.Lookup(d, seid).urrs == map[]
    ensures LastReports(urrs, d, seid, order) == []
  {
    hide Driver.Apply;
    if order != [] {
      NothingToQuery(urrs, d, seid, order[..|order| - 1]);
      QueryRefused(d, seid, order[|order| - 1]);
    }
  }

  lemma {:induction false} QueryRefused(d: Driver.State, seid: Seid, u: UrrId)
    requires u !in Driver.Lookup(d, seid).urrs
    ensures Driver.Apply(d, seid, QueryUrr(u)).reports == []
  {
    hide Driver.After, Driver.Cancelled;
  }

  lemma {:induction false} RemovalReports(s: Sess, d: Driver.State, op: Request)
    requires Driver.Removes(op) && Recorded(s, op)
    requires op.RemovePdr? ==> Driver.Lookup(d, s.localId).urrs == map[]
    ensures Do(s, d, op).reports == if op.RemoveUrr? then Final(Driver.Lookup(d, s.localId), op.uid) else []
  {
    hide Driver.Apply, Driver.After, Driver.Names, Refer, Confirmed, LastReports;
    RefusalOf(d, s.localId, op);
    if Driver.Refusal(d, s.localId, op).Some? {
      RefusedApply(d, s.localId, op);
      if op.RemoveUrr? { NamesUrr(Driver.Lookup(d, s.localId), op); }
    } else {
      AcceptedApply(d, s.localId, op);
      if op.RemoveUrr? {
        NamesUrr(Driver.Lookup(d, s.localId), op);
        RemovalReply(d, s.localId, op);
      }
      if op.RemovePdr? { PdrReportsNothing(s, d, op); }
    }
  }

  lemma {:induction false} PdrReportsNothing(s: Sess, d: Driver.State, op: Request)
    requires op.RemovePdr? && Recorded(s, op) && Driver.Lookup(d, s.localId).urrs == map[]
    ensures Do(s, d, op).reports == []
  {
    hide Driver.Apply, LastReports, Cut;
    RemovalCuts(s, d, op);
    CutOne(Driver.Lookup(d, s.localId), op);
    NothingToQuery(s.urrs, Driver.Apply(d, s.localId, op).state, s.localId, Walk(Dropped(s, op), op.hint));
  }

  lemma {:induction false} NamesUrr(t: SessionState, op: Request)
    requires op.RemoveUrr?
    ensures Driver.Names(t, op) <==> op.uid in t.urrs
  {
  }

  lemma {:induction false} RemovalReply(d: Driver.State, seid: Seid, op: Request)
    requires op.RemoveUrr? && Driver.Refusal(d, seid, op).None?
    ensures Driver.Apply(d, seid, op).reports == Driver.Accumulated(Driver.Lookup(d, seid), op.uid)
  {
    hide Driver.After, Driver.Cancelled, Driver.Names;
  }

  // ---- Close ----

  /** The record after the first `k` removals of the plan: the rest is still to be removed, and
      no URR record or number is lost. */
  ghost predicate RecordsAt(s: Sess, ops: seq<Request>, k: nat, n: Sess)
    requires k <= |ops|
  {
    && n.localId == s.localId && n.remoteId == s.remoteId && n.owner == s.owner
    && (forall j | k <= j < |ops| :: Recorded(n, ops[j]))
    && n.urrs.Keys == s.urrs.Keys
    && (forall u | u in s.urrs :: n.urrs[u].seqn == s.urrs[u].seqn)
    && (forall u | RemoveUrr(u) in ops[..k] :: u in n.urrs && n.urrs[u].removed)
  }

  /** The reports gained by then: the residual usage of each URR removed so far. */
  ghost predicate ReportsAt(t: SessionState, ops: seq<Request>, k: nat, reports: seq<Usage>)
    requires k <= |ops|
  {
    forall u :: OfUrr(reports, u) == if RemoveUrr(u) in ops[..k] then Final(t, u) else []
  }

  /** Where Close stands after the first `k` removals of its plan. */
  ghost predicate Midway(s: Sess, t: SessionState, ops: seq<Request>, k: nat, r: Result)
    requires ClosePlan(s, ops) && k <= |ops|
  {
    && RecordsAt(s, ops, k, r.sess)
    && SameRules(Driver.Lookup(r.driver, s.localId), CutAll(t, ops[..k]))
    && ReportsAt(t, ops, k, r.reports)
  }

  /** A report list of a sound session names its own URR. */
  lemma {:induction false} FinalUniform(t: SessionState, u: UrrId, v: UrrId)
    requires Driver.SoundReports(t.urrReports)
    ensures OfUrr(Final(t, u), v) == if u == v then Final(t, u) else []
  {
    OfUrrUniform(Final(t, u), u, v);
  }

  lemma {:induction false} UrrsBeforePdrs(s: Sess, ops: seq<Request>, k: nat, u: UrrId)
    requires ClosePlan(s, ops) && k < |ops| && ops[k].RemovePdr? && u in s.urrs
    ensures RemoveUrr(u) in ops[..k]
  {
    hide Recorded, SameRule;
    var i :| 0 <= i < |ops| && ops[i] == RemoveUrr(u);
    assert Rank(ops[i]) == 2 && Rank(ops[k]) == 4;
    assert ops[..k][i] == RemoveUrr(u);
  }

  lemma {:induction false} UrrsGoneBeforePdrs(s: Sess, t: SessionState, ops: seq<Request>, k: nat)
    requires ClosePlan(s, ops) && k < |ops| && ops[k].RemovePdr? && t.urrs.Keys <= s.urrs.Keys
    ensures CutAll(t, ops[..k]).urrs == map[]
  {
    CutAllRules(t, ops[..k]);
    forall u | u in t.urrs ensures RemoveUrr(u) in ops[..k] { UrrsBeforePdrs(s, ops, k, u); }
    hide ClosePlan, CutAll;
    assert CutAll(t, ops[..k]).urrs.Keys == {};
  }

  lemma {:induction false} FinalAt(t: SessionState, c: SessionState, e: SessionState, u: UrrId)
    requires SameRules(e, c) && (u in c.urrs <==> u in t.urrs) && Driver.Accumulated(c, u) == Driver.Accumulated(t, u)
    ensures Final(e, u) == Final(t, u)
  {
  }

  lemma {:induction false} SameReflexive(t: SessionState)
    ensures SameRules(t, t)
  {
  }

  lemma {:induction false} SameTransitive(a: SessionState, b: SessionState, c: SessionState)
    requires SameRules(a, b) && SameRules(b, c)
    ensures SameRules(a, c)
  {
  }

  lemma {:induction false} StepRecords(s: Sess, ops: seq<Request>, k: nat, n: Sess, d: Driver.State)
    requires ClosePlan(s, ops) && k < |ops| && RecordsAt(s, ops, k, n)
    ensures RecordsAt(s, ops, k + 1, Do(n, d, ops[k]).sess)
  {
    hide Do, Recorded, SameRule, Rank, RemovesPdr;
    var op := ops[k];
    DoKeepsIdentity(n, d, op);
    forall j | k + 1 <= j < |ops| ensures Recorded(Do(n, d, op).sess, ops[j]) {
      RemovalKeepsRecords(n, d, op, ops[j]);
    }
    RemovalKeepsRecords(n, d, op, op);
    assert ops[..k + 1] == ops[..k] + [op];
  }

  lemma {:induction false} StepRules(s: Sess, t: SessionState, ops: seq<Request>, k: nat, f: Result)
    requires ClosePlan(s, ops) && k < |ops| && RecordsAt(s, ops, k, f.sess)
    requires SameRules(Driver.Lookup(f.driver, s.localId), CutAll(t, ops[..k]))
    ensures SameRules(Driver.Lookup(Do(f.sess, f.driver, ops[k]).driver, s.localId), CutAll(t, ops[..k + 1]))
  {
    hide Driver.Lookup, Do, Cut, SameRules, Recorded, SameRule, Rank, RemovesPdr;
    var op := ops[k];
    var e, c := Driver.Lookup(f.driver, s.localId), CutAll(t, ops[..k]);
    RemovalCuts(f.sess, f.driver, op);
    CutSame(e, c, op);
    SameTransitive(Driver.Lookup(Do(f.sess, f.driver, op).driver, s.localId), Cut(e, op), Cut(c, op));
    assert ops[..k + 1][..k] == ops[..k];
  }

  /** One removal of the plan takes Close one step further. */
  lemma {:induction false} CloseStep(s: Sess, t: SessionState, ops: seq<Request>, k: nat, f: Result)
    requires ClosePlan(s, ops) && k < |ops| && Midway(s, t, ops, k, f)
    requires t.urrs.Keys <= s.urrs.Keys && Driver.SoundReports(t.urrReports)
    ensures var r := Do(f.sess, f.driver, ops[k]);
      Midway(s, t, ops, k + 1, Result(r.sess, r.driver, f.reports + r.reports, true))
  {
    hide Driver.Lookup, Do, CutAll, Driver.SoundReports, SameRules, RecordsAt, ClosePlan;
    StepRecords(s, ops, k, f.sess, f.driver);
    StepRules(s, t, ops, k, f);
    StepReports(s, t, ops, k, f);
  }

  lemma {:induction false} StepReports(s: Sess, t: SessionState, ops: seq<Request>, k: nat, f: Result)
    requires ClosePlan(s, ops) && k < |ops| && Midway(s, t, ops, k, f)
    requires t.urrs.Keys <= s.urrs.Keys && Driver.SoundReports(t.urrReports)
    ensures ReportsAt(t, ops, k + 1, f.reports + Do(f.sess, f.driver, ops[k]).reports)
  {
    hide Driver.Lookup, Do, Cut, CutAll, Driver.SoundReports, Final, Recorded, OfUrr, SameRule, Rank, RemovesPdr;
    var op := ops[k];
    var gained := Do(f.sess, f.driver, op).reports;
    var e, c := Driver.Lookup(f.driver, s.localId), CutAll(t, ops[..k]);
    if op.RemovePdr? { UrrsGoneBeforePdrs(s, t, ops, k); }
    RemovalReports(f.sess, f.driver, op);
    if op.RemoveUrr? {
      CutAllRules(t, ops[..k]);
      NotYet(s, ops, k);
      FinalAt(t, c, e, op.uid);
    }
    assert gained == if op.RemoveUrr? then Final(t, op.uid) else [];
    forall u
      ensures OfUrr(f.reports + gained, u) == if RemoveUrr(u) in ops[..k + 1] then Final(t, u) else []
    {
      OneMore(s, t, ops, k, f.reports, gained, u);
    }
  }

  lemma {:induction false} OneMore(s: Sess, t: SessionState, ops: seq<Request>, k: nat, before: seq<Usage>,
          gained: seq<Usage>, u: UrrId)
    requires ClosePlan(s, ops) && k < |ops| && Driver.SoundReports(t.urrReports)
    requires gained == if ops[k].RemoveUrr? then Final(t, ops[k].uid) else []
    requires OfUrr(before, u) == if RemoveUrr(u) in ops[..k] then Final(t, u) else []
    ensures OfUrr(before + gained, u) == if RemoveUrr(u) in ops[..k + 1] then Final(t, u) else []
  {
    hide ClosePlan, Driver.SoundReports, Final, OfUrr;
    OfUrrAppend(before, gained, u);
    NoReports(u);
    if ops[k].RemoveUrr? {
      FinalUniform(t, ops[k].uid, u);
      NotYet(s, ops, k);
    }
    assert ops[..k + 1] == ops[..k] + [ops[k]];
  }

  lemma {:induction false} NoReports(u: UrrId)
    ensures OfUrr([], u) == []
  {
  }

  lemma {:induction false} NotYet(s: Sess, ops: seq<Request>, k: nat)
    requires ClosePlan(s, ops) && k < |ops| && ops[k].RemoveUrr?
    ensures ops[k] == RemoveUrr(ops[k].uid) && RemoveUrr(ops[k].uid) !in ops[..k]
  {
    forall i | 0 <= i < k ensures ops[..k][i] != ops[k] { assert !SameRule(ops[i], ops[k]); }
  }

  lemma {:induction false} CloseStart(s: Sess, d: Driver.State, ops: seq<Request>)
    requires ClosePlan(s, ops)
    ensures Midway(s, Driver.Lookup(d, s.localId), ops, 0, DoAll(s, d, ops[..0]))
  {
    hide Driver.Lookup, Do, Final, SameRules, Recorded, SameRule, Rank;
    SameReflexive(Driver.Lookup(d, s.localId));
    assert ops[..0] == [];
  }

  lemma {:induction false} CloseProgress(s: Sess, d: Driver.State, ops: seq<Request>, k: nat)
    requires ClosePlan(s, ops) && k <= |ops|
    requires Driver.Lookup(d, s.localId).urrs.Keys <= s.urrs.Keys
    requires Driver.SoundReports(Driver.Lookup(d, s.localId).urrReports)
    ensures Midway(s, Driver.Lookup(d, s.localId), ops, k, DoAll(s, d, ops[..k]))
    decreases k
  {
    hide Driver.Lookup, Do, Driver.SoundReports, Midway, ClosePlan;
    var t := Driver.Lookup(d, s.localId);
    if k == 0 {
      CloseStart(s, d, ops);
    } else {
      CloseProgress(s, d, ops, k - 1);
      CloseStep(s, t, ops, k - 1, DoAll(s, d, ops[..k - 1]));
      assert ops[..k][..k - 1] == ops[..k - 1];
    }
  }

  /** Close leaves the driver with no rule of the session, whatever order the maps are walked
      in and whether or not single removals fail; the URR records are still there, marked
      removed and with their numbers; and each installed URR's residual usage is collected
      exactly once, with TERMR set, and nothing else is. */
  lemma {:induction false} CloseEmptiesAndReports(s: Sess, d: Driver.State, ops: seq<Request>)
    requires ClosePlan(s, ops)
    requires Link(s, Driver.Lookup(d, s.localId)) && Driver.SoundReports(Driver.Lookup(d, s.localId).urrReports)
    ensures var r := DoAll(s, d, ops);
      && Driver.NoRules(Driver.Lookup(r.driver, s.localId))
      && r.sess.localId == s.localId && r.sess.remoteId == s.remoteId && r.sess.owner == s.owner
      && r.sess.urrs.Keys == s.urrs.Keys
      && (forall u | u in s.urrs :: r.sess.urrs[u].removed && r.sess.urrs[u].seqn == s.urrs[u].seqn)
      && (forall u :: OfUrr(r.reports, u) == Final(Driver.Lookup(d, s.localId), u))
  {
    hide Driver.Lookup, Do, DoAll, Driver.SoundReports, ClosePlan, OfUrr, CutAll;
    var t := Driver.Lookup(d, s.localId);
    assert ops[..|ops|] == ops;
    CloseProgress(s, d, ops, |ops|);
    PlanCovers(s, t, ops);
  }

  lemma {:induction false} PlanCovers(s: Sess, t: SessionState, ops: seq<Request>)
    requires ClosePlan(s, ops) && Link(s, t)
    ensures Driver.NoRules(CutAll(t, ops))
    ensures forall u | u in s.urrs :: RemoveUrr(u) in ops
  {
    hide SameRule, Rank, Recorded, CutAll, RemovesPdr;
    CutAllRules(t, ops);
    var c := CutAll(t, ops);
    forall f | f in s.fars ensures f !in c.fars { assert RemoveFar(f) in ops; }
    forall q | q in s.qers ensures q !in c.qers { assert RemoveQer(q) in ops; }
    forall u | u in s.urrs ensures u !in c.urrs { assert RemoveUrr(u) in ops; }
    forall b | b in s.bars ensures b !in c.bars { assert RemoveBar(b) in ops; }
    forall p | p in s.pdrs ensures p !in c.pdrs { assert RemovesPdr(ops, p); }
    assert c.fars.Keys <= t.fars.Keys && c.qers.Keys <= t.qers.Keys && c.bars.Keys <= t.bars.Keys
        && c.pdrs.Keys <= t.pdrs.Keys;
    assert c.urrs.Keys <= t.urrs.Keys;
  }
}
