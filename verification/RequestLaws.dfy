/** What the operations of a request leave in the driver and on record, rule by rule. */
module RequestLaws {
  import opened Rules
  import opened Session
  import opened DriverLaws
  import Driver

  /** A rule of any kind, and its name. */
  datatype Rule = PdrRule(pdr: Pdr) | FarRule(far: Far) | QerRule(qer: Qer) | UrrRule(urr: Urr) | BarRule(bar: Bar)
  datatype Name = PdrName(pid: PdrId) | FarName(fid: FarId) | QerName(qid: QerId) | UrrName(uid: UrrId) | BarName(bid: BarId)

  function As<T>(v: Option<T>, f: T -> Rule): Option<Rule> { if v.Some? then Some(f(v.value)) else None }

  /** The rule that the driver holds under a SEID. */
  function RuleIn(d: Driver.State, seid: Seid, n: Name): Option<Rule> {
    match n
    case PdrName(id) => As(PdrIn(d, seid, id), (x: Pdr) => PdrRule(x))
    case FarName(id) => As(FarIn(d, seid, id), (x: Far) => FarRule(x))
    case QerName(id) => As(QerIn(d, seid, id), (x: Qer) => QerRule(x))
    case UrrName(id) => As(UrrIn(d, seid, id), (x: Urr) => UrrRule(x))
    case BarName(id) => As(BarIn(d, seid, id), (x: Bar) => BarRule(x))
  }

  function NameOf(op: Request): Name {
    match op
    case CreatePdr(id, _, _) => PdrName(id)
    case UpdatePdr(id, _, _, _) => PdrName(id)
    case RemovePdr(id, _) => PdrName(id)
    case CreateFar(id, _, _) => FarName(id)
    case UpdateFar(id, _, _) => FarName(id)
    case RemoveFar(id) => FarName(id)
    case CreateQer(id, _, _) => QerName(id)
    case UpdateQer(id, _, _) => QerName(id)
    case RemoveQer(id) => QerName(id)
    case CreateUrr(id, _, _, _) => UrrName(id)
    case UpdateUrr(id, _, _, _) => UrrName(id)
    case RemoveUrr(id) => UrrName(id)
    case QueryUrr(id) => UrrName(id)
    case CreateBar(id, _, _) => BarName(id)
    case UpdateBar(id, _, _) => BarName(id)
    case RemoveBar(id) => BarName(id)
  }

  /** The value that a creation or update carries. */
  function Carried(op: Request): Option<Rule> {
    match op
    case CreatePdr(_, x, _) => Some(PdrRule(x))
    case UpdatePdr(_, x, _, _) => Some(PdrRule(x))
    case CreateFar(_, x, _) => Some(FarRule(x))
    case UpdateFar(_, x, _) => Some(FarRule(x))
    case CreateQer(_, x, _) => Some(QerRule(x))
    case UpdateQer(_, x, _) => Some(QerRule(x))
    case CreateUrr(_, x, _, _) => Some(UrrRule(x))
    case UpdateUrr(_, x, _, _) => Some(UrrRule(x))
    case CreateBar(_, x, _) => Some(BarRule(x))
    case UpdateBar(_, x, _) => Some(BarRule(x))
    case _ => None
  }

  /** What an update makes of the rule it names: PDRs and FARs are patched, the others replaced. */
  predicate Updated(now: Rule, was: Rule, next: Rule) {
    match next
    case PdrRule(x) => was.PdrRule? && now.PdrRule? && PatchedPdr(now.pdr, was.pdr, x)
    case FarRule(x) => was.FarRule? && now.FarRule? && PatchedFar(now.far, was.far, x)
    case _ => now == next
  }

  /** One operation on one rule: a well-formed creation of it sets it, a well-formed update patches it
      if it is there, a removal takes it away, and nothing else changes it. */
  predicate Becomes(was: Option<Rule>, op: Request, n: Name, now: Option<Rule>) {
    if NameOf(op) != n || !WellFormed(op) || op.QueryUrr? then now == was
    else if Driver.Creates(op) then now == Carried(op)
    else if Driver.Removes(op) then now.None?
    else if was.None? then now.None?
    else now.Some? && Carried(op).Some? && Updated(now.value, was.value, Carried(op).value)
  }

  /** One operation after the other. */
  ghost predicate Ends(was: Option<Rule>, ops: seq<Request>, n: Name, now: Option<Rule>)
    decreases |ops|
  {
    if ops == [] then now == was
    else
      var front, last := ops[..|ops| - 1], ops[|ops| - 1];
      exists mid: Option<Rule> :: Ends(was, front, n, mid) && Becomes(mid, last, n, now)
  }

  lemma {:induction false} RuleChanges(d: Driver.State, seid: Seid, op: Request, n: Name)
    requires WellFormed(op) && Present(d, seid, op)
    ensures Becomes(RuleIn(d, seid, n), op, n, RuleIn(Driver.Apply(d, seid, op).state, seid, n))
  {
    hide Driver.Apply, PatchedPdr, PatchedFar, PdrIn, FarIn, QerIn, UrrIn, BarIn;
    RequestLaw(d, seid, op);
    var d' := Driver.Apply(d, seid, op).state;
    match n
    case PdrName(id) => assert PdrChanged(d, seid, op, d', seid, id);
    case FarName(id) => assert FarChanged(d, seid, op, d', seid, id);
    case QerName(id) => assert QerChanged(d, seid, op, d', seid, id);
    case UrrName(id) => assert UrrChanged(d, seid, op, d', seid, id);
    case BarName(id) => assert BarChanged(d, seid, op, d', seid, id);
  }

  /** An operation that the driver does not accept names a rule that is not there, or is malformed. */
  lemma {:induction false} RefusedBecomes(d: Driver.State, seid: Seid, op: Request, n: Name)
    requires !(WellFormed(op) && Present(d, seid, op))
    ensures Becomes(RuleIn(d, seid, n), op, n, RuleIn(d, seid, n))
  {
  }

  lemma {:induction false} RecordedPresent(s: Sess, d: Driver.State, op: Request)
    requires Link(s, Driver.Lookup(d, s.localId)) && !Recorded(s, op)
    ensures !Present(d, s.localId, op)
  {
  }

  lemma {:induction false} DoDriver(s: Sess, d: Driver.State, op: Request)
    ensures Do(s, d, op).driver == if Recorded(s, op) then Driver.Apply(d, s.localId, op).state else d
  {
    hide Driver.Apply, Collected, Noted, Confirmed, Recorded;
  }

  lemma {:induction false} DoBecomes(s: Sess, d: Driver.State, op: Request, n: Name)
    requires Link(s, Driver.Lookup(d, s.localId))
    ensures Becomes(RuleIn(d, s.localId, n), op, n, RuleIn(Do(s, d, op).driver, s.localId, n))
  {
    hide Driver.Apply, Do, Recorded, RuleIn, Becomes, WellFormed, Present, Link, Driver.Lookup;
    DoDriver(s, d, op);
    AcceptedExactly(d, s.localId, op);
    if !Recorded(s, op) { RecordedPresent(s, d, op); }
    if WellFormed(op) && Present(d, s.localId, op) {
      RuleChanges(d, s.localId, op, n);
    } else {
      RefusedBecomes(d, s.localId, op, n);
    }
  }

  /** What any sequence of operations leaves of a rule in the driver. */
  lemma {:induction false} DoAllEnds(s: Sess, d: Driver.State, ops: seq<Request>, n: Name)
    requires Link(s, Driver.Lookup(d, s.localId))
    ensures Ends(RuleIn(d, s.localId, n), ops, n, RuleIn(DoAll(s, d, ops).driver, s.localId, n))
    ensures var r := DoAll(s, d, ops); r.sess.localId == s.localId && Link(r.sess, Driver.Lookup(r.driver, s.localId))
    decreases |ops|
  {
    hide Do, RuleIn, Becomes, Link, Driver.Lookup;
    if ops != [] {
      var k := |ops| - 1;
      DoAllEnds(s, d, ops[..k], n);
      var f := DoAll(s, d, ops[..k]);
      DoBecomes(f.sess, f.driver, ops[k], n);
      DoKeepsIdentity(f.sess, f.driver, ops[k]);
      DoKeepsLink(f.sess, f.driver, ops[k]);
    }
  }

  lemma {:induction false} OtherRules(d: Driver.State, d': Driver.State, k: Seid)
    requires Driver.Lookup(d', k) == Driver.Lookup(d, k)
    ensures forall n: Name :: RuleIn(d', k, n) == RuleIn(d, k, n)
  {
    InLookup(d, k);
    InLookup(d', k);
    hide Driver.Lookup, Get;
    forall n: Name ensures RuleIn(d', k, n) == RuleIn(d, k, n) {
      match n
      case PdrName(id) => assert PdrIn(d', k, id) == PdrIn(d, k, id);
      case FarName(id) => assert FarIn(d', k, id) == FarIn(d, k, id);
      case QerName(id) => assert QerIn(d', k, id) == QerIn(d, k, id);
      case UrrName(id) => assert UrrIn(d', k, id) == UrrIn(d, k, id);
      case BarName(id) => assert BarIn(d', k, id) == BarIn(d, k, id);
    }
  }

  // ---- what that means ----

  /** The operation at `i` is the last one to name its rule. */
  predicate LastToName(ops: seq<Request>, i: nat)
    requires i < |ops|
  {
    forall j | i < j < |ops| && NameOf(ops[j]) == NameOf(ops[i]) :: ops[j].QueryUrr?
  }

  lemma {:induction false} EndsKeeps(was: Option<Rule>, ops: seq<Request>, i: nat, now: Option<Rule>)
    requires i < |ops| && LastToName(ops, i) && Ends(was, ops, NameOf(ops[i]), now)
    ensures exists mid: Option<Rule> :: Ends(was, ops[..i], NameOf(ops[i]), mid) && Becomes(mid, ops[i], NameOf(ops[i]), now)
    decreases |ops|
  {
    var n, k := NameOf(ops[i]), |ops| - 1;
    var mid: Option<Rule> :| Ends(was, ops[..k], n, mid) && Becomes(mid, ops[k], n, now);
    if i < k {
      assert mid == now;
      assert LastToName(ops[..k], i);
      EndsKeeps(was, ops[..k], i, now);
      assert ops[..k][..i] == ops[..i];
    }
  }

  /** The last word on a rule: a well-formed creation leaves its value, a removal leaves nothing. */
  lemma {:induction false} LastWord(was: Option<Rule>, ops: seq<Request>, i: nat, now: Option<Rule>)
    requires i < |ops| && LastToName(ops, i) && Ends(was, ops, NameOf(ops[i]), now)
    ensures Driver.Creates(ops[i]) && WellFormed(ops[i]) ==> now == Carried(ops[i])
    ensures Driver.Removes(ops[i]) ==> now.None?
  {
    EndsKeeps(was, ops, i, now);
  }

  /** A rule that no operation names stays as it is. */
  lemma {:induction false} NoWord(was: Option<Rule>, ops: seq<Request>, n: Name, now: Option<Rule>)
    requires (forall i | 0 <= i < |ops| :: NameOf(ops[i]) != n) && Ends(was, ops, n, now)
    ensures now == was
    decreases |ops|
  {
    if ops != [] {
      var k := |ops| - 1;
      var mid: Option<Rule> :| Ends(was, ops[..k], n, mid) && Becomes(mid, ops[k], n, now);
      NoWord(was, ops[..k], n, mid);
    }
  }

  // ---- the order of letting go does not matter for this ----

  /** The same operation up to the order in which URRs are let go. */
  predicate SameOp(a: Request, b: Request) {
    match a
    case UpdatePdr(id, pdr, ok, _) => b.UpdatePdr? && b.pid == id && b.pdr == pdr && b.ok == ok
    case RemovePdr(id, _) => b.RemovePdr? && b.pid == id
    case _ => b == a
  }

  predicate SameOps(a: seq<Request>, b: seq<Request>) {
    |a| == |b| && forall i | 0 <= i < |a| :: SameOp(a[i], b[i])
  }

  lemma {:induction false} SameBecomes(was: Option<Rule>, a: Request, b: Request, n: Name, now: Option<Rule>)
    requires SameOp(a, b)
    ensures Becomes(was, a, n, now) <==> Becomes(was, b, n, now)
  {
  }

  lemma {:induction false} SameEnds(was: Option<Rule>, a: seq<Request>, b: seq<Request>, n: Name, now: Option<Rule>)
    requires SameOps(a, b) && Ends(was, a, n, now)
    ensures Ends(was, b, n, now)
    decreases |a|
  {
    hide Becomes, SameOp;
    if a != [] {
      var k := |a| - 1;
      var mid: Option<Rule> :| Ends(was, a[..k], n, mid) && Becomes(mid, a[k], n, now);
      SameEnds(was, a[..k], b[..k], n, mid);
      SameBecomes(mid, a[k], b[k], n, now);
    }
  }

  lemma {:induction false} SameDo(s: Sess, d: Driver.State, a: Request, b: Request)
    requires SameOp(a, b)
    ensures Do(s, d, a).driver == Do(s, d, b).driver && Do(s, d, a).sess == Do(s, d, b).sess
    ensures Recorded(s, a) <==> Recorded(s, b)
  {
    hide Collected, Driver.MergePdr, Driver.StoreOrDelete, Driver.Store, Driver.Cancel, Release;
  }

  lemma {:induction false} SameDoAll(s: Sess, d: Driver.State, a: seq<Request>, b: seq<Request>)
    requires SameOps(a, b)
    ensures DoAll(s, d, a).driver == DoAll(s, d, b).driver && DoAll(s, d, a).sess == DoAll(s, d, b).sess
    decreases |a|
  {
    hide Do, SameOp;
    if a != [] {
      var k := |a| - 1;
      SameDoAll(s, d, a[..k], b[..k]);
      SameDo(DoAll(s, d, a[..k]).sess, DoAll(s, d, a[..k]).driver, a[k], b[k]);
    }
  }

  // ---- the record ----

  predicate OnRecord(s: Sess, n: Name) {
    match n
    case PdrName(id) => id in s.pdrs
    case FarName(id) => id in s.fars
    case QerName(id) => id in s.qers
    case UrrName(id) => id in s.urrs
    case BarName(id) => id in s.bars
  }

  /** The record afterwards: a created rule is on it even if the driver refused it, a removed one is off
      it only if the driver accepted, except that the record of a URR stays and is marked; nothing else
      comes or goes. */
  lemma {:induction false} RecordLaw(s: Sess, d: Driver.State, op: Request, n: Name)
    ensures var r := Do(s, d, op);
      OnRecord(r.sess, n) <==>
        if NameOf(op) == n && Driver.Creates(op) then true
        else if NameOf(op) == n && Driver.Removes(op) && !op.RemoveUrr? && r.ok then false
        else OnRecord(s, n)
  {
    hide Driver.Apply, Collected;
    if op.CreatePdr? { ReferKeys(s.urrs, op.pdr.urrIds); }
    hide Refer;
  }

  /** Which URRs a PDR relates to on record: those its creation lists, or its last accepted update. */
  lemma {:induction false} RelatedLaw(s: Sess, d: Driver.State, op: Request, p: PdrId, u: UrrId)
    requires p in Do(s, d, op).sess.pdrs
    ensures var r := Do(s, d, op);
      u in r.sess.pdrs[p] <==>
        if (op.CreatePdr? || (op.UpdatePdr? && r.ok)) && op.pid == p then u in op.pdr.urrIds
        else p in s.pdrs && u in s.pdrs[p]
  {
    hide Driver.Apply, Collected, Refer, Release;
  }

  /** The records of URRs: a new one is unmarked and counts from zero, a removal marks it whether the
      driver accepts or not, and no operation changes a number. */
  lemma {:induction false} UrrRecordLaw(s: Sess, d: Driver.State, op: Request, u: UrrId)
    requires u in Do(s, d, op).sess.urrs
    ensures var i := Do(s, d, op).sess.urrs[u];
      if op.CreateUrr? && op.uid == u then i == UrrInfo(false, 0, 0)
      else
        && u in s.urrs && i.seqn == s.urrs[u].seqn
        && (i.removed <==> s.urrs[u].removed || (op.RemoveUrr? && op.uid == u))
  {
    hide Driver.Apply, Collected, Refer;
    if op.CreatePdr? { ReferKeys(s.urrs, op.pdr.urrIds); }
  }

  // ---- the reports ----

  /** A report list with one more trigger on each. */
  predicate Marked(reports: seq<Usage>, of: seq<Usage>, t: Trigger) {
    && |reports| == |of|
    && forall i | 0 <= i < |of| ::
         && t in reports[i].triggers
         && (forall x: Trigger | x != t :: x in reports[i].triggers <==> x in of[i].triggers)
         && reports[i].urr == of[i].urr && reports[i].total == of[i].total
         && reports[i].up == of[i].up && reports[i].down == of[i].down && reports[i].totalPkts == of[i].totalPkts
         && reports[i].upPkts == of[i].upPkts && reports[i].downPkts == of[i].downPkts
  }

  /** A query of a URR that the driver holds reports its accumulator as it is, with IMMER, and changes
      nothing; a removal reports it with TERMR; of one that it does not hold neither reports anything. */
  lemma {:induction false} QueryLaw(s: Sess, d: Driver.State, op: Request)
    requires (op.QueryUrr? || op.RemoveUrr?) && Link(s, Driver.Lookup(d, s.localId))
    ensures var r := Do(s, d, op);
      && (r.ok <==> UrrIn(d, s.localId, op.uid).Some?)
      && (r.ok ==> Marked(r.reports, Driver.Accumulated(Driver.Lookup(d, s.localId), op.uid),
                          if op.QueryUrr? then IMMER else TERMR))
      && (!r.ok ==> r.reports == [])
      && (op.QueryUrr? ==> r.sess == s && r.driver.sessions == d.sessions && r.driver.pending == d.pending)
  {
    hide Driver.Apply, Marked;
    AcceptedExactly(d, s.localId, op);
    if Present(d, s.localId, op) {
      RepliesExactly(d, s.localId, op);
      MarkMarks(Driver.Apply(d, s.localId, op).reports, if op.QueryUrr? then IMMER else TERMR);
    }
    if op.QueryUrr? { QueryKeeps(d, s.localId, op); }
  }

  lemma {:induction false} MarkMarks(reports: seq<Usage>, t: Trigger)
    ensures Marked(Mark(reports, t), reports, t)
  {
  }

  lemma {:induction false} QueryKeeps(d: Driver.State, seid: Seid, op: Request)
    requires op.QueryUrr?
    ensures Driver.Apply(d, seid, op).state == d
  {
    Driver.CancelNone(d, seid);
    if Driver.Refusal(d, seid, op).None? { assert d.sessions[seid := d.sessions[seid]] == d.sessions; }
  }

  /** Creations and updates of other kinds report nothing. */
  lemma {:induction false} SilentLaw(s: Sess, d: Driver.State, op: Request)
    requires !op.QueryUrr? && !op.RemoveUrr? && !op.RemovePdr? && !op.UpdatePdr?
    ensures Do(s, d, op).reports == []
  {
    hide Driver.Apply;
  }
}
