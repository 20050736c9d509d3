/** The control plane's record of one PFCP session and its operations over the userspace
    driver: which rules were announced, URR reference counts and report numbering. */
module Session {
  import opened Rules
  import Driver

  const SEQN_WRAP := 0x1_0000_0000
  const REF_WRAP := 0x1_0000

  /** `removed` marks a record whose URR is gone but whose last report is still to be
      numbered. */
  datatype UrrInfo = UrrInfo(removed: bool, seqn: nat, refs: nat)

  datatype Sess = Sess(
    localId: Seid,
    remoteId: nat,
    owner: nat,
    pdrs: map<PdrId, set<UrrId>>,
    fars: set<FarId>,
    qers: set<QerId>,
    urrs: map<UrrId, UrrInfo>,
    bars: set<BarId>)

  /** An order in which Go walks a map with these keys: any enumeration.  `hint` chooses it. */
  ghost function Walk(keys: set<nat>, hint: seq<nat>): (order: seq<nat>)
    ensures Enumerates(order, keys)
  {
    if Enumerates(hint, keys) then hint else SomeOrder(keys)
  }

  ghost predicate Enumerates(order: seq<nat>, keys: set<nat>) {
    && (forall x :: x in order <==> x in keys)
    && (forall i, j | 0 <= i < j < |order| :: order[i] != order[j])
  }

  ghost function SomeOrder(keys: set<nat>): (order: seq<nat>)
    ensures Enumerates(order, keys)
  {
    if keys == {} then []
    else
      var x :| x in keys;
      [x] + SomeOrder(keys - {x})
  }

  // ---- URR reference counts ----

  /** One more reference for each URR element of a new PDR that has a record. */
  function Refer(urrs: map<UrrId, UrrInfo>, ids: seq<UrrId>): map<UrrId, UrrInfo> {
    if ids == [] then urrs
    else
      var rest := Refer(urrs, ids[..|ids| - 1]);
      var id := ids[|ids| - 1];
      if id in rest then rest[id := rest[id].(refs := (rest[id].refs + 1) % REF_WRAP)] else rest
  }

  /** diassociateURR would query the URR: its last reference goes. */
  predicate LastReference(urrs: map<UrrId, UrrInfo>, id: UrrId) {
    id in urrs && urrs[id].refs == 1
  }

  function Release(urrs: map<UrrId, UrrInfo>, ids: set<UrrId>): map<UrrId, UrrInfo> {
    map u | u in urrs :: if u in ids && urrs[u].refs > 0 then urrs[u].(refs := urrs[u].refs - 1) else urrs[u]
  }

  function Mark(reports: seq<Usage>, t: Trigger): (r: seq<Usage>)
    ensures |r| == |reports|
    ensures forall i | 0 <= i < |r| :: r[i] == reports[i].(triggers := reports[i].triggers + {t})
  {
    seq(|reports|, i requires 0 <= i < |reports| => reports[i].(triggers := reports[i].triggers + {t}))
  }

  /** The reports collected while a PDR lets go of URRs one after the other. */
  ghost function LastReports(urrs: map<UrrId, UrrInfo>, d: Driver.State, seid: Seid, order: seq<UrrId>): seq<Usage> {
    if order == [] then []
    else
      var id := order[|order| - 1];
      LastReports(urrs, d, seid, order[..|order| - 1]) +
        if LastReference(urrs, id) then Mark(Driver.Apply(d, seid, QueryUrr(id)).reports, TERMR) else []
  }

  // ---- one operation ----

  /** The record and the driver afterwards, the reports gained and whether it succeeded. */
  datatype Result = Result(sess: Sess, driver: Driver.State, reports: seq<Usage>, ok: bool)

  /** The record names the rule of an update, removal or query. */
  predicate Recorded(s: Sess, op: Request) {
    match op
    case UpdatePdr(id, _, _, _) => id in s.pdrs
    case RemovePdr(id, _) => id in s.pdrs
    case UpdateFar(id, _, _) => id in s.fars
    case RemoveFar(id) => id in s.fars
    case UpdateQer(id, _, _) => id in s.qers
    case RemoveQer(id) => id in s.qers
    case UpdateUrr(id, _, _, _) => id in s.urrs
    case RemoveUrr(id) => id in s.urrs
    case QueryUrr(id) => id in s.urrs
    case UpdateBar(id, _, _) => id in s.bars
    case RemoveBar(id) => id in s.bars
    case _ => true
  }

  function UrrSet(ids: seq<UrrId>): set<UrrId> { set u | u in ids }

  /** What is written down before the driver is asked. */
  function Noted(s: Sess, op: Request): Sess {
    match op
    case CreatePdr(id, pdr, _) => s.(urrs := Refer(s.urrs, pdr.urrIds), pdrs := s.pdrs[id := UrrSet(pdr.urrIds)])
    case CreateFar(id, _, _) => s.(fars := s.fars + {id})
    case CreateQer(id, _, _) => s.(qers := s.qers + {id})
    case CreateUrr(id, _, _, _) => s.(urrs := s.urrs[id := UrrInfo(false, 0, 0)])
    case CreateBar(id, _, _) => s.(bars := s.bars + {id})
    case RemoveUrr(id) => if id in s.urrs then s.(urrs := s.urrs[id := s.urrs[id].(removed := true)]) else s
    case _ => s
  }

  /** The URRs a PDR operation lets go of. */
  function Dropped(s: Sess, op: Request): set<UrrId> {
    match op
    case UpdatePdr(id, pdr, _, _) => if id in s.pdrs then s.pdrs[id] - UrrSet(pdr.urrIds) else {}
    case RemovePdr(id, _) => if id in s.pdrs then s.pdrs[id] else {}
    case _ => {}
  }

  /** What is written down after the driver has accepted. */
  function Confirmed(s: Sess, op: Request): Sess {
    match op
    case UpdatePdr(id, pdr, _, _) => s.(urrs := Release(s.urrs, Dropped(s, op)),
        pdrs := s.pdrs[id := UrrSet(pdr.urrIds)])
    case RemovePdr(id, _) => s.(urrs := Release(s.urrs, Dropped(s, op)), pdrs := s.pdrs - {id})
    case RemoveFar(id) => s.(fars := s.fars - {id})
    case RemoveQer(id) => s.(qers := s.qers - {id})
    case RemoveBar(id) => s.(bars := s.bars - {id})
    case _ => s
  }

  /** The reports an accepted operation collects: a removed URR's with TERMR, a queried one's
      with IMMER, and those of URRs whose last PDR let go with TERMR. */
  ghost function Collected(s: Sess, d: Driver.State, d': Driver.State, op: Request): seq<Usage> {
    match op
    case RemoveUrr(_) => Mark(Driver.Apply(d, s.localId, op).reports, TERMR)
    case QueryUrr(_) => Mark(Driver.Apply(d, s.localId, op).reports, IMMER)
    case UpdatePdr(_, _, _, hint) => LastReports(s.urrs, d', s.localId, Walk(Dropped(s, op), hint))
    case RemovePdr(_, hint) => LastReports(s.urrs, d', s.localId, Walk(Dropped(s, op), hint))
    case _ => []
  }

  /** One operation of the session on its record and on the driver. */
  ghost function Do(s: Sess, d: Driver.State, op: Request): Result {
    if !Recorded(s, op) then Result(s, d, [], false)
    else
      var n := Noted(s, op);
      var r := Driver.Apply(d, s.localId, op);
      if r.error.Some? then Result(n, r.state, [], false)
      else Result(Confirmed(n, op), r.state, Collected(n, d, r.state, op), true)
  }

  /** Operations one after the other; a failed one is logged and skipped. */
  ghost function DoAll(s: Sess, d: Driver.State, ops: seq<Request>): Result
    decreases |ops|
  {
    if ops == [] then Result(s, d, [], true)
    else
      var front := DoAll(s, d, ops[..|ops| - 1]);
      var r := Do(front.sess, front.driver, ops[|ops| - 1]);
      Result(r.sess, r.driver, front.reports + r.reports, true)
  }

  // ---- the record and the driver agree ----

  /** Everything the driver holds for a session is on record, and a URR marked removed is
      not in the driver any more. */
  predicate Link(s: Sess, t: SessionState) {
    && t.pdrs.Keys <= s.pdrs.Keys
    && t.fars.Keys <= s.fars
    && t.qers.Keys <= s.qers
    && t.urrs.Keys <= s.urrs.Keys
    && t.bars.Keys <= s.bars
    && forall u | u in s.urrs && s.urrs[u].removed :: u !in t.urrs
  }

  lemma {:induction false} ReferKeys(urrs: map<UrrId, UrrInfo>, ids: seq<UrrId>)
    ensures Refer(urrs, ids).Keys == urrs.Keys
    ensures forall u | u in urrs :: Refer(urrs, ids)[u].removed == urrs[u].removed
    ensures forall u | u in urrs :: Refer(urrs, ids)[u].seqn == urrs[u].seqn
  {
    if ids != [] { ReferKeys(urrs, ids[..|ids| - 1]); }
  }

  /** Identifiers the record keeps through an operation. */
  lemma {:induction false} DoKeepsIdentity(s: Sess, d: Driver.State, op: Request)
    ensures var r := Do(s, d, op).sess; r.localId == s.localId && r.remoteId == s.remoteId && r.owner == s.owner
  {
    hide Driver.Apply, Collected, Refer, Release, Dropped;
  }

  /** An operation reaches only the driver state of its own session. */
  lemma {:induction false} ApplyFrame(d: Driver.State, seid: Seid, req: Request, other: Seid)
    requires other != seid
    ensures Driver.Lookup(Driver.Apply(d, seid, req).state, other) == Driver.Lookup(d, other)
    ensures other in Driver.Apply(d, seid, req).state.sessions <==> other in d.sessions
  {
    hide Driver.After, Driver.Names, Driver.Decodes, Driver.Cancelled, Driver.Disposable;
  }

  /** What an accepted request leaves for its session; a deleted session reads as fresh. */
  lemma {:induction false} ApplyHere(d: Driver.State, seid: Seid, req: Request)
    requires Driver.Refusal(d, seid, req).None?
    ensures var t' := Driver.Lookup(Driver.Apply(d, seid, req).state, seid);
            var a := Driver.After(Driver.Lookup(d, seid), req);
      t' == a || (Driver.Disposable(a) && t' == FRESH_SESSION)
  {
    hide Driver.After, Driver.Names, Driver.Decodes, Driver.Cancelled, Driver.Disposable;
  }

  lemma {:induction false} RefusedApply(d: Driver.State, seid: Seid, op: Request)
    requires Driver.Refusal(d, seid, op).Some?
    ensures Driver.Apply(d, seid, op).state == d && Driver.Apply(d, seid, op).error.Some?
        && Driver.Apply(d, seid, op).reports == []
  {
  }

  lemma {:induction false} AcceptedApply(d: Driver.State, seid: Seid, op: Request)
    requires Driver.Refusal(d, seid, op).None?
    ensures Driver.Apply(d, seid, op).error.None?
    ensures !Driver.Creates(op) ==> Driver.Names(Driver.Lookup(d, seid), op)
  {
    hide Driver.After, Driver.Names, Driver.Cancelled;
  }

  /** Noting an operation down forgets nothing the driver holds, except that a URR about to
      be removed is marked. */
  lemma {:induction false} NotedLink(s: Sess, t: SessionState, op: Request)
    requires Link(s, t)
    ensures var n := Noted(s, op);
      && s.pdrs.Keys <= n.pdrs.Keys && s.fars <= n.fars && s.qers <= n.qers && s.urrs.Keys <= n.urrs.Keys
          && s.bars <= n.bars
      && forall u | u in n.urrs && n.urrs[u].removed :: u !in t.urrs || (op.RemoveUrr? && op.uid == u)
  {
    hide Refer;
    if op.CreatePdr? { ReferKeys(s.urrs, op.pdr.urrIds); }
  }

  /** A refused removal of a URR means the driver does not hold it. */
  lemma {:induction false} RefusedLink(s: Sess, d: Driver.State, op: Request)
    requires Link(s, Driver.Lookup(d, s.localId)) && Driver.Refusal(d, s.localId, op).Some?
    ensures Link(Noted(s, op), Driver.Lookup(d, s.localId))
  {
    hide Refer, Driver.Apply, Driver.After;
    NotedLink(s, Driver.Lookup(d, s.localId), op);
  }

  lemma {:induction false} AcceptedLink(s: Sess, t: SessionState, op: Request)
    requires Link(s, t) && Recorded(s, op)
    requires !Driver.Creates(op) ==> Driver.Names(t, op)
    ensures Link(Confirmed(Noted(s, op), op), Driver.After(t, op))
  {
    hide Refer, Driver.MergePdr, Driver.MergeFar, Driver.Drained, Driver.Users;
    if op.CreatePdr? { ReferKeys(s.urrs, op.pdr.urrIds); }
  }

  lemma {:induction false} FreshLink(s: Sess)
    ensures Link(s, FRESH_SESSION)
  {
  }

  /** Every operation, accepted or refused, keeps the record in step with the driver. */
  lemma {:induction false} DoKeepsLink(s: Sess, d: Driver.State, op: Request)
    requires Link(s, Driver.Lookup(d, s.localId))
    ensures Link(Do(s, d, op).sess, Driver.Lookup(Do(s, d, op).driver, s.localId))
  {
    hide Driver.Apply, Collected, Driver.After, Refer;
    var t := Driver.Lookup(d, s.localId);
    if Recorded(s, op) {
      var e := Driver.Refusal(d, s.localId, op);
      NotedLink(s, t, op);
      if e.Some? {
        RefusedApply(d, s.localId, op);
        RefusedLink(s, d, op);
      } else {
        ApplyHere(d, s.localId, op);
        AcceptedApply(d, s.localId, op);
        AcceptedLink(s, t, op);
        FreshLink(Confirmed(Noted(s, op), op));
      }
    }
  }


  lemma {:induction false} DoFrame(s: Sess, d: Driver.State, op: Request, other: Seid)
    ensures Driver.Sound(d) ==> Driver.Sound(Do(s, d, op).driver)
    ensures other != s.localId ==> Driver.Lookup(Do(s, d, op).driver, other) == Driver.Lookup(d, other)
  {
    hide Driver.Apply, Driver.Sound, Driver.Lookup, Noted, Confirmed, Collected;
    if Driver.Sound(d) { Driver.ControlSound(d, s.localId, op); }
    if other != s.localId { ApplyFrame(d, s.localId, op, other); }
  }

  /** Any sequence of operations keeps record and driver in step, the record's identity, the
      driver's soundness and every other session of the driver. */
  lemma {:induction false} DoAllKeeps(s: Sess, d: Driver.State, ops: seq<Request>, other: Seid)
    requires Link(s, Driver.Lookup(d, s.localId)) && Driver.Sound(d)
    ensures var r := DoAll(s, d, ops);
      && r.sess.localId == s.localId && r.sess.remoteId == s.remoteId && r.sess.owner == s.owner
      && Link(r.sess, Driver.Lookup(r.driver, s.localId))
      && Driver.Sound(r.driver)
      && (other != s.localId ==> Driver.Lookup(r.driver, other) == Driver.Lookup(d, other))
    decreases |ops|
  {
    hide Do, Link, Driver.Sound, Driver.Lookup;
    if ops != [] {
      var n := |ops| - 1;
      DoAllKeeps(s, d, ops[..n], other);
      var f := DoAll(s, d, ops[..n]);
      DoKeepsIdentity(f.sess, f.driver, ops[n]);
      DoKeepsLink(f.sess, f.driver, ops[n]);
      DoFrame(f.sess, f.driver, ops[n], other);
    }
  }
}
