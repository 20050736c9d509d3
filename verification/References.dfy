/** URR reference counts of a session: when refPdrNum is the number of PDRs that relate to
    the URR, and that the termination query is issued exactly when the last one lets go. */
module References {
  import opened Rules
  import opened Session
  import opened Closing
  import Numbering
  import Driver

  function UsersOf(s: Sess, u: UrrId): set<PdrId> {
    set p | p in s.pdrs && u in s.pdrs[p]
  }

  /** Every recorded URR's count is the number of recorded PDRs that relate to it. */
  predicate Counted(s: Sess) {
    forall u | u in s.urrs :: s.urrs[u].refs == |UsersOf(s, u)|
  }

  function Occurrences(ids: seq<UrrId>, u: UrrId): nat {
    if ids == [] then 0 else Occurrences(ids[..|ids| - 1], u) + if ids[|ids| - 1] == u then 1 else 0
  }

  lemma {:induction false} OccurrencesIn(ids: seq<UrrId>, u: UrrId)
    ensures Occurrences(ids, u) > 0 <==> u in ids
  {
    if ids != [] {
      OccurrencesIn(ids[..|ids| - 1], u);
      assert ids == ids[..|ids| - 1] + [ids[|ids| - 1]];
    }
  }

  lemma {:induction false} ReferAdds(urrs: map<UrrId, UrrInfo>, ids: seq<UrrId>, u: UrrId)
    requires u in urrs && urrs[u].refs + Occurrences(ids, u) < REF_WRAP
    ensures u in Refer(urrs, ids) && Refer(urrs, ids)[u].refs == urrs[u].refs + Occurrences(ids, u)
  {
    if ids != [] { ReferAdds(urrs, ids[..|ids| - 1], u); }
  }

  /** The 16-bit counters do not wrap around in this operation. */
  predicate NoWrap(s: Sess, op: Request) {
    op.CreatePdr? ==> forall u | u in s.urrs :: s.urrs[u].refs + Occurrences(op.pdr.urrIds, u) <= 0xFFFF
  }

  /** What an operation must look like for the counts to stay right: a created PDR lists no
      recorded URR twice, and its identifier related to none before; a created URR is not
      related to yet; an updated PDR only drops recorded URRs. */
  predicate Orderly(s: Sess, op: Request) {
    match op
    case CreatePdr(id, pdr, _) =>
      forall u | u in s.urrs :: Occurrences(pdr.urrIds, u) <= 1 && (id in s.pdrs ==> u !in s.pdrs[id])
    case CreateUrr(id, _, _, _) => UsersOf(s, id) == {}
    case UpdatePdr(id, pdr, _, _) => id in s.pdrs ==> forall u | u in s.urrs && u in pdr.urrIds :: u in s.pdrs[id]
    case _ => true
  }

  /** The users of a URR after a PDR's set is replaced. */
  lemma {:induction false} UsersAfter(s: Sess, s': Sess, id: PdrId, u: UrrId, related: bool)
    requires s'.pdrs.Keys == s.pdrs.Keys + {id} || (!related && s'.pdrs.Keys == s.pdrs.Keys - {id})
    requires forall p | p in s'.pdrs && p != id :: p in s.pdrs && s'.pdrs[p] == s.pdrs[p]
    requires id in s'.pdrs ==> (u in s'.pdrs[id] <==> related)
    ensures UsersOf(s', u) == if related then UsersOf(s, u) + {id} else UsersOf(s, u) - {id}
    ensures |UsersOf(s', u)| == |UsersOf(s, u)| + (if related && id !in UsersOf(s, u) then 1 else 0)
                                                - (if !related && id in UsersOf(s, u) then 1 else 0)
  {
    UsersAfterAre(s, s', id, u, related);
    hide UsersOf;
    AddOrTake(UsersOf(s, u), id, related);
  }

  lemma {:induction false} UsersAfterAre(s: Sess, s': Sess, id: PdrId, u: UrrId, related: bool)
    requires s'.pdrs.Keys == s.pdrs.Keys + {id} || (!related && s'.pdrs.Keys == s.pdrs.Keys - {id})
    requires forall p | p in s'.pdrs && p != id :: p in s.pdrs && s'.pdrs[p] == s.pdrs[p]
    requires id in s'.pdrs ==> (u in s'.pdrs[id] <==> related)
    ensures UsersOf(s', u) == if related then UsersOf(s, u) + {id} else UsersOf(s, u) - {id}
  {
    forall p
      ensures p in UsersOf(s', u) <==> p in if related then UsersOf(s, u) + {id} else UsersOf(s, u) - {id}
    {
      assert p in s'.pdrs <==> (p in s'.pdrs.Keys);
      assert p in s.pdrs <==> (p in s.pdrs.Keys);
    }
  }

  lemma {:induction false} AddOrTake(a: set<PdrId>, id: PdrId, add: bool)
    ensures |if add then a + {id} else a - {id}|
         == |a| + (if add && id !in a then 1 else 0) - (if !add && id in a then 1 else 0)
  {
    if add && id in a { assert a + {id} == a; }
    if !add && id !in a { assert a - {id} == a; }
  }

  lemma {:induction false} CreatePdrCounts(s: Sess, id: PdrId, pdr: Pdr, ok: bool)
    requires Counted(s) && NoWrap(s, CreatePdr(id, pdr, ok))
    ensures var op := CreatePdr(id, pdr, ok);
      Counted(Noted(s, op)) <==> Orderly(s, op)
  {
    hide UsersOf, Occurrences, Refer;
    var op := CreatePdr(id, pdr, ok);
    var n := Noted(s, op);
    ReferKeys(s.urrs, pdr.urrIds);
    forall u | u in s.urrs
      ensures n.urrs[u].refs == |UsersOf(n, u)|
         <==> Occurrences(pdr.urrIds, u) <= 1 && (id in s.pdrs ==> u !in s.pdrs[id])
    {
      ReferAdds(s.urrs, pdr.urrIds, u);
      OccurrencesIn(pdr.urrIds, u);
      UsersAfter(s, n, id, u, u in pdr.urrIds);
      InUsers(s, u, id);
    }
  }

  lemma {:induction false} InUsers(s: Sess, u: UrrId, id: PdrId)
    ensures id in UsersOf(s, u) <==> id in s.pdrs && u in s.pdrs[id]
  {
  }

  lemma {:induction false} UpdatePdrCounts(s: Sess, op: Request)
    requires Counted(s) && op.UpdatePdr? && op.pid in s.pdrs
    ensures Counted(Confirmed(s, op)) <==> Orderly(s, op)
  {
    hide UsersOf;
    var s' := Confirmed(s, op);
    forall u | u in s.urrs
      ensures s'.urrs[u].refs == |UsersOf(s', u)| <==> (u in op.pdr.urrIds ==> u in s.pdrs[op.pid])
    {
      UsersAfter(s, s', op.pid, u, u in op.pdr.urrIds);
      InUsers(s, u, op.pid);
      UsersPositive(s, u, op.pid);
    }
  }

  lemma {:induction false} RemovePdrCounts(s: Sess, op: Request)
    requires Counted(s) && op.RemovePdr? && op.pid in s.pdrs
    ensures Counted(Confirmed(s, op))
  {
    hide UsersOf;
    var s' := Confirmed(s, op);
    forall u | u in s.urrs ensures s'.urrs[u].refs == |UsersOf(s', u)| {
      UsersAfter(s, s', op.pid, u, false);
      InUsers(s, u, op.pid);
      UsersPositive(s, u, op.pid);
    }
  }

  lemma {:induction false} UsersPositive(s: Sess, u: UrrId, id: PdrId)
    ensures id in UsersOf(s, u) ==> |UsersOf(s, u)| > 0
  {
  }

  lemma {:induction false} CreateUrrCounts(s: Sess, op: Request)
    requires Counted(s) && op.CreateUrr?
    ensures Counted(Noted(s, op)) <==> Orderly(s, op)
  {
    var n := Noted(s, op);
    assert forall u :: UsersOf(n, u) == UsersOf(s, u);
  }

  /** The exact condition: an operation keeps every count right if and only if it is orderly;
      an update the driver refuses changes no count. */
  lemma {:induction false} CountsKept(s: Sess, d: Driver.State, op: Request)
    requires Counted(s) && NoWrap(s, op)
    requires op.UpdatePdr? ==> Do(s, d, op).ok
    ensures Counted(Do(s, d, op).sess) <==> Orderly(s, op)
  {
    hide Driver.Apply, Collected, Counted, NoWrap, Refer, Occurrences, UsersOf, Dropped, Release, UrrSet;
    match op
    case CreatePdr(id, pdr, ok) => CreatePdrCounts(s, id, pdr, ok);
    case UpdatePdr(_, _, _, _) => UpdatePdrCounts(s, op);
    case RemovePdr(_, _) => if Recorded(s, op) { RemovePdrCounts(s, op); }
    case CreateUrr(_, _, _, _) => CreateUrrCounts(s, op);
    case _ => OtherCounts(s, Do(s, d, op).sess);
  }

  /** The counters do not wrap, and the operation is orderly or an update that the driver refuses. */
  ghost predicate OrderlyAct(s: Sess, a: Numbering.Act) {
    a.Perform? ==>
      && NoWrap(s, a.op)
      && (Orderly(s, a.op) || (a.op.UpdatePdr? && !Do(s, a.d, a.op).ok))
  }

  ghost predicate OrderlyLife(s: Sess, acts: seq<Numbering.Act>)
    decreases |acts|
  {
    acts == [] || (OrderlyAct(s, acts[0]) && OrderlyLife(Numbering.AfterAct(s, acts[0]), acts[1..]))
  }

  ghost function AfterActs(s: Sess, acts: seq<Numbering.Act>): Sess
    decreases |acts|
  {
    if acts == [] then s else AfterActs(Numbering.AfterAct(s, acts[0]), acts[1..])
  }

  /** Numbering a message changes no count and relates no PDR; records may go. */
  lemma {:induction false} NumberCounts(s: Sess, reports: seq<Usage>, extra: set<Trigger>, drop: bool)
    requires Counted(s)
    ensures Counted(Numbering.Number(s, reports, extra, drop).0)
    decreases |reports|
  {
    hide Counted, Numbering.Used;
    if reports != [] {
      var r := reports[0];
      if r.urr in s.urrs { UsedCounts(s, r.urr, drop); }
      NumberCounts(if r.urr in s.urrs then Numbering.Used(s, r.urr, drop) else s, reports[1..], extra, drop);
    }
  }

  lemma {:induction false} UsedCounts(s: Sess, u: UrrId, drop: bool)
    requires Counted(s) && u in s.urrs
    ensures Counted(Numbering.Used(s, u, drop))
  {
    var n := Numbering.Used(s, u, drop);
    assert forall v :: UsersOf(n, v) == UsersOf(s, v);
  }

  /** Over the whole life of a session, requests and numbered messages in any order, the counts stay
      right through every orderly operation. */
  lemma {:induction false} CountsOverRun(s: Sess, acts: seq<Numbering.Act>)
    requires Counted(s) && OrderlyLife(s, acts)
    ensures Counted(AfterActs(s, acts))
    decreases |acts|
  {
    hide Do, Counted, NoWrap, Orderly, Numbering.Number;
    if acts != [] {
      match acts[0] {
        case Perform(op, d) =>
          if op.UpdatePdr? && !Do(s, d, op).ok { RefusedUpdate(s, d, op); } else { CountsKept(s, d, op); }
        case Message(reports, extra, drop) => NumberCounts(s, reports, extra, drop);
      }
      CountsOverRun(Numbering.AfterAct(s, acts[0]), acts[1..]);
    }
  }

  lemma {:induction false} RefusedUpdate(s: Sess, d: Driver.State, op: Request)
    requires op.UpdatePdr? && !Do(s, d, op).ok
    ensures Do(s, d, op).sess == s
  {
    hide Driver.Apply, Collected;
  }

  lemma {:induction false} OtherCounts(s: Sess, s': Sess)
    requires Counted(s) && s'.pdrs == s.pdrs && s'.urrs.Keys == s.urrs.Keys
    requires forall u | u in s.urrs :: s'.urrs[u].refs == s.urrs[u].refs
    ensures Counted(s')
  {
    assert forall u :: UsersOf(s', u) == UsersOf(s, u);
  }

  lemma {:induction false} LetsGo(s: Sess, op: Request, u: UrrId)
    requires Counted(s) && (op.RemovePdr? || op.UpdatePdr?) && op.pid in s.pdrs
    requires u in Dropped(s, op) && u in s.urrs
    ensures LastReference(s.urrs, u) <==> UsersOf(Confirmed(s, op), u) == {}
  {
    hide UsersOf;
    UsersAfter(s, Confirmed(s, op), op.pid, u, false);
    InUsers(s, u, op.pid);
  }

  lemma {:induction false} QueryReports(d: Driver.State, seid: Seid, u: UrrId)
    ensures var t := Driver.Lookup(d, seid);
      Driver.Apply(d, seid, QueryUrr(u)).reports == if u in t.urrs then Driver.Accumulated(t, u) else []
  {
    hide Driver.After, Driver.Cancelled, Driver.Store, Driver.Cancel;
  }

  /** What the queries gather of one URR. */
  lemma {:induction false} LastReportsOf(urrs: map<UrrId, UrrInfo>, d: Driver.State, seid: Seid, order: seq<UrrId>,
          u: UrrId)
    requires forall i, j | 0 <= i < j < |order| :: order[i] != order[j]
    requires Driver.SoundReports(Driver.Lookup(d, seid).urrReports)
    ensures var t := Driver.Lookup(d, seid);
      OfUrr(LastReports(urrs, d, seid, order), u)
      == if u in order && LastReference(urrs, u) && u in t.urrs then Mark(Driver.Accumulated(t, u), TERMR) else []
    decreases |order|
  {
    hide Driver.Apply, Driver.Lookup, OfUrr, LastReference;
    NoReports(u);
    if order != [] {
      var front, id := order[..|order| - 1], order[|order| - 1];
      assert order == front + [id] && id !in front;
      LastReportsOf(urrs, d, seid, front, u);
      QueryReports(d, seid, id);
      var t := Driver.Lookup(d, seid);
      var gained := Mark(Driver.Apply(d, seid, QueryUrr(id)).reports, TERMR);
      Numbering.MarkEmpty(TERMR);
      OfUrrUniform(gained, id, u);
      OfUrrAppend(LastReports(urrs, d, seid, front), if LastReference(urrs, id) then gained else [], u);
    }
  }

  lemma {:induction false} PdrReports(s: Sess, d: Driver.State, op: Request)
    requires op.RemovePdr? || op.UpdatePdr?
    ensures var r := Do(s, d, op);
      && (r.ok <==> op.pid in s.pdrs && Driver.Refusal(d, s.localId, op).None?)
      && r.reports == if r.ok
           then LastReports(s.urrs, Driver.Apply(d, s.localId, op).state, s.localId, Walk(Dropped(s, op), op.hint))
           else []
  {
    hide Driver.After, Driver.Cancelled, Driver.Store, Driver.StoreOrDelete, Driver.Cancel, LastReports, Release;
  }

  /** With right counts, an accepted PDR update or removal reports what a URR has metered, once and
      with TERMR, exactly if the PDR lets go of the URR, no PDR relates to it any more and the driver
      holds it; of no other URR does it report anything, and a failed one reports nothing. */
  lemma {:induction false} QueriedWhenLastLetsGo(s: Sess, d: Driver.State, op: Request, u: UrrId)
    requires Counted(s) && (op.RemovePdr? || op.UpdatePdr?)
    requires Driver.SoundReports(Driver.Lookup(d, s.localId).urrReports)
    ensures var r := Do(s, d, op);
            var t := Driver.Lookup(d, s.localId);
      OfUrr(r.reports, u) ==
        if r.ok && u in s.urrs && u in Dropped(s, op) && UsersOf(r.sess, u) == {} && u in t.urrs
        then Mark(Driver.Accumulated(t, u), TERMR)
        else []
  {
    hide Driver.Apply, Driver.Lookup, OfUrr, Do, Dropped, UsersOf, Counted, LastReports, Driver.SoundReports,
        Driver.Refusal, Confirmed;
    NoReports(u);
    PdrReports(s, d, op);
    if Do(s, d, op).ok {
      Numbering.PdrKeeps(d, s.localId, op);
      LastReportsOf(s.urrs, Driver.Apply(d, s.localId, op).state, s.localId, Walk(Dropped(s, op), op.hint), u);
      PdrConfirms(s, d, op);
      if u in s.urrs && u in Dropped(s, op) { LetsGo(s, op, u); }
    }
  }

  lemma {:induction false} PdrConfirms(s: Sess, d: Driver.State, op: Request)
    requires (op.RemovePdr? || op.UpdatePdr?) && Do(s, d, op).ok
    ensures Do(s, d, op).sess == Confirmed(s, op)
  {
    hide Driver.Apply, Collected, Confirmed;
  }

  /** After an accepted PDR update the record and the driver relate the PDR to the same URRs if
      and only if the update lists some URR or the driver's PDR had none: an update without
      URR elements makes the record forget them while the driver goes on metering. */
  lemma {:induction false} UpdateAgreement(s: Sess, t: SessionState, op: Request)
    requires op.UpdatePdr? && op.pid in s.pdrs && op.pid in t.pdrs
    ensures Confirmed(s, op).pdrs[op.pid] == UrrSet(Driver.After(t, op).pdrs[op.pid].urrIds)
       <==> op.pdr.urrIds != [] || t.pdrs[op.pid].urrIds == []
  {
    hide Driver.After, Driver.Names, Dropped, Release;
    var held := t.pdrs[op.pid].urrIds;
    MergedUrrs(t, op);
    if op.pdr.urrIds == [] && held != [] { assert held[0] in UrrSet(held); }
  }

  lemma {:induction false} MergedUrrs(t: SessionState, op: Request)
    requires op.UpdatePdr? && op.pid in t.pdrs
    ensures Driver.Names(t, op)
    ensures op.pid in Driver.After(t, op).pdrs
    ensures Driver.After(t, op).pdrs[op.pid].urrIds
        == if op.pdr.urrIds != [] then op.pdr.urrIds else t.pdrs[op.pid].urrIds
  {
  }
}
