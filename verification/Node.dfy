/** The PFCP server's nodes and sessions over the userspace driver: the SEID allocator, the
    ownership of sessions by remote nodes, and one invariant over both layers that every run
    of events keeps. */
module Node {
  import opened Rules
  import opened Session
  import opened Closing
  import opened Numbering
  import Driver
  import RateLimit

  /** A remote node: its identity, its address and the SEIDs it owns. */
  datatype RemoteNode = RemoteNode(id: string, addr: string, sess: set<Seid>)

  /** `slots` and `free` are the local node; `nodes` lists every remote node ever created, so
      that a node keeps its place when it loses its entry in the registry `rnodes`. */
  datatype World = World(
    slots: seq<Option<Sess>>,
    free: seq<Seid>,
    nodes: seq<RemoteNode>,
    rnodes: map<string, nat>,
    driver: Driver.State)

  const START := World([], [], [], map[], Driver.INITIAL)

  predicate Live(w: World, seid: Seid) {
    0 < seid <= |w.slots| && w.slots[seid - 1].Some?
  }

  function SessOf(w: World, seid: Seid): Sess
    requires Live(w, seid)
  {
    w.slots[seid - 1].value
  }

  // ---- allocation ----

  function NewSess(w: World, n: nat, remoteId: nat): (World, Seid)
    requires n < |w.nodes|
    requires forall i | 0 <= i < |w.free| :: 0 < w.free[i] <= |w.slots|
  {
    var last := |w.free| - 1;
    var seid: Seid := if last >= 0 then w.free[last] else |w.slots| + 1;
    var s := Sess(seid, remoteId, n, map[], {}, {}, map[], {});
    (w.(slots := if last >= 0 then w.slots[seid - 1 := Some(s)] else w.slots + [Some(s)],
        free := if last >= 0 then w.free[..last] else w.free,
        nodes := w.nodes[n := w.nodes[n].(sess := w.nodes[n].sess + {seid})]),
     seid)
  }

  function WithSess(w: World, seid: Seid, s: Sess): World
    requires 0 < seid <= |w.slots|
  {
    w.(slots := w.slots[seid - 1 := Some(s)])
  }

  /** RemoteNode.DeleteSess: nothing for a SEID the node does not own; otherwise the session
      is closed along `plan` and its SEID goes on the free list. */
  ghost function DeleteSess(w: World, n: nat, seid: Seid, plan: seq<Request>): World
    requires n < |w.nodes|
  {
    if seid !in w.nodes[n].sess then w
    else
      var o := w.(nodes := w.nodes[n := w.nodes[n].(sess := w.nodes[n].sess - {seid})]);
      if !Live(o, seid) then o
      else
        var r := DoAll(SessOf(o, seid), o.driver, plan);
        o.(slots := o.slots[seid - 1 := None], free := o.free + [seid], driver := r.driver)
  }

  type Plans = map<Seid, seq<Request>>

  /** RemoteNode.Reset: the node's sessions one after the other, in the order the map gives. */
  ghost function Reset(w: World, n: nat, order: seq<Seid>, plans: Plans): (r: World)
    requires n < |w.nodes| && forall i | 0 <= i < |order| :: order[i] in plans
    ensures |r.nodes| == |w.nodes| && |r.slots| == |w.slots| && r.rnodes == w.rnodes
    decreases |order|
  {
    if order == [] then w
    else
      var k := |order| - 1;
      DeleteSess(Reset(w, n, order[..k], plans), n, order[k], plans[order[k]])
  }

  // ---- the registry ----

  /** UpdateNodeID: the node gives up its old identity and takes the new one, over whoever had
      it. */
  function TakeOver(w: World, n: nat, id: string): World
    requires n < |w.nodes|
  {
    w.(nodes := w.nodes[n := w.nodes[n].(id := id)], rnodes := (w.rnodes - {w.nodes[n].id})[id := n])
  }

  // ---- the look-up by remote SEID ----

  datatype Found = Found(seid: Seid) | NotFound | Crash

  /** RemoteSess reads through the slots from `i` on, empty ones included: it dereferences nil
      at the first empty slot it meets. */
  function RemoteSess(w: World, remoteId: nat, addr: string, i: nat): Found
    requires i <= |w.slots|
    requires forall k | 0 <= k < |w.slots| && w.slots[k].Some? :: w.slots[k].value.owner < |w.nodes|
    decreases |w.slots| - i
  {
    if i == |w.slots| then NotFound
    else if w.slots[i].None? then Crash
    else if w.slots[i].value.remoteId == remoteId && w.nodes[w.slots[i].value.owner].addr == addr then Found(i + 1)
    else RemoteSess(w, remoteId, addr, i + 1)
  }

  // ---- events ----

  datatype Event =
    | Associate(id: string, addr: string, order: seq<Seid>, plans: Plans)
    | Establish(id: string, remoteId: nat, ops: seq<Request>)
    | Modify(seid: Seid, newId: Option<string>, ops: seq<Request>)
    | Delete(seid: Seid, plan: seq<Request>)
    | PeerForgot(remoteId: nat, addr: string, plan: seq<Request>)
    | Report(seid: Seid, reports: seq<Usage>)
    | Data(event: Driver.Event)

  /** What is well formed about the nodes, and needed to run an event at all. */
  predicate Wired(w: World) {
    && (forall i | 0 <= i < |w.free| :: 0 < w.free[i] <= |w.slots|)
    && (forall k | 0 <= k < |w.slots| && w.slots[k].Some? :: w.slots[k].value.owner < |w.nodes|)
    && (forall id | id in w.rnodes :: w.rnodes[id] < |w.nodes|)
  }

  predicate PlansFor(w: World, order: seq<Seid>, plans: Plans) {
    forall i | 0 <= i < |order| :: order[i] in plans
        && (Live(w, order[i]) ==> ClosePlan(SessOf(w, order[i]), plans[order[i]]))
  }

  /** The choices an event leaves open are made the way Go may make them: maps are walked in
      some order without repetition, and data events are not rule requests. */
  ghost predicate Possible(w: World, e: Event)
    requires Wired(w)
  {
    match e
    case Associate(id, _, order, plans) =>
      id in w.rnodes ==> Enumerates(order, w.nodes[w.rnodes[id]].sess) && PlansFor(w, order, plans)
    case Establish(_, _, _) => true
    case Modify(_, _, ops) => HandlerOrder(ops)
    case Delete(seid, plan) => Live(w, seid) ==> ClosePlan(SessOf(w, seid), plan)
    case PeerForgot(remoteId, addr, plan) =>
      var f := RemoteSess(w, remoteId, addr, 0);
      f.Found? ==> Live(w, f.seid) && ClosePlan(SessOf(w, f.seid), plan)
    case Report(_, _) => true
    case Data(d) => !d.Control?
  }

  /** The operations of a request on a live session. */
  ghost function Operate(w: World, seid: Seid, ops: seq<Request>): (World, seq<Usage>)
    requires Live(w, seid)
  {
    var r := DoAll(SessOf(w, seid), w.driver, ops);
    (WithSess(w, seid, r.sess).(driver := r.driver), r.reports)
  }

  ghost function Renumber(w: World, seid: Seid, reports: seq<Usage>, drop: bool): World
    requires Live(w, seid)
  {
    WithSess(w, seid, Number(SessOf(w, seid), reports, {}, drop).0)
  }

  /** One event of the PFCP loop, or one critical section of the data plane. */
  ghost function Step(w: World, e: Event): World
    requires Wired(w) && Possible(w, e)
  {
    match e
    case Associate(id, addr, order, plans) =>
      var reset := if id in w.rnodes then Reset(w, w.rnodes[id], order, plans) else w;
      reset.(nodes := reset.nodes + [RemoteNode(id, addr, {})], rnodes := reset.rnodes[id := |reset.nodes|])
    case Establish(id, remoteId, ops) =>
      if id !in w.rnodes then w
      else
        var (w1, seid) := NewSess(w, w.rnodes[id], remoteId);
        Operate(w1, seid, ops).0
    case Modify(seid, newId, ops) =>
      if !Live(w, seid) then w
      else
        var w1 := if newId.Some? then TakeOver(w, SessOf(w, seid).owner, newId.value) else w;
        var (w2, reports) := Operate(w1, seid, ops);
        Renumber(w2, seid, reports, true)
    case Delete(seid, plan) =>
      if !Live(w, seid) then w else DeleteSess(w, SessOf(w, seid).owner, seid, plan)
    case PeerForgot(remoteId, addr, plan) =>
      var f := RemoteSess(w, remoteId, addr, 0);
      if f.Found? then DeleteSess(w, SessOf(w, f.seid).owner, f.seid, plan) else w
    case Report(seid, reports) =>
      if !Live(w, seid) then w else Renumber(w, seid, reports, false)
    case Data(d) => w.(driver := Driver.Step(w.driver, d))
  }

  // ---- the invariant over both layers ----

  /** The free list is duplicate-free and lists exactly the empty slots; a live session's SEID
      is its slot plus one. */
  ghost predicate Allocated(w: World) {
    && (forall i, j | 0 <= i < j < |w.free| :: w.free[i] != w.free[j])
    && (forall f: Seid :: f in w.free <==> 0 < f <= |w.slots| && !Live(w, f))
    && (forall seid: Seid | Live(w, seid) :: SessOf(w, seid).localId == seid)
  }

  /** Every live session is owned by exactly the node it names, and nodes own nothing else: the
      nodes' SEID sets are disjoint and together the live SEIDs. */
  ghost predicate Owned(w: World) {
    && (forall seid: Seid | Live(w, seid) :: SessOf(w, seid).owner < |w.nodes|)
    && (forall n: nat, seid: Seid | n < |w.nodes| ::
          seid in w.nodes[n].sess <==> Live(w, seid) && SessOf(w, seid).owner == n)
  }

  /** One SEID over both layers: a live session's record and the driver agree, and the driver
      holds no rule for a SEID that is not live. */
  ghost predicate Linked(w: World, seid: Seid) {
    var t := Driver.Lookup(w.driver, seid);
    if Live(w, seid) then Link(SessOf(w, seid), t) && InRange(SessOf(w, seid)) else Driver.NoRules(t)
  }

  predicate Registered(w: World) {
    forall id | id in w.rnodes :: w.rnodes[id] < |w.nodes| && w.nodes[w.rnodes[id]].id == id
  }

  ghost predicate Inv(w: World) {
    && Allocated(w) && Owned(w) && Registered(w) && Driver.Sound(w.driver)
    && forall seid: Seid :: Linked(w, seid)
  }

  lemma {:induction false} InvWired(w: World)
    requires Inv(w)
    ensures Wired(w)
  {
    forall i | 0 <= i < |w.free| ensures 0 < w.free[i] <= |w.slots| { assert w.free[i] in w.free; }
    forall k | 0 <= k < |w.slots| && w.slots[k].Some? ensures w.slots[k].value.owner < |w.nodes| {
      assert Live(w, k + 1) && SessOf(w, k + 1) == w.slots[k].value;
    }
  }

  /** The driver holds URRs of live sessions only. */
  lemma {:induction false} HeldLive(w: World, k: Seid, u: UrrId)
    requires Inv(w) && k in w.driver.sessions && u in w.driver.sessions[k].urrs
    ensures Live(w, k)
  {
    assert Linked(w, k);
  }

  lemma {:induction false} OwnerInRange(w: World, seid: Seid)
    requires Inv(w) && Live(w, seid)
    ensures SessOf(w, seid).owner < |w.nodes| && seid in w.nodes[SessOf(w, seid).owner].sess
  {
  }

  lemma {:induction false} StartInv()
    ensures Inv(START)
  {
  }

  // ---- each kind of step keeps it ----

  lemma {:induction false} NewSlots(w: World, n: nat, remoteId: nat)
    requires Allocated(w) && Wired(w) && n < |w.nodes|
    ensures var (w', seid) := NewSess(w, n, remoteId);
      && !Live(w, seid) && (seid in w.free || seid == |w.slots| + 1)
      && (forall k: Seid :: Live(w', k) <==> Live(w, k) || k == seid)
      && (forall k: Seid | Live(w, k) :: SessOf(w', k) == SessOf(w, k))
      && SessOf(w', seid) == Sess(seid, remoteId, n, map[], {}, {}, map[], {})
      && (if w.free != [] then w'.free == w.free[..|w.free| - 1] && seid == w.free[|w.free| - 1]
          && |w'.slots| == |w.slots|
          else w'.free == [] && |w'.slots| == |w.slots| + 1)
  {
    if w.free != [] { assert w.free[|w.free| - 1] in w.free; }
  }

  /** How a new session changes who is live. */
  lemma {:induction false} NewLive(w: World, n: nat, remoteId: nat)
    requires Allocated(w) && Wired(w) && n < |w.nodes|
    ensures var (w', seid) := NewSess(w, n, remoteId);
      && !Live(w, seid)
      && (forall k: Seid :: Live(w', k) <==> Live(w, k) || k == seid)
      && (forall k: Seid | Live(w, k) :: SessOf(w', k) == SessOf(w, k))
      && SessOf(w', seid) == Sess(seid, remoteId, n, map[], {}, {}, map[], {})
      && Allocated(w')
  {
    NewSlots(w, n, remoteId);
    var (w', seid) := NewSess(w, n, remoteId);
    hide Live, Wired, NewSess;
    if w.free != [] { FreePopped(w.free, seid); }
    forall f: Seid ensures f in w'.free <==> 0 < f <= |w'.slots| && !Live(w', f) {
      assert f in w.free <==> 0 < f <= |w.slots| && !Live(w, f);
    }
    forall k: Seid | Live(w', k) ensures SessOf(w', k).localId == k { assert k != seid ==> Live(w, k); }
  }

  lemma {:induction false} FreePopped(free: seq<Seid>, seid: Seid)
    requires free != [] && seid == free[|free| - 1]
    requires forall i, j | 0 <= i < j < |free| :: free[i] != free[j]
    ensures forall f :: f in free[..|free| - 1] <==> f in free && f != seid
  {
    var front := free[..|free| - 1];
    assert free == front + [seid] && seid !in front;
  }

  lemma {:induction false} NewInv(w: World, n: nat, remoteId: nat)
    requires Inv(w) && Wired(w) && n < |w.nodes|
    ensures var (w', seid) := NewSess(w, n, remoteId);
      && Inv(w') && Live(w', seid) && !Live(w, seid)
      && (forall k: Seid | Live(w, k) :: Live(w', k) && SessOf(w', k) == SessOf(w, k))
      && w'.driver == w.driver && w'.rnodes == w.rnodes
  {
    hide Driver.Lookup, Driver.Sound, Link, Driver.NoRules, InRange, Allocated, Live;
    var (w', seid) := NewSess(w, n, remoteId);
    NewLive(w, n, remoteId);
    assert Owned(w');
    forall k: Seid ensures Linked(w', k) {
      assert Linked(w, k);
      if k == seid { FreshAgrees(SessOf(w', seid), Driver.Lookup(w.driver, seid)); }
    }
  }

  /** A recycled SEID starts with no rules, so a fresh record agrees with the driver. */
  lemma {:induction false} FreshAgrees(s: Sess, t: SessionState)
    requires Driver.NoRules(t) && s.urrs == map[]
    ensures Link(s, t) && InRange(s)
  {
  }

  /** Replacing a live session's record by one of the same identity. */
  lemma {:induction false} ReplaceInv(w: World, seid: Seid, s: Sess, d: Driver.State)
    requires Inv(w) && Live(w, seid)
    requires s.localId == seid && s.owner == SessOf(w, seid).owner
    requires Link(s, Driver.Lookup(d, seid)) && InRange(s) && Driver.Sound(d)
    requires forall k: Seid | k != seid :: Driver.Lookup(d, k) == Driver.Lookup(w.driver, k)
    ensures Inv(WithSess(w, seid, s).(driver := d))
  {
    hide Driver.Lookup, Driver.Sound, Link, Driver.NoRules, InRange;
    var w' := WithSess(w, seid, s).(driver := d);
    assert forall k: Seid :: Live(w', k) <==> Live(w, k);
    assert forall k: Seid | Live(w, k) :: SessOf(w', k) == if k == seid then s else SessOf(w, k);
    assert Allocated(w') && Owned(w');
    forall k: Seid ensures Linked(w', k) {
      assert Linked(w, k);
    }
  }

  lemma {:induction false} DoAllInRange(s: Sess, d: Driver.State, ops: seq<Request>)
    requires InRange(s)
    ensures InRange(DoAll(s, d, ops).sess)
    decreases |ops|
  {
    hide Do, InRange;
    if ops != [] {
      var n := |ops| - 1;
      DoAllInRange(s, d, ops[..n]);
      var f := DoAll(s, d, ops[..n]);
      DoKeepsSeqn(f.sess, f.driver, ops[n], 0);
    }
  }

  lemma {:induction false} OperateInv(w: World, seid: Seid, ops: seq<Request>)
    requires Inv(w) && Live(w, seid)
    ensures var (w', _) := Operate(w, seid, ops);
      && Inv(w') && Live(w', seid) && |w'.slots| == |w.slots| && w'.nodes == w.nodes && w'.rnodes == w.rnodes
      && (forall k: Seid | Live(w, k) && k != seid :: Live(w', k) && SessOf(w', k) == SessOf(w, k))
  {
    hide DoAll, Driver.Lookup, Driver.Sound, Link, InRange, Driver.NoRules, Registered, Owned;
    var s := SessOf(w, seid);
    assert Linked(w, seid);
    assert s.localId == seid;
    var r := DoAll(s, w.driver, ops);
    DoAllKeeps(s, w.driver, ops, seid);
    DoAllInRange(s, w.driver, ops);
    forall k: Seid | k != seid ensures Driver.Lookup(r.driver, k) == Driver.Lookup(w.driver, k) {
      DoAllKeeps(s, w.driver, ops, k);
    }
    ReplaceInv(w, seid, r.sess, r.driver);
  }

  lemma {:induction false} NumberKeepsLink(s: Sess, reports: seq<Usage>, extra: set<Trigger>, drop: bool,
          t: SessionState)
    requires Link(s, t)
    ensures var s' := Number(s, reports, extra, drop).0;
      Link(s', t) && s'.localId == s.localId && s'.owner == s.owner && s'.remoteId == s.remoteId
    decreases |reports|
  {
    if reports != [] {
      var next := if reports[0].urr in s.urrs then Used(s, reports[0].urr, drop) else s;
      NumberKeepsLink(next, reports[1..], extra, drop, t);
    }
  }

  lemma {:induction false} RenumberInv(w: World, seid: Seid, reports: seq<Usage>, drop: bool)
    requires Inv(w) && Live(w, seid)
    ensures Inv(Renumber(w, seid, reports, drop))
  {
    hide Driver.Lookup, Driver.Sound, Link, InRange, Number, Driver.NoRules, Registered, Owned;
    var s := SessOf(w, seid);
    assert Linked(w, seid);
    NumberKeepsLink(s, reports, {}, drop, Driver.Lookup(w.driver, seid));
    NumberSeries(s, reports, {}, drop, 0);
    ReplaceInv(w, seid, Number(s, reports, {}, drop).0, w.driver);
  }

  lemma {:induction false} DeleteInv(w: World, n: nat, seid: Seid, plan: seq<Request>)
    requires Inv(w) && n < |w.nodes|
    requires seid in w.nodes[n].sess ==> Live(w, seid) && ClosePlan(SessOf(w, seid), plan)
    ensures var w' := DeleteSess(w, n, seid, plan);
      && Inv(w')
      && (forall k: Seid | k != seid :: (Live(w', k) <==> Live(w, k)) && (Live(w, k) ==> SessOf(w', k) == SessOf(w, k))
                                  && Driver.Lookup(w'.driver, k) == Driver.Lookup(w.driver, k))
      && (seid in w.nodes[n].sess ==> !Live(w', seid))
      && w'.nodes == w.nodes[n := w.nodes[n].(sess := w.nodes[n].sess - {seid})]
  {
    hide DoAll, Driver.Lookup, Driver.Sound, Link, InRange, Driver.NoRules, ClosePlan;
    var w' := DeleteSess(w, n, seid, plan);
    if seid !in w.nodes[n].sess {
      assert w.nodes[n].sess - {seid} == w.nodes[n].sess;
    } else {
      var s := SessOf(w, seid);
      assert Linked(w, seid);
      Numbering.LookupSound(w.driver, seid);
      CloseEmptiesAndReports(s, w.driver, plan);
      forall k: Seid ensures k != seid ==> Driver.Lookup(w'.driver, k) == Driver.Lookup(w.driver, k) {
        DoAllKeeps(s, w.driver, plan, k);
      }
      DoAllKeeps(s, w.driver, plan, seid);
      assert forall k: Seid :: Live(w', k) <==> Live(w, k) && k != seid;
      assert forall k: Seid | Live(w', k) :: SessOf(w', k) == SessOf(w, k);
      assert Allocated(w') by {
        assert seid !in w.free;
        assert forall f: Seid :: f in w'.free <==> f in w.free || f == seid;
      }
      assert Owned(w');
      forall k: Seid ensures Linked(w', k) { assert Linked(w, k); }
    }
  }

  /** A session is the same in both worlds, in its slot and in the driver. */
  ghost predicate Untouched(w: World, w': World, k: Seid) {
    && (Live(w', k) <==> Live(w, k))
    && (Live(w, k) ==> SessOf(w', k) == SessOf(w, k))
    && Driver.Lookup(w'.driver, k) == Driver.Lookup(w.driver, k)
  }

  /** Node `n` gave up the SEIDs of `gone`; no other node changed. */
  ghost predicate GaveUp(w: World, w': World, n: nat, gone: seq<Seid>)
    requires n < |w.nodes| && |w'.nodes| == |w.nodes|
  {
    && w'.nodes[n].id == w.nodes[n].id
    && (forall k: Seid :: k in w'.nodes[n].sess <==> k in w.nodes[n].sess && k !in gone)
    && (forall m: nat | m < |w.nodes| && m != n :: w'.nodes[m] == w.nodes[m])
  }

  /** Resetting a node deletes the sessions of `order` that it owns and touches no other
      session, in the slots or in the driver. */
  lemma {:induction false} ResetInv(w: World, n: nat, order: seq<Seid>, plans: Plans)
    requires Inv(w) && n < |w.nodes|
    requires forall i, j | 0 <= i < j < |order| :: order[i] != order[j]
    requires forall i | 0 <= i < |order| :: order[i] in w.nodes[n].sess
    requires PlansFor(w, order, plans)
    ensures var w' := Reset(w, n, order, plans);
      && Inv(w')
      && (forall k: Seid | k !in order :: Untouched(w, w', k))
      && (forall k: Seid | k in order :: !Live(w', k))
      && GaveUp(w, w', n, order)
    decreases |order|
  {
    hide DeleteSess, Inv, ClosePlan, Untouched, GaveUp, Live;
    if order == [] {
      SameUntouched(w, n);
    } else {
      var k := |order| - 1;
      var front, last := order[..k], order[k];
      assert order == front + [last] && last !in front;
      ResetInv(w, n, front, plans);
      OwnedLive(w, n, last);
      ResetStep(w, Reset(w, n, front, plans), n, front, last, plans[last]);
    }
  }

  lemma {:induction false} SameUntouched(w: World, n: nat)
    requires n < |w.nodes|
    ensures forall k: Seid :: Untouched(w, w, k)
    ensures GaveUp(w, w, n, [])
  {
  }

  lemma {:induction false} ResetStep(w: World, f: World, n: nat, front: seq<Seid>, last: Seid, plan: seq<Request>)
    requires n < |w.nodes| && |f.nodes| == |w.nodes| && last !in front
    requires Live(w, last) && last in w.nodes[n].sess && ClosePlan(SessOf(w, last), plan)
    requires Inv(f) && GaveUp(w, f, n, front)
    requires forall k: Seid | k !in front :: Untouched(w, f, k)
    requires forall k: Seid | k in front :: !Live(f, k)
    ensures var w' := DeleteSess(f, n, last, plan);
      && Inv(w') && |w'.nodes| == |w.nodes|
      && (forall k: Seid | k !in front + [last] :: Untouched(w, w', k))
      && (forall k: Seid | k in front + [last] :: !Live(w', k))
      && GaveUp(w, w', n, front + [last])
  {
    hide DeleteSess, Inv, ClosePlan, Driver.Lookup;
    assert Untouched(w, f, last);
    DeleteInv(f, n, last, plan);
    var w' := DeleteSess(f, n, last, plan);
    forall k: Seid | k !in front + [last] ensures Untouched(w, w', k) { assert Untouched(w, f, k); }
  }

  lemma {:induction false} OwnedLive(w: World, n: nat, seid: Seid)
    requires Inv(w) && n < |w.nodes| && seid in w.nodes[n].sess
    ensures Live(w, seid) && SessOf(w, seid).owner == n
  {
  }

  /** The rule maps of two sessions are the same. */
  predicate SameInstalled(t: SessionState, t': SessionState) {
    t'.pdrs == t.pdrs && t'.fars == t.fars && t'.qers == t.qers && t'.urrs == t.urrs && t'.bars == t.bars
  }

  lemma {:induction false} StoredKeepsRules(d: Driver.State, seid: Seid, s: SessionState, k: Seid)
    requires seid in d.sessions && SameInstalled(d.sessions[seid], s)
    ensures SameInstalled(Driver.Lookup(d, k), Driver.Lookup(Driver.Store(d, seid, s), k))
  {
  }

  lemma {:induction false} BufferKeepsRules(d: Driver.State, b: Binding, payload: Payload, k: Seid)
    ensures SameInstalled(Driver.Lookup(d, k), Driver.Lookup(Driver.Buffer(d, b, payload), k))
  {
    hide Driver.Enqueue, Driver.BufferOf, Driver.BufferLimit;
  }

  lemma {:induction false} ScheduleKeepsRules(d: Driver.State, b: Binding, payload: Payload, k: Seid)
    ensures SameInstalled(Driver.Lookup(d, k), Driver.Lookup(Driver.Schedule(d, b, payload), k))
  {
    hide Driver.DelaysNotification;
  }

  lemma {:induction false} EverywhereKeepsRules(d: Driver.State, e: Driver.Event, k: Seid)
    requires e.Ticked? || e.FlowsReset?
    ensures SameInstalled(Driver.Lookup(d, k), Driver.Lookup(Driver.Step(d, e), k))
  {
    hide Driver.Due, Driver.Restarts, Driver.Apply, Driver.Buffer;
  }

  /** A data step changes no rule of any session. */
  lemma {:induction false} DataKeepsRules(d: Driver.State, e: Driver.Event, k: Seid)
    requires !e.Control?
    ensures SameInstalled(Driver.Lookup(d, k), Driver.Lookup(Driver.Step(d, e), k))
  {
    hide Driver.Apply, Driver.CountAll, Driver.AdaptiveQers, Driver.Buffer, Driver.TickSession, RateLimit.Metered,
      Driver.Lookup, Driver.Store;
    match e
    case Buffered(b, payload) => BufferKeepsRules(d, b, payload, k);
    case Scheduled(b, payload) => ScheduleKeepsRules(d, b, payload, k);
    case Counted(b, bytes, up) =>
      if b.seid in d.sessions {
        var s := d.sessions[b.seid];
        StoredKeepsRules(d, b.seid, s.(urrReports := Driver.CountAll(s.urrReports, b.urrs, bytes, up)), k);
      }
    case Policed(b, bytes, dir, now) =>
      if b.seid in d.sessions {
        var s := d.sessions[b.seid];
        StoredKeepsRules(d, b.seid,
          s.(meters := RateLimit.Metered(s.meters, RateLimit.Offer(b.qers, s.overrides, bytes, dir, now)).0), k);
      }
    case Ticked(_) => EverywhereKeepsRules(d, e, k);
    case NotificationDue(key) => CancelKeepsRules(d, {key}, k);
    case FlowStarted(seid, flow, p, now) =>
      if seid in d.sessions { StoredKeepsRules(d, seid, Driver.StartFlow(d.sessions[seid], flow, p, now), k); }
    case FlowEnded(seid, flow) =>
      if seid in d.sessions { StoredKeepsRules(d, seid, Driver.EndFlow(d.sessions[seid], flow), k); }
    case FlowsReset => EverywhereKeepsRules(d, e, k);
  }

  lemma {:induction false} CancelKeepsRules(d: Driver.State, keys: set<Driver.DdnKey>, k: Seid)
    ensures SameInstalled(Driver.Lookup(d, k), Driver.Lookup(Driver.Cancel(d, keys), k))
  {
  }

  lemma {:induction false} DataInv(w: World, e: Driver.Event)
    requires Inv(w) && !e.Control?
    ensures Inv(w.(driver := Driver.Step(w.driver, e)))
  {
    hide Driver.Step, Driver.Lookup, Driver.Sound, InRange;
    var w' := w.(driver := Driver.Step(w.driver, e));
    Driver.StepSound(w.driver, e);
    assert forall k: Seid :: Live(w', k) <==> Live(w, k);
    assert forall k: Seid | Live(w, k) :: SessOf(w', k) == SessOf(w, k);
    assert Allocated(w') && Owned(w');
    forall k: Seid ensures Linked(w', k) {
      assert Linked(w, k);
      DataKeepsRules(w.driver, e, k);
    }
  }

  lemma {:induction false} SameSessions(w: World, w': World)
    requires Inv(w) && w'.slots == w.slots && w'.free == w.free && w'.driver == w.driver
    requires |w'.nodes| >= |w.nodes|
    requires forall n: nat | n < |w.nodes| :: w'.nodes[n].sess == w.nodes[n].sess
    requires forall n: nat | |w.nodes| <= n < |w'.nodes| :: w'.nodes[n].sess == {}
    requires Registered(w')
    ensures Inv(w')
  {
    hide Driver.Lookup, Driver.Sound, Link, InRange, Driver.NoRules;
    assert forall k: Seid :: Live(w', k) <==> Live(w, k);
    assert forall k: Seid | Live(w, k) :: SessOf(w', k) == SessOf(w, k);
    assert Allocated(w');
    forall n: nat, seid: Seid | n < |w'.nodes|
      ensures seid in w'.nodes[n].sess <==> Live(w', seid) && SessOf(w', seid).owner == n
    {
      if n < |w.nodes| { assert seid in w.nodes[n].sess <==> Live(w, seid) && SessOf(w, seid).owner == n; }
    }
    forall k: Seid ensures Linked(w', k) { assert Linked(w, k); }
  }

  lemma {:induction false} TakeOverInv(w: World, n: nat, id: string)
    requires Inv(w) && n < |w.nodes|
    ensures Inv(TakeOver(w, n, id))
  {
    var w' := TakeOver(w, n, id);
    assert Registered(w');
    SameSessions(w, w');
  }

  lemma {:induction false} AssociateInv(w: World, id: string, addr: string, order: seq<Seid>, plans: Plans)
    requires Inv(w) && Wired(w) && Possible(w, Associate(id, addr, order, plans))
    ensures Inv(Step(w, Associate(id, addr, order, plans)))
  {
    hide DeleteSess, Driver.Lookup, Driver.Sound, Allocated, Owned, Linked, Live, ClosePlan, Reset;
    var r := w;
    if id in w.rnodes {
      assert forall i | 0 <= i < |order| :: order[i] in w.nodes[w.rnodes[id]].sess;
      ResetInv(w, w.rnodes[id], order, plans);
      r := Reset(w, w.rnodes[id], order, plans);
    }
    var w' := r.(nodes := r.nodes + [RemoteNode(id, addr, {})], rnodes := r.rnodes[id := |r.nodes|]);
    assert Registered(w');
    SameSessions(r, w');
  }

  /** Both layers stay in step through every event. */
  lemma {:induction false} StepInv(w: World, e: Event)
    requires Inv(w) && Wired(w) && Possible(w, e)
    ensures Inv(Step(w, e))
  {
    hide Inv, Reset, DeleteSess, Operate, Renumber, NewSess, TakeOver, ClosePlan, HandlerOrder, PlansFor;
    match e
    case Associate(id, addr, order, plans) => AssociateInv(w, id, addr, order, plans);
    case Establish(id, remoteId, ops) =>
      if id in w.rnodes {
        NewInv(w, w.rnodes[id], remoteId);
        var (w1, seid) := NewSess(w, w.rnodes[id], remoteId);
        OperateInv(w1, seid, ops);
      }
    case Modify(seid, newId, ops) => if Live(w, seid) { ModifyInv(w, seid, newId, ops); }
    case Delete(seid, plan) => if Live(w, seid) { OwnerDelete(w, seid, plan); }
    case PeerForgot(remoteId, addr, plan) =>
      var f := RemoteSess(w, remoteId, addr, 0);
      if f.Found? { OwnerDelete(w, f.seid, plan); }
    case Report(seid, reports) => if Live(w, seid) { RenumberInv(w, seid, reports, false); }
    case Data(d) => DataInv(w, d);
  }

  lemma {:induction false} OwnerDelete(w: World, seid: Seid, plan: seq<Request>)
    requires Inv(w) && Live(w, seid) && ClosePlan(SessOf(w, seid), plan)
    ensures SessOf(w, seid).owner < |w.nodes| && seid in w.nodes[SessOf(w, seid).owner].sess
    ensures Inv(DeleteSess(w, SessOf(w, seid).owner, seid, plan))
  {
    DeleteInv(w, SessOf(w, seid).owner, seid, plan);
  }

  lemma {:induction false} ModifyInv(w: World, seid: Seid, newId: Option<string>, ops: seq<Request>)
    requires Inv(w) && Wired(w) && Live(w, seid) && HandlerOrder(ops)
    ensures Inv(Step(w, Modify(seid, newId, ops)))
  {
    hide Inv, Operate, Renumber, HandlerOrder;
    if newId.Some? { TakeOverInv(w, SessOf(w, seid).owner, newId.value); }
    var w1 := if newId.Some? then TakeOver(w, SessOf(w, seid).owner, newId.value) else w;
    OperateInv(w1, seid, ops);
    var (w2, reports) := Operate(w1, seid, ops);
    RenumberInv(w2, seid, reports, true);
  }

  // ---- runs ----

  ghost predicate PossibleRun(w: World, events: seq<Event>)
    decreases |events|
  {
    events == [] || (Wired(w) && Possible(w, events[0]) && PossibleRun(Step(w, events[0]), events[1..]))
  }

  ghost function Run(w: World, events: seq<Event>): World
    requires PossibleRun(w, events)
    decreases |events|
  {
    if events == [] then w else Run(Step(w, events[0]), events[1..])
  }

  /** The cross-layer invariant holds in every state of every run: sessions established,
      modified, taken over and deleted, associations set up again, SEIDs recycled, and data
      events of the driver in between. */
  lemma {:induction false} RunInv(w: World, events: seq<Event>)
    requires Inv(w) && PossibleRun(w, events)
    ensures Inv(Run(w, events))
    decreases |events|
  {
    hide Inv, Step, Possible, Wired;
    if events != [] {
      StepInv(w, events[0]);
      RunInv(Step(w, events[0]), events[1..]);
    }
  }
}
