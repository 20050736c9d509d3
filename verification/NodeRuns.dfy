/** What holds over whole runs of the PFCP server: how many slots the local node needs, which
    sessions a new association deletes, that a SEID starts afresh, and what its last report
    is. */
module NodeRuns {
  import opened Rules
  import opened Session
  import opened Closing
  import opened Numbering
  import opened Node
  import Driver

  /** A run, one event at a time. */
  lemma {:induction false} RunFirst(w: World, e: Event, rest: seq<Event>)
    requires Wired(w) && Possible(w, e) && PossibleRun(Step(w, e), rest)
    ensures PossibleRun(w, [e] + rest) && Run(w, [e] + rest) == Run(Step(w, e), rest)
  {
    hide Step, Possible, Wired;
    assert ([e] + rest)[1..] == rest;
  }

  lemma {:induction false} RunNothing(w: World)
    ensures PossibleRun(w, []) && Run(w, []) == w
  {
  }

  // ---- the number of slots is the high-water mark ----

  function LiveSeids(w: World): set<Seid> {
    set k: Seid | 0 < k <= |w.slots| && Live(w, k)
  }

  function UpTo(n: nat): (r: set<Seid>)
    ensures forall k: Seid :: k in r <==> 0 < k <= n
  {
    if n == 0 then {} else UpTo(n - 1) + {n}
  }

  lemma {:induction false} UpToSize(n: nat)
    ensures |UpTo(n)| == n
  {
    if n > 0 { UpToSize(n - 1); }
  }

  function Elements(s: seq<Seid>): set<Seid> { set x | x in s }

  lemma {:induction false} DistinctSize(s: seq<Seid>)
    requires forall i, j | 0 <= i < j < |s| :: s[i] != s[j]
    ensures |Elements(s)| == |s|
  {
    if s == [] {
      assert Elements(s) == {};
    } else {
      var front, last := s[..|s| - 1], s[|s| - 1];
      DistinctSize(front);
      assert s == front + [last] && last !in front;
      assert Elements(s) == Elements(front) + {last};
    }
  }

  /** Every slot is live or free. */
  lemma {:induction false} SlotsSplit(w: World)
    requires Allocated(w)
    ensures |LiveSeids(w)| + |w.free| == |w.slots|
  {
    hide Live;
    var free := Elements(w.free);
    DistinctSize(w.free);
    UpToSize(|w.slots|);
    assert LiveSeids(w) + free == UpTo(|w.slots|);
    assert LiveSeids(w) * free == {};
  }

  function Max(a: nat, b: nat): nat { if a < b then b else a }

  /** The most sessions that were ever live at once, `best` being the most so far. */
  ghost function Peak(w: World, events: seq<Event>, best: nat): nat
    requires PossibleRun(w, events)
    decreases |events|
  {
    var now := Max(best, |LiveSeids(w)|);
    if events == [] then now else Peak(Step(w, events[0]), events[1..], now)
  }

  /** A slot is added only when none is free. */
  lemma {:induction false} StepSlots(w: World, e: Event)
    requires Wired(w) && Possible(w, e)
    ensures var w' := Step(w, e);
      |w'.slots| == |w.slots| || (|w'.slots| == |w.slots| + 1 && w'.free == [])
  {
    hide DoAll, Reset, Number, RemoteSess, ClosePlan, HandlerOrder, PlansFor, Enumerates, TakeOver;
    match e
    case Establish(_, _, _) =>
    case Modify(seid, newId, _) =>
      if newId.Some? && Live(w, seid) { TakeOverSlots(w, SessOf(w, seid).owner, newId.value); }
    case _ =>
  }

  lemma {:induction false} TakeOverSlots(w: World, n: nat, id: string)
    requires n < |w.nodes|
    ensures TakeOver(w, n, id).slots == w.slots && TakeOver(w, n, id).driver == w.driver
    ensures |TakeOver(w, n, id).nodes| == |w.nodes|
  {
  }

  lemma {:induction false} SlotsArePeak(w: World, events: seq<Event>, best: nat)
    requires Inv(w) && PossibleRun(w, events)
    requires |w.slots| == Max(best, |LiveSeids(w)|)
    ensures |Run(w, events).slots| == Peak(w, events, best)
    decreases |events|
  {
    hide Step, Possible, Wired, LiveSeids, Owned, Registered, Driver.Sound, Linked, Allocated;
    if events != [] {
      var w' := Step(w, events[0]);
      StepInv(w, events[0]);
      StepSlots(w, events[0]);
      SlotsSplit(w');
      SlotsSplit(w);
      SlotsArePeak(w', events[1..], |w.slots|);
    }
  }

  /** In every run from the start the number of slots is the high-water mark of live
      sessions. */
  lemma {:induction false} HighWaterMark(events: seq<Event>)
    requires PossibleRun(START, events)
    ensures |Run(START, events).slots| == Peak(START, events, 0)
  {
    hide PossibleRun, Run, Peak, Inv, LiveSeids;
    StartInv();
    NoneLive();
    SlotsArePeak(START, events, 0);
  }

  lemma {:induction false} NoneLive()
    ensures LiveSeids(START) == {}
  {
  }

  // ---- a new association ----

  /** Setting up an association deletes every session of the node registered under the
      identity and touches no other session. */
  lemma {:induction false} AssociationResets(w: World, e: Event, k: Seid)
    requires Inv(w) && Wired(w) && e.Associate? && Possible(w, e)
    ensures var w' := Step(w, e);
      if Live(w, k) && e.id in w.rnodes && SessOf(w, k).owner == w.rnodes[e.id] then !Live(w', k)
      else Untouched(w, w', k)
  {
    hide Driver.Lookup, DeleteSess, Reset, ClosePlan, PlansFor, Allocated, Registered, Driver.Sound, Linked;
    if e.id in w.rnodes {
      var n := w.rnodes[e.id];
      assert forall i | 0 <= i < |e.order| :: e.order[i] in w.nodes[n].sess;
      ResetInv(w, n, e.order, e.plans);
      assert k in w.nodes[n].sess <==> k in e.order;
    }
  }

  /** Every owner of a live session is the node registered under its identity. */
  ghost predicate Covered(w: World) {
    forall k: Seid | Live(w, k) :: OwnerRegistered(w, k)
  }

  predicate OwnerRegistered(w: World, k: Seid)
    requires Live(w, k)
  {
    var n := SessOf(w, k).owner;
    n < |w.nodes| && w.nodes[n].id in w.rnodes && w.rnodes[w.nodes[n].id] == n
  }

  /** The identity is not that of another node that has sessions. */
  predicate Vacant(w: World, n: nat, id: string) {
    id in w.rnodes ==> w.rnodes[id] == n || (w.rnodes[id] < |w.nodes| && w.nodes[w.rnodes[id]].sess == {})
  }

  /** A take-over of an identity keeps every session covered if and only if the identity was
      not that of another node that has sessions. */
  lemma {:induction false} TakeOverCovers(w: World, k: Seid, id: string)
    requires Inv(w) && Covered(w) && Live(w, k)
    ensures Covered(TakeOver(w, SessOf(w, k).owner, id)) <==> Vacant(w, SessOf(w, k).owner, id)
  {
    hide Allocated, Linked, Driver.Sound;
    var n := SessOf(w, k).owner;
    var w' := TakeOver(w, n, id);
    assert OwnerRegistered(w, k);
    if !Vacant(w, n, id) {
      var j :| j in w.nodes[w.rnodes[id]].sess;
      assert Live(w, j) && !OwnerRegistered(w', j);
    } else {
      forall j: Seid | Live(w', j) ensures OwnerRegistered(w', j) {
        assert Live(w, j) && OwnerRegistered(w, j);
        assert j in w.nodes[SessOf(w, j).owner].sess;
      }
    }
  }

  predicate KeepsCover(w: World, e: Event) {
    e.Modify? && Live(w, e.seid) && e.newId.Some? ==> Vacant(w, SessOf(w, e.seid).owner, e.newId.value)
  }

  /** Nothing that coverage looks at gets worse. */
  lemma {:induction false} CoveredFrom(w: World, w': World)
    requires Covered(w) && |w'.nodes| >= |w.nodes| && w'.rnodes == w.rnodes
    requires forall n: nat | n < |w.nodes| :: w'.nodes[n].id == w.nodes[n].id
    requires forall k: Seid | Live(w', k) :: Live(w, k) && SessOf(w', k).owner == SessOf(w, k).owner
    ensures Covered(w')
  {
    forall k: Seid | Live(w', k) ensures OwnerRegistered(w', k) { assert OwnerRegistered(w, k); }
  }

  /** The same session of the control plane: its owner and remote SEID never change. */
  predicate SameHolder(a: Sess, b: Sess) {
    a.owner == b.owner && a.remoteId == b.remoteId
  }

  lemma {:induction false} OperateOwners(w: World, seid: Seid, ops: seq<Request>)
    requires Inv(w) && Live(w, seid)
    ensures var w' := Operate(w, seid, ops).0;
      && w'.nodes == w.nodes && w'.rnodes == w.rnodes && Inv(w')
      && forall k: Seid :: (Live(w', k) <==> Live(w, k)) && (Live(w, k) ==> SameHolder(SessOf(w, k), SessOf(w', k)))
  {
    hide DoAll, Owned, Registered, Driver.Sound, Driver.Lookup, Link, InRange, Driver.NoRules;
    assert Linked(w, seid);
    DoAllKeeps(SessOf(w, seid), w.driver, ops, seid);
    OperateInv(w, seid, ops);
  }

  lemma {:induction false} RenumberOwners(w: World, seid: Seid, reports: seq<Usage>, drop: bool)
    requires Inv(w) && Live(w, seid)
    ensures var w' := Renumber(w, seid, reports, drop);
      && w'.nodes == w.nodes && w'.rnodes == w.rnodes
      && forall k: Seid :: (Live(w', k) <==> Live(w, k)) && (Live(w, k) ==> SameHolder(SessOf(w, k), SessOf(w', k)))
  {
    hide Number, Owned, Registered, Driver.Sound, Driver.Lookup, Link, InRange, Driver.NoRules;
    assert Linked(w, seid);
    NumberKeepsLink(SessOf(w, seid), reports, {}, drop, Driver.Lookup(w.driver, seid));
  }

  lemma {:induction false} DeleteCovered(w: World, k: Seid, plan: seq<Request>)
    requires Inv(w) && Covered(w) && Live(w, k) && ClosePlan(SessOf(w, k), plan)
    ensures var n := SessOf(w, k).owner; n < |w.nodes| && Covered(DeleteSess(w, n, k, plan))
  {
    hide Driver.Sound, Linked, Allocated, Registered, ClosePlan, Covered, DoAll;
    var n := SessOf(w, k).owner;
    DeleteInv(w, n, k, plan);
    var w' := DeleteSess(w, n, k, plan);
    assert w'.rnodes == w.rnodes;
    CoveredFrom(w, w');
  }

  lemma {:induction false} EstablishCovered(w: World, e: Event)
    requires Inv(w) && Covered(w) && Wired(w) && e.Establish? && Possible(w, e)
    ensures Covered(Step(w, e))
  {
    hide NewSess, Operate, Allocated, Driver.Sound, Linked;
    if e.id in w.rnodes {
      var n := w.rnodes[e.id];
      NewInv(w, n, e.remoteId);
      var (w1, seid) := NewSess(w, n, e.remoteId);
      NewOwners(w, n, e.remoteId);
      forall k: Seid | Live(w1, k) ensures OwnerRegistered(w1, k) {
        if k != seid { assert Live(w, k) && OwnerRegistered(w, k); }
      }
      OperateOwners(w1, seid, e.ops);
      CoveredFrom(w1, Operate(w1, seid, e.ops).0);
    }
  }

  lemma {:induction false} NewOwners(w: World, n: nat, remoteId: nat)
    requires Inv(w) && Wired(w) && n < |w.nodes|
    ensures var (w', seid) := NewSess(w, n, remoteId);
      && |w'.nodes| == |w.nodes| && w'.rnodes == w.rnodes
      && (forall m: nat | m < |w.nodes| :: w'.nodes[m].id == w.nodes[m].id)
      && Live(w', seid) && SessOf(w', seid).owner == n
      && forall k: Seid | Live(w', k) && k != seid :: Live(w, k) && SessOf(w', k) == SessOf(w, k)
  {
    hide Allocated, Driver.Sound, Linked, Owned, Live;
    NewLive(w, n, remoteId);
  }

  lemma {:induction false} AssociateCovered(w: World, e: Event)
    requires Inv(w) && Covered(w) && Wired(w) && e.Associate? && Possible(w, e)
    ensures Covered(Step(w, e))
  {
    hide Step, Possible, Inv, Wired, Driver.Lookup;
    var w' := Step(w, e);
    AssociateIds(w, e);
    forall k: Seid | Live(w', k) ensures OwnerRegistered(w', k) {
      AssociationResets(w, e, k);
      assert OwnerRegistered(w, k);
    }
  }

  lemma {:induction false} AssociateIds(w: World, e: Event)
    requires Inv(w) && Wired(w) && e.Associate? && Possible(w, e)
    ensures var w' := Step(w, e);
      && |w'.nodes| == |w.nodes| + 1 && w'.rnodes == w.rnodes[e.id := |w.nodes|]
      && forall n: nat | n < |w.nodes| :: w'.nodes[n].id == w.nodes[n].id
  {
    hide Driver.Lookup, DeleteSess, Reset, ClosePlan, PlansFor, Allocated, Registered, Driver.Sound, Linked, Untouched;
    if e.id in w.rnodes {
      assert forall i | 0 <= i < |e.order| :: e.order[i] in w.nodes[w.rnodes[e.id]].sess;
      ResetInv(w, w.rnodes[e.id], e.order, e.plans);
    }
  }

  lemma {:induction false} ModifyCovered(w: World, e: Event)
    requires Inv(w) && Covered(w) && Wired(w) && e.Modify? && Possible(w, e)
    ensures Covered(Step(w, e)) <==> KeepsCover(w, e)
  {
    hide Operate, Renumber, Allocated, Owned, Registered, Driver.Sound, Linked, HandlerOrder, Covered, TakeOver, Vacant;
    if Live(w, e.seid) {
      var n := SessOf(w, e.seid).owner;
      var w1 := if e.newId.Some? then TakeOver(w, n, e.newId.value) else w;
      if e.newId.Some? {
        TakeOverCovers(w, e.seid, e.newId.value);
        TakeOverInv(w, n, e.newId.value);
        TakeOverSlots(w, n, e.newId.value);
      }
      OperateOwners(w1, e.seid, e.ops);
      var (w2, reports) := Operate(w1, e.seid, e.ops);
      RenumberOwners(w2, e.seid, reports, true);
      SameOwners(w1, Renumber(w2, e.seid, reports, true));
    }
  }

  lemma {:induction false} SameOwners(w: World, w': World)
    requires w'.nodes == w.nodes && w'.rnodes == w.rnodes
    requires forall k: Seid :: Live(w', k) <==> Live(w, k)
    requires forall k: Seid | Live(w, k) :: SessOf(w', k).owner == SessOf(w, k).owner
    ensures Covered(w') <==> Covered(w)
  {
    hide Live;
    if Covered(w) { forall k: Seid | Live(w', k) ensures OwnerRegistered(w', k) { assert OwnerRegistered(w, k); } }
    if Covered(w') { forall k: Seid | Live(w, k) ensures OwnerRegistered(w, k) { assert OwnerRegistered(w', k); } }
  }

  /** The exact condition for coverage: every event keeps it, except a modification that takes
      over the identity of another node that has sessions. */
  lemma {:induction false} StepCovered(w: World, e: Event)
    requires Inv(w) && Covered(w) && Wired(w) && Possible(w, e)
    ensures Covered(Step(w, e)) <==> KeepsCover(w, e)
  {
    hide Inv, Covered, DeleteSess, Renumber, NewSess, Operate, Reset, ClosePlan, Vacant;
    match e
    case Associate(_, _, _, _) => AssociateCovered(w, e);
    case Establish(_, _, _) => EstablishCovered(w, e);
    case Modify(_, _, _) => ModifyCovered(w, e);
    case Delete(seid, plan) => if Live(w, seid) { DeleteCovered(w, seid, plan); }
    case PeerForgot(remoteId, addr, plan) =>
      var f := RemoteSess(w, remoteId, addr, 0);
      if f.Found? { DeleteCovered(w, f.seid, plan); }
    case Report(seid, reports) =>
      if Live(w, seid) {
        RenumberOwners(w, seid, reports, false);
        SameOwners(w, Renumber(w, seid, reports, false));
      }
    case Data(d) => SameOwners(w, w.(driver := Driver.Step(w.driver, d)));
  }

  lemma {:induction false} EstablishIdentity(w: World, e: Event, k: Seid)
    requires Inv(w) && Wired(w) && e.Establish? && Possible(w, e) && Live(w, k)
    ensures Live(Step(w, e), k) && SameHolder(SessOf(w, k), SessOf(Step(w, e), k))
  {
    hide NewSess, Operate, Allocated, Driver.Sound, Linked, Owned;
    if e.id in w.rnodes {
      var n := w.rnodes[e.id];
      NewInv(w, n, e.remoteId);
      var (w1, seid) := NewSess(w, n, e.remoteId);
      OperateOwners(w1, seid, e.ops);
    }
  }

  lemma {:induction false} ModifyIdentity(w: World, e: Event, k: Seid)
    requires Inv(w) && Wired(w) && e.Modify? && Possible(w, e) && Live(w, k)
    ensures Live(Step(w, e), k) && SameHolder(SessOf(w, k), SessOf(Step(w, e), k))
  {
    hide Operate, Renumber, Allocated, Owned, Registered, Driver.Sound, Linked, HandlerOrder, TakeOver;
    if Live(w, e.seid) {
      var n := SessOf(w, e.seid).owner;
      var w1 := if e.newId.Some? then TakeOver(w, n, e.newId.value) else w;
      if e.newId.Some? {
        OwnerInRange(w, e.seid);
        TakeOverInv(w, n, e.newId.value);
        TakeOverSlots(w, n, e.newId.value);
      }
      OperateOwners(w1, e.seid, e.ops);
      var (w2, reports) := Operate(w1, e.seid, e.ops);
      RenumberOwners(w2, e.seid, reports, true);
    }
  }

  lemma {:induction false} DeleteIdentity(w: World, seid: Seid, plan: seq<Request>, k: Seid)
    requires Inv(w) && Live(w, seid) && ClosePlan(SessOf(w, seid), plan) && Live(w, k)
    ensures SessOf(w, seid).owner < |w.nodes|
    ensures var w' := DeleteSess(w, SessOf(w, seid).owner, seid, plan);
      if k == seid then !Live(w', k) else Live(w', k) && SessOf(w', k) == SessOf(w, k)
  {
    hide Driver.Sound, Linked, Allocated, Registered, ClosePlan, DoAll;
    DeleteInv(w, SessOf(w, seid).owner, seid, plan);
  }

  /** One event never replaces a session by another on the same SEID. */
  lemma {:induction false} StepIdentity(w: World, e: Event, k: Seid)
    requires Inv(w) && Wired(w) && Possible(w, e) && Live(w, k)
    ensures Live(Step(w, e), k) ==> SameHolder(SessOf(w, k), SessOf(Step(w, e), k))
  {
    hide Inv, DeleteSess, Renumber, NewSess, Operate, Reset, ClosePlan;
    match e
    case Associate(_, _, _, _) => AssociationResets(w, e, k);
    case Establish(_, _, _) => EstablishIdentity(w, e, k);
    case Modify(_, _, _) => ModifyIdentity(w, e, k);
    case Delete(seid, plan) => if Live(w, seid) { DeleteIdentity(w, seid, plan, k); }
    case PeerForgot(remoteId, addr, plan) =>
      var f := RemoteSess(w, remoteId, addr, 0);
      if f.Found? { DeleteIdentity(w, f.seid, plan, k); }
    case Report(seid, reports) => if Live(w, seid) { RenumberOwners(w, seid, reports, false); }
    case Data(_) =>
  }

  /** Where every session is covered, a new association leaves no session of a node with its
      identity alive. */
  lemma {:induction false} CoveredAssociationClears(w: World, e: Event, k: Seid)
    requires Inv(w) && Covered(w) && Wired(w) && e.Associate? && Possible(w, e)
    requires Live(w, k) && SessOf(w, k).owner < |w.nodes| && w.nodes[SessOf(w, k).owner].id == e.id
    ensures !Live(Step(w, e), k)
  {
    hide Step, Possible, Inv, Wired;
    assert OwnerRegistered(w, k);
    AssociationResets(w, e, k);
  }

  // ---- a run in which a node is detached ----

  function Empty(seid: Seid, remoteId: nat, owner: nat): Sess { Sess(seid, remoteId, owner, map[], {}, {}, map[], {}) }

  /** Two nodes associate and establish a session each, and the second session is modified under
      the first node's identity. */
  const TAKE_OVER := [
    Associate("a", "A", [], map[]), Associate("b", "B", [], map[]), Establish("a", 10, []), Establish("b", 20, []),
    Modify(2, Some("a"), [])]

  function Pair(slots: seq<Option<Sess>>, a: RemoteNode, b: RemoteNode): World {
    World(slots, [], [a, b], map["a" := 0, "b" := 1], Driver.INITIAL)
  }

  lemma {:induction false} EstablishNothing(w: World, id: string, remoteId: nat)
    requires Wired(w) && id in w.rnodes
    ensures Possible(w, Establish(id, remoteId, []))
    ensures Step(w, Establish(id, remoteId, [])) == NewSess(w, w.rnodes[id], remoteId).0
  {
    var (w1, seid) := NewSess(w, w.rnodes[id], remoteId);
    assert w1.slots[seid - 1 := w1.slots[seid - 1]] == w1.slots;
  }

  lemma {:induction false} ModifyNothing(w: World, seid: Seid, id: string)
    requires Wired(w) && Live(w, seid)
    ensures Possible(w, Modify(seid, Some(id), []))
    ensures Step(w, Modify(seid, Some(id), [])) == TakeOver(w, SessOf(w, seid).owner, id)
  {
    var w1 := TakeOver(w, SessOf(w, seid).owner, id);
    assert w1.slots[seid - 1 := w1.slots[seid - 1]] == w1.slots;
  }

  lemma {:induction false} TwoAssociated()
    ensures var w2 := Pair([], RemoteNode("a", "A", {}), RemoteNode("b", "B", {}));
            var rest := TAKE_OVER[2..];
      PossibleRun(w2, rest) ==> PossibleRun(START, TAKE_OVER) && Run(START, TAKE_OVER) == Run(w2, rest)
  {
    hide Reset, PossibleRun, Run;
    var w1 := World([], [], [RemoteNode("a", "A", {})], map["a" := 0], Driver.INITIAL);
    var w2 := Pair([], RemoteNode("a", "A", {}), RemoteNode("b", "B", {}));
    var rest := TAKE_OVER[2..];
    assert [] + [RemoteNode("a", "A", {})] == [RemoteNode("a", "A", {})];
    assert Step(START, TAKE_OVER[0]) == w1;
    assert [RemoteNode("a", "A", {})] + [RemoteNode("b", "B", {})] == [RemoteNode("a", "A", {}), RemoteNode("b", "B", {})];
    assert Step(w1, TAKE_OVER[1]) == w2;
    if PossibleRun(w2, rest) {
      RunFirst(w1, TAKE_OVER[1], rest);
      RunFirst(START, TAKE_OVER[0], [TAKE_OVER[1]] + rest);
      assert TAKE_OVER == [TAKE_OVER[0]] + ([TAKE_OVER[1]] + rest);
    }
  }

  /** The world with a session at each node. */
  function TwoSessions(): World {
    Pair([Some(Empty(1, 10, 0)), Some(Empty(2, 20, 1))], RemoteNode("a", "A", {1}), RemoteNode("b", "B", {2}))
  }

  /** The worlds with both nodes and no session, and with the first node's session. */
  function NoSessions(): World { Pair([], RemoteNode("a", "A", {}), RemoteNode("b", "B", {})) }
  function OneSession(): World { Pair([Some(Empty(1, 10, 0))], RemoteNode("a", "A", {1}), RemoteNode("b", "B", {})) }

  lemma {:induction false} FirstSession()
    ensures var w := NoSessions(); var e := TAKE_OVER[2];
      Wired(w) && Possible(w, e) && Step(w, e) == OneSession()
  {
    hide Step, Possible;
    assert {} + {1} == {1} && [] + [Some(Empty(1, 10, 0))] == [Some(Empty(1, 10, 0))];
    EstablishNothing(NoSessions(), "a", 10);
  }

  lemma {:induction false} SecondSession()
    ensures var w := OneSession(); var e := TAKE_OVER[3];
      Wired(w) && Possible(w, e) && Step(w, e) == TwoSessions()
  {
    hide Step, Possible;
    assert {} + {2} == {2};
    assert [Some(Empty(1, 10, 0))] + [Some(Empty(2, 20, 1))] == [Some(Empty(1, 10, 0)), Some(Empty(2, 20, 1))];
    EstablishNothing(OneSession(), "b", 20);
  }

  function Taken(): World { TakeOver(TwoSessions(), 1, "a") }

  lemma {:induction false} IdentityTaken()
    ensures var w := TwoSessions(); var e := TAKE_OVER[4];
      Wired(w) && Possible(w, e) && Step(w, e) == Taken()
  {
    hide Step, Possible, TakeOver;
    var w := TwoSessions();
    assert Live(w, 2) && SessOf(w, 2).owner == 1;
    ModifyNothing(w, 2, "a");
  }

  lemma {:induction false} TakeOverRun()
    ensures PossibleRun(START, TAKE_OVER) && Run(START, TAKE_OVER) == Taken()
  {
    hide Step, Possible, PossibleRun, Run, Wired, Taken, Pair, TwoSessions, OneSession;
    FirstSession();
    SecondSession();
    IdentityTaken();
    RunNothing(Taken());
    RunFirst(TwoSessions(), TAKE_OVER[4], []);
    RunFirst(OneSession(), TAKE_OVER[3], [TAKE_OVER[4]] + []);
    RunFirst(NoSessions(), TAKE_OVER[2], [TAKE_OVER[3]] + ([TAKE_OVER[4]] + []));
    assert TAKE_OVER[2..] == [TAKE_OVER[2]] + ([TAKE_OVER[3]] + ([TAKE_OVER[4]] + []));
    TwoAssociated();
  }

  lemma {:induction false} Detached()
    ensures var t := Taken();
      && Inv(t) && Wired(t) && "a" in t.rnodes && t.rnodes["a"] == 1
      && Live(t, 1) && SessOf(t, 1).owner == 0 && Live(t, 2) && SessOf(t, 2).owner == 1
      && !Covered(t) && 0 < |t.nodes| && t.nodes[0].id == "a" && 1 < |t.nodes| && t.nodes[1].sess == {2}
      && SessOf(t, 2) == Empty(2, 20, 1)
  {
    hide Inv;
    var w := TwoSessions();
    TwoSessionsInv(w);
    var t := Taken();
    TakeOverInv(w, 1, "a");
    InvWired(t);
    assert Live(t, 1) && !OwnerRegistered(t, 1);
  }

  lemma {:induction false} SecondResettable(t: World)
    requires Wired(t) && "a" in t.rnodes && t.rnodes["a"] == 1 && 1 < |t.nodes| && t.nodes[1].sess == {2}
    requires Live(t, 2) && SessOf(t, 2) == Empty(2, 20, 1)
    ensures Possible(t, Associate("a", "A", [2], map[2 := []]))
  {
  }

  /** Without coverage it can.  After that run the first node's session is not covered, and whatever
      order a new association under identity "a" takes, it deletes the second node's session and the
      first one's lives on. */
  lemma {:induction false} DetachedSessionSurvives()
    ensures PossibleRun(START, TAKE_OVER)
    ensures var t := Run(START, TAKE_OVER);
      && Wired(t) && Live(t, 1) && SessOf(t, 1).owner == 0 && 0 < |t.nodes| && t.nodes[0].id == "a" && !Covered(t)
      && Possible(t, Associate("a", "A", [2], map[2 := []]))
      && forall order, plans ::
           var e := Associate("a", "A", order, plans);
           Possible(t, e) ==> Live(Step(t, e), 1) && !Live(Step(t, e), 2)
  {
    hide Run, PossibleRun, Step, Possible, Inv, Wired, Covered, Taken, TAKE_OVER, Live;
    TakeOverRun();
    Detached();
    var t := Taken();
    SecondResettable(t);
    forall order, plans | Possible(t, Associate("a", "A", order, plans))
      ensures Live(Step(t, Associate("a", "A", order, plans)), 1)
      ensures !Live(Step(t, Associate("a", "A", order, plans)), 2)
    {
      ResetsBoth(t, order, plans);
    }
  }

  lemma {:induction false} ResetsBoth(t: World, order: seq<Seid>, plans: Plans)
    requires Inv(t) && Wired(t) && Possible(t, Associate("a", "A", order, plans))
    requires "a" in t.rnodes && t.rnodes["a"] == 1
    requires Live(t, 1) && SessOf(t, 1).owner == 0 && Live(t, 2) && SessOf(t, 2).owner == 1
    ensures Live(Step(t, Associate("a", "A", order, plans)), 1)
    ensures !Live(Step(t, Associate("a", "A", order, plans)), 2)
  {
    hide Step, Possible, Inv, Driver.Lookup;
    AssociationResets(t, Associate("a", "A", order, plans), 1);
    AssociationResets(t, Associate("a", "A", order, plans), 2);
  }

  lemma {:induction false} TwoSessionsInv(w: World)
    requires w == TwoSessions()
    ensures Inv(w) && Covered(w)
  {
    hide Driver.Lookup, Link, Driver.NoRules;
    assert forall k: Seid :: Live(w, k) <==> k == 1 || k == 2;
    assert Allocated(w) && Owned(w);
    forall k: Seid ensures Linked(w, k) {
      EmptyDriver(k);
      if Live(w, k) { FreshAgrees(SessOf(w, k), Driver.Lookup(Driver.INITIAL, k)); }
    }
  }

  lemma {:induction false} EmptyDriver(k: Seid)
    ensures Driver.NoRules(Driver.Lookup(Driver.INITIAL, k))
  {
  }

  // ---- the look-up by remote SEID ----

  predicate Matches(w: World, j: nat, remoteId: nat, addr: string)
    requires j < |w.slots|
  {
    && w.slots[j].Some? && w.slots[j].value.remoteId == remoteId
    && w.slots[j].value.owner < |w.nodes| && w.nodes[w.slots[j].value.owner].addr == addr
  }

  /** No slot of the range is empty or matches. */
  predicate PassedOver(w: World, i: nat, j: nat, remoteId: nat, addr: string)
    requires i <= j <= |w.slots|
  {
    forall k | i <= k < j :: w.slots[k].Some? && !Matches(w, k, remoteId, addr)
  }

  /** The look-up finds the first match exactly if no slot before it is empty, fails exactly if
      no slot is empty or matches, and otherwise dereferences nil. */
  lemma {:induction false} RemoteSessFinds(w: World, remoteId: nat, addr: string, i: nat)
    requires Wired(w) && i <= |w.slots|
    ensures var f := RemoteSess(w, remoteId, addr, i);
      && (f.NotFound? <==> PassedOver(w, i, |w.slots|, remoteId, addr))
      && (f.Crash? <==> exists j :: i <= j < |w.slots| && w.slots[j].None? && PassedOver(w, i, j, remoteId, addr))
      && (f.Found? ==> i < f.seid <= |w.slots| && Matches(w, f.seid - 1, remoteId, addr)
                       && PassedOver(w, i, f.seid - 1, remoteId, addr))
    decreases |w.slots| - i
  {
    if i < |w.slots| {
      if w.slots[i].Some? { MatchesHere(w, remoteId, addr, i); }
      hide Matches;
      if w.slots[i].None? {
        assert PassedOver(w, i, i, remoteId, addr);
      } else if !Matches(w, i, remoteId, addr) {
        RemoteSessFinds(w, remoteId, addr, i + 1);
        forall j | i + 1 <= j <= |w.slots|
          ensures PassedOver(w, i, j, remoteId, addr) <==> PassedOver(w, i + 1, j, remoteId, addr) {}
      }
    }
  }

  lemma {:induction false} MatchesHere(w: World, remoteId: nat, addr: string, i: nat)
    requires Wired(w) && i < |w.slots| && w.slots[i].Some?
    ensures Matches(w, i, remoteId, addr)
        <==> w.slots[i].value.remoteId == remoteId && w.nodes[w.slots[i].value.owner].addr == addr
  {
  }

  // ---- SEIDs in every run ----

  /** In every run, a SEID that is about to be given out, new or recycled, has no rule in the
      driver. */
  lemma {:induction false} SeidStartsAfresh(events: seq<Event>, n: nat, remoteId: nat)
    requires PossibleRun(START, events) && n < |Run(START, events).nodes|
    ensures var w := Run(START, events);
      && Wired(w)
      && var seid := NewSess(w, n, remoteId).1;
         !Live(w, seid) && Driver.NoRules(Driver.Lookup(w.driver, seid))
  {
    hide Run, PossibleRun, Driver.Lookup, Driver.NoRules, Driver.Sound, Link, InRange, Live, NewSess, Owned, Registered;
    StartInv();
    RunInv(START, events);
    var w := Run(START, events);
    InvWired(w);
    NewLive(w, n, remoteId);
    assert Linked(w, NewSess(w, n, remoteId).1);
  }

  /** In every run, deleting a live session reports what each of its URRs had left exactly
      once, with TERMR and the next number of the URR's series, and nothing else. */
  lemma {:induction false} DeletionInEveryRun(events: seq<Event>, seid: Seid, plan: seq<Request>, u: UrrId)
    requires PossibleRun(START, events) && Live(Run(START, events), seid)
    requires ClosePlan(SessOf(Run(START, events), seid), plan)
    ensures var w := Run(START, events);
            var s, t := SessOf(w, seid), Driver.Lookup(w.driver, seid);
      && t.urrs.Keys <= s.urrs.Keys
      && NumberedOf(DeletionReports(s, w.driver, plan), u) == Residual(s, t, u)
  {
    hide Run, PossibleRun, Driver.Lookup, Driver.Sound, ClosePlan, InRange, Live, Owned, Registered,
        DeletionReports, NumberedOf, Residual, Driver.SoundReports, InRange;
    StartInv();
    RunInv(START, events);
    var w := Run(START, events);
    assert Linked(w, seid);
    assert SessOf(w, seid).localId == seid;
    LookupSound(w.driver, seid);
    DeletionReportsResiduals(SessOf(w, seid), w.driver, plan, u);
  }

  // ---- in raw terms ----

  /** A take-over: the node has the new identity and is registered under it; its old identity is not
      registered any more, unless it is the same; nothing else changes. */
  lemma {:induction false} TakeOverLaw(w: World, n: nat, id: string)
    requires n < |w.nodes|
    ensures var w' := TakeOver(w, n, id);
      && w'.nodes[n].id == id && w'.nodes[n].addr == w.nodes[n].addr && w'.nodes[n].sess == w.nodes[n].sess
      && (forall m: nat | m < |w.nodes| && m != n :: w'.nodes[m] == w.nodes[m])
      && (forall x :: x in w'.rnodes <==> x == id || (x in w.rnodes && x != w.nodes[n].id))
      && w'.rnodes[id] == n
      && (forall x | x in w'.rnodes && x != id :: w'.rnodes[x] == w.rnodes[x])
      && w'.slots == w.slots && w'.free == w.free && w'.driver == w.driver && |w'.nodes| == |w.nodes|
  {
  }

  /** A report on the UPF's own initiative drops no record of a URR; the response to a modification drops
      those of removed URRs that it reports. */
  lemma {:induction false} ReportKeepsRecords(w: World, seid: Seid, reports: seq<Usage>, u: UrrId)
    requires Inv(w) && Wired(w) && Live(w, seid)
    ensures var w' := Step(w, Report(seid, reports));
      && Live(w', seid)
      && (u in SessOf(w', seid).urrs <==> u in SessOf(w, seid).urrs)
  {
    hide Inv, Number, OfUrr, Consecutive;
    LinkedInRange(w, seid);
    NumberSeries(SessOf(w, seid), reports, {}, false, u);
  }

  lemma {:induction false} LinkedInRange(w: World, seid: Seid)
    requires Inv(w) && Live(w, seid)
    ensures InRange(SessOf(w, seid))
  {
    hide Link, Driver.Lookup, Driver.Sound;
    assert Linked(w, seid);
  }

  /** A modification: those records go whose URRs are removed and reported in it. */
  lemma {:induction false} ModifyDropsReported(w: World, seid: Seid, ops: seq<Request>, u: UrrId)
    requires Inv(w) && Wired(w) && Live(w, seid) && HandlerOrder(ops)
    ensures var r := DoAll(SessOf(w, seid), w.driver, ops);
            var w' := Step(w, Modify(seid, None, ops));
      && Live(w', seid)
      && (u in SessOf(w', seid).urrs <==>
            u in r.sess.urrs && !(r.sess.urrs[u].removed && OfUrr(r.reports, u) != []))
  {
    hide Inv, Number, OfUrr, Consecutive, DoAll, HandlerOrder;
    LinkedInRange(w, seid);
    DoAllInRange(SessOf(w, seid), w.driver, ops);
    NumberSeries(DoAll(SessOf(w, seid), w.driver, ops).sess, DoAll(SessOf(w, seid), w.driver, ops).reports, {}, true, u);
  }
}
