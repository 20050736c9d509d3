/** The PFCP server as objects: the local node with its slots of session objects, the remote
    nodes and the driver.  Every handler changes them in place and is one step of the state
    machine of module Node, so everything proved of its runs holds of the objects. */
module PfcpServer {
  import opened Rules
  import opened Node
  import S = Session
  import Closing
  import Numbering
  import DriverLoops
  import M = Driver
  import Snapshot
  import UserspaceDriver
  import PfcpSession
  import RequestLaws
  import DriverLaws

  class LocalNode {
    const driver: UserspaceDriver.Driver
    var sess: seq<PfcpSession.Sess?>
    var free: seq<Seid>

    ghost function Slots(): (r: seq<Option<S.Sess>>)
      reads this, sess
      ensures |r| == |sess|
    {
      seq(|sess|, i requires 0 <= i < |sess| reads this, sess => if sess[i] == null then None else Some(sess[i].View()))
    }

    /** A session sits in the slot of its SEID, so no object sits in two. */
    ghost predicate Valid()
      reads this, sess
    {
      forall i | 0 <= i < |sess| && sess[i] != null :: sess[i].localId == i + 1 && sess[i].driver == driver
    }

    constructor (driver: UserspaceDriver.Driver)
      ensures Valid() && this.driver == driver && sess == [] && free == []
    {
      this.driver := driver;
      sess, free := [], [];
    }

    /** A new session in the slot of the last SEID given back, or in a new slot. */
    method NewSess(remoteId: nat, owner: nat) returns (s: PfcpSession.Sess)
      requires Valid() && forall i | 0 <= i < |free| :: 0 < free[i] <= |sess|
      modifies this
      ensures Valid() && fresh(s) && s.driver == driver
      ensures 0 < s.localId <= |sess| && sess[s.localId - 1] == s
      ensures s.View() == S.Sess(s.localId, remoteId, owner, map[], {}, {}, map[], {})
      ensures if old(free) != [] then
                && s.localId == old(free)[|old(free)| - 1] && free == old(free)[..|old(free)| - 1]
                && sess == old(sess)[s.localId - 1 := s]
              else s.localId == |old(sess)| + 1 && free == [] && sess == old(sess) + [s]
    {
      var last := |free| - 1;
      if last >= 0 {
        s := new PfcpSession.Sess(free[last], remoteId, owner, driver);
        free := free[..last];
        sess := sess[s.localId - 1 := s];
      } else {
        s := new PfcpSession.Sess(|sess| + 1, remoteId, owner, driver);
        sess := sess + [s];
      }
    }

    /** Closes the session, empties its slot and gives its SEID back. */
    method DeleteSess(seid: Seid) returns (found: bool, reports: seq<Usage>, ghost plan: seq<Request>)
      requires Valid() && driver.Valid()
      modifies this, sess, driver
      ensures Valid() && driver.Valid()
      ensures found <==> 0 < seid <= |old(sess)| && old(sess)[seid - 1] != null
      ensures sess == if found then old(sess)[seid - 1 := null] else old(sess)
      ensures !found ==> Slots() == old(Slots()) && free == old(free) && reports == []
      ensures !found ==> driver.State() == old(driver.State())
      ensures found ==>
        var s := old(Slots())[seid - 1].value;
        var r := S.DoAll(s, old(driver.State()), plan);
        && Closing.ClosePlan(s, plan)
        && Slots() == old(Slots())[seid - 1 := None] && free == old(free) + [seid]
        && driver.State() == r.driver && reports == r.reports && old(sess)[seid - 1].View() == r.sess
    {
      hide M.Apply, M.Sound, Snapshot.IsIndex, S.DoAll, Closing.ClosePlan;
      reports, plan := [], [];
      if seid == 0 || seid > |sess| { return false, [], []; }
      var s := sess[seid - 1];
      if s == null { return false, [], []; }
      reports, plan := s.Close();
      sess := sess[seid - 1 := null];
      free := free + [seid];
      found := true;
    }
  }

  class Server {
    const driver: UserspaceDriver.Driver
    const lnode: LocalNode
    var nodes: seq<RemoteNode>
    var rnodes: map<string, nat>

    ghost function Model(): World
      reads this, lnode, lnode.sess, driver
    {
      World(lnode.Slots(), lnode.free, nodes, rnodes, driver.State())
    }

    /** The objects represent a world in which both layers agree. */
    ghost predicate Valid()
      reads this, lnode, lnode.sess, driver
    {
      lnode.driver == driver && driver.Valid() && lnode.Valid() && Inv(Model())
    }

    constructor ()
      ensures Valid() && Model() == START && fresh(lnode) && fresh(driver)
    {
      var d := new UserspaceDriver.Driver();
      var l := new LocalNode(d);
      driver, lnode, nodes, rnodes := d, l, [], map[];
      new;
      StartInv();
      assert lnode.Slots() == [];
    }

    // ---- remote nodes ----

    /** RemoteNode.NewSess. */
    method NewSess(n: nat, remoteId: nat) returns (s: PfcpSession.Sess)
      requires Valid() && n < |nodes|
      modifies this`nodes, lnode
      ensures Valid() && fresh(s) && 0 < s.localId <= |lnode.sess| && lnode.sess[s.localId - 1] == s
      ensures forall i | 0 <= i < |lnode.sess| && i != s.localId - 1 ::
        i < |old(lnode.sess)| && lnode.sess[i] == old(lnode.sess)[i]
      ensures Wired(old(Model()))
      ensures (Model(), s.localId) == Node.NewSess(old(Model()), n, remoteId)
    {
      hide M.Sound, Snapshot.IsIndex, Inv;
      ghost var w := Model();
      InvWired(w);
      NewInv(w, n, remoteId);
      s := lnode.NewSess(remoteId, n);
      nodes := nodes[n := nodes[n].(sess := nodes[n].sess + {s.localId})];
      assert lnode.Slots() == Node.NewSess(w, n, remoteId).0.slots;
    }

    /** RemoteNode.DeleteSess. */
    method DeleteSess(n: nat, seid: Seid) returns (reports: seq<Usage>, ghost plan: seq<Request>)
      requires Valid() && n < |nodes|
      modifies this`nodes, lnode, lnode.sess, driver
      ensures Valid()
      ensures OnlyEmptied(lnode.sess, old(lnode.sess))
      ensures seid in old(nodes)[n].sess
          ==> Live(old(Model()), seid) && Closing.ClosePlan(SessOf(old(Model()), seid), plan)
      ensures Model() == Node.DeleteSess(old(Model()), n, seid, plan)
      ensures seid in old(nodes)[n].sess ==>
        var r := S.DoAll(SessOf(old(Model()), seid), old(driver.State()), plan);
        && reports == r.reports && lnode.sess[seid - 1] == null
        && old(lnode.sess)[seid - 1] != null && old(lnode.sess)[seid - 1].View() == r.sess
    {
      hide M.Sound, Snapshot.IsIndex, Inv, Closing.ClosePlan, S.DoAll, M.Apply;
      ghost var w := Model();
      reports, plan := [], [];
      if seid !in nodes[n].sess { return; }
      OwnedLive(w, n, seid);
      nodes := nodes[n := nodes[n].(sess := nodes[n].sess - {seid})];
      var found;
      found, reports, plan := lnode.DeleteSess(seid);
      DeleteInv(w, n, seid, plan);
      assert Model() == Node.DeleteSess(w, n, seid, plan);
    }

    /** RemoteNode.Reset: the node's sessions in the order that the map gives. */
    method Reset(n: nat) returns (ghost order: seq<Seid>, ghost plans: Plans)
      requires Valid() && n < |nodes|
      modifies this`nodes, lnode, lnode.sess, driver
      ensures Valid() && |nodes| == |old(nodes)|
      ensures S.Enumerates(order, old(nodes)[n].sess) && PlansFor(old(Model()), order, plans)
      ensures Model() == Node.Reset(old(Model()), n, order, plans)
    {
      hide M.Sound, Snapshot.IsIndex, Inv, Closing.ClosePlan, Node.DeleteSess, S.Enumerates, Node.Reset, Live;
      ghost var w := Model();
      order, plans := [], map[];
      var left := nodes[n].sess;
      NoReset(w, n, left);
      while left != {}
        invariant Valid() && |nodes| == |w.nodes| && left <= w.nodes[n].sess
        invariant OnlyEmptied(lnode.sess, old(lnode.sess))
        invariant S.Enumerates(order, w.nodes[n].sess - left) && PlansFor(w, order, plans)
        invariant Model() == Node.Reset(w, n, order, plans)
      {
        var seid :| seid in left;
        ghost var before := Model();
        ghost var plan;
        var reports;
        Remaining(w, before, n, order, plans, left, seid);
        EmptiedStill(lnode.sess, old(lnode.sess));
        reports, plan := DeleteSess(n, seid);
        ResetMore(w, n, order, plans, seid, plan);
        EnumerateMore(order, w.nodes[n].sess, left, seid);
        left := left - {seid};
        order, plans := order + [seid], plans[seid := plan];
      }
      AllReset(w, Model(), n, order, plans);
      assert w.nodes[n].sess - {} == w.nodes[n].sess;
      nodes := nodes[n := nodes[n].(sess := {})];
    }

    /** LocalNode.RemoteSess: the first session with this remote SEID and address. */
    method RemoteSess(remoteId: nat, addr: string) returns (r: Found)
      requires Valid()
      ensures Wired(Model()) && r == Node.RemoteSess(Model(), remoteId, addr, 0)
      ensures r.Found? ==> Live(Model(), r.seid)
    {
      hide M.Sound, Snapshot.IsIndex, Inv;
      ghost var w := Model();
      InvWired(w);
      for i := 0 to |lnode.sess|
        invariant Node.RemoteSess(w, remoteId, addr, 0) == Node.RemoteSess(w, remoteId, addr, i)
      {
        var s := lnode.sess[i];
        if s == null { return Crash; }
        assert w.slots[i] == Some(s.View());
        if s.remoteId == remoteId && nodes[s.owner].addr == addr { return Found(i + 1); }
      }
      return NotFound;
    }

    // ---- handlers: each is one step of the state machine, the choices it makes in `e` ----

    method HandleAssociationSetup(id: string, addr: string) returns (ghost e: Event)
      requires Valid()
      modifies this, lnode, lnode.sess, driver
      ensures Valid() && e.Associate? && e.id == id && e.addr == addr
      ensures IsStep(old(Model()), e, Model())
      ensures |nodes| == |old(nodes)| + 1 && nodes[|old(nodes)|] == RemoteNode(id, addr, {})
      ensures rnodes == old(rnodes)[id := |old(nodes)|]
    {
      hide M.Sound, Snapshot.IsIndex, Inv, Closing.ClosePlan, Node.Reset, S.Enumerates, PlansFor;
      ghost var w := Model();
      InvWired(w);
      ghost var order, plans := [], map[];
      if id in rnodes {
        order, plans := Reset(rnodes[id]);
        rnodes := rnodes - {id};
      }
      e := Associate(id, addr, order, plans);
      nodes := nodes + [RemoteNode(id, addr, {})];
      rnodes := rnodes[id := |nodes| - 1];
      assert Model() == Step(w, e);
      StepInv(w, e);
    }

    /** UpdateNodeID. */
    method UpdateNodeId(n: nat, id: string)
      requires Valid() && n < |nodes|
      modifies this`nodes, this`rnodes
      ensures Valid() && Model() == TakeOver(old(Model()), n, id)
    {
      hide M.Sound, Snapshot.IsIndex, Inv;
      TakeOverInv(Model(), n, id);
      rnodes := rnodes - {nodes[n].id};
      nodes := nodes[n := nodes[n].(id := id)];
      rnodes := rnodes[id := n];
    }

    /** The elements of a request on a live session. */
    method Operate(seid: Seid, ops: seq<Request>) returns (reports: seq<Usage>, crashed: bool,
            ghost actual: seq<Request>)
      requires Valid() && Live(Model(), seid)
      modifies lnode.sess, driver
      ensures crashed <==> StopsAt(SessOf(old(Model()), seid), old(driver.State()), ops)
      ensures !crashed ==>
        && Valid() && Live(Model(), seid) && RequestLaws.SameOps(ops, actual)
        && (Model(), reports) == Node.Operate(old(Model()), seid, actual)
        && Leaves(old(driver.State()), seid, ops, driver.State())
    {
      hide M.Sound, Snapshot.IsIndex, Inv, S.DoAll, M.Apply, RequestLaws.SameOps, Leaves, PfcpSession.CrashesAt;
      ghost var w := Model();
      var s := lnode.sess[seid - 1];
      reports, crashed, actual := s.PerformAll(ops);
      if !crashed {
        OperationsLeave(w, seid, ops, actual);
        OperateInv(w, seid, actual);
        assert lnode.Slots() == w.slots[seid - 1 := Some(s.View())];
      }
    }

    /** Numbering the collected reports of a live session. */
    method Renumber(seid: Seid, reports: seq<Usage>, drop: bool) returns (out: seq<Numbering.Numbered>)
      requires Valid() && Live(Model(), seid)
      modifies lnode.sess
      ensures Valid() && Model() == Node.Renumber(old(Model()), seid, reports, drop)
      ensures out == Numbering.Number(SessOf(old(Model()), seid), reports, {}, drop).1
    {
      hide M.Sound, Snapshot.IsIndex, Inv, Numbering.Number;
      ghost var w := Model();
      var s := lnode.sess[seid - 1];
      out := s.NumberReports(reports, {}, drop);
      RenumberInv(w, seid, reports, drop);
      assert lnode.Slots() == w.slots[seid - 1 := Some(s.View())];
    }

    method HandleEstablishment(id: string, remoteId: nat, ops: seq<Request>)
      returns (seid: Option<Seid>, crashed: bool, ghost e: Event)
      requires Valid()
      modifies this, lnode, lnode.sess, driver
      ensures e.Establish? && e.id == id && e.remoteId == remoteId
      ensures seid.Some? <==> id in old(rnodes)
      ensures crashed <==> seid.Some? && StopsAt(FreshRecord(seid.value, remoteId, old(rnodes)[id]), old(driver.State()), ops)
      ensures (forall i | 0 <= i < |ops| :: !ops[i].UpdateFar?) ==> !crashed
      ensures !crashed ==> Valid() && IsStep(old(Model()), e, Model()) && RequestLaws.SameOps(ops, e.ops)
      ensures !crashed && seid.Some? ==>
        && Live(Model(), seid.value) && !Live(old(Model()), seid.value)
        && SessOf(Model(), seid.value).remoteId == remoteId && SessOf(Model(), seid.value).owner == old(rnodes)[id]
        && LeavesFresh(old(driver.State()), seid.value, ops, driver.State())
      ensures !crashed && seid.None? ==> driver.State() == old(driver.State())
    {
      hide M.Sound, Snapshot.IsIndex, Inv, Node.NewSess, Node.Operate, RequestLaws.SameOps, Leaves, LeavesFresh, StopsAt;
      ghost var w := Model();
      InvWired(w);
      crashed, seid, e := false, None, Establish(id, remoteId, ops);
      SameItself(ops);
      if id !in rnodes { return; }
      var n := rnodes[id];
      NewInv(w, n, remoteId);
      var s := NewSess(n, remoteId);
      seid := Some(s.localId);
      var reports;
      ghost var actual;
      FreshlyMade(w, n, remoteId);
      ghost var w1 := Model();
      NothingStops(FreshRecord(s.localId, remoteId, n), w.driver, ops);
      reports, crashed, actual := Operate(s.localId, ops);
      e := Establish(id, remoteId, actual);
      if !crashed {
        assert Model() == Step(w, e);
        OperatedHolder(w1, s.localId, actual);
        FromNothing(w.driver, s.localId, ops, driver.State());
      }
    }

    /** `ops` are the elements in the order in which the handler works through them. */
    method HandleModification(seid: Seid, newId: Option<string>, ops: seq<Request>)
      returns (out: seq<Numbering.Numbered>, crashed: bool, ghost e: Event)
      requires Valid() && Numbering.HandlerOrder(ops)
      modifies this, lnode, lnode.sess, driver
      ensures e.Modify? && e.seid == seid && e.newId == newId
      ensures crashed <==> Live(old(Model()), seid) && StopsAt(SessOf(old(Model()), seid), old(driver.State()), ops)
      ensures !crashed ==> Valid() && IsStep(old(Model()), e, Model()) && RequestLaws.SameOps(ops, e.ops)
      ensures !crashed && Live(old(Model()), seid) ==> Leaves(old(driver.State()), seid, ops, driver.State())
      ensures !Live(old(Model()), seid) ==> out == [] && Model() == old(Model())
      ensures !crashed && Live(old(Model()), seid) && newId.Some? ==>
        var n := SessOf(old(Model()), seid).owner;
        && n < |nodes| && nodes[n].id == newId.value && newId.value in rnodes && rnodes[newId.value] == n
      ensures !crashed && Live(old(Model()), seid) ==>
        var r := S.DoAll(SessOf(old(Model()), seid), old(driver.State()), e.ops);
        out == Numbering.Number(r.sess, r.reports, {}, true).1
    {
      hide M.Sound, Snapshot.IsIndex, Inv, S.DoAll, Node.Operate, Node.Renumber, Numbering.Number,
        Numbering.HandlerOrder, RequestLaws.SameOps, Leaves, StopsAt;
      ghost var w := Model();
      InvWired(w);
      out, crashed, e := [], false, Modify(seid, newId, ops);
      SameItself(ops);
      if seid == 0 || seid > |lnode.sess| || lnode.sess[seid - 1] == null { return; }
      var n := lnode.sess[seid - 1].owner;
      OwnerInRange(w, seid);
      if newId.Some? { UpdateNodeId(n, newId.value); }
      ghost var w1 := Model();
      assert Live(w1, seid) && SessOf(w1, seid) == SessOf(w, seid) && w1.driver == w.driver;
      var reports;
      ghost var actual;
      reports, crashed, actual := Operate(seid, ops);
      e := Modify(seid, newId, actual);
      if crashed { return; }
      OperatedSess(w1, seid, actual);
      out := Renumber(seid, reports, true);
      SameOrder(ops, actual);
      assert Model() == Step(w, e);
    }

    method HandleDeletion(seid: Seid) returns (out: seq<Numbering.Numbered>, ghost e: Event)
      requires Valid()
      modifies this, lnode, lnode.sess, driver
      ensures Valid() && e.Delete? && e.seid == seid && IsStep(old(Model()), e, Model())
      ensures Live(old(Model()), seid)
          ==> out == Numbering.DeletionReports(SessOf(old(Model()), seid), old(driver.State()), e.plan)
    {
      hide M.Sound, Snapshot.IsIndex, Inv, Closing.ClosePlan, Node.DeleteSess, Numbering.Number, S.DoAll;
      ghost var w := Model();
      InvWired(w);
      out, e := [], Delete(seid, []);
      if seid == 0 || seid > |lnode.sess| || lnode.sess[seid - 1] == null { return; }
      var s := lnode.sess[seid - 1];
      var n := s.owner;
      OwnerInRange(w, seid);
      var reports;
      ghost var plan;
      reports, plan := DeleteSess(n, seid);
      e := Delete(seid, plan);
      assert Model() == Step(w, e);
      StepInv(w, e);
      assert forall i | 0 <= i < |lnode.sess| && lnode.sess[i] != null :: lnode.sess[i] != s;
      out := s.NumberReports(reports, {TERMR}, true);
      assert lnode.Slots() == Step(w, e).slots;
    }

    /** The response says that the peer does not know the session: it is deleted here, unless the
        look-up dereferences an empty slot first. */
    method HandlePeerForgot(remoteId: nat, addr: string) returns (crashed: bool, ghost e: Event)
      requires Valid()
      modifies this, lnode, lnode.sess, driver
      ensures e.PeerForgot? && e.remoteId == remoteId && e.addr == addr
      ensures Valid() && IsStep(old(Model()), e, Model())
      ensures crashed <==> Node.RemoteSess(old(Model()), remoteId, addr, 0).Crash?
    {
      hide M.Sound, Snapshot.IsIndex, Inv, Closing.ClosePlan, Node.DeleteSess, S.DoAll;
      ghost var w := Model();
      InvWired(w);
      e := PeerForgot(remoteId, addr, []);
      var found := RemoteSess(remoteId, addr);
      if !found.Found? { return found.Crash?, e; }
      var n := lnode.sess[found.seid - 1].owner;
      OwnerInRange(w, found.seid);
      var reports;
      ghost var plan;
      reports, plan := DeleteSess(n, found.seid);
      e := PeerForgot(remoteId, addr, plan);
      assert Model() == Step(w, e);
      return false, e;
    }

    /** The periodic loop of the driver under the server: a data event of the state machine.  The
        reports go to ServeReport, one message a session. */
    method Tick(now: Time) returns (out: map<Seid, seq<Usage>>)
      requires Valid()
      modifies driver
      ensures Valid() && IsStep(old(Model()), Data(M.Ticked(now)), Model())
      ensures forall k | k in out :: Live(Model(), k) && k in old(driver.sessions)
      ensures forall k | k in out :: exists walk :: DriverLoops.PeriodicReports(old(driver.sessions)[k], now, walk, out[k])
    {
      hide M.Sound, Snapshot.IsIndex, Inv, M.Step, DriverLoops.PeriodicReports;
      ghost var w := Model();
      InvWired(w);
      DataInv(w, M.Ticked(now));
      out := driver.EmitPeriodicReports(now);
      forall k | k in out ensures Live(w, k) {
        var u :| M.Due(w.driver.sessions[k], u, now);
        HeldLive(w, k, u);
      }
    }

    /** ServeReport: reports on the UPF's own initiative.  `resolves` says whether the peer's address
        can be resolved.  Buffered packets are pushed and data notifications sent as they come; usage
        reports are gathered and numbered at the end, which a notification without NOCP cuts off. */
    method ServeReport(seid: Seid, items: seq<Item>, resolves: bool)
      returns (pushed: seq<(PdrId, Payload)>, notified: seq<PdrId>, out: seq<Numbering.Numbered>, ghost e: Event)
      requires Valid()
      modifies lnode.sess
      ensures var n := if Live(old(Model()), seid) && resolves then Served(items) else 0;
        && pushed == Pushes(items[..n]) && notified == Notices(items[..n])
        && e == Report(seid, if n == |items| && !CutOff(items) then Usages(items) else [])
      ensures Valid() && IsStep(old(Model()), e, Model())
      ensures out == if Live(old(Model()), seid)
                     then Numbering.Number(SessOf(old(Model()), seid), e.reports, {}, false).1 else []
    {
      hide M.Sound, Snapshot.IsIndex, Inv, Node.Renumber, Numbering.Number, Pushes, Notices, Usages, Served, CutOff;
      ghost var w := Model();
      InvWired(w);
      pushed, notified, out, e := [], [], [], Report(seid, []);
      NothingReported(w, seid);
      NoItems();
      if seid == 0 || seid > |lnode.sess| || lnode.sess[seid - 1] == null || !resolves {
        assert items[..0] == [];
        return;
      }
      var usages;
      pushed, notified, usages := SortItems(items);
      e := Report(seid, usages);
      if usages != [] { out := Renumber(seid, usages, false); }
    }
  }

  /** The loop over the items. */
  method SortItems(items: seq<Item>) returns (pushed: seq<(PdrId, Payload)>, notified: seq<PdrId>, usages: seq<Usage>)
    ensures pushed == Pushes(items[..Served(items)]) && notified == Notices(items[..Served(items)])
    ensures usages == if Served(items) == |items| && !CutOff(items) then Usages(items) else []
  {
    pushed, notified, usages := [], [], [];
    for i := 0 to |items|
      invariant forall j | 0 <= j < i :: !Silent(items[j])
      invariant pushed == Pushes(items[..i]) && notified == Notices(items[..i]) && usages == Usages(items[..i])
    {
      ServedAt(items, i);
      assert items[..i + 1][..i] == items[..i];
      match items[i] {
        case UsageItem(r) => usages := usages + [r];
        case Downlink(p, action, payload) =>
          if BUFF in action && payload != [] { pushed := pushed + [(p, payload)]; }
          if NOCP !in action {
            assert Silent(items[i]);
            return pushed, notified, [];
          }
          notified := notified + [p];
      }
    }
    ServedAll(items);
    assert items[..|items|] == items;
  }

  // ---- the items of a report message ----

  datatype Item = UsageItem(report: Usage) | Downlink(pdr: PdrId, action: set<ApplyFlag>, payload: Payload)

  /** A data notification that is not to be passed on. */
  predicate Silent(i: Item) { i.Downlink? && NOCP !in i.action }

  predicate CutOff(items: seq<Item>) { exists i :: 0 <= i < |items| && Silent(items[i]) }

  /** How many items are looked at: up to and with the first silent one. */
  function Served(items: seq<Item>): (n: nat)
    ensures n <= |items|
  {
    if items == [] then 0 else if Silent(items[0]) then 1 else 1 + Served(items[1..])
  }

  function Pushes(items: seq<Item>): seq<(PdrId, Payload)> {
    if items == [] then []
    else
      var last := items[|items| - 1];
      Pushes(items[..|items| - 1]) +
        if last.Downlink? && BUFF in last.action && last.payload != [] then [(last.pdr, last.payload)] else []
  }

  function Notices(items: seq<Item>): seq<PdrId> {
    if items == [] then []
    else
      var last := items[|items| - 1];
      Notices(items[..|items| - 1]) + if last.Downlink? && !Silent(last) then [last.pdr] else []
  }

  function Usages(items: seq<Item>): seq<Usage> {
    if items == [] then []
    else
      var last := items[|items| - 1];
      Usages(items[..|items| - 1]) + if last.UsageItem? then [last.report] else []
  }

  lemma {:induction false} NoItems()
    ensures Pushes([]) == [] && Notices([]) == [] && Usages([]) == []
    ensures Served([]) == 0 && !CutOff([])
  {
  }

  lemma {:induction false} ServedAt(items: seq<Item>, i: nat)
    requires i < |items| && forall j | 0 <= j < i :: !Silent(items[j])
    ensures Silent(items[i]) ==> Served(items) == i + 1
    decreases i
  {
    if i > 0 { ServedAt(items[1..], i - 1); }
  }

  lemma {:induction false} ServedAll(items: seq<Item>)
    requires forall j | 0 <= j < |items| :: !Silent(items[j])
    ensures Served(items) == |items|
  {
    if items != [] { ServedAll(items[1..]); }
  }

  /** Reporting nothing is a step that changes nothing. */
  lemma {:induction false} NothingReported(w: World, seid: Seid)
    requires Wired(w)
    ensures IsStep(w, Report(seid, []), w)
    ensures Live(w, seid) ==> Numbering.Number(SessOf(w, seid), [], {}, false).1 == []
  {
    if Live(w, seid) { assert w.slots[seid - 1 := Some(SessOf(w, seid))] == w.slots; }
  }

  // ---- what a request leaves in the driver ----

  /** Every rule of the session ends as the operations have it, one after the other, and the rules of all
      other sessions are as before. */
  ghost predicate Leaves(d: M.State, seid: Seid, ops: seq<Request>, d': M.State) {
    && (forall n: RequestLaws.Name :: RequestLaws.Ends(RequestLaws.RuleIn(d, seid, n), ops, n, RequestLaws.RuleIn(d', seid, n)))
    && forall k: Seid, n: RequestLaws.Name | k != seid :: RequestLaws.RuleIn(d', k, n) == RequestLaws.RuleIn(d, k, n)
  }

  /** The same for a new session: it starts without rules, and each rule that a well-formed creation is
      the last to name is held with the value it carries. */
  ghost predicate LeavesFresh(d: M.State, seid: Seid, ops: seq<Request>, d': M.State) {
    && Leaves(d, seid, ops, d')
    && (forall n: RequestLaws.Name :: RequestLaws.RuleIn(d, seid, n).None?)
    && forall i | 0 <= i < |ops| && M.Creates(ops[i]) && DriverLaws.WellFormed(ops[i]) && RequestLaws.LastToName(ops, i) ::
         RequestLaws.RuleIn(d', seid, RequestLaws.NameOf(ops[i])) == RequestLaws.Carried(ops[i])
  }

  /** Some operation stops the process. */
  ghost predicate StopsAt(s: S.Sess, d: M.State, ops: seq<Request>) {
    exists k :: 0 <= k < |ops| && PfcpSession.CrashesAt(s, d, ops, k)
  }

  function FreshRecord(seid: Seid, remoteId: nat, owner: nat): S.Sess {
    S.Sess(seid, remoteId, owner, map[], {}, {}, map[], {})
  }

  lemma {:induction false} SameItself(ops: seq<Request>)
    ensures RequestLaws.SameOps(ops, ops)
  {
  }

  lemma {:induction false} OperatedHolder(w: World, seid: Seid, ops: seq<Request>)
    requires Inv(w) && Live(w, seid)
    ensures var w' := Node.Operate(w, seid, ops).0;
      Live(w', seid) && SessOf(w', seid).remoteId == SessOf(w, seid).remoteId && SessOf(w', seid).owner == SessOf(w, seid).owner
  {
    hide S.DoAll, Owned, Registered, M.Sound, M.Lookup, S.Link, Numbering.InRange;
    assert Linked(w, seid);
    S.DoAllKeeps(SessOf(w, seid), w.driver, ops, seid);
  }

  lemma {:induction false} NothingStops(s: S.Sess, d: M.State, ops: seq<Request>)
    ensures (forall i | 0 <= i < |ops| :: !ops[i].UpdateFar?) ==> !StopsAt(s, d, ops)
  {
    hide S.DoAll, S.Recorded;
  }

  lemma {:induction false} FreshlyMade(w: World, n: nat, remoteId: nat)
    requires Inv(w) && Wired(w) && n < |w.nodes|
    ensures var (w', seid) := Node.NewSess(w, n, remoteId);
      && Live(w', seid) && SessOf(w', seid) == FreshRecord(seid, remoteId, n) && w'.driver == w.driver
      && forall m: RequestLaws.Name :: RequestLaws.RuleIn(w.driver, seid, m).None?
  {
    hide Owned, Registered, M.Sound, S.Link, Numbering.InRange, M.Lookup;
    NewLive(w, n, remoteId);
    var (_, seid) := Node.NewSess(w, n, remoteId);
    assert Linked(w, seid);
    NoRuleIn(w.driver, seid);
  }

  lemma {:induction false} NoRuleIn(d: M.State, seid: Seid)
    requires M.NoRules(M.Lookup(d, seid))
    ensures forall m: RequestLaws.Name :: RequestLaws.RuleIn(d, seid, m).None?
  {
    DriverLaws.InLookup(d, seid);
    forall m: RequestLaws.Name ensures RequestLaws.RuleIn(d, seid, m).None? {
      match m
      case PdrName(id) => assert DriverLaws.PdrIn(d, seid, id).None?;
      case FarName(id) => assert DriverLaws.FarIn(d, seid, id).None?;
      case QerName(id) => assert DriverLaws.QerIn(d, seid, id).None?;
      case UrrName(id) => assert DriverLaws.UrrIn(d, seid, id).None?;
      case BarName(id) => assert DriverLaws.BarIn(d, seid, id).None?;
    }
  }

  lemma {:induction false} OperationsLeave(w: World, seid: Seid, ops: seq<Request>, actual: seq<Request>)
    requires Inv(w) && Live(w, seid) && RequestLaws.SameOps(ops, actual)
    ensures Leaves(w.driver, seid, ops, S.DoAll(SessOf(w, seid), w.driver, actual).driver)
  {
    hide Owned, Registered, M.Sound, S.Link, Numbering.InRange, M.Lookup, S.DoAll, RequestLaws.SameOps,
      RequestLaws.Ends, RequestLaws.RuleIn;
    assert Linked(w, seid);
    var s := SessOf(w, seid);
    var d' := S.DoAll(s, w.driver, actual).driver;
    SameBack(ops, actual);
    forall n: RequestLaws.Name
      ensures RequestLaws.Ends(RequestLaws.RuleIn(w.driver, seid, n), ops, n, RequestLaws.RuleIn(d', seid, n))
    {
      RequestLaws.DoAllEnds(s, w.driver, actual, n);
      RequestLaws.SameEnds(RequestLaws.RuleIn(w.driver, seid, n), actual, ops, n, RequestLaws.RuleIn(d', seid, n));
    }
    forall k: Seid, n: RequestLaws.Name | k != seid
      ensures RequestLaws.RuleIn(d', k, n) == RequestLaws.RuleIn(w.driver, k, n)
    {
      S.DoAllKeeps(s, w.driver, actual, k);
      RequestLaws.OtherRules(w.driver, d', k);
    }
  }

  lemma {:induction false} SameBack(a: seq<Request>, b: seq<Request>)
    requires RequestLaws.SameOps(a, b)
    ensures RequestLaws.SameOps(b, a)
  {
    forall i | 0 <= i < |a| ensures RequestLaws.SameOp(b[i], a[i]) { assert RequestLaws.SameOp(a[i], b[i]); }
  }

  lemma {:induction false} FromNothing(d: M.State, seid: Seid, ops: seq<Request>, d': M.State)
    requires Leaves(d, seid, ops, d') && forall n: RequestLaws.Name :: RequestLaws.RuleIn(d, seid, n).None?
    ensures LeavesFresh(d, seid, ops, d')
  {
    hide RequestLaws.Ends, RequestLaws.RuleIn, RequestLaws.LastToName;
    forall i | 0 <= i < |ops| && M.Creates(ops[i]) && DriverLaws.WellFormed(ops[i]) && RequestLaws.LastToName(ops, i)
      ensures RequestLaws.RuleIn(d', seid, RequestLaws.NameOf(ops[i])) == RequestLaws.Carried(ops[i])
    {
      var n := RequestLaws.NameOf(ops[i]);
      RequestLaws.LastWord(RequestLaws.RuleIn(d, seid, n), ops, i, RequestLaws.RuleIn(d', seid, n));
    }
  }

  /** A possible step of the state machine. */
  ghost predicate IsStep(w: World, e: Event, w': World) {
    Wired(w) && Possible(w, e) && w' == Step(w, e)
  }

  lemma {:induction false} OperatedSess(w: World, seid: Seid, ops: seq<Request>)
    requires Live(w, seid)
    ensures var r := S.DoAll(SessOf(w, seid), w.driver, ops);
            var (w', reports) := Node.Operate(w, seid, ops);
      Live(w', seid) && SessOf(w', seid) == r.sess && reports == r.reports
  {
    hide S.DoAll;
  }

  /** The order in which URRs are let go is no part of the handler's order. */
  lemma {:induction false} SameOrder(ops: seq<Request>, actual: seq<Request>)
    requires Numbering.HandlerOrder(ops) && RequestLaws.SameOps(ops, actual)
    ensures Numbering.HandlerOrder(actual)
  {
    forall i | 0 <= i < |ops| ensures Numbering.Stage(actual[i]) == Numbering.Stage(ops[i]) {
      assert RequestLaws.SameOp(ops[i], actual[i]);
    }
    hide Numbering.Stage, RequestLaws.SameOp;
  }

  /** Slots may have been emptied and nothing else. */
  ghost predicate OnlyEmptied(now: seq<PfcpSession.Sess?>, was: seq<PfcpSession.Sess?>) {
    |now| == |was| && forall i | 0 <= i < |now| :: now[i] == null || now[i] == was[i]
  }

  lemma {:induction false} EmptiedStill(now: seq<PfcpSession.Sess?>, was: seq<PfcpSession.Sess?>)
    requires OnlyEmptied(now, was)
    ensures forall o | o in now && o != null :: o in was
  {
  }

  lemma {:induction false} NoReset(w: World, n: nat, left: set<Seid>)
    requires n < |w.nodes| && left == w.nodes[n].sess
    ensures S.Enumerates([], w.nodes[n].sess - left) && PlansFor(w, [], map[]) && Node.Reset(w, n, [], map[]) == w
  {
  }

  lemma {:induction false} EnumerateMore(order: seq<Seid>, all: set<Seid>, left: set<Seid>, seid: Seid)
    requires S.Enumerates(order, all - left) && seid in left && left <= all
    ensures S.Enumerates(order + [seid], all - (left - {seid})) && seid !in order
  {
  }

  /** In the middle of a reset, a session still to come is as it was. */
  lemma {:induction false} Remaining(w: World, now: World, n: nat, order: seq<Seid>, plans: Plans, left: set<Seid>,
          seid: Seid)
    requires Inv(w) && n < |w.nodes| && seid in left && left <= w.nodes[n].sess
    requires S.Enumerates(order, w.nodes[n].sess - left) && PlansFor(w, order, plans)
    requires now == Node.Reset(w, n, order, plans)
    ensures seid !in order && seid in now.nodes[n].sess
    ensures Live(w, seid) && Live(now, seid) && SessOf(now, seid) == SessOf(w, seid)
  {
    hide Inv, PlansFor, Node.Reset, M.Lookup;
    forall i | 0 <= i < |order| ensures order[i] in w.nodes[n].sess { assert order[i] in order; }
    ResetInv(w, n, order, plans);
    OwnedLive(w, n, seid);
    assert Untouched(w, now, seid);
  }

  lemma {:induction false} AllReset(w: World, now: World, n: nat, order: seq<Seid>, plans: Plans)
    requires Inv(w) && n < |w.nodes|
    requires S.Enumerates(order, w.nodes[n].sess - {}) && PlansFor(w, order, plans)
    requires now == Node.Reset(w, n, order, plans)
    ensures now.nodes[n].sess == {} && now.nodes[n := now.nodes[n].(sess := {})] == now.nodes
  {
    hide Inv, PlansFor, Node.Reset, Untouched;
    forall i | 0 <= i < |order| ensures order[i] in w.nodes[n].sess { assert order[i] in order; }
    ResetInv(w, n, order, plans);
    assert now.nodes[n].sess == {};
  }

  /** One more session of a reset. */
  lemma {:induction false} ResetMore(w: World, n: nat, order: seq<Seid>, plans: Plans, seid: Seid, plan: seq<Request>)
    requires n < |w.nodes| && seid !in order && PlansFor(w, order, plans)
    requires Live(w, seid) ==> Closing.ClosePlan(SessOf(w, seid), plan)
    ensures PlansFor(w, order + [seid], plans[seid := plan])
    ensures Node.Reset(w, n, order + [seid], plans[seid := plan])
         == Node.DeleteSess(Node.Reset(w, n, order, plans), n, seid, plan)
  {
    hide Node.DeleteSess, Closing.ClosePlan;
    assert (order + [seid])[..|order|] == order;
    SamePlans(w, n, order, plans, plans[seid := plan]);
  }

  lemma {:induction false} SamePlans(w: World, n: nat, order: seq<Seid>, plans: Plans, more: Plans)
    requires n < |w.nodes|
    requires forall i | 0 <= i < |order| :: order[i] in plans && order[i] in more && more[order[i]] == plans[order[i]]
    ensures Node.Reset(w, n, order, plans) == Node.Reset(w, n, order, more)
    decreases |order|
  {
    hide Node.DeleteSess;
    if order != [] { SamePlans(w, n, order[..|order| - 1], plans, more); }
  }

  // ---- item by item ----

  lemma {:induction false} PushesAdd(a: seq<Item>, b: seq<Item>)
    ensures Pushes(a + b) == Pushes(a) + Pushes(b)
    decreases |b|
  {
    if b == [] {
      assert a + b == a;
    } else {
      assert (a + b)[..|a + b| - 1] == a + b[..|b| - 1];
      PushesAdd(a, b[..|b| - 1]);
    }
  }

  lemma {:induction false} NoticesAdd(a: seq<Item>, b: seq<Item>)
    ensures Notices(a + b) == Notices(a) + Notices(b)
    decreases |b|
  {
    if b == [] {
      assert a + b == a;
    } else {
      assert (a + b)[..|a + b| - 1] == a + b[..|b| - 1];
      NoticesAdd(a, b[..|b| - 1]);
    }
  }

  lemma {:induction false} UsagesAdd(a: seq<Item>, b: seq<Item>)
    ensures Usages(a + b) == Usages(a) + Usages(b)
    decreases |b|
  {
    if b == [] {
      assert a + b == a;
    } else {
      assert (a + b)[..|a + b| - 1] == a + b[..|b| - 1];
      UsagesAdd(a, b[..|b| - 1]);
    }
  }

  /** What one item of a report message does: a data notification pushes its packet if its action buffers
      and there is one, and is passed on if its action has NOCP; a usage report is gathered. */
  lemma {:induction false} OneItem(i: Item)
    ensures match i
      case UsageItem(r) => Pushes([i]) == [] && Notices([i]) == [] && Usages([i]) == [r]
      case Downlink(p, action, payload) =>
        && Pushes([i]) == (if BUFF in action && |payload| > 0 then [(p, payload)] else [])
        && Notices([i]) == (if NOCP in action then [p] else []) && Usages([i]) == []
  {
    assert [i][..0] == [];
  }

  /** Items are looked at up to and with the first notification without NOCP. */
  lemma {:induction false} ServedUpTo(items: seq<Item>)
    ensures var n := Served(items);
      && (forall i | 0 <= i < n - 1 :: items[i].Downlink? ==> NOCP in items[i].action)
      && (n < |items| ==> n > 0 && items[n - 1].Downlink? && NOCP !in items[n - 1].action)
      && (CutOff(items) <==> n > 0 && items[n - 1].Downlink? && NOCP !in items[n - 1].action)
  {
    if items != [] && !Silent(items[0]) {
      ServedUpTo(items[1..]);
      if CutOff(items) {
        var i :| 0 <= i < |items| && Silent(items[i]);
        assert items[1..][i - 1] == items[i];
      }
      if CutOff(items[1..]) {
        var i :| 0 <= i < |items[1..]| && Silent(items[1..][i]);
        assert items[i + 1] == items[1..][i];
      }
    }
  }
}
