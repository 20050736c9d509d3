/** A PFCP session as an object over the userspace driver object: its methods change the record
    and the driver in place, and do together what one operation of module Session does. */
module PfcpSession {
  import opened Rules
  import S = Session
  import Closing
  import Numbering
  import M = Driver
  import DriverLoops
  import RequestLaws
  import UserspaceDriver
  import Snapshot

  // ---- the order in which a PDR lets go of URRs ----

  lemma {:induction false} ReferStep(urrs: map<UrrId, S.UrrInfo>, ids: seq<UrrId>, i: nat)
    requires i < |ids|
    ensures var rest := S.Refer(urrs, ids[..i]);
      S.Refer(urrs, ids[..i + 1]) ==
        if ids[i] in rest then rest[ids[i] := rest[ids[i]].(refs := (rest[ids[i]].refs + 1) % S.REF_WRAP)] else rest
  {
    assert ids[..i + 1][..i] == ids[..i];
  }

  /** One more URR released. */
  lemma {:induction false} ReleaseStep(urrs: map<UrrId, S.UrrInfo>, done: set<UrrId>, u: UrrId)
    requires u !in done
    ensures S.Release(urrs, done + {u}) ==
      if u in urrs && urrs[u].refs > 0 then S.Release(urrs, done)[u := urrs[u].(refs := urrs[u].refs - 1)]
      else S.Release(urrs, done)
    ensures u in urrs ==> u in S.Release(urrs, done) && S.Release(urrs, done)[u] == urrs[u]
    ensures S.Release(urrs, done).Keys == urrs.Keys
  {
  }

  lemma {:induction false} ReleaseNone(urrs: map<UrrId, S.UrrInfo>)
    ensures S.Release(urrs, {}) == urrs
  {
  }

  lemma {:induction false} LastReportsStep(urrs: map<UrrId, S.UrrInfo>, d: M.State, seid: Seid, order: seq<UrrId>,
          u: UrrId)
    ensures S.LastReports(urrs, d, seid, order + [u]) == S.LastReports(urrs, d, seid, order) +
      if S.LastReference(urrs, u) then S.Mark(M.Apply(d, seid, QueryUrr(u)).reports, TERMR) else []
  {
    hide M.Apply;
    assert (order + [u])[..|order|] == order;
  }

  method SetTrigger(reports: seq<Usage>, t: Trigger) returns (r: seq<Usage>)
    ensures r == S.Mark(reports, t)
  {
    r := reports;
    for i := 0 to |reports|
      invariant |r| == |reports|
      invariant forall j | 0 <= j < i :: r[j] == reports[j].(triggers := reports[j].triggers + {t})
      invariant forall j | i <= j < |r| :: r[j] == reports[j]
    {
      r := r[i := r[i].(triggers := r[i].triggers + {t})];
    }
  }

  lemma {:induction false} QueryState(d: M.State, seid: Seid, u: UrrId)
    ensures M.Apply(d, seid, QueryUrr(u)).state == d
    ensures M.Apply(d, seid, QueryUrr(u)).error.Some? ==> M.Apply(d, seid, QueryUrr(u)).reports == []
  {
    if M.Refusal(d, seid, QueryUrr(u)).None? {
      assert M.Keys(seid, {}) == {};
      assert d.pending - {} == d.pending;
      assert d.sessions[seid := d.sessions[seid]] == d.sessions;
    }
  }

  /** What is numbered later comes after what is numbered already. */
  function After(out: seq<Numbering.Numbered>, r: (S.Sess, seq<Numbering.Numbered>)): (S.Sess,
          seq<Numbering.Numbered>) {
    (r.0, out + r.1)
  }

  lemma {:induction false} NumberOne(s: S.Sess, reports: seq<Usage>, i: nat, extra: set<Trigger>, drop: bool,
          out: seq<Numbering.Numbered>)
    requires i < |reports|
    ensures var r := reports[i];
      After(out, Numbering.Number(s, reports[i..], extra, drop)) ==
        if r.urr !in s.urrs then After(out, Numbering.Number(s, reports[i + 1..], extra, drop))
        else After(out + [Numbering.Numbered(r.(triggers := r.triggers + extra), s.urrs[r.urr].seqn)],
                   Numbering.Number(Numbering.Used(s, r.urr, drop), reports[i + 1..], extra, drop))
  {
    hide Numbering.Used;
    var r := reports[i];
    assert reports[i..][0] == r && reports[i..][1..] == reports[i + 1..];
    if r.urr in s.urrs {
      var rest := Numbering.Number(Numbering.Used(s, r.urr, drop), reports[i + 1..], extra, drop);
      var x := Numbering.Numbered(r.(triggers := r.triggers + extra), s.urrs[r.urr].seqn);
      assert out + ([x] + rest.1) == out + [x] + rest.1;
    }
  }

  lemma {:induction false} NumberNone(s: S.Sess, reports: seq<Usage>, extra: set<Trigger>, drop: bool,
          out: seq<Numbering.Numbered>)
    ensures After(out, Numbering.Number(s, reports[|reports|..], extra, drop)) == (s, out)
    ensures After([], Numbering.Number(s, reports[0..], extra, drop)) == Numbering.Number(s, reports, extra, drop)
  {
    assert reports[0..] == reports && out + [] == out;
    var r := Numbering.Number(s, reports, extra, drop);
    assert [] + r.1 == r.1;
  }

  lemma {:induction false} UsedIs(s: S.Sess, s': S.Sess, u: UrrId, drop: bool)
    requires u in s.urrs && s' == s.(urrs := s'.urrs)
    requires var next := s.urrs[u := s.urrs[u].(seqn := (s.urrs[u].seqn + 1) % S.SEQN_WRAP)];
      s'.urrs == if drop && s.urrs[u].removed then next - {u} else next
    ensures s' == Numbering.Used(s, u, drop)
  {
    if drop && s.urrs[u].removed { assert s'.urrs == s.urrs - {u}; }
  }

  class Sess {
    const localId: Seid
    const remoteId: nat
    const owner: nat
    const driver: UserspaceDriver.Driver
    var pdrs: map<PdrId, set<UrrId>>
    var fars: set<FarId>
    var qers: set<QerId>
    var urrs: map<UrrId, S.UrrInfo>
    var bars: set<BarId>

    ghost function View(): S.Sess
      reads this
    {
      S.Sess(localId, remoteId, owner, pdrs, fars, qers, urrs, bars)
    }

    constructor (localId: Seid, remoteId: nat, owner: nat, driver: UserspaceDriver.Driver)
      ensures View() == S.Sess(localId, remoteId, owner, map[], {}, {}, map[], {}) && this.driver == driver
    {
      this.localId, this.remoteId, this.owner, this.driver := localId, remoteId, owner, driver;
      pdrs, fars, qers, urrs, bars := map[], {}, {}, map[], {};
    }

    // ---- PDRs ----

    method CreatePdr(id: PdrId, pdr: Pdr, ok: bool) returns (done: bool)
      requires driver.Valid()
      modifies this`pdrs, this`urrs, driver
      ensures driver.Valid() && driver.egress == old(driver.egress)
      ensures S.Do(old(View()), old(driver.State()), Request.CreatePdr(id, pdr, ok))
          == S.Result(View(), driver.State(), [], done)
    {
      hide M.Apply, M.Sound, Snapshot.IsIndex, S.LastReports;
      ghost var op := Request.CreatePdr(id, pdr, ok);
      ghost var was := urrs;
      var related := {};
      for i := 0 to |pdr.urrIds|
        modifies this`urrs
        invariant urrs == S.Refer(was, pdr.urrIds[..i])
        invariant related == S.UrrSet(pdr.urrIds[..i])
      {
        var u := pdr.urrIds[i];
        ReferStep(was, pdr.urrIds, i);
        related := related + {u};
        if u in urrs { urrs := urrs[u := urrs[u].(refs := (urrs[u].refs + 1) % S.REF_WRAP)]; }
      }
      assert pdr.urrIds[..|pdr.urrIds|] == pdr.urrIds;
      pdrs := pdrs[id := related];
      var e := driver.CreatePdr(localId, id, pdr, ok);
      done := e.None?;
    }

    /** diassociateURR. */
    method DissociateUrr(u: UrrId) returns (reports: seq<Usage>)
      requires driver.Valid()
      modifies this`urrs
      ensures urrs == if u in old(urrs) && old(urrs)[u].refs > 0
                      then old(urrs)[u := old(urrs)[u].(refs := old(urrs)[u].refs - 1)] else old(urrs)
      ensures reports == if S.LastReference(old(urrs), u)
                         then S.Mark(M.Apply(driver.State(), localId, Request.QueryUrr(u)).reports, TERMR) else []
    {
      hide M.Apply, M.Sound, Snapshot.IsIndex;
      reports := [];
      if u !in urrs { return; }
      if urrs[u].refs > 0 {
        urrs := urrs[u := urrs[u].(refs := urrs[u].refs - 1)];
        if urrs[u].refs == 0 {
          var e, rs := driver.QueryUrr(localId, u);
          QueryState(driver.State(), localId, u);
          if e.None? { reports := SetTrigger(rs, TERMR); }
        }
      }
    }

    /** The loop over the URRs that a PDR lets go of, in the order that the map gives. */
    method LetGo(dropped: set<UrrId>) returns (reports: seq<Usage>, ghost order: seq<UrrId>)
      requires driver.Valid()
      modifies this`urrs
      ensures urrs == S.Release(old(urrs), dropped)
      ensures S.Enumerates(order, dropped)
      ensures reports == S.LastReports(old(urrs), driver.State(), localId, order)
    {
      hide M.Apply, M.Sound, Snapshot.IsIndex, S.Release;
      ghost var was := urrs;
      reports, order := [], [];
      ReleaseNone(was);
      var left := dropped;
      assert dropped - left == {};
      while left != {}
        invariant left <= dropped && driver.Valid()
        invariant urrs == S.Release(was, dropped - left)
        invariant S.Enumerates(order, dropped - left)
        invariant reports == S.LastReports(was, driver.State(), localId, order)
      {
        var u :| u in left;
        ReleaseStep(was, dropped - left, u);
        LastReportsStep(was, driver.State(), localId, order, u);
        assert dropped - (left - {u}) == dropped - left + {u};
        var more := DissociateUrr(u);
        left := left - {u};
        reports, order := reports + more, order + [u];
      }
      assert dropped - {} == dropped;
    }

    method UpdatePdr(id: PdrId, pdr: Pdr, ok: bool) returns (done: bool, reports: seq<Usage>, ghost hint: seq<UrrId>)
      requires driver.Valid()
      modifies this`pdrs, this`urrs, driver
      ensures driver.Valid() && driver.egress == old(driver.egress)
      ensures S.Do(old(View()), old(driver.State()), Request.UpdatePdr(id, pdr, ok, hint))
          == S.Result(View(), driver.State(), reports, done)
    {
      hide M.Apply, M.Sound, Snapshot.IsIndex, S.LastReports, S.Release, M.Decodes, M.Names;
      if id !in pdrs { return false, [], []; }
      var related := set u | u in pdr.urrIds;
      ghost var was, d := View(), driver.State();
      var e := driver.UpdatePdr(localId, id, pdr, ok, []);
      HintIgnored(d, localId, id, pdr, ok);
      if e.Some? { return false, [], []; }
      var rs;
      rs, hint := LetGo(pdrs[id] - related);
      pdrs := pdrs[id := related];
      return true, rs, hint;
    }

    method RemovePdr(id: PdrId) returns (done: bool, reports: seq<Usage>, ghost hint: seq<UrrId>)
      requires driver.Valid()
      modifies this`pdrs, this`urrs, driver
      ensures driver.Valid() && driver.egress == old(driver.egress)
      ensures pdrs.Keys == old(pdrs).Keys - (if done then {id} else {}) && urrs.Keys == old(urrs).Keys
      ensures S.Do(old(View()), old(driver.State()), Request.RemovePdr(id, hint))
          == S.Result(View(), driver.State(), reports, done)
    {
      hide M.Apply, M.Sound, Snapshot.IsIndex, S.LastReports, S.Release, M.Names;
      if id !in pdrs { return false, [], []; }
      ghost var d := driver.State();
      var e := driver.RemovePdr(localId, id, []);
      RemoveHintIgnored(d, localId, id);
      if e.Some? { return false, [], []; }
      ReleaseKeys(urrs, pdrs[id]);
      var rs;
      rs, hint := LetGo(pdrs[id]);
      pdrs := pdrs - {id};
      return true, rs, hint;
    }

    // ---- the other rules ----

    method CreateFar(id: FarId, far: Far, ok: bool) returns (done: bool)
      requires driver.Valid()
      modifies this`fars, driver
      ensures driver.Valid() && driver.egress == old(driver.egress)
      ensures S.Do(old(View()), old(driver.State()), Request.CreateFar(id, far, ok))
          == S.Result(View(), driver.State(), [], done)
    {
      hide M.Apply, M.Sound, Snapshot.IsIndex, S.LastReports;
      fars := fars + {id};
      var e := driver.CreateFar(localId, id, far, ok);
      done := e.None?;
    }

    method CreateQer(id: QerId, qer: Qer, ok: bool) returns (done: bool)
      requires driver.Valid()
      modifies this`qers, driver
      ensures driver.Valid() && driver.egress == old(driver.egress)
      ensures S.Do(old(View()), old(driver.State()), Request.CreateQer(id, qer, ok))
          == S.Result(View(), driver.State(), [], done)
    {
      hide M.Apply, M.Sound, Snapshot.IsIndex, S.LastReports;
      qers := qers + {id};
      var e := driver.CreateQer(localId, id, qer, ok);
      done := e.None?;
    }

    method CreateUrr(id: UrrId, urr: Urr, ok: bool, now: Time) returns (done: bool)
      requires driver.Valid()
      modifies this`urrs, driver
      ensures driver.Valid() && driver.egress == old(driver.egress)
      ensures S.Do(old(View()), old(driver.State()), Request.CreateUrr(id, urr, ok, now))
          == S.Result(View(), driver.State(), [], done)
    {
      hide M.Apply, M.Sound, Snapshot.IsIndex, S.LastReports;
      urrs := urrs[id := S.UrrInfo(false, 0, 0)];
      var e := driver.CreateUrr(localId, id, urr, ok, now);
      done := e.None?;
    }

    method CreateBar(id: BarId, bar: Bar, ok: bool) returns (done: bool)
      requires driver.Valid()
      modifies this`bars, driver
      ensures driver.Valid() && driver.egress == old(driver.egress)
      ensures S.Do(old(View()), old(driver.State()), Request.CreateBar(id, bar, ok))
          == S.Result(View(), driver.State(), [], done)
    {
      hide M.Apply, M.Sound, Snapshot.IsIndex, S.LastReports;
      bars := bars + {id};
      var e := driver.CreateBar(localId, id, bar, ok);
      done := e.None?;
    }

    /** UpdateFAR; `crashed` as in the driver. */
    method UpdateFar(id: FarId, far: Far, ok: bool) returns (done: bool, crashed: bool)
      requires driver.Valid()
      modifies driver
      ensures crashed <==> CrashesHere(View(), old(driver.State()), Request.UpdateFar(id, far, ok))
      ensures !crashed ==> driver.Valid()
      ensures !crashed ==>
        S.Do(View(), old(driver.State()), Request.UpdateFar(id, far, ok)) == S.Result(View(), driver.State(), [], done)
    {
      hide M.Apply, M.Sound, Snapshot.IsIndex, S.LastReports, DriverLoops.DidUpdateFar;
      if id !in fars { return false, false; }
      ghost var d := driver.State();
      var e;
      ghost var walk;
      e, crashed, walk := driver.UpdateFar(localId, id, far, ok);
      done := e.None?;
      UpdateFarReply(d, localId, Request.UpdateFar(id, far, ok));
    }

    method UpdateQer(id: QerId, qer: Qer, ok: bool) returns (done: bool)
      requires driver.Valid()
      modifies driver
      ensures driver.Valid() && driver.egress == old(driver.egress)
      ensures S.Do(View(), old(driver.State()), Request.UpdateQer(id, qer, ok))
          == S.Result(View(), driver.State(), [], done)
    {
      hide M.Apply, M.Sound, Snapshot.IsIndex, S.LastReports;
      if id !in qers { return false; }
      var e := driver.UpdateQer(localId, id, qer, ok);
      done := e.None?;
    }

    method UpdateUrr(id: UrrId, urr: Urr, ok: bool, now: Time) returns (done: bool)
      requires driver.Valid()
      modifies driver
      ensures driver.Valid() && driver.egress == old(driver.egress)
      ensures S.Do(View(), old(driver.State()), Request.UpdateUrr(id, urr, ok, now))
          == S.Result(View(), driver.State(), [], done)
    {
      hide M.Apply, M.Sound, Snapshot.IsIndex, S.LastReports;
      if id !in urrs { return false; }
      var e := driver.UpdateUrr(localId, id, urr, ok, now);
      done := e.None?;
    }

    method UpdateBar(id: BarId, bar: Bar, ok: bool) returns (done: bool)
      requires driver.Valid()
      modifies driver
      ensures driver.Valid() && driver.egress == old(driver.egress)
      ensures S.Do(View(), old(driver.State()), Request.UpdateBar(id, bar, ok))
          == S.Result(View(), driver.State(), [], done)
    {
      hide M.Apply, M.Sound, Snapshot.IsIndex, S.LastReports;
      if id !in bars { return false; }
      var e := driver.UpdateBar(localId, id, bar, ok);
      done := e.None?;
    }

    method RemoveFar(id: FarId) returns (done: bool)
      requires driver.Valid()
      modifies this`fars, driver
      ensures driver.Valid() && driver.egress == old(driver.egress)
      ensures S.Do(old(View()), old(driver.State()), Request.RemoveFar(id))
          == S.Result(View(), driver.State(), [], done)
    {
      hide M.Apply, M.Sound, Snapshot.IsIndex, S.LastReports;
      if id !in fars { return false; }
      var e := driver.RemoveFar(localId, id);
      if e.Some? { return false; }
      fars := fars - {id};
      return true;
    }

    method RemoveQer(id: QerId) returns (done: bool)
      requires driver.Valid()
      modifies this`qers, driver
      ensures driver.Valid() && driver.egress == old(driver.egress)
      ensures S.Do(old(View()), old(driver.State()), Request.RemoveQer(id))
          == S.Result(View(), driver.State(), [], done)
    {
      hide M.Apply, M.Sound, Snapshot.IsIndex, S.LastReports;
      if id !in qers { return false; }
      var e := driver.RemoveQer(localId, id);
      if e.Some? { return false; }
      qers := qers - {id};
      return true;
    }

    method RemoveBar(id: BarId) returns (done: bool)
      requires driver.Valid()
      modifies this`bars, driver
      ensures driver.Valid() && driver.egress == old(driver.egress)
      ensures S.Do(old(View()), old(driver.State()), Request.RemoveBar(id))
          == S.Result(View(), driver.State(), [], done)
    {
      hide M.Apply, M.Sound, Snapshot.IsIndex, S.LastReports;
      if id !in bars { return false; }
      var e := driver.RemoveBar(localId, id);
      if e.Some? { return false; }
      bars := bars - {id};
      return true;
    }

    method RemoveUrr(id: UrrId) returns (done: bool, reports: seq<Usage>)
      requires driver.Valid()
      modifies this`urrs, driver
      ensures driver.Valid() && driver.egress == old(driver.egress) && urrs.Keys == old(urrs).Keys
      ensures S.Do(old(View()), old(driver.State()), Request.RemoveUrr(id))
          == S.Result(View(), driver.State(), reports, done)
    {
      hide M.Apply, M.Sound, Snapshot.IsIndex, S.LastReports;
      if id !in urrs { return false, []; }
      urrs := urrs[id := urrs[id].(removed := true)];
      var e, finals := driver.RemoveUrr(localId, id);
      if e.Some? { return false, []; }
      reports := SetTrigger(finals, TERMR);
      return true, reports;
    }

    method QueryUrr(id: UrrId) returns (done: bool, reports: seq<Usage>)
      requires driver.Valid()
      ensures S.Do(View(), driver.State(), Request.QueryUrr(id)) == S.Result(View(), driver.State(), reports, done)
    {
      hide M.Apply, M.Sound, Snapshot.IsIndex, S.LastReports;
      if id !in urrs { return false, []; }
      var e, rs := driver.QueryUrr(localId, id);
      if e.Some? { return false, []; }
      reports := SetTrigger(rs, IMMER);
      return true, reports;
    }

    // ---- requests ----

    /** One grouped element of a request; `actual` is it with the order in which URRs were let
        go. */
    method Perform(op: Request) returns (done: bool, reports: seq<Usage>, crashed: bool, ghost actual: Request)
      requires driver.Valid()
      modifies this`pdrs, this`fars, this`qers, this`urrs, this`bars, driver
      ensures RequestLaws.SameOp(op, actual)
      ensures crashed <==> CrashesHere(old(View()), old(driver.State()), op)
      ensures !crashed ==>
        driver.Valid() && S.Do(old(View()), old(driver.State()), actual)
            == S.Result(View(), driver.State(), reports, done)
    {
      hide M.Apply, M.Sound, Snapshot.IsIndex, S.Do;
      reports, crashed, actual := [], false, op;
      match op
      case CreatePdr(id, pdr, ok) => done := CreatePdr(id, pdr, ok);
      case UpdatePdr(id, pdr, ok, _) =>
        ghost var hint;
        done, reports, hint := UpdatePdr(id, pdr, ok);
        actual := Request.UpdatePdr(id, pdr, ok, hint);
      case RemovePdr(id, _) =>
        ghost var hint;
        done, reports, hint := RemovePdr(id);
        actual := Request.RemovePdr(id, hint);
      case CreateFar(id, far, ok) => done := CreateFar(id, far, ok);
      case UpdateFar(id, far, ok) => done, crashed := UpdateFar(id, far, ok);
      case RemoveFar(id) => done := RemoveFar(id);
      case CreateQer(id, qer, ok) => done := CreateQer(id, qer, ok);
      case UpdateQer(id, qer, ok) => done := UpdateQer(id, qer, ok);
      case RemoveQer(id) => done := RemoveQer(id);
      case CreateUrr(id, urr, ok, now) => done := CreateUrr(id, urr, ok, now);
      case UpdateUrr(id, urr, ok, now) => done := UpdateUrr(id, urr, ok, now);
      case RemoveUrr(id) => done, reports := RemoveUrr(id);
      case QueryUrr(id) => done, reports := QueryUrr(id);
      case CreateBar(id, bar, ok) => done := CreateBar(id, bar, ok);
      case UpdateBar(id, bar, ok) => done := UpdateBar(id, bar, ok);
      case RemoveBar(id) => done := RemoveBar(id);
    }

    /** The elements of a request one after the other; errors are logged and skipped. */
    method PerformAll(ops: seq<Request>) returns (reports: seq<Usage>, crashed: bool, ghost actual: seq<Request>)
      requires driver.Valid()
      modifies this`pdrs, this`fars, this`qers, this`urrs, this`bars, driver
      ensures crashed <==> exists k :: 0 <= k < |ops| && CrashesAt(old(View()), old(driver.State()), ops, k)
      ensures !crashed ==>
        && driver.Valid() && RequestLaws.SameOps(ops, actual)
        && S.DoAll(old(View()), old(driver.State()), actual) == S.Result(View(), driver.State(), reports, true)
    {
      hide M.Apply, M.Sound, Snapshot.IsIndex, S.Do, CrashesHere, RequestLaws.SameOp;
      ghost var was, d := View(), driver.State();
      reports, crashed, actual := [], false, [];
      for i := 0 to |ops|
        invariant driver.Valid() && |actual| == i && !crashed
        invariant forall j | 0 <= j < i :: RequestLaws.SameOp(ops[j], actual[j])
        invariant forall k | 0 <= k < i :: !CrashesAt(was, d, ops, k)
        invariant S.DoAll(was, d, actual) == S.Result(View(), driver.State(), reports, true)
      {
        var done, more;
        ghost var op;
        ghost var front := S.Result(View(), driver.State(), reports, true);
        RequestLaws.SameDoAll(was, d, ops[..i], actual);
        done, more, crashed, op := Perform(ops[i]);
        assert crashed <==> CrashesAt(was, d, ops, i);
        if crashed { return; }
        OneMore(was, d, actual, op);
        reports, actual := reports + more, actual + [op];
      }
    }

    /** The loop that numbers the collected reports and drops the records of removed URRs. */
    method NumberReports(reports: seq<Usage>, extra: set<Trigger>, drop: bool) returns (out: seq<Numbering.Numbered>)
      modifies this`urrs
      ensures (View(), out) == Numbering.Number(old(View()), reports, extra, drop)
    {
      hide Numbering.Number, Numbering.Used;
      out := [];
      ghost var was := View();
      NumberNone(was, reports, extra, drop, []);
      for i := 0 to |reports|
        invariant Numbering.Number(was, reports, extra, drop)
            == After(out, Numbering.Number(View(), reports[i..], extra, drop))
      {
        var r := reports[i];
        NumberOne(View(), reports, i, extra, drop, out);
        if r.urr !in urrs { continue; }
        ghost var before := View();
        var info := urrs[r.urr];
        urrs := urrs[r.urr := info.(seqn := (info.seqn + 1) % S.SEQN_WRAP)];
        out := out + [Numbering.Numbered(r.(triggers := r.triggers + extra), info.seqn)];
        if drop && info.removed { urrs := urrs - {r.urr}; }
        UsedIs(before, View(), r.urr, drop);
      }
      NumberNone(View(), reports, extra, drop, out);
    }

    // ---- the end of the session ----

    method CloseFars() returns (ghost ops: seq<Request>)
      requires driver.Valid()
      modifies this`fars, driver
      ensures driver.Valid() && driver.egress == old(driver.egress)
      ensures Lists(ops, 0, old(fars))
      ensures S.DoAll(old(View()), old(driver.State()), ops) == S.Result(View(), driver.State(), [], true)
    {
      hide M.Apply, M.Sound, Snapshot.IsIndex, S.Do, Lists;
      ghost var was, d := View(), driver.State();
      ops := [];
      var left := fars;
      ListsNone(0);
      assert was.fars - left == {};
      while left != {}
        invariant left <= was.fars && driver.Valid() && driver.egress == old(driver.egress)
        invariant Lists(ops, 0, was.fars - left)
        invariant S.DoAll(was, d, ops) == S.Result(View(), driver.State(), [], true)
      {
        var id :| id in left;
        var done := RemoveFar(id);
        ghost var op := Request.RemoveFar(id);
        OneMore(was, d, ops, op);
        ListsMore(ops, 0, was.fars - left, op);
        assert was.fars - (left - {id}) == was.fars - left + {id};
        left := left - {id};
        ops := ops + [op];
      }
      assert was.fars - {} == was.fars;
    }

    method CloseQers() returns (ghost ops: seq<Request>)
      requires driver.Valid()
      modifies this`qers, driver
      ensures driver.Valid() && driver.egress == old(driver.egress)
      ensures Lists(ops, 1, old(qers))
      ensures S.DoAll(old(View()), old(driver.State()), ops) == S.Result(View(), driver.State(), [], true)
    {
      hide M.Apply, M.Sound, Snapshot.IsIndex, S.Do, Lists;
      ghost var was, d := View(), driver.State();
      ops := [];
      var left := qers;
      ListsNone(1);
      assert was.qers - left == {};
      while left != {}
        invariant left <= was.qers && driver.Valid() && driver.egress == old(driver.egress)
        invariant Lists(ops, 1, was.qers - left)
        invariant S.DoAll(was, d, ops) == S.Result(View(), driver.State(), [], true)
      {
        var id :| id in left;
        var done := RemoveQer(id);
        ghost var op := Request.RemoveQer(id);
        OneMore(was, d, ops, op);
        ListsMore(ops, 1, was.qers - left, op);
        assert was.qers - (left - {id}) == was.qers - left + {id};
        left := left - {id};
        ops := ops + [op];
      }
      assert was.qers - {} == was.qers;
    }

    method CloseUrrs() returns (reports: seq<Usage>, ghost ops: seq<Request>)
      requires driver.Valid()
      modifies this`urrs, driver
      ensures driver.Valid() && driver.egress == old(driver.egress)
      ensures urrs.Keys == old(urrs).Keys
      ensures Lists(ops, 2, old(urrs.Keys))
      ensures S.DoAll(old(View()), old(driver.State()), ops) == S.Result(View(), driver.State(), reports, true)
    {
      hide M.Apply, M.Sound, Snapshot.IsIndex, S.Do, Lists;
      ghost var was, d := View(), driver.State();
      reports, ops := [], [];
      var left := urrs.Keys;
      ListsNone(2);
      assert was.urrs.Keys - left == {};
      while left != {}
        invariant left <= was.urrs.Keys && driver.Valid() && driver.egress == old(driver.egress)
        invariant urrs.Keys == was.urrs.Keys
        invariant Lists(ops, 2, was.urrs.Keys - left)
        invariant S.DoAll(was, d, ops) == S.Result(View(), driver.State(), reports, true)
      {
        var id :| id in left;
        var done, more := RemoveUrr(id);
        ghost var op := Request.RemoveUrr(id);
        OneMore(was, d, ops, op);
        ListsMore(ops, 2, was.urrs.Keys - left, op);
        assert was.urrs.Keys - (left - {id}) == was.urrs.Keys - left + {id};
        left := left - {id};
        reports, ops := reports + more, ops + [op];
      }
      assert was.urrs.Keys - {} == was.urrs.Keys;
    }

    method CloseBars() returns (ghost ops: seq<Request>)
      requires driver.Valid()
      modifies this`bars, driver
      ensures driver.Valid() && driver.egress == old(driver.egress)
      ensures Lists(ops, 3, old(bars))
      ensures S.DoAll(old(View()), old(driver.State()), ops) == S.Result(View(), driver.State(), [], true)
    {
      hide M.Apply, M.Sound, Snapshot.IsIndex, S.Do, Lists;
      ghost var was, d := View(), driver.State();
      ops := [];
      var left := bars;
      ListsNone(3);
      assert was.bars - left == {};
      while left != {}
        invariant left <= was.bars && driver.Valid() && driver.egress == old(driver.egress)
        invariant Lists(ops, 3, was.bars - left)
        invariant S.DoAll(was, d, ops) == S.Result(View(), driver.State(), [], true)
      {
        var id :| id in left;
        var done := RemoveBar(id);
        ghost var op := Request.RemoveBar(id);
        OneMore(was, d, ops, op);
        ListsMore(ops, 3, was.bars - left, op);
        assert was.bars - (left - {id}) == was.bars - left + {id};
        left := left - {id};
        ops := ops + [op];
      }
      assert was.bars - {} == was.bars;
    }

    method ClosePdrs() returns (reports: seq<Usage>, ghost ops: seq<Request>)
      requires driver.Valid()
      modifies this`pdrs, this`urrs, driver
      ensures driver.Valid() && driver.egress == old(driver.egress)
      ensures urrs.Keys == old(urrs).Keys
      ensures Lists(ops, 4, old(pdrs.Keys))
      ensures S.DoAll(old(View()), old(driver.State()), ops) == S.Result(View(), driver.State(), reports, true)
    {
      hide M.Apply, M.Sound, Snapshot.IsIndex, S.Do, Lists;
      ghost var was, d := View(), driver.State();
      reports, ops := [], [];
      var left := pdrs.Keys;
      ListsNone(4);
      assert was.pdrs.Keys - left == {};
      while left != {}
        invariant left <= was.pdrs.Keys && driver.Valid() && driver.egress == old(driver.egress)
        invariant urrs.Keys == was.urrs.Keys
        invariant Lists(ops, 4, was.pdrs.Keys - left)
        invariant S.DoAll(was, d, ops) == S.Result(View(), driver.State(), reports, true)
      {
        var id :| id in left;
        var done, more;
        ghost var hint;
        done, more, hint := RemovePdr(id);
        ghost var op := Request.RemovePdr(id, hint);
        OneMore(was, d, ops, op);
        ListsMore(ops, 4, was.pdrs.Keys - left, op);
        assert was.pdrs.Keys - (left - {id}) == was.pdrs.Keys - left + {id};
        left := left - {id};
        reports, ops := reports + more, ops + [op];
      }
      assert was.pdrs.Keys - {} == was.pdrs.Keys;
    }

    /** Close: five loops, each over the keys of one map in any order. */
    method Close() returns (reports: seq<Usage>, ghost plan: seq<Request>)
      requires driver.Valid()
      modifies this`pdrs, this`fars, this`qers, this`urrs, this`bars, driver
      ensures driver.Valid() && driver.egress == old(driver.egress)
      ensures Closing.ClosePlan(old(View()), plan)
      ensures S.DoAll(old(View()), old(driver.State()), plan) == S.Result(View(), driver.State(), reports, true)
    {
      hide M.Apply, M.Sound, Snapshot.IsIndex, S.DoAll, Lists, Closing.ClosePlan;
      ghost var was, d := View(), driver.State();
      ghost var fs := CloseFars();
      ghost var s1, d1 := View(), driver.State();
      ghost var qs := CloseQers();
      Then(was, d, fs, qs);
      var finals;
      ghost var us;
      finals, us := CloseUrrs();
      Then(was, d, fs + qs, us);
      ghost var bs := CloseBars();
      Then(was, d, fs + qs + us, bs);
      var lasts;
      ghost var ps;
      lasts, ps := ClosePdrs();
      Then(was, d, fs + qs + us + bs, ps);
      reports, plan := finals + lasts, fs + qs + us + bs + ps;
      PlanOfParts(was, fs, qs, us, bs, ps);
    }
  }

  function IdOf(op: Request): nat
    requires M.Removes(op)
  {
    match op
    case RemovePdr(id, _) => id
    case RemoveFar(id) => id
    case RemoveQer(id) => id
    case RemoveUrr(id) => id
    case RemoveBar(id) => id
  }

  predicate Listed(ops: seq<Request>, id: nat) {
    exists i :: 0 <= i < |ops| && M.Removes(ops[i]) && IdOf(ops[i]) == id
  }

  /** Removals of one kind, one for each identifier, in some order. */
  ghost predicate Lists(ops: seq<Request>, rank: nat, ids: set<nat>) {
    && (forall i | 0 <= i < |ops| :: M.Removes(ops[i]) && Closing.Rank(ops[i]) == rank && IdOf(ops[i]) in ids)
    && (forall i, j | 0 <= i < j < |ops| :: IdOf(ops[i]) != IdOf(ops[j]))
    && (forall id | id in ids :: Listed(ops, id))
  }

  lemma {:induction false} ListsNone(rank: nat)
    ensures Lists([], rank, {})
  {
  }

  lemma {:induction false} ListsMore(ops: seq<Request>, rank: nat, ids: set<nat>, op: Request)
    requires Lists(ops, rank, ids) && M.Removes(op) && Closing.Rank(op) == rank && IdOf(op) !in ids
    ensures Lists(ops + [op], rank, ids + {IdOf(op)})
  {
    hide M.Removes, Closing.Rank, IdOf;
    var all := ops + [op];
    forall id | id in ids + {IdOf(op)} ensures Listed(all, id) {
      if id in ids {
        var i :| 0 <= i < |ops| && IdOf(ops[i]) == id;
        assert all[i] == ops[i];
      } else {
        assert all[|ops|] == op;
      }
    }
  }

  /** Operations after operations. */
  lemma {:induction false} Then(s: S.Sess, d: M.State, a: seq<Request>, b: seq<Request>)
    ensures var f := S.DoAll(s, d, a);
            var r := S.DoAll(f.sess, f.driver, b);
      S.DoAll(s, d, a + b) == S.Result(r.sess, r.driver, f.reports + r.reports, true)
    decreases |b|
  {
    hide S.Do;
    if b == [] {
      assert a + b == a;
    } else {
      var n := |b| - 1;
      Then(s, d, a, b[..n]);
      assert (a + b)[..|a + b| - 1] == a + b[..n];
    }
  }

  /** Removals of recorded rules without repetition, in the order of the kinds up to `rank`. */
  predicate Ordered(s: S.Sess, ops: seq<Request>, rank: nat) {
    && (forall i | 0 <= i < |ops| :: M.Removes(ops[i]) && S.Recorded(s, ops[i]) && Closing.Rank(ops[i]) <= rank)
    && (forall i, j | 0 <= i < j < |ops| ::
          !Closing.SameRule(ops[i], ops[j]) && Closing.Rank(ops[i]) <= Closing.Rank(ops[j]))
  }

  function IdsOf(s: S.Sess, rank: nat): set<nat> {
    match rank
    case 0 => s.fars
    case 1 => s.qers
    case 2 => s.urrs.Keys
    case 3 => s.bars
    case _ => s.pdrs.Keys
  }

  lemma {:induction false} OrderedList(s: S.Sess, ops: seq<Request>, rank: nat)
    requires rank <= 4 && Lists(ops, rank, IdsOf(s, rank))
    ensures Ordered(s, ops, rank)
    ensures forall i | 0 <= i < |ops| :: Closing.Rank(ops[i]) == rank
  {
  }

  lemma {:induction false} OrderedJoin(s: S.Sess, a: seq<Request>, low: nat, b: seq<Request>, high: nat)
    requires Ordered(s, a, low) && Ordered(s, b, high) && low < high
    requires forall i | 0 <= i < |b| :: Closing.Rank(b[i]) == high
    ensures Ordered(s, a + b, high)
  {
    hide M.Removes, S.Recorded;
    forall i, j | 0 <= i < |a| && 0 <= j < |b| ensures !Closing.SameRule(a[i], b[j]) { RankSame(a[i], b[j]); }
    hide Closing.SameRule, Closing.Rank;
  }

  lemma {:induction false} RankSame(a: Request, b: Request)
    ensures Closing.SameRule(a, b) ==> Closing.Rank(a) == Closing.Rank(b)
  {
  }

  lemma {:induction false} ListCovers(s: S.Sess, ops: seq<Request>, rank: nat)
    requires rank <= 4 && Lists(ops, rank, IdsOf(s, rank))
    ensures rank == 0 ==> forall f | f in s.fars :: RemoveFar(f) in ops
    ensures rank == 1 ==> forall q | q in s.qers :: RemoveQer(q) in ops
    ensures rank == 2 ==> forall u | u in s.urrs :: RemoveUrr(u) in ops
    ensures rank == 3 ==> forall b | b in s.bars :: RemoveBar(b) in ops
    ensures rank == 4 ==> forall p | p in s.pdrs :: Closing.RemovesPdr(ops, p)
  {
    forall id | id in IdsOf(s, rank)
      ensures exists i :: 0 <= i < |ops| && M.Removes(ops[i]) && Closing.Rank(ops[i]) == rank && IdOf(ops[i]) == id
    {
      assert Listed(ops, id);
    }
  }

  /** Five such lists, kind after kind, are a plan that Close may follow. */
  lemma {:induction false} PlanOfParts(s: S.Sess, fs: seq<Request>, qs: seq<Request>, us: seq<Request>,
          bs: seq<Request>, ps: seq<Request>)
    requires Lists(fs, 0, s.fars) && Lists(qs, 1, s.qers) && Lists(us, 2, s.urrs.Keys)
    requires Lists(bs, 3, s.bars) && Lists(ps, 4, s.pdrs.Keys)
    ensures Closing.ClosePlan(s, fs + qs + us + bs + ps)
  {
    hide Lists, M.Removes, S.Recorded, Closing.SameRule, Closing.Rank, Closing.RemovesPdr;
    OrderedList(s, fs, 0);
    OrderedList(s, qs, 1);
    OrderedList(s, us, 2);
    OrderedList(s, bs, 3);
    OrderedList(s, ps, 4);
    hide Ordered;
    OrderedJoin(s, fs, 0, qs, 1);
    OrderedJoin(s, fs + qs, 1, us, 2);
    OrderedJoin(s, fs + qs + us, 2, bs, 3);
    OrderedJoin(s, fs + qs + us + bs, 3, ps, 4);
    ListCovers(s, fs, 0);
    ListCovers(s, qs, 1);
    ListCovers(s, us, 2);
    ListCovers(s, bs, 3);
    ListCovers(s, ps, 4);
    OrderedPlan(s, fs + qs + us + bs, ps);
  }

  lemma {:induction false} OrderedPlan(s: S.Sess, front: seq<Request>, ps: seq<Request>)
    requires Ordered(s, front + ps, 4)
    requires forall f | f in s.fars :: RemoveFar(f) in front
    requires forall q | q in s.qers :: RemoveQer(q) in front
    requires forall u | u in s.urrs :: RemoveUrr(u) in front
    requires forall b | b in s.bars :: RemoveBar(b) in front
    requires forall p | p in s.pdrs :: Closing.RemovesPdr(ps, p)
    ensures Closing.ClosePlan(s, front + ps)
  {
    hide M.Removes, S.Recorded, Closing.SameRule, Closing.Rank;
    var ops := front + ps;
    forall p | p in s.pdrs ensures Closing.RemovesPdr(ops, p) {
      var i :| 0 <= i < |ps| && ps[i].RemovePdr? && ps[i].pid == p;
      assert ops[|front| + i] == ps[i];
    }
  }

  /** The operation reaches the driver and stops the process there. */
  ghost predicate CrashesHere(s: S.Sess, d: M.State, op: Request) {
    S.Recorded(s, op) && DriverLoops.Crashes(d, s.localId, op)
  }

  /** The operation at `k` does so after those before it. */
  ghost predicate CrashesAt(s: S.Sess, d: M.State, ops: seq<Request>, k: nat)
    requires k < |ops|
  {
    var f := S.DoAll(s, d, ops[..k]);
    CrashesHere(f.sess, f.driver, ops[k])
  }

  lemma {:induction false} OneMore(s: S.Sess, d: M.State, ops: seq<Request>, op: Request)
    ensures var f := S.DoAll(s, d, ops);
            var r := S.Do(f.sess, f.driver, op);
      S.DoAll(s, d, ops + [op]) == S.Result(r.sess, r.driver, f.reports + r.reports, true)
  {
    hide S.Do;
    assert (ops + [op])[..|ops|] == ops;
  }

  lemma {:induction false} UpdateFarReply(d: M.State, seid: Seid, req: Request)
    requires req.UpdateFar?
    ensures M.Apply(d, seid, req).error == M.Refusal(d, seid, req)
    ensures M.Refusal(d, seid, req).Some? ==> M.Apply(d, seid, req).state == d
  {
  }

  lemma {:induction false} ReleaseKeys(urrs: map<UrrId, S.UrrInfo>, dropped: set<UrrId>)
    ensures S.Release(urrs, dropped).Keys == urrs.Keys
  {
  }

  /** The driver does not look at the order in which URRs are let go. */
  lemma {:induction false} HintIgnored(d: M.State, seid: Seid, id: PdrId, pdr: Pdr, ok: bool)
    ensures forall a, b :: M.Apply(d, seid, UpdatePdr(id, pdr, ok, a)) == M.Apply(d, seid, UpdatePdr(id, pdr, ok, b))
  {
    hide M.MergePdr, M.Disposable;
  }

  lemma {:induction false} RemoveHintIgnored(d: M.State, seid: Seid, id: PdrId)
    ensures forall a, b :: M.Apply(d, seid, RemovePdr(id, a)) == M.Apply(d, seid, RemovePdr(id, b))
  {
    hide M.Disposable;
  }
}
