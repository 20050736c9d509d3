/** The published snapshot: every installed PDR with its resolved rules, indexed by TEID
    for uplink and by UE address for downlink, each bucket best-ranked first.  Packet
    classification reads the snapshot and nothing else. */
module Snapshot {
  import opened Rules
  import opened Sdf

  type Sessions = map<Seid, SessionState>

  datatype Index = Index(uplink: map<Teid, seq<Binding>>, downlink: map<Ipv4, seq<Binding>>)

  // ---- what a PDR resolves to ----

  function Resolve<R>(ids: seq<nat>, rules: map<nat, R>): seq<(nat, R)> {
    if ids == [] then []
    else
      var rest := Resolve(ids[..|ids| - 1], rules);
      var id := ids[|ids| - 1];
      if id in rules then rest + [(id, rules[id])] else rest
  }

  /** A binding's rules are the installed ones its PDR names, in the order it names them. */
  lemma {:induction false} ResolveInOrder<R>(a: seq<nat>, b: seq<nat>, rules: map<nat, R>)
    ensures Resolve(a + b, rules) == Resolve(a, rules) + Resolve(b, rules)
    ensures forall id, rule :: (id, rule) in Resolve(b, rules) <==> id in b && id in rules && rules[id] == rule
  {
    hide Resolve;
    ResolveAppend(a, b, rules);
    forall id, rule ensures (id, rule) in Resolve(b, rules) <==> id in b && id in rules && rules[id] == rule {
      ResolveKeeps(b, rules, id, rule);
    }
  }

  lemma {:induction false} ResolveAppend<R>(a: seq<nat>, b: seq<nat>, rules: map<nat, R>)
    ensures Resolve(a + b, rules) == Resolve(a, rules) + Resolve(b, rules)
    decreases |b|
  {
    if b == [] {
      assert a + b == a;
    } else {
      ResolveAppend(a, b[..|b| - 1], rules);
      assert (a + b)[..|a + b| - 1] == a + b[..|b| - 1];
    }
  }

  lemma {:induction false} ResolveKeeps<R>(ids: seq<nat>, rules: map<nat, R>, id: nat, rule: R)
    ensures (id, rule) in Resolve(ids, rules) <==> id in ids && id in rules && rules[id] == rule
    decreases |ids|
  {
    if ids != [] {
      var front := ids[..|ids| - 1];
      ResolveKeeps(front, rules, id, rule);
      assert ids == front + [ids[|ids| - 1]];
    }
  }

  function FarOf(s: SessionState, pdr: Pdr): Option<Far> {
    if pdr.farId.Some? && pdr.farId.value in s.fars then Some(s.fars[pdr.farId.value]) else None
  }

  function BarOf(s: SessionState, pdr: Pdr): Option<Bar> {
    var far := FarOf(s, pdr);
    if far.Some? && far.value.barId.Some? && far.value.barId.value in s.bars then Some(s.bars[far.value.barId.value])
    else None
  }

  function BindingOf(seid: Seid, s: SessionState, p: PdrId): Binding
    requires p in s.pdrs
  {
    var pdr := s.pdrs[p];
    Binding(seid, p, pdr, FarOf(s, pdr), Resolve(pdr.qerIds, s.qers), Resolve(pdr.urrIds, s.urrs), BarOf(s, pdr))
  }

  // ---- which buckets a PDR belongs to ----

  /** A bucket of the index: uplink by TEID or downlink by UE address. */
  datatype Slot = ByTeid(teid: Teid) | ByAddress(ue: Ipv4)

  predicate InSlot(pdr: Pdr, slot: Slot) {
    pdr.pdi.Some? &&
    match slot
    case ByTeid(t) => pdr.pdi.value.srcIf == Some(Access) && pdr.pdi.value.teid == Some(t)
    case ByAddress(a) => pdr.pdi.value.srcIf == Some(Core) && pdr.pdi.value.ue == Some(a)
  }

  function Listing(idx: Index, slot: Slot): seq<Binding> {
    match slot
    case ByTeid(t) => if t in idx.uplink then idx.uplink[t] else []
    case ByAddress(a) => if a in idx.downlink then idx.downlink[a] else []
  }

  /** `b` is what some installed PDR resolves to now. */
  predicate Live(sessions: Sessions, b: Binding) {
    b.seid in sessions && b.pdrId in sessions[b.seid].pdrs && b == BindingOf(b.seid, sessions[b.seid], b.pdrId)
  }

  // ---- rank: the numerically larger precedence first, then the lower PDR identifier ----

  function Precedence(b: Binding): nat {
    if b.pdr.precedence.Some? then b.pdr.precedence.value else 0
  }

  predicate Better(a: Binding, b: Binding) {
    Precedence(a) > Precedence(b) || (Precedence(a) == Precedence(b) && a.pdrId < b.pdrId)
  }

  predicate Sorted(bs: seq<Binding>) {
    forall i, j | 0 <= i < j < |bs| :: !Better(bs[j], bs[i])
  }

  predicate Distinct(bs: seq<Binding>) {
    forall i, j | 0 <= i < j < |bs| :: bs[i] != bs[j]
  }

  // ---- the index as a relation to the live sessions: ties may come in any order ----

  /** The slot lists exactly the live bindings that belong to it, once each, best first. */
  ghost predicate SlotExact(idx: Index, sessions: Sessions, slot: Slot) {
    && Sorted(Listing(idx, slot)) && Distinct(Listing(idx, slot))
    && forall b: Binding :: b in Listing(idx, slot) <==> Live(sessions, b) && InSlot(b.pdr, slot)
  }

  ghost predicate IsIndex(idx: Index, sessions: Sessions) {
    forall slot: Slot :: SlotExact(idx, sessions, slot)
  }

  // ---- building it ----

  predicate Ties(a: Binding, b: Binding) { !Better(a, b) && !Better(b, a) }

  /** The bindings of a list that rank equally with `x`, in their order. */
  function Tied(bs: seq<Binding>, x: Binding): seq<Binding> {
    if bs == [] then [] else Tied(bs[..|bs| - 1], x) + (if Ties(bs[|bs| - 1], x) then [bs[|bs| - 1]] else [])
  }

  lemma {:induction false} TiedAppend(a: seq<Binding>, b: seq<Binding>, x: Binding)
    ensures Tied(a + b, x) == Tied(a, x) + Tied(b, x)
    decreases |b|
  {
    if b == [] {
      assert a + b == a;
    } else {
      assert (a + b)[..|a + b| - 1] == a + b[..|b| - 1];
      TiedAppend(a, b[..|b| - 1], x);
    }
  }

  lemma {:induction false} TiedNone(bs: seq<Binding>, x: Binding)
    requires forall j | 0 <= j < |bs| :: !Ties(bs[j], x)
    ensures Tied(bs, x) == []
    decreases |bs|
  {
    hide Ties;
    if bs != [] { TiedNone(bs[..|bs| - 1], x); }
  }

  /** An insertion goes behind everything that ranks equally. */
  lemma {:induction false} InsertTied(r: seq<Binding>, b: Binding, k: nat, x: Binding)
    requires k <= |r| && forall j | k <= j < |r| :: Better(b, r[j])
    ensures Tied(r[..k] + [b] + r[k..], x) == Tied(r + [b], x)
  {
    hide Tied;
    assert r == r[..k] + r[k..] && r[..k] + ([b] + r[k..]) == r[..k] + [b] + r[k..];
    TiedAppend(r[..k], [b] + r[k..], x);
    TiedAppend([b], r[k..], x);
    TiedAppend(r[..k], r[k..], x);
    TiedAppend(r, [b], x);
    if Ties(b, x) { TiedNone(r[k..], x); } else { TiedNone([b], x); }
  }

  /** sortBindings: best-ranked first, and equally ranked bindings keep their order. */
  method SortBindings(bs: seq<Binding>) returns (r: seq<Binding>)
    ensures Sorted(r) && |r| == |bs|
    ensures forall x :: Tied(r, x) == Tied(bs, x)
    ensures forall b :: b in r <==> b in bs
    ensures Distinct(bs) ==> Distinct(r)
  {
    hide Tied, Ties;
    r := [];
    for i := 0 to |bs|
      invariant |r| == i && Sorted(r)
      invariant forall x :: Tied(r, x) == Tied(bs[..i], x)
      invariant forall b :: b in r <==> b in bs[..i]
      invariant Distinct(bs) ==> Distinct(r)
    {
      var b := bs[i];
      var k := i;
      while k > 0 && Better(b, r[k - 1])
        invariant 0 <= k <= i
        invariant forall j | k <= j < i :: Better(b, r[j])
      {
        k := k - 1;
      }
      assert Distinct(bs) ==> b !in bs[..i];
      ghost var was := r;
      r := r[..k] + [b] + r[k..];
      InsertSorted(was, b, k);
      InsertKeepsTied(bs, i, was, k);
      assert bs[..i + 1] == bs[..i] + [b];
      assert forall x :: x in r <==> x == b || x in was by {
        assert was == was[..k] + was[k..];
      }
    }
    assert bs[..|bs|] == bs;
  }

  lemma {:induction false} InsertKeepsTied(bs: seq<Binding>, i: nat, r: seq<Binding>, k: nat)
    requires i < |bs| && k <= |r| && forall j | k <= j < |r| :: Better(bs[i], r[j])
    requires forall x :: Tied(r, x) == Tied(bs[..i], x)
    ensures forall x :: Tied(r[..k] + [bs[i]] + r[k..], x) == Tied(bs[..i + 1], x)
  {
    hide Tied, Better;
    assert bs[..i + 1] == bs[..i] + [bs[i]];
    forall x ensures Tied(r[..k] + [bs[i]] + r[k..], x) == Tied(bs[..i + 1], x) {
      InsertTied(r, bs[i], k, x);
      TiedAppend(r, [bs[i]], x);
      TiedAppend(bs[..i], [bs[i]], x);
    }
  }

  lemma {:induction false} InsertSorted(r: seq<Binding>, b: Binding, k: nat)
    requires Sorted(r) && k <= |r|
    requires forall j | k <= j < |r| :: Better(b, r[j])
    requires k > 0 ==> !Better(b, r[k - 1])
    ensures Sorted(r[..k] + [b] + r[k..])
    ensures Distinct(r) && b !in r ==> Distinct(r[..k] + [b] + r[k..])
  {
    var n := r[..k] + [b] + r[k..];
    forall i, j | 0 <= i < j < |n| ensures !Better(n[j], n[i]) {
      var i' := if i < k then i else i - 1;
      var j' := if j < k then j else j - 1;
      if i == k { assert Better(b, r[j']); }
      else if j == k { assert k > 0; assert i == k - 1 || !Better(r[k - 1], r[i]); }
      else { assert n[i] == r[i'] && n[j] == r[j']; }
    }
  }

  /** Appending one binding to the slots it belongs to. */
  function Added(idx: Index, b: Binding): Index {
    if b.pdr.pdi.None? then idx
    else
      var pdi := b.pdr.pdi.value;
      var up := if pdi.teid.Some? && pdi.srcIf == Some(Access)
                then idx.uplink[pdi.teid.value := Listing(idx, ByTeid(pdi.teid.value)) + [b]] else idx.uplink;
      var down := if pdi.ue.Some? && pdi.srcIf == Some(Core)
                  then idx.downlink[pdi.ue.value := Listing(idx, ByAddress(pdi.ue.value)) + [b]] else idx.downlink;
      Index(up, down)
  }

  lemma {:induction false} AddedTo(idx: Index, b: Binding, slot: Slot)
    ensures Listing(Added(idx, b), slot) == Listing(idx, slot) + (if InSlot(b.pdr, slot) then [b] else [])
  {
  }

  /** Every slot lists exactly the visited PDRs that belong to it, once each. */
  ghost predicate Collected(idx: Index, sessions: Sessions, visited: set<(Seid, PdrId)>) {
    forall slot: Slot ::
      && Distinct(Listing(idx, slot))
      && forall b: Binding :: b in Listing(idx, slot) <==>
           Live(sessions, b) && InSlot(b.pdr, slot) && (b.seid, b.pdrId) in visited
  }

  lemma {:induction false} CollectOne(idx: Index, sessions: Sessions, visited: set<(Seid, PdrId)>, seid: Seid, p: PdrId)
    requires Collected(idx, sessions, visited) && (seid, p) !in visited
    requires seid in sessions && p in sessions[seid].pdrs
    ensures Collected(Added(idx, BindingOf(seid, sessions[seid], p)), sessions, visited + {(seid, p)})
  {
    hide BindingOf, InSlot, Added;
    var b := BindingOf(seid, sessions[seid], p);
    BindingNames(seid, sessions[seid], p);
    forall slot: Slot
      ensures Distinct(Listing(Added(idx, b), slot))
      ensures forall x: Binding :: x in Listing(Added(idx, b), slot) <==>
           Live(sessions, x) && InSlot(x.pdr, slot) && (x.seid, x.pdrId) in visited + {(seid, p)}
    {
      AddedTo(idx, b, slot);
      assert b !in Listing(idx, slot);
    }
  }

  lemma {:induction false} BindingNames(seid: Seid, s: SessionState, p: PdrId)
    requires p in s.pdrs
    ensures BindingOf(seid, s, p).seid == seid && BindingOf(seid, s, p).pdrId == p
        && BindingOf(seid, s, p).pdr == s.pdrs[p]
  {
  }

  /** buildRuntimeSnapshot: collect the bindings of every PDR of every session, in whatever
      order the maps are walked, then sort every bucket. */
  method Build(sessions: Sessions) returns (idx: Index)
    ensures IsIndex(idx, sessions)
  {
    idx := Index(map[], map[]);
    ghost var visited: set<(Seid, PdrId)> := {};
    var seids := sessions.Keys;
    while seids != {}
      invariant seids <= sessions.Keys
      invariant forall k, p :: (k, p) in visited <==> k in sessions.Keys - seids && p in sessions[k].pdrs
      invariant Collected(idx, sessions, visited)
    {
      var seid :| seid in seids;
      var s := sessions[seid];
      var pids := s.pdrs.Keys;
      while pids != {}
        invariant pids <= s.pdrs.Keys
        invariant forall k, p :: (k, p) in visited <==>
          (k in sessions.Keys - seids && p in sessions[k].pdrs) || (k == seid && p in s.pdrs.Keys - pids)
        invariant Collected(idx, sessions, visited)
      {
        var p :| p in pids;
        CollectOne(idx, sessions, visited, seid, p);
        idx := Added(idx, BindingOf(seid, s, p));
        visited := visited + {(seid, p)};
        pids := pids - {p};
      }
      seids := seids - {seid};
    }
    idx := SortAll(idx);
    forall slot: Slot ensures SlotExact(idx, sessions, slot) {
      forall b: Binding ensures b in Listing(idx, slot) <==> Live(sessions, b) && InSlot(b.pdr, slot) {
        assert Live(sessions, b) ==> (b.seid, b.pdrId) in visited;
      }
    }
  }

  method SortAll(idx: Index) returns (r: Index)
    ensures forall slot: Slot ::
      && Sorted(Listing(r, slot))
      && (Distinct(Listing(idx, slot)) ==> Distinct(Listing(r, slot)))
      && forall b :: b in Listing(r, slot) <==> b in Listing(idx, slot)
  {
    r := idx;
    var teids := idx.uplink.Keys;
    while teids != {}
      invariant teids <= idx.uplink.Keys && r.uplink.Keys == idx.uplink.Keys && r.downlink == idx.downlink
      invariant forall t | t in teids :: r.uplink[t] == idx.uplink[t]
      invariant forall t | t in idx.uplink.Keys - teids :: Rearranged(idx.uplink[t], r.uplink[t])
    {
      var t :| t in teids;
      var bs := SortBindings(r.uplink[t]);
      r := r.(uplink := r.uplink[t := bs]);
      teids := teids - {t};
    }
    var ues := idx.downlink.Keys;
    while ues != {}
      invariant ues <= idx.downlink.Keys && r.downlink.Keys == idx.downlink.Keys
      invariant r.uplink.Keys == idx.uplink.Keys && forall t | t in idx.uplink :: Rearranged(idx.uplink[t], r.uplink[t])
      invariant forall a | a in ues :: r.downlink[a] == idx.downlink[a]
      invariant forall a | a in idx.downlink.Keys - ues :: Rearranged(idx.downlink[a], r.downlink[a])
    {
      var a :| a in ues;
      var bs := SortBindings(r.downlink[a]);
      r := r.(downlink := r.downlink[a := bs]);
      ues := ues - {a};
    }
  }

  ghost predicate Rearranged(bs: seq<Binding>, r: seq<Binding>) {
    && Sorted(r)
    && (Distinct(bs) ==> Distinct(r))
    && forall b :: b in r <==> b in bs
  }

  // ---- in raw terms ----

  /** A binding shows its PDR's rules as they are installed in its session: the FAR it names, that FAR's
      BAR, and exactly the installed QERs and URRs it lists. */
  lemma {:induction false} BindingShows(seid: Seid, s: SessionState, p: PdrId)
    requires p in s.pdrs
    ensures var b, pdr := BindingOf(seid, s, p), s.pdrs[p];
      && b.seid == seid && b.pdrId == p && b.pdr == pdr
      && (b.far.Some? <==> pdr.farId.Some? && pdr.farId.value in s.fars)
      && (b.far.Some? ==> b.far.value == s.fars[pdr.farId.value])
      && (b.bar.Some? <==> b.far.Some? && b.far.value.barId.Some? && b.far.value.barId.value in s.bars)
      && (b.bar.Some? ==> b.bar.value == s.bars[b.far.value.barId.value])
      && (forall id, q :: (id, q) in b.qers <==> id in pdr.qerIds && id in s.qers && s.qers[id] == q)
      && (forall id, u :: (id, u) in b.urrs <==> id in pdr.urrIds && id in s.urrs && s.urrs[id] == u)
  {
    hide Resolve;
    ResolveInOrder([], s.pdrs[p].qerIds, s.qers);
    ResolveInOrder([], s.pdrs[p].urrIds, s.urrs);
  }

  /** An access PDR with a TEID is listed under it and nowhere else, a core PDR with a UE address under
      that, and no other PDR anywhere. */
  lemma {:induction false} ListedWhere(pdr: Pdr, slot: Slot)
    ensures slot.ByTeid? ==>
      (InSlot(pdr, slot) <==> pdr.pdi.Some? && pdr.pdi.value.srcIf == Some(Access) && pdr.pdi.value.teid == Some(slot.teid))
    ensures slot.ByAddress? ==>
      (InSlot(pdr, slot) <==> pdr.pdi.Some? && pdr.pdi.value.srcIf == Some(Core) && pdr.pdi.value.ue == Some(slot.ue))
  {
  }

  /** The value that ranks a PDR; one without a precedence ranks like zero. */
  function RankOf(pdr: Pdr): nat { match pdr.precedence case Some(v) => v case None => 0 }

  /** In a sorted bucket no binding stands behind one of a smaller precedence value, nor behind one of the
      same value and a larger PDR identifier. */
  lemma {:induction false} SortedMeans(bs: seq<Binding>)
    ensures Sorted(bs) <==> forall i, j | 0 <= i < j < |bs| ::
      && RankOf(bs[i].pdr) >= RankOf(bs[j].pdr)
      && (RankOf(bs[i].pdr) == RankOf(bs[j].pdr) ==> bs[i].pdrId <= bs[j].pdrId)
  {
    if Sorted(bs) {
      forall i, j | 0 <= i < j < |bs|
        ensures RankOf(bs[i].pdr) >= RankOf(bs[j].pdr)
        ensures RankOf(bs[i].pdr) == RankOf(bs[j].pdr) ==> bs[i].pdrId <= bs[j].pdrId
      {
        assert !Better(bs[j], bs[i]);
      }
    }
  }
}
