/** Packet classification.  The scans over the index are specified against the live
    sessions alone, as a search over every installed PDR. */
module Classify {
  import opened Rules
  import opened Sdf
  import opened Snapshot

  /** An installed PDR of the slot whose filters accept the packet. */
  ghost predicate Candidate(sessions: Sessions, slot: Slot, meta: Option<Meta>, dir: Direction, b: Binding) {
    Live(sessions, b) && InSlot(b.pdr, slot) && Matches(b.pdr, meta, dir)
  }

  /** No candidate outranks `b`. */
  ghost predicate Best(sessions: Sessions, slot: Slot, meta: Option<Meta>, dir: Direction, b: Binding) {
    && Candidate(sessions, slot, meta, dir, b)
    && forall c: Binding | Candidate(sessions, slot, meta, dir, c) :: !Better(c, b)
  }

  /** The best candidate is unique up to PDRs of different sessions with the same rank. */
  lemma {:induction false} BestUnique(sessions: Sessions, slot: Slot, meta: Option<Meta>, dir: Direction,
          a: Binding, b: Binding)
    requires Best(sessions, slot, meta, dir, a) && Best(sessions, slot, meta, dir, b)
    ensures a.pdrId == b.pdrId && Precedence(a) == Precedence(b)
    ensures a.seid == b.seid ==> a == b
  {
    assert !Better(a, b) && !Better(b, a);
  }

  /** matchDownlink: the first accepting binding of the UE's bucket.  It is a best-ranked
      core PDR of that UE address among all installed ones, and there is none exactly when
      no installed core PDR of that address accepts the packet. */
  method MatchDownlink(idx: Index, ghost sessions: Sessions, ue: Option<Ipv4>,
          meta: Option<Meta>) returns (r: Option<Binding>)
    requires IsIndex(idx, sessions)
    ensures ue.None? ==> r.None?
    ensures ue.Some? && r.Some? ==> Best(sessions, ByAddress(ue.value), meta, Downlink, r.value)
    ensures ue.Some? && r.None? ==> !exists b: Binding :: Candidate(sessions, ByAddress(ue.value), meta, Downlink, b)
  {
    if ue.None? { return None; }
    ghost var slot := ByAddress(ue.value);
    var bs := if ue.value in idx.downlink then idx.downlink[ue.value] else [];
    assert SlotExact(idx, sessions, slot) && bs == Listing(idx, slot);
    for i := 0 to |bs|
      invariant forall j | 0 <= j < i :: !Matches(bs[j].pdr, meta, Downlink)
    {
      if Matches(bs[i].pdr, meta, Downlink) {
        forall c: Binding | Candidate(sessions, slot, meta, Downlink, c) ensures !Better(c, bs[i]) {
          var j :| 0 <= j < |bs| && bs[j] == c;
        }
        return Some(bs[i]);
      }
    }
    assert forall b: Binding :: Candidate(sessions, slot, meta, Downlink, b) ==> b in bs;
    return None;
  }

  /** The PDR's UE address does not contradict the packet's. */
  predicate Agrees(b: Binding, ue: Option<Ipv4>) {
    ue.None? || b.pdr.pdi.None? || b.pdr.pdi.value.ue.None? || b.pdr.pdi.value.ue == ue
  }

  predicate Passes(b: Binding, meta: Option<Meta>) {
    b.pdr.pdi.Some? && Matches(b.pdr, meta, Uplink)
  }

  /** `k` is the choice of selectUplinkBinding in a list: the first accepting binding whose
      UE address agrees or, if none does, the first accepting binding. */
  ghost predicate Chosen(bs: seq<Binding>, k: int, ue: Option<Ipv4>, meta: Option<Meta>) {
    && 0 <= k < |bs| && Passes(bs[k], meta)
    && (Agrees(bs[k], ue) ==> forall j | 0 <= j < k :: !(Passes(bs[j], meta) && Agrees(bs[j], ue)))
    && (!Agrees(bs[k], ue) ==>
          && (forall j | 0 <= j < |bs| :: !(Passes(bs[j], meta) && Agrees(bs[j], ue)))
          && (forall j | 0 <= j < k :: !Passes(bs[j], meta)))
  }

  method SelectUplink(bs: seq<Binding>, ue: Option<Ipv4>, meta: Option<Meta>) returns (r: Option<Binding>, ghost k: int)
    ensures r.Some? ==> Chosen(bs, k, ue, meta) && r.value == bs[k] && r.value in bs
    ensures r.None? <==> forall j | 0 <= j < |bs| :: !Passes(bs[j], meta)
  {
    r, k := None, -1;
    for i := 0 to |bs|
      invariant r.None? <==> forall j | 0 <= j < i :: !Passes(bs[j], meta)
      invariant forall j | 0 <= j < i :: !(Passes(bs[j], meta) && Agrees(bs[j], ue))
      invariant r.Some? ==> 0 <= k < i && r.value == bs[k] && Passes(bs[k], meta)
      invariant r.Some? ==> forall j | 0 <= j < k :: !Passes(bs[j], meta)
    {
      var b := bs[i];
      if b.pdr.pdi.None? { continue; }
      if !Matches(b.pdr, meta, Uplink) { continue; }
      if ue.Some? && b.pdr.pdi.value.ue.Some? {
        if b.pdr.pdi.value.ue == ue { return Some(b), i; }
        if r.None? { r, k := Some(b), i; }
        continue;
      }
      return Some(b), i;
    }
  }

  /** In a sorted list the choice outranks, or ties with, every other that could be chosen. */
  lemma {:induction false} ChosenIsBest(bs: seq<Binding>, k: int, ue: Option<Ipv4>, meta: Option<Meta>)
    requires Sorted(bs) && Chosen(bs, k, ue, meta)
    ensures bs[k] in bs && Passes(bs[k], meta)
    ensures forall c | c in bs && Passes(c, meta) ::
      if Agrees(bs[k], ue) then Agrees(c, ue) ==> !Better(c, bs[k]) else !Agrees(c, ue) && !Better(c, bs[k])
  {
    hide Matches;
    forall c | c in bs && Passes(c, meta)
      ensures if Agrees(bs[k], ue) then Agrees(c, ue) ==> !Better(c, bs[k]) else !Agrees(c, ue) && !Better(c, bs[k])
    {
      var j :| 0 <= j < |bs| && bs[j] == c;
    }
  }

  /** Some installed access PDR, under any TEID, accepts the packet. */
  ghost predicate AnyAccess(sessions: Sessions, meta: Option<Meta>) {
    exists t: Teid, b: Binding :: Candidate(sessions, ByTeid(t), meta, Uplink, b)
  }

  /** No accepting PDR of the TEID that agrees as much outranks `b`. */
  ghost predicate BestOf(sessions: Sessions, teid: Teid, ue: Option<Ipv4>, meta: Option<Meta>, b: Binding) {
    && Candidate(sessions, ByTeid(teid), meta, Uplink, b)
    && forall c: Binding | Candidate(sessions, ByTeid(teid), meta, Uplink, c) && (Agrees(b, ue) ==> Agrees(c, ue)) ::
         !Better(c, b)
  }

  /** Some accepting PDR of the TEID agrees with the UE address. */
  ghost predicate SomeAgrees(sessions: Sessions, teid: Teid, ue: Option<Ipv4>, meta: Option<Meta>) {
    exists c: Binding :: Candidate(sessions, ByTeid(teid), meta, Uplink, c) && Agrees(c, ue)
  }

  /** What matchUplink promises for a packet of TEID `teid`.  If some PDR of that TEID accepts
      it, the result is the best-ranked accepting PDR whose UE address agrees or, failing
      that, the best-ranked accepting PDR, of that TEID.  Otherwise the same is taken from the
      other TEIDs: an agreeing PDR if one of any of them agrees, and the best-ranked one of its
      kind under its own TEID.  Nothing is taken only if no access PDR anywhere accepts. */
  ghost predicate UplinkVerdict(sessions: Sessions, teid: Teid, ue: Option<Ipv4>, meta: Option<Meta>,
          r: Option<Binding>) {
    && (r.None? ==> !AnyAccess(sessions, meta))
    && (r.Some? ==>
          || (&& BestOf(sessions, teid, ue, meta, r.value)
              && (SomeAgrees(sessions, teid, ue, meta) ==> Agrees(r.value, ue)))
          || (&& (forall c: Binding :: !Candidate(sessions, ByTeid(teid), meta, Uplink, c))
              && (exists t: Teid :: t != teid && BestOf(sessions, t, ue, meta, r.value))
              && forall t: Teid | SomeAgrees(sessions, t, ue, meta) :: Agrees(r.value, ue)))
  }

  lemma {:induction false} HomeVerdict(idx: Index, sessions: Sessions, teid: Teid, k: int, ue: Option<Ipv4>,
          meta: Option<Meta>)
    requires IsIndex(idx, sessions) && Chosen(Listing(idx, ByTeid(teid)), k, ue, meta)
    ensures UplinkVerdict(sessions, teid, ue, meta, Some(Listing(idx, ByTeid(teid))[k]))
  {
    hide Matches, BindingOf, Better, Chosen;
    var home := ByTeid(teid);
    assert SlotExact(idx, sessions, home);
    var bs := Listing(idx, home);
    ChosenIsBest(bs, k, ue, meta);
    assert forall c: Binding :: Candidate(sessions, home, meta, Uplink, c) ==> c in bs && Passes(c, meta);
  }

  /** The TEID under which an uplink binding is listed. */
  function Home(b: Binding): Option<Teid> {
    if b.pdr.pdi.Some? then b.pdr.pdi.value.teid else None
  }

  /** Within each TEID the list is in rank order. */
  predicate SortedWithin(bs: seq<Binding>) {
    forall i, j | 0 <= i < j < |bs| && Home(bs[i]) == Home(bs[j]) :: !Better(bs[j], bs[i])
  }

  /** The choice in such a list is not outranked in its kind under its own TEID, and agrees if anything
      in the list does. */
  lemma {:induction false} ChosenWithin(bs: seq<Binding>, k: int, ue: Option<Ipv4>, meta: Option<Meta>)
    requires SortedWithin(bs) && Chosen(bs, k, ue, meta)
    ensures bs[k] in bs && Passes(bs[k], meta)
    ensures forall c | c in bs && Passes(c, meta) && Home(c) == Home(bs[k]) && (Agrees(bs[k], ue) ==> Agrees(c, ue)) ::
      !Better(c, bs[k])
    ensures forall c | c in bs && Passes(c, meta) && Agrees(c, ue) :: Agrees(bs[k], ue)
  {
    hide Matches, Agrees, Passes, Home;
    forall c | c in bs && Passes(c, meta) && Home(c) == Home(bs[k]) && (Agrees(bs[k], ue) ==> Agrees(c, ue))
      ensures !Better(c, bs[k])
    {
      var j :| 0 <= j < |bs| && bs[j] == c;
      if j > k { assert !Better(bs[j], bs[k]); }
    }
  }

  /** No PDR of the TEID accepts, and a choice is made from the other buckets. */
  lemma {:induction false} FallbackVerdict(idx: Index, sessions: Sessions, teid: Teid, rest: seq<Binding>,
          ue: Option<Ipv4>, meta: Option<Meta>, r: Option<Binding>, k: int)
    requires IsIndex(idx, sessions)
    requires forall j | 0 <= j < |Listing(idx, ByTeid(teid))| :: !Passes(Listing(idx, ByTeid(teid))[j], meta)
    requires forall b: Binding :: b in rest <==> exists t: Teid :: Elsewhere(idx, teid, t, b)
    requires SortedWithin(rest)
    requires r.Some? ==> Chosen(rest, k, ue, meta) && r.value == rest[k]
    requires r.None? ==> forall j | 0 <= j < |rest| :: !Passes(rest[j], meta)
    ensures UplinkVerdict(sessions, teid, ue, meta, r)
  {
    hide IsIndex, Candidate, Passes, Elsewhere, Better, Chosen, Agrees, SortedWithin, Home;
    forall c: Binding | Candidate(sessions, ByTeid(teid), meta, Uplink, c) ensures false {
      HomeListed(idx, sessions, teid, meta, c);
    }
    forall t: Teid, c: Binding | Candidate(sessions, ByTeid(t), meta, Uplink, c)
      ensures t != teid && c in rest && Passes(c, meta) && Home(c) == Some(t)
    {
      CandidateElsewhere(idx, sessions, teid, t, meta, c);
      assert Elsewhere(idx, teid, t, c);
    }
    if r.Some? {
      ChosenWithin(rest, k, ue, meta);
      var t :| Elsewhere(idx, teid, t, r.value);
      ElsewhereCandidate(idx, sessions, teid, t, meta, r.value);
      assert BestOf(sessions, t, ue, meta, r.value);
      assert t != teid;
      assert forall t: Teid | SomeAgrees(sessions, t, ue, meta) :: Agrees(r.value, ue);
    } else {
      forall t: Teid, c: Binding ensures !Candidate(sessions, ByTeid(t), meta, Uplink, c) {
        assert c in rest ==> !Passes(c, meta);
      }
    }
  }

  lemma {:induction false} HomeListed(idx: Index, sessions: Sessions, teid: Teid, meta: Option<Meta>, c: Binding)
    requires IsIndex(idx, sessions) && Candidate(sessions, ByTeid(teid), meta, Uplink, c)
    ensures c in Listing(idx, ByTeid(teid)) && Passes(c, meta)
  {
    hide Matches, BindingOf, Better;
    assert SlotExact(idx, sessions, ByTeid(teid));
  }

  lemma {:induction false} CandidateElsewhere(idx: Index, sessions: Sessions, teid: Teid, t: Teid, meta: Option<Meta>,
          c: Binding)
    requires IsIndex(idx, sessions) && Candidate(sessions, ByTeid(t), meta, Uplink, c)
    ensures t != teid ==> Elsewhere(idx, teid, t, c)
    ensures Passes(c, meta) && Home(c) == Some(t)
  {
    hide Matches, BindingOf, Better, IsIndex;
    HomeListed(idx, sessions, t, meta, c);
  }

  lemma {:induction false} ElsewhereCandidate(idx: Index, sessions: Sessions, teid: Teid, t: Teid, meta: Option<Meta>,
          c: Binding)
    requires IsIndex(idx, sessions) && Elsewhere(idx, teid, t, c)
    ensures Home(c) == Some(t)
    ensures Passes(c, meta) ==> Candidate(sessions, ByTeid(t), meta, Uplink, c)
  {
    hide Matches, BindingOf, Better;
    assert SlotExact(idx, sessions, ByTeid(t)) && c in Listing(idx, ByTeid(t));
  }

  /** matchUplink, with its fallback to the buckets of all other TEIDs in whatever order the
      map is walked. */
  method MatchUplink(idx: Index, ghost sessions: Sessions, teid: Teid, ue: Option<Ipv4>, meta: Option<Meta>)
    returns (r: Option<Binding>)
    requires IsIndex(idx, sessions)
    ensures UplinkVerdict(sessions, teid, ue, meta, r)
  {
    hide IsIndex, Passes, UplinkVerdict, Elsewhere, SortedWithin, Chosen;
    ghost var k;
    var bs := if teid in idx.uplink then idx.uplink[teid] else [];
    assert bs == Listing(idx, ByTeid(teid));
    r, k := SelectUplink(bs, ue, meta);
    if r.Some? {
      HomeVerdict(idx, sessions, teid, k, ue, meta);
      return;
    }
    var rest := OtherBuckets(idx, sessions, teid);
    r, k := SelectUplink(rest, ue, meta);
    FallbackVerdict(idx, sessions, teid, rest, ue, meta, r, k);
  }

  predicate Elsewhere(idx: Index, teid: Teid, t: Teid, b: Binding) {
    t != teid && t in idx.uplink && b in idx.uplink[t]
  }

  /** The buckets of all other TEIDs, one after the other. */
  method OtherBuckets(idx: Index, ghost sessions: Sessions, teid: Teid) returns (rest: seq<Binding>)
    requires IsIndex(idx, sessions)
    ensures forall b: Binding :: b in rest <==> exists t: Teid :: Elsewhere(idx, teid, t, b)
    ensures SortedWithin(rest)
  {
    hide IsIndex, SortedWithin, Better, Home;
    rest := [];
    NothingSorted();
    var teids := idx.uplink.Keys - {teid};
    while teids != {}
      invariant teids <= idx.uplink.Keys - {teid}
      invariant forall b: Binding | b in rest :: exists t: Teid :: t !in teids && Elsewhere(idx, teid, t, b)
      invariant forall b: Binding, t: Teid | Elsewhere(idx, teid, t, b) && t !in teids :: b in rest
      invariant SortedWithin(rest)
    {
      var t :| t in teids;
      BucketAppended(idx, sessions, teid, t, rest);
      forall b: Binding | b in idx.uplink[t] ensures exists t: Teid :: t !in teids - {t} && Elsewhere(idx, teid, t, b) {
        assert Elsewhere(idx, teid, t, b);
      }
      rest := rest + idx.uplink[t];
      teids := teids - {t};
    }
  }

  lemma {:induction false} NothingSorted()
    ensures SortedWithin([])
  {
  }

  lemma {:induction false} BucketAppended(idx: Index, sessions: Sessions, teid: Teid, t: Teid, rest: seq<Binding>)
    requires IsIndex(idx, sessions) && t in idx.uplink && SortedWithin(rest)
    requires forall b: Binding | b in rest :: exists v: Teid :: v != t && Elsewhere(idx, teid, v, b)
    ensures SortedWithin(rest + idx.uplink[t])
  {
    hide Better, Candidate, Passes, Elsewhere, Home;
    var bs := idx.uplink[t];
    assert SlotExact(idx, sessions, ByTeid(t)) && Listing(idx, ByTeid(t)) == bs;
    forall b: Binding | b in bs ensures Home(b) == Some(t) { BucketHome(idx, sessions, t, b); }
    forall b: Binding | b in rest ensures Home(b) != Some(t) {
      var v: Teid :| v != t && Elsewhere(idx, teid, v, b);
      ElsewhereCandidate(idx, sessions, teid, v, None, b);
    }
    var all := rest + bs;
    assert forall i | 0 <= i < |rest| :: all[i] in rest && Home(all[i]) != Some(t);
    assert forall j | |rest| <= j < |all| :: all[j] in bs && Home(all[j]) == Some(t);
    forall i, j | 0 <= i < j < |all| && Home(all[i]) == Home(all[j]) ensures !Better(all[j], all[i]) {
      if j < |rest| {
        assert !Better(rest[j], rest[i]);
      } else {
        assert !Better(bs[j - |rest|], bs[i - |rest|]);
      }
    }
  }

  lemma {:induction false} BucketHome(idx: Index, sessions: Sessions, t: Teid, b: Binding)
    requires IsIndex(idx, sessions) && t in idx.uplink && b in idx.uplink[t]
    ensures Home(b) == Some(t)
  {
    hide BindingOf, Better;
    assert SlotExact(idx, sessions, ByTeid(t)) && b in Listing(idx, ByTeid(t));
  }

  // ---- in raw terms ----

  /** The PDR's filters accept the packet: it has none, or one of them matches the parsed packet. */
  predicate Accepts(pdr: Pdr, meta: Option<Meta>, dir: Direction) {
    pdr.pdi.Some? && |pdr.pdi.value.sdf| > 0 ==>
      meta.Some? && exists i :: 0 <= i < |pdr.pdi.value.sdf| && RuleMatches(pdr.pdi.value.sdf[i], pdr.pdi.value.ue, meta.value, dir)
  }

  lemma {:induction false} MatchesMeans(pdr: Pdr, meta: Option<Meta>, dir: Direction)
    ensures Matches(pdr, meta, dir) <==> Accepts(pdr, meta, dir)
  {
    hide RuleMatches;
  }

  /** A core PDR with the UE address, or an access PDR with the TEID, that is installed and accepts. */
  predicate DownlinkPdr(sessions: Sessions, k: Seid, p: PdrId, ue: Ipv4, meta: Option<Meta>) {
    && k in sessions && p in sessions[k].pdrs
    && var pdr := sessions[k].pdrs[p];
       && pdr.pdi.Some? && pdr.pdi.value.srcIf == Some(Core) && pdr.pdi.value.ue == Some(ue) && Accepts(pdr, meta, Downlink)
  }

  predicate UplinkPdr(sessions: Sessions, k: Seid, p: PdrId, teid: Teid, meta: Option<Meta>) {
    && k in sessions && p in sessions[k].pdrs
    && var pdr := sessions[k].pdrs[p];
       && pdr.pdi.Some? && pdr.pdi.value.srcIf == Some(Access) && pdr.pdi.value.teid == Some(teid)
       && Accepts(pdr, meta, Uplink)
  }

  /** The first PDR ranks above the second: a larger precedence value, or the same and a smaller
      identifier. */
  predicate Above(a: Pdr, p: PdrId, b: Pdr, q: PdrId) {
    RankOf(a) > RankOf(b) || (RankOf(a) == RankOf(b) && p < q)
  }

  lemma {:induction false} CandidateMeans(sessions: Sessions, slot: Slot, meta: Option<Meta>, dir: Direction, b: Binding)
    requires dir == if slot.ByTeid? then Uplink else Downlink
    ensures Candidate(sessions, slot, meta, dir, b) <==>
      && (match slot
          case ByTeid(t) => UplinkPdr(sessions, b.seid, b.pdrId, t, meta)
          case ByAddress(a) => DownlinkPdr(sessions, b.seid, b.pdrId, a, meta))
      && b == BindingOf(b.seid, sessions[b.seid], b.pdrId)
  {
    hide Matches, Accepts, BindingOf;
    if Live(sessions, b) { BindingNames(b.seid, sessions[b.seid], b.pdrId); }
    if b.seid in sessions && b.pdrId in sessions[b.seid].pdrs {
      BindingNames(b.seid, sessions[b.seid], b.pdrId);
      MatchesMeans(sessions[b.seid].pdrs[b.pdrId], meta, dir);
    }
  }

  /** The best downlink candidate in raw terms: an installed core PDR with the UE address that accepts, and
      no other such PDR of any session ranks above it. */
  lemma {:induction false} BestDownlink(sessions: Sessions, ue: Ipv4, meta: Option<Meta>, b: Binding)
    requires Best(sessions, ByAddress(ue), meta, Downlink, b)
    ensures DownlinkPdr(sessions, b.seid, b.pdrId, ue, meta) && b.pdr == sessions[b.seid].pdrs[b.pdrId]
    ensures forall k: Seid, p: PdrId | DownlinkPdr(sessions, k, p, ue, meta) ::
      !Above(sessions[k].pdrs[p], p, b.pdr, b.pdrId)
  {
    hide Accepts, BindingOf, Matches, InSlot;
    CandidateMeans(sessions, ByAddress(ue), meta, Downlink, b);
    BindingNames(b.seid, sessions[b.seid], b.pdrId);
    forall k: Seid, p: PdrId | DownlinkPdr(sessions, k, p, ue, meta)
      ensures !Above(sessions[k].pdrs[p], p, b.pdr, b.pdrId)
    {
      var c := BindingOf(k, sessions[k], p);
      BindingNames(k, sessions[k], p);
      CandidateMeans(sessions, ByAddress(ue), meta, Downlink, c);
      assert Candidate(sessions, ByAddress(ue), meta, Downlink, c);
      assert !Better(c, b);
    }
  }

  /** No downlink candidate in raw terms. */
  lemma {:induction false} NoDownlink(sessions: Sessions, ue: Ipv4, meta: Option<Meta>)
    requires !exists b: Binding :: Candidate(sessions, ByAddress(ue), meta, Downlink, b)
    ensures forall k: Seid, p: PdrId :: !DownlinkPdr(sessions, k, p, ue, meta)
  {
    hide Accepts, BindingOf, Matches, InSlot, DownlinkPdr;
    forall k: Seid, p: PdrId ensures !DownlinkPdr(sessions, k, p, ue, meta) {
      if k in sessions && p in sessions[k].pdrs {
        var c := BindingOf(k, sessions[k], p);
        BindingNames(k, sessions[k], p);
        CandidateMeans(sessions, ByAddress(ue), meta, Downlink, c);
      } else {
        NotThere(sessions, k, p, ue, meta);
      }
    }
  }

  lemma {:induction false} NotThere(sessions: Sessions, k: Seid, p: PdrId, ue: Ipv4, meta: Option<Meta>)
    requires k !in sessions || p !in sessions[k].pdrs
    ensures !DownlinkPdr(sessions, k, p, ue, meta)
  {
  }

  /** The UE address of the PDR, if it has one, is the packet's, if that is known. */
  predicate SameUe(pdr: Pdr, ue: Option<Ipv4>) {
    pdr.pdi.Some? && pdr.pdi.value.ue.Some? && ue.Some? ==> pdr.pdi.value.ue.value == ue.value
  }

  /** The best uplink candidate of a TEID in raw terms. */
  lemma {:induction false} BestUplink(sessions: Sessions, teid: Teid, ue: Option<Ipv4>, meta: Option<Meta>, b: Binding)
    requires BestOf(sessions, teid, ue, meta, b)
    ensures UplinkPdr(sessions, b.seid, b.pdrId, teid, meta) && b.pdr == sessions[b.seid].pdrs[b.pdrId]
    ensures Agrees(b, ue) <==> SameUe(b.pdr, ue)
    ensures forall k: Seid, p: PdrId |
        UplinkPdr(sessions, k, p, teid, meta) && (SameUe(b.pdr, ue) ==> SameUe(sessions[k].pdrs[p], ue)) ::
      !Above(sessions[k].pdrs[p], p, b.pdr, b.pdrId)
  {
    hide Accepts, BindingOf, Matches, InSlot;
    CandidateMeans(sessions, ByTeid(teid), meta, Uplink, b);
    BindingNames(b.seid, sessions[b.seid], b.pdrId);
    forall k: Seid, p: PdrId |
        UplinkPdr(sessions, k, p, teid, meta) && (SameUe(b.pdr, ue) ==> SameUe(sessions[k].pdrs[p], ue))
      ensures !Above(sessions[k].pdrs[p], p, b.pdr, b.pdrId)
    {
      var c := BindingOf(k, sessions[k], p);
      BindingNames(k, sessions[k], p);
      CandidateMeans(sessions, ByTeid(teid), meta, Uplink, c);
      assert Candidate(sessions, ByTeid(teid), meta, Uplink, c);
      assert !Better(c, b);
    }
  }

  /** Whether some PDR of a TEID agrees, in raw terms. */
  lemma {:induction false} SomeAgreesMeans(sessions: Sessions, teid: Teid, ue: Option<Ipv4>, meta: Option<Meta>)
    ensures SomeAgrees(sessions, teid, ue, meta) <==>
      exists k: Seid, p: PdrId :: UplinkPdr(sessions, k, p, teid, meta) && SameUe(sessions[k].pdrs[p], ue)
  {
    hide Accepts, BindingOf, Matches, InSlot, Candidate;
    if SomeAgrees(sessions, teid, ue, meta) {
      var c: Binding :| Candidate(sessions, ByTeid(teid), meta, Uplink, c) && Agrees(c, ue);
      CandidateMeans(sessions, ByTeid(teid), meta, Uplink, c);
      BindingNames(c.seid, sessions[c.seid], c.pdrId);
      assert UplinkPdr(sessions, c.seid, c.pdrId, teid, meta) && SameUe(sessions[c.seid].pdrs[c.pdrId], ue);
    }
    if exists k: Seid, p: PdrId :: UplinkPdr(sessions, k, p, teid, meta) && SameUe(sessions[k].pdrs[p], ue) {
      var k: Seid, p: PdrId :| UplinkPdr(sessions, k, p, teid, meta) && SameUe(sessions[k].pdrs[p], ue);
      var c := BindingOf(k, sessions[k], p);
      BindingNames(k, sessions[k], p);
      CandidateMeans(sessions, ByTeid(teid), meta, Uplink, c);
      assert Candidate(sessions, ByTeid(teid), meta, Uplink, c) && Agrees(c, ue);
    }
  }
}
