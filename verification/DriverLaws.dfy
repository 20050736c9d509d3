/** What the driver holds after a rule request, entry by entry and field by field. */
module DriverLaws {
  import opened Rules
  import opened Driver

  function PdrIn(d: State, seid: Seid, id: PdrId): Option<Pdr> {
    if seid in d.sessions && id in d.sessions[seid].pdrs then Some(d.sessions[seid].pdrs[id]) else None
  }

  function FarIn(d: State, seid: Seid, id: FarId): Option<Far> {
    if seid in d.sessions && id in d.sessions[seid].fars then Some(d.sessions[seid].fars[id]) else None
  }

  function QerIn(d: State, seid: Seid, id: QerId): Option<Qer> {
    if seid in d.sessions && id in d.sessions[seid].qers then Some(d.sessions[seid].qers[id]) else None
  }

  function UrrIn(d: State, seid: Seid, id: UrrId): Option<Urr> {
    if seid in d.sessions && id in d.sessions[seid].urrs then Some(d.sessions[seid].urrs[id]) else None
  }

  function BarIn(d: State, seid: Seid, id: BarId): Option<Bar> {
    if seid in d.sessions && id in d.sessions[seid].bars then Some(d.sessions[seid].bars[id]) else None
  }

  // ---- partial updates, field by field ----

  /** A field that the update gives wins, and one that it leaves out stays. */
  predicate Patched<T(==)>(m: Option<T>, prev: Option<T>, next: Option<T>) {
    && (next.Some? ==> m == next)
    && (next.None? ==> m == prev)
  }

  predicate PatchedList<T(==)>(m: seq<T>, prev: seq<T>, next: seq<T>) {
    && (next != [] ==> m == next)
    && (next == [] ==> m == prev)
  }

  predicate PatchedPdi(m: Pdi, prev: Pdi, next: Pdi) {
    && Patched(m.srcIf, prev.srcIf, next.srcIf) && Patched(m.teid, prev.teid, next.teid)
    && Patched(m.ue, prev.ue, next.ue) && PatchedList(m.sdf, prev.sdf, next.sdf)
  }

  predicate PatchedPdr(m: Pdr, prev: Pdr, next: Pdr) {
    && Patched(m.precedence, prev.precedence, next.precedence) && Patched(m.farId, prev.farId, next.farId)
    && PatchedList(m.qerIds, prev.qerIds, next.qerIds) && PatchedList(m.urrIds, prev.urrIds, next.urrIds)
    && (if prev.pdi.Some? && next.pdi.Some?
        then m.pdi.Some? && PatchedPdi(m.pdi.value, prev.pdi.value, next.pdi.value)
        else Patched(m.pdi, prev.pdi, next.pdi))
  }

  predicate PatchedFar(m: Far, prev: Far, next: Far) {
    && (next.action != {} ==> m.action == next.action) && (next.action == {} ==> m.action == prev.action)
    && Patched(m.barId, prev.barId, next.barId)
    && (if prev.forwarding.Some? && next.forwarding.Some?
        then
          && m.forwarding.Some?
          && Patched(m.forwarding.value.dstIf, prev.forwarding.value.dstIf, next.forwarding.value.dstIf)
          && Patched(m.forwarding.value.outer, prev.forwarding.value.outer, next.forwarding.value.outer)
        else Patched(m.forwarding, prev.forwarding, next.forwarding))
  }

  lemma {:induction false} MergesPatch(p: Pdr, q: Pdr, f: Far, g: Far)
    ensures PatchedPdr(MergePdr(p, q), p, q) && PatchedFar(MergeFar(f, g), f, g)
  {
  }

  // ---- which requests are accepted ----

  /** The driver can decode the element, and it names a rule. */
  predicate WellFormed(req: Request) {
    match req
    case CreatePdr(id, _, ok) => ok && id > 0
    case UpdatePdr(id, _, ok, _) => ok && id > 0
    case CreateFar(id, _, ok) => ok && id > 0
    case UpdateFar(id, _, ok) => ok && id > 0
    case CreateQer(id, _, ok) => ok && id > 0
    case UpdateQer(id, _, ok) => ok && id > 0
    case CreateUrr(id, _, ok, _) => ok && id > 0
    case UpdateUrr(id, _, ok, _) => ok && id > 0
    case CreateBar(id, _, ok) => ok && id > 0
    case UpdateBar(id, _, ok) => ok && id > 0
    case _ => true
  }

  /** What an update, removal or query needs: the rule of its kind is held under the SEID. */
  predicate Present(d: State, seid: Seid, req: Request) {
    match req
    case UpdatePdr(id, _, _, _) => PdrIn(d, seid, id).Some?
    case RemovePdr(id, _) => PdrIn(d, seid, id).Some?
    case UpdateFar(id, _, _) => FarIn(d, seid, id).Some?
    case RemoveFar(id) => FarIn(d, seid, id).Some?
    case UpdateQer(id, _, _) => QerIn(d, seid, id).Some?
    case RemoveQer(id) => QerIn(d, seid, id).Some?
    case UpdateUrr(id, _, _, _) => UrrIn(d, seid, id).Some?
    case RemoveUrr(id) => UrrIn(d, seid, id).Some?
    case QueryUrr(id) => UrrIn(d, seid, id).Some?
    case UpdateBar(id, _, _) => BarIn(d, seid, id).Some?
    case RemoveBar(id) => BarIn(d, seid, id).Some?
    case _ => true
  }

  /** A request is accepted exactly if it is well formed and the rule it needs is held; a refused one
      changes nothing and says what was missing. */
  lemma {:induction false} AcceptedExactly(d: State, seid: Seid, req: Request)
    ensures var r := Apply(d, seid, req);
      && (r.error.None? <==> WellFormed(req) && Present(d, seid, req))
      && (r.error == Some(DecodeError) <==> !WellFormed(req))
      && (r.error == Some(SessionNotFound) <==> WellFormed(req) && !Present(d, seid, req) && seid !in d.sessions)
      && (r.error == Some(RuleNotFound) <==> WellFormed(req) && !Present(d, seid, req) && seid in d.sessions)
      && (r.error.Some? ==> r.state == d && r.reports == [])
  {
    hide After, Cancelled, Cancel, Store, StoreOrDelete, Accumulated;
  }

  // ---- what an accepted request leaves ----

  /** The PDRs afterwards: the one the request names, and every other. */
  predicate PdrChanged(d: State, seid: Seid, req: Request, d': State, k: Seid, p: PdrId) {
    var was, now := PdrIn(d, k, p), PdrIn(d', k, p);
    if k == seid && req.CreatePdr? && req.pid == p then now == Some(req.pdr)
    else if k == seid && req.UpdatePdr? && req.pid == p
    then was.Some? && now.Some? && PatchedPdr(now.value, was.value, req.pdr)
    else if k == seid && req.RemovePdr? && req.pid == p then now.None?
    else now == was
  }

  ghost predicate PdrsChanged(d: State, seid: Seid, req: Request, d': State) {
    forall k: Seid, p: PdrId :: PdrChanged(d, seid, req, d', k, p)
  }

  predicate FarChanged(d: State, seid: Seid, req: Request, d': State, k: Seid, f: FarId) {
    var was, now := FarIn(d, k, f), FarIn(d', k, f);
    if k == seid && req.CreateFar? && req.fid == f then now == Some(req.far)
    else if k == seid && req.UpdateFar? && req.fid == f
    then was.Some? && now.Some? && PatchedFar(now.value, was.value, req.far)
    else if k == seid && req.RemoveFar? && req.fid == f then now.None?
    else now == was
  }

  ghost predicate FarsChanged(d: State, seid: Seid, req: Request, d': State) {
    forall k: Seid, f: FarId :: FarChanged(d, seid, req, d', k, f)
  }

  predicate QerChanged(d: State, seid: Seid, req: Request, d': State, k: Seid, q: QerId) {
    var was, now := QerIn(d, k, q), QerIn(d', k, q);
    if k == seid && (req.CreateQer? || req.UpdateQer?) && req.qid == q then now == Some(req.qer)
    else if k == seid && req.RemoveQer? && req.qid == q then now.None?
    else now == was
  }

  ghost predicate QersChanged(d: State, seid: Seid, req: Request, d': State) {
    forall k: Seid, q: QerId :: QerChanged(d, seid, req, d', k, q)
  }

  predicate UrrChanged(d: State, seid: Seid, req: Request, d': State, k: Seid, u: UrrId) {
    var was, now := UrrIn(d, k, u), UrrIn(d', k, u);
    if k == seid && (req.CreateUrr? || req.UpdateUrr?) && req.uid == u then now == Some(req.urr)
    else if k == seid && req.RemoveUrr? && req.uid == u then now.None?
    else now == was
  }

  ghost predicate UrrsChanged(d: State, seid: Seid, req: Request, d': State) {
    forall k: Seid, u: UrrId :: UrrChanged(d, seid, req, d', k, u)
  }

  predicate BarChanged(d: State, seid: Seid, req: Request, d': State, k: Seid, b: BarId) {
    var was, now := BarIn(d, k, b), BarIn(d', k, b);
    if k == seid && (req.CreateBar? || req.UpdateBar?) && req.bid == b then now == Some(req.bar)
    else if k == seid && req.RemoveBar? && req.bid == b then now.None?
    else now == was
  }

  ghost predicate BarsChanged(d: State, seid: Seid, req: Request, d': State) {
    forall k: Seid, b: BarId :: BarChanged(d, seid, req, d', k, b)
  }

  /** The session afterwards, or an empty one in its place. */
  lemma {:induction false} ApplySession(d: State, seid: Seid, req: Request)
    requires Refusal(d, seid, req).None?
    ensures var d' := Apply(d, seid, req).state;
      && (forall k: Seid | k != seid :: (k in d'.sessions <==> k in d.sessions)
            && (k in d.sessions ==> d'.sessions[k] == d.sessions[k]))
      && (seid in d'.sessions ==> d'.sessions[seid] == After(Lookup(d, seid), req))
      && (seid !in d'.sessions ==> Disposable(After(Lookup(d, seid), req)))
  {
    hide After, Disposable, Names, Decodes, Cancelled;
  }

  lemma {:induction false} AcceptedNames(d: State, seid: Seid, req: Request)
    requires Refusal(d, seid, req).None?
    ensures !Creates(req) ==> seid in d.sessions && Names(d.sessions[seid], req)
  {
    hide Names, Decodes;
  }

  function Get<T>(m: map<nat, T>, id: nat): Option<T> { if id in m then Some(m[id]) else None }

  lemma {:induction false} InLookup(d: State, k: Seid)
    ensures var t := Lookup(d, k);
      && (forall id: PdrId :: PdrIn(d, k, id) == Get(t.pdrs, id))
      && (forall id: FarId :: FarIn(d, k, id) == Get(t.fars, id))
      && (forall id: QerId :: QerIn(d, k, id) == Get(t.qers, id))
      && (forall id: UrrId :: UrrIn(d, k, id) == Get(t.urrs, id))
      && (forall id: BarId :: BarIn(d, k, id) == Get(t.bars, id))
  {
  }

  /** The rules of every session after an accepted request. */
  lemma {:induction false} RulesAfter(d: State, seid: Seid, req: Request, k: Seid)
    requires Refusal(d, seid, req).None?
    ensures var was, now := Lookup(d, k), Lookup(Apply(d, seid, req).state, k);
            var want := if k == seid then After(was, req) else was;
      && now.pdrs == want.pdrs && now.fars == want.fars && now.qers == want.qers && now.urrs == want.urrs
      && now.bars == want.bars
  {
    hide Apply, After, Refusal;
    ApplySession(d, seid, req);
    AcceptedNames(d, seid, req);
  }

  lemma {:induction false} OthersKeep(t: SessionState, req: Request)
    requires !Creates(req) ==> Names(t, req)
    ensures !(req.CreatePdr? || req.UpdatePdr? || req.RemovePdr?) ==> After(t, req).pdrs == t.pdrs
    ensures !(req.CreateFar? || req.UpdateFar? || req.RemoveFar?) ==> After(t, req).fars == t.fars
    ensures !(req.CreateQer? || req.UpdateQer? || req.RemoveQer?) ==> After(t, req).qers == t.qers
    ensures !(req.CreateUrr? || req.UpdateUrr? || req.RemoveUrr?) ==> After(t, req).urrs == t.urrs
    ensures !(req.CreateBar? || req.UpdateBar? || req.RemoveBar?) ==> After(t, req).bars == t.bars
  {
    hide MergePdr, MergeFar, Drained;
  }

  lemma {:induction false} NamedPdr(t: SessionState, req: Request, p: PdrId)
    requires !Creates(req) ==> Names(t, req)
    requires req.CreatePdr? || req.UpdatePdr? || req.RemovePdr?
    ensures var was, now := Get(t.pdrs, p), Get(After(t, req).pdrs, p);
      if req.pid != p then now == was
      else if req.CreatePdr? then now == Some(req.pdr)
      else if req.UpdatePdr? then was.Some? && now.Some? && PatchedPdr(now.value, was.value, req.pdr)
      else now.None?
  {
    hide MergePdr, PatchedPdr;
    if req.UpdatePdr? { MergesPatch(t.pdrs[req.pid], req.pdr, NO_FAR_CHANGE, NO_FAR_CHANGE); }
  }

  lemma {:induction false} NamedFar(t: SessionState, req: Request, f: FarId)
    requires !Creates(req) ==> Names(t, req)
    requires req.CreateFar? || req.UpdateFar? || req.RemoveFar?
    ensures var was, now := Get(t.fars, f), Get(After(t, req).fars, f);
      if req.fid != f then now == was
      else if req.CreateFar? then now == Some(req.far)
      else if req.UpdateFar? then was.Some? && now.Some? && PatchedFar(now.value, was.value, req.far)
      else now.None?
  {
    hide MergeFar, PatchedFar, Drained;
    if req.UpdateFar? { MergesPatch(NO_PDR_CHANGE, NO_PDR_CHANGE, t.fars[req.fid], req.far); }
  }

  lemma {:induction false} NamedQer(t: SessionState, req: Request, q: QerId)
    requires !Creates(req) ==> Names(t, req)
    requires req.CreateQer? || req.UpdateQer? || req.RemoveQer?
    ensures var was, now := Get(t.qers, q), Get(After(t, req).qers, q);
      if req.qid != q then now == was
      else if req.RemoveQer? then now.None?
      else now == Some(req.qer)
  {
    hide MergePdr, MergeFar, Drained;
  }

  lemma {:induction false} NamedUrr(t: SessionState, req: Request, u: UrrId)
    requires !Creates(req) ==> Names(t, req)
    requires req.CreateUrr? || req.UpdateUrr? || req.RemoveUrr?
    ensures var was, now := Get(t.urrs, u), Get(After(t, req).urrs, u);
      if req.uid != u then now == was
      else if req.RemoveUrr? then now.None?
      else now == Some(req.urr)
  {
    hide MergePdr, MergeFar, Drained;
  }

  lemma {:induction false} NamedBar(t: SessionState, req: Request, b: BarId)
    requires !Creates(req) ==> Names(t, req)
    requires req.CreateBar? || req.UpdateBar? || req.RemoveBar?
    ensures var was, now := Get(t.bars, b), Get(After(t, req).bars, b);
      if req.bid != b then now == was
      else if req.RemoveBar? then now.None?
      else now == Some(req.bar)
  {
    hide MergePdr, MergeFar, Drained;
  }

  lemma {:induction false} PdrEntry(d: State, seid: Seid, req: Request, k: Seid, p: PdrId)
    requires Refusal(d, seid, req).None?
    ensures PdrChanged(d, seid, req, Apply(d, seid, req).state, k, p)
  {
    hide After, Lookup, Apply, PatchedPdr, Refusal, Names, Get, PdrIn;
    RulesAfter(d, seid, req, k);
    InLookup(d, k);
    InLookup(Apply(d, seid, req).state, k);
    if k == seid {
      LookupNames(d, seid, req);
      OthersKeep(Lookup(d, seid), req);
      if req.CreatePdr? || req.UpdatePdr? || req.RemovePdr? { NamedPdr(Lookup(d, seid), req, p); }
    }
  }

  lemma {:induction false} PdrLaw(d: State, seid: Seid, req: Request)
    requires Refusal(d, seid, req).None?
    ensures PdrsChanged(d, seid, req, Apply(d, seid, req).state)
  {
    hide Apply, Refusal, PdrChanged;
    forall k: Seid, p: PdrId ensures PdrChanged(d, seid, req, Apply(d, seid, req).state, k, p) {
      PdrEntry(d, seid, req, k, p);
    }
  }

  lemma {:induction false} FarEntry(d: State, seid: Seid, req: Request, k: Seid, f: FarId)
    requires Refusal(d, seid, req).None?
    ensures FarChanged(d, seid, req, Apply(d, seid, req).state, k, f)
  {
    hide After, Lookup, Apply, PatchedFar, Refusal, Names, Get, FarIn;
    RulesAfter(d, seid, req, k);
    InLookup(d, k);
    InLookup(Apply(d, seid, req).state, k);
    if k == seid {
      LookupNames(d, seid, req);
      OthersKeep(Lookup(d, seid), req);
      if req.CreateFar? || req.UpdateFar? || req.RemoveFar? { NamedFar(Lookup(d, seid), req, f); }
    }
  }

  lemma {:induction false} FarLaw(d: State, seid: Seid, req: Request)
    requires Refusal(d, seid, req).None?
    ensures FarsChanged(d, seid, req, Apply(d, seid, req).state)
  {
    hide Apply, Refusal, FarChanged;
    forall k: Seid, f: FarId ensures FarChanged(d, seid, req, Apply(d, seid, req).state, k, f) {
      FarEntry(d, seid, req, k, f);
    }
  }

  lemma {:induction false} QerEntry(d: State, seid: Seid, req: Request, k: Seid, q: QerId)
    requires Refusal(d, seid, req).None?
    ensures QerChanged(d, seid, req, Apply(d, seid, req).state, k, q)
  {
    hide After, Lookup, Apply, Refusal, Names, Decodes, Get, QerIn;
    RulesAfter(d, seid, req, k);
    InLookup(d, k);
    InLookup(Apply(d, seid, req).state, k);
    if k == seid {
      LookupNames(d, seid, req);
      OthersKeep(Lookup(d, seid), req);
      if req.CreateQer? || req.UpdateQer? || req.RemoveQer? { NamedQer(Lookup(d, seid), req, q); }
    }
  }

  lemma {:induction false} QerLaw(d: State, seid: Seid, req: Request)
    requires Refusal(d, seid, req).None?
    ensures QersChanged(d, seid, req, Apply(d, seid, req).state)
  {
    hide Apply, Refusal, QerChanged;
    forall k: Seid, q: QerId ensures QerChanged(d, seid, req, Apply(d, seid, req).state, k, q) {
      QerEntry(d, seid, req, k, q);
    }
  }

  lemma {:induction false} UrrEntry(d: State, seid: Seid, req: Request, k: Seid, u: UrrId)
    requires Refusal(d, seid, req).None?
    ensures UrrChanged(d, seid, req, Apply(d, seid, req).state, k, u)
  {
    hide After, Lookup, Apply, Refusal, Names, Decodes, Get, UrrIn;
    RulesAfter(d, seid, req, k);
    InLookup(d, k);
    InLookup(Apply(d, seid, req).state, k);
    if k == seid {
      LookupNames(d, seid, req);
      OthersKeep(Lookup(d, seid), req);
      if req.CreateUrr? || req.UpdateUrr? || req.RemoveUrr? { NamedUrr(Lookup(d, seid), req, u); }
    }
  }

  lemma {:induction false} UrrLaw(d: State, seid: Seid, req: Request)
    requires Refusal(d, seid, req).None?
    ensures UrrsChanged(d, seid, req, Apply(d, seid, req).state)
  {
    hide Apply, Refusal, UrrChanged;
    forall k: Seid, u: UrrId ensures UrrChanged(d, seid, req, Apply(d, seid, req).state, k, u) {
      UrrEntry(d, seid, req, k, u);
    }
  }

  lemma {:induction false} BarEntry(d: State, seid: Seid, req: Request, k: Seid, b: BarId)
    requires Refusal(d, seid, req).None?
    ensures BarChanged(d, seid, req, Apply(d, seid, req).state, k, b)
  {
    hide After, Lookup, Apply, Refusal, Names, Decodes, Get, BarIn;
    RulesAfter(d, seid, req, k);
    InLookup(d, k);
    InLookup(Apply(d, seid, req).state, k);
    if k == seid {
      LookupNames(d, seid, req);
      OthersKeep(Lookup(d, seid), req);
      if req.CreateBar? || req.UpdateBar? || req.RemoveBar? { NamedBar(Lookup(d, seid), req, b); }
    }
  }

  lemma {:induction false} BarLaw(d: State, seid: Seid, req: Request)
    requires Refusal(d, seid, req).None?
    ensures BarsChanged(d, seid, req, Apply(d, seid, req).state)
  {
    hide Apply, Refusal, BarChanged;
    forall k: Seid, b: BarId ensures BarChanged(d, seid, req, Apply(d, seid, req).state, k, b) {
      BarEntry(d, seid, req, k, b);
    }
  }

  lemma {:induction false} LookupNames(d: State, seid: Seid, req: Request)
    requires Refusal(d, seid, req).None?
    ensures !Creates(req) ==> Names(Lookup(d, seid), req)
  {
    hide Names, Decodes;
  }

  /** After an accepted request: the rule it creates or updates is held with the request's value, for
      PDRs and FARs field by field; the rule it removes is not held; and every other rule of every kind,
      of this session and of all others, is held as before. */
  lemma {:induction false} RequestLaw(d: State, seid: Seid, req: Request)
    requires WellFormed(req) && Present(d, seid, req)
    ensures var d' := Apply(d, seid, req).state;
      && PdrsChanged(d, seid, req, d') && FarsChanged(d, seid, req, d') && QersChanged(d, seid, req, d')
      && UrrsChanged(d, seid, req, d') && BarsChanged(d, seid, req, d')
  {
    hide Apply, PdrsChanged, FarsChanged, QersChanged, UrrsChanged, BarsChanged, WellFormed, Present;
    NotRefused(d, seid, req);
    PdrLaw(d, seid, req);
    FarLaw(d, seid, req);
    QerLaw(d, seid, req);
    UrrLaw(d, seid, req);
    BarLaw(d, seid, req);
  }

  lemma {:induction false} NotRefused(d: State, seid: Seid, req: Request)
    requires WellFormed(req) && Present(d, seid, req)
    ensures Refusal(d, seid, req).None?
  {
  }

  // ---- reports, periods and notifications ----

  /** A removal or query of a URR replies with its accumulator, and nothing else replies. */
  lemma {:induction false} RepliesExactly(d: State, seid: Seid, req: Request)
    requires WellFormed(req) && Present(d, seid, req)
    ensures Apply(d, seid, req).reports ==
      if (req.RemoveUrr? || req.QueryUrr?) && req.uid in d.sessions[seid].urrReports
      then d.sessions[seid].urrReports[req.uid] else []
  {
    hide After, Cancelled, Cancel, Store, StoreOrDelete;
    NotRefused(d, seid, req);
  }

  /** While the session stays: a created or updated URR starts its period unless one runs, a removed one
      has none, and no other period changes. */
  lemma {:induction false} PeriodLaw(d: State, seid: Seid, req: Request, u: UrrId)
    requires WellFormed(req) && Present(d, seid, req)
    requires seid in Apply(d, seid, req).state.sessions
    ensures var now := Apply(d, seid, req).state.sessions[seid].urrPeriodAt;
            var ran := seid in d.sessions && u in d.sessions[seid].urrPeriodAt;
      if (req.CreateUrr? || req.UpdateUrr?) && req.uid == u
      then u in now && now[u] == if ran then d.sessions[seid].urrPeriodAt[u] else req.now
      else if req.RemoveUrr? && req.uid == u then u !in now
      else (u in now <==> ran) && (ran ==> now[u] == d.sessions[seid].urrPeriodAt[u])
  {
    hide Apply, MergePdr, MergeFar, Drained;
    NotRefused(d, seid, req);
    ApplySession(d, seid, req);
    AcceptedNames(d, seid, req);
  }

  /** The request silences the PDR's notification: it removes the PDR or the FAR it forwards through, or
      updates that FAR, which buffers, while the PDR's buffer holds something. */
  predicate Silences(d: State, seid: Seid, req: Request, p: PdrId) {
    var pdr := PdrIn(d, seid, p);
    || (req.RemovePdr? && req.pid == p)
    || (req.RemoveFar? && pdr.Some? && pdr.value.farId == Some(req.fid))
    || (req.UpdateFar? && pdr.Some? && pdr.value.farId == Some(req.fid)
        && FarIn(d, seid, req.fid).Some? && BUFF in FarIn(d, seid, req.fid).value.action
        && p in d.sessions[seid].buffers && d.sessions[seid].buffers[p] != [])
  }

  /** An accepted request takes away exactly the notifications it silences, and all of a session that
      goes with it; the others stay as they are. */
  lemma {:induction false} PendingLaw(d: State, seid: Seid, req: Request, key: DdnKey)
    requires WellFormed(req) && Present(d, seid, req)
    ensures var d' := Apply(d, seid, req).state;
      && (key in d'.pending <==>
            && key in d.pending
            && !(key.seid == seid && (Silences(d, seid, req, key.pdrId) || (Removes(req) && seid !in d'.sessions))))
      && (key in d'.pending ==> d'.pending[key] == d.pending[key])
  {
    hide After, Disposable;
    NotRefused(d, seid, req);
    AcceptedNames(d, seid, req);
    SilencesCancelled(Lookup(d, seid), d, seid, req, key.pdrId);
    hide Cancelled, Names, Decodes, Silences;
  }

  lemma {:induction false} SilencesCancelled(t: SessionState, d: State, seid: Seid, req: Request, p: PdrId)
    requires t == Lookup(d, seid) && (!Creates(req) ==> seid in d.sessions && Names(t, req))
    ensures p in Cancelled(t, req) <==> Silences(d, seid, req, p)
  {
  }

  /** A session is there after an accepted request unless it was a removal that left no rule, no
      accumulator and no buffer. */
  lemma {:induction false} SessionStays(d: State, seid: Seid, req: Request)
    requires WellFormed(req) && Present(d, seid, req)
    ensures seid !in Apply(d, seid, req).state.sessions <==>
      && Removes(req)
      && var t := After(Lookup(d, seid), req);
         && t.pdrs.Keys == {} && t.fars.Keys == {} && t.qers.Keys == {} && t.urrs.Keys == {} && t.bars.Keys == {}
         && t.urrReports.Keys == {} && t.buffers.Keys == {}
  {
    hide After, Cancelled;
    NotRefused(d, seid, req);
  }
}
