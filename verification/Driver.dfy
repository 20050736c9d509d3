/** The userspace driver as a state machine: one step per critical section under its lock.
    Control steps install and remove rules; data steps buffer, meter and police packets,
    emit periodic reports, fire delayed notifications and start or end adaptive flows. */
module Driver {
  import opened Rules
  import RateLimit

  datatype DdnKey = DdnKey(seid: Seid, pdrId: PdrId)
  datatype Pending = Pending(payload: Payload, action: set<ApplyFlag>)

  datatype State = State(sessions: map<Seid, SessionState>, pending: map<DdnKey, Pending>)

  const INITIAL := State(map[], map[])

  /** The session stored for a SEID, or the one a first rule would create. */
  function Lookup(d: State, seid: Seid): SessionState {
    if seid in d.sessions then d.sessions[seid] else FRESH_SESSION
  }

  function Store(d: State, seid: Seid, s: SessionState): State {
    d.(sessions := d.sessions[seid := s])
  }

  predicate NoRules(s: SessionState) {
    s.pdrs == map[] && s.fars == map[] && s.qers == map[] && s.urrs == map[] && s.bars == map[]
  }

  predicate Disposable(s: SessionState) {
    NoRules(s) && s.urrReports == map[] && s.buffers == map[]
  }

  /** Storing after a removal: the session goes away with its last rule, accumulator and
      buffer, and takes its pending notifications with it. */
  function StoreOrDelete(d: State, seid: Seid, s: SessionState): State {
    if Disposable(s) then
      State(d.sessions - {seid}, map k | k in d.pending && k.seid != seid :: d.pending[k])
    else Store(d, seid, s)
  }

  function Cancel(d: State, keys: set<DdnKey>): State {
    d.(pending := d.pending - keys)
  }

  function Or<T>(next: Option<T>, prev: Option<T>): Option<T> {
    if next.Some? then next else prev
  }

  function OrSeq<T>(next: seq<T>, prev: seq<T>): seq<T> {
    if next != [] then next else prev
  }

  function MergePdi(prev: Pdi, next: Pdi): Pdi {
    Pdi(Or(next.srcIf, prev.srcIf), Or(next.teid, prev.teid), Or(next.ue, prev.ue), OrSeq(next.sdf, prev.sdf))
  }

  /** Partial update of a PDR: absent and empty fields keep their old value. */
  function MergePdr(prev: Pdr, next: Pdr): Pdr {
    Pdr(Or(next.precedence, prev.precedence),
        if next.pdi.Some? && prev.pdi.Some?
            then Some(MergePdi(prev.pdi.value, next.pdi.value)) else Or(next.pdi, prev.pdi),
        Or(next.farId, prev.farId),
        OrSeq(next.qerIds, prev.qerIds),
        OrSeq(next.urrIds, prev.urrIds))
  }

  /** Partial update of a FAR: no action bits keeps the old action. */
  function MergeFar(prev: Far, next: Far): Far {
    Far(if next.action != {} then next.action else prev.action,
        if next.forwarding.Some? && prev.forwarding.Some? then
          Some(Forwarding(Or(next.forwarding.value.dstIf, prev.forwarding.value.dstIf),
                          Or(next.forwarding.value.outer, prev.forwarding.value.outer)))
        else Or(next.forwarding, prev.forwarding),
        Or(next.barId, prev.barId))
  }

  const NO_PDR_CHANGE := Pdr(None, None, None, [], [])
  const NO_FAR_CHANGE := Far({}, None, None)

  /** Partial updates compose: an empty one changes nothing, the same one twice is one, and two
      after each other are the second laid over the first. */
  lemma {:induction false} MergePdrLaws(p: Pdr, a: Pdr, b: Pdr)
    ensures MergePdr(p, NO_PDR_CHANGE) == p && MergePdr(p, p) == p
    ensures MergePdr(MergePdr(p, a), b) == MergePdr(p, MergePdr(a, b))
    ensures MergePdr(NO_PDR_CHANGE, a) == a
  {
    if p.pdi.Some? && a.pdi.Some? && b.pdi.Some? { MergePdiLaws(p.pdi.value, a.pdi.value, b.pdi.value); }
    if p.pdi.Some? { MergePdiLaws(p.pdi.value, p.pdi.value, p.pdi.value); }
  }

  lemma {:induction false} MergePdiLaws(p: Pdi, a: Pdi, b: Pdi)
    ensures MergePdi(p, p) == p
    ensures MergePdi(MergePdi(p, a), b) == MergePdi(p, MergePdi(a, b))
  {
  }

  lemma {:induction false} MergeFarLaws(p: Far, a: Far, b: Far)
    ensures MergeFar(p, NO_FAR_CHANGE) == p && MergeFar(p, p) == p
    ensures MergeFar(MergeFar(p, a), b) == MergeFar(p, MergeFar(a, b))
    ensures MergeFar(NO_FAR_CHANGE, a) == a
  {
  }

  /** PDRs of a session that forward through a FAR. */
  function Users(s: SessionState, fid: FarId): set<PdrId> {
    set p | p in s.pdrs && s.pdrs[p].farId == Some(fid)
  }

  function Keys(seid: Seid, pdrs: set<PdrId>): set<DdnKey> {
    set p | p in pdrs :: DdnKey(seid, p)
  }

  /** The PDRs whose buffers a FAR update empties. */
  function Drained(s: SessionState, fid: FarId, prev: Far): set<PdrId> {
    if BUFF in prev.action then set p | p in Users(s, fid) && p in s.buffers && s.buffers[p] != [] else {}
  }

  datatype Reply = Reply(state: State, error: Option<Error>, reports: seq<Usage>)

  predicate Creates(req: Request) {
    req.CreatePdr? || req.CreateFar? || req.CreateQer? || req.CreateUrr? || req.CreateBar?
  }

  predicate Updates(req: Request) {
    req.UpdatePdr? || req.UpdateFar? || req.UpdateQer? || req.UpdateUrr? || req.UpdateBar?
  }

  predicate Removes(req: Request) {
    req.RemovePdr? || req.RemoveFar? || req.RemoveQer? || req.RemoveUrr? || req.RemoveBar?
  }

  /** The element decodes and names a rule: identifier zero means none was given. */
  predicate Decodes(req: Request) {
    match req
    case CreatePdr(id, _, ok) => ok && id != 0
    case UpdatePdr(id, _, ok, _) => ok && id != 0
    case CreateFar(id, _, ok) => ok && id != 0
    case UpdateFar(id, _, ok) => ok && id != 0
    case CreateQer(id, _, ok) => ok && id != 0
    case UpdateQer(id, _, ok) => ok && id != 0
    case CreateUrr(id, _, ok, _) => ok && id != 0
    case UpdateUrr(id, _, ok, _) => ok && id != 0
    case CreateBar(id, _, ok) => ok && id != 0
    case UpdateBar(id, _, ok) => ok && id != 0
    case _ => true
  }

  /** The rule the request names is installed in the session. */
  predicate Names(s: SessionState, req: Request) {
    match req
    case CreatePdr(id, _, _) => id in s.pdrs
    case UpdatePdr(id, _, _, _) => id in s.pdrs
    case RemovePdr(id, _) => id in s.pdrs
    case CreateFar(id, _, _) => id in s.fars
    case UpdateFar(id, _, _) => id in s.fars
    case RemoveFar(id) => id in s.fars
    case CreateQer(id, _, _) => id in s.qers
    case UpdateQer(id, _, _) => id in s.qers
    case RemoveQer(id) => id in s.qers
    case CreateUrr(id, _, _, _) => id in s.urrs
    case UpdateUrr(id, _, _, _) => id in s.urrs
    case RemoveUrr(id) => id in s.urrs
    case QueryUrr(id) => id in s.urrs
    case CreateBar(id, _, _) => id in s.bars
    case UpdateBar(id, _, _) => id in s.bars
    case RemoveBar(id) => id in s.bars
  }

  /** Why the driver refuses a request, if it does. */
  function Refusal(d: State, seid: Seid, req: Request): Option<Error> {
    if !Decodes(req) then Some(DecodeError)
    else if Creates(req) then None
    else if seid !in d.sessions then Some(SessionNotFound)
    else if !Names(d.sessions[seid], req) then Some(RuleNotFound)
    else None
  }

  function AfterPdr(s: SessionState, req: Request): SessionState
    requires req.CreatePdr? || ((req.UpdatePdr? || req.RemovePdr?) && req.pid in s.pdrs)
  {
    s.(pdrs := if req.CreatePdr? then s.pdrs[req.pid := req.pdr]
               else if req.UpdatePdr? then s.pdrs[req.pid := MergePdr(s.pdrs[req.pid], req.pdr)]
               else s.pdrs - {req.pid})
  }

  function AfterFar(s: SessionState, req: Request): SessionState
    requires req.CreateFar? || ((req.UpdateFar? || req.RemoveFar?) && req.fid in s.fars)
  {
    if req.CreateFar? then s.(fars := s.fars[req.fid := req.far])
    else if req.RemoveFar? then s.(fars := s.fars - {req.fid})
    else
      var prev := s.fars[req.fid];
      s.(fars := s.fars[req.fid := MergeFar(prev, req.far)], buffers := s.buffers - Drained(s, req.fid, prev))
  }

  function AfterQer(s: SessionState, req: Request): SessionState
    requires req.CreateQer? || req.UpdateQer? || req.RemoveQer?
  {
    s.(qers := if req.RemoveQer? then s.qers - {req.qid} else s.qers[req.qid := req.qer])
  }

  function AfterUrr(s: SessionState, req: Request): SessionState
    requires req.CreateUrr? || req.UpdateUrr? || req.RemoveUrr?
  {
    if req.RemoveUrr? then WithoutUrr(s, req.uid) else WithUrr(s, req.uid, req.urr, req.now)
  }

  function AfterBar(s: SessionState, req: Request): SessionState
    requires req.CreateBar? || req.UpdateBar? || req.RemoveBar?
  {
    s.(bars := if req.RemoveBar? then s.bars - {req.bid} else s.bars[req.bid := req.bar])
  }

  /** The session after an accepted request. */
  function After(s: SessionState, req: Request): SessionState
    requires !Creates(req) ==> Names(s, req)
  {
    match req
    case CreatePdr(_, _, _) | UpdatePdr(_, _, _, _) | RemovePdr(_, _) => AfterPdr(s, req)
    case CreateFar(_, _, _) | UpdateFar(_, _, _) | RemoveFar(_) => AfterFar(s, req)
    case CreateQer(_, _, _) | UpdateQer(_, _, _) | RemoveQer(_) => AfterQer(s, req)
    case CreateUrr(_, _, _, _) | UpdateUrr(_, _, _, _) | RemoveUrr(_) => AfterUrr(s, req)
    case CreateBar(_, _, _) | UpdateBar(_, _, _) | RemoveBar(_) => AfterBar(s, req)
    case QueryUrr(_) => s
  }

  /** PDRs whose pending notification an accepted request cancels. */
  function Cancelled(s: SessionState, req: Request): set<PdrId>
    requires !Creates(req) ==> Names(s, req)
  {
    match req
    case RemovePdr(id, _) => {id}
    case RemoveFar(id) => Users(s, id)
    case UpdateFar(id, _, _) => Drained(s, id, s.fars[id])
    case _ => {}
  }

  /** One call of the driver's rule interface. */
  function Apply(d: State, seid: Seid, req: Request): Reply {
    var e := Refusal(d, seid, req);
    if e.Some? then Reply(d, e, [])
    else
      var s := Lookup(d, seid);
      var c := Cancel(d, Keys(seid, Cancelled(s, req)));
      var s' := After(s, req);
      Reply(if Removes(req) then StoreOrDelete(c, seid, s') else Store(c, seid, s'),
            None,
            if req.RemoveUrr? || req.QueryUrr? then Accumulated(s, req.uid) else [])
  }

  function WithUrr(s: SessionState, id: UrrId, urr: Urr, now: Time): SessionState {
    s.(urrs := s.urrs[id := urr],
       urrPeriodAt := if id in s.urrPeriodAt then s.urrPeriodAt else s.urrPeriodAt[id := now])
  }

  function WithoutUrr(s: SessionState, id: UrrId): SessionState {
    s.(urrs := s.urrs - {id}, urrPeriodAt := s.urrPeriodAt - {id}, urrReports := s.urrReports - {id})
  }

  function Accumulated(s: SessionState, id: UrrId): seq<Usage> {
    if id in s.urrReports then s.urrReports[id] else []
  }

  // ---- what the state machine does with each kind of request ----

  lemma {:induction false} CancelNone(d: State, seid: Seid)
    ensures Cancel(d, Keys(seid, {})) == d
  {
    assert Keys(seid, {}) == {};
    assert d.pending - {} == d.pending;
  }

  lemma {:induction false} ApplyCreate(d: State, seid: Seid, req: Request)
    requires Creates(req)
    ensures Apply(d, seid, req) ==
      if Decodes(req) then Reply(Store(d, seid, After(Lookup(d, seid), req)), None, [])
      else Reply(d, Some(DecodeError), [])
  {
    CancelNone(d, seid);
    hide After, Decodes;
  }

  lemma {:induction false} ApplyUpdate(d: State, seid: Seid, req: Request)
    requires Updates(req)
    ensures var e := Refusal(d, seid, req);
      Apply(d, seid, req) ==
        if e.Some? then Reply(d, e, [])
        else
          var s := d.sessions[seid];
          var drained := if req.UpdateFar? then Drained(s, req.fid, s.fars[req.fid]) else {};
          Reply(Store(Cancel(d, Keys(seid, drained)), seid, After(s, req)), None, [])
  {
    CancelNone(d, seid);
    hide After, Decodes;
  }

  lemma {:induction false} ApplyRemove(d: State, seid: Seid, req: Request)
    requires Removes(req)
    ensures var e := Refusal(d, seid, req);
      Apply(d, seid, req) ==
        if e.Some? then Reply(d, e, [])
        else
          var s := d.sessions[seid];
          Reply(StoreOrDelete(Cancel(d, Keys(seid, Cancelled(s, req))), seid, After(s, req)), None,
                  if req.RemoveUrr? then Accumulated(s, req.uid) else [])
  {
    hide After, Decodes, Names;
  }

  // ---- usage metering ----

  function ZeroUsage(id: UrrId): Usage { Usage(id, {}, 0, 0, 0, 0, 0, 0) }

  predicate Reached(limit: Option<nat>, total: nat) { limit.Some? && 0 < limit.value <= total }

  /** The accumulator of one URR after a packet, with the limits it has reached. */
  function Count(acc: seq<Usage>, id: UrrId, urr: Urr, bytes: nat, up: bool): Usage {
    var u := if acc == [] then ZeroUsage(id) else acc[|acc| - 1];
    var total := u.total + bytes;
    Usage(u.urr,
          u.triggers + (if Reached(urr.threshold, total) then {VOLTH} else {})
                     + (if Reached(urr.quota, total) then {VOLQU} else {}),
          total,
          u.up + (if up then bytes else 0), u.down + (if up then 0 else bytes),
          u.totalPkts + 1,
          u.upPkts + (if up then 1 else 0), u.downPkts + (if up then 0 else 1))
  }

  function CountAll(reports: map<UrrId, seq<Usage>>, urrs: seq<(UrrId, Urr)>, bytes: nat, up: bool)
    : map<UrrId, seq<Usage>>
    decreases |urrs|
  {
    if urrs == [] then reports
    else
      var (id, urr) := urrs[|urrs| - 1];
      var rest := CountAll(reports, urrs[..|urrs| - 1], bytes, up);
      rest[id := [Count(if id in rest then rest[id] else [], id, urr, bytes, up)]]
  }

  // ---- periodic reports ----

  predicate PeriodElapsed(s: SessionState, id: UrrId, now: Time) {
    && id in s.urrs && s.urrs[id].perio && 0.0 < s.urrs[id].period
    && id in s.urrPeriodAt && now - s.urrPeriodAt[id] >= s.urrs[id].period
  }

  /** The URR emits a periodic report on a tick at `now`. */
  predicate Due(s: SessionState, id: UrrId, now: Time) {
    PeriodElapsed(s, id, now) && Accumulated(s, id) != []
  }

  /** A tick restarts the period of this URR: it elapsed, or it had never started. */
  predicate Restarts(s: SessionState, id: UrrId, now: Time) {
    PeriodElapsed(s, id, now) ||
    (id in s.urrs && s.urrs[id].perio && 0.0 < s.urrs[id].period && id !in s.urrPeriodAt)
  }

  function PeriodicReport(s: SessionState, id: UrrId): Usage
    requires Accumulated(s, id) != []
  {
    var acc := Accumulated(s, id);
    acc[|acc| - 1].(triggers := {PERIO})
  }

  function TickSession(s: SessionState, now: Time): SessionState {
    s.(urrReports := map u | u in s.urrReports :: if Due(s, u, now) then [ZeroUsage(u)] else s.urrReports[u],
       urrPeriodAt := map u | u in s.urrPeriodAt.Keys + s.urrs.Keys && (u in s.urrPeriodAt || Restarts(s, u, now)) ::
         if Restarts(s, u, now) then now else s.urrPeriodAt[u])
  }

  // ---- buffering ----

  function BufferLimit(b: Binding): nat {
    if b.bar.Some? && b.bar.value.suggestedCount.Some? then b.bar.value.suggestedCount.value else 0
  }

  /** The queue with one more packet, cut to its newest `limit` packets if there is a limit. */
  function Enqueue(queue: seq<Payload>, payload: Payload, limit: nat): seq<Payload> {
    var q := queue + [payload];
    if 0 < limit < |q| then q[|q| - limit..] else q
  }

  function BufferOf(s: SessionState, p: PdrId): seq<Payload> {
    if p in s.buffers then s.buffers[p] else []
  }

  predicate DelaysNotification(b: Binding) {
    && b.far.Some? && NOCP in b.far.value.action
    && b.bar.Some? && b.bar.value.delay.Some? && 0.0 < b.bar.value.delay.value
  }

  /** A packet put into its PDR's buffer; nothing happens if the session is gone. */
  function Buffer(d: State, b: Binding, payload: Payload): State {
    if b.seid in d.sessions then
      var s := d.sessions[b.seid];
      Store(d, b.seid, s.(buffers := s.buffers[b.pdrId := Enqueue(BufferOf(s, b.pdrId), payload, BufferLimit(b))]))
    else d
  }

  /** A buffered packet coalesces with the pending notification of its PDR, or starts one.
      This is a critical section of its own, after the one that buffers the packet. */
  function Schedule(d: State, b: Binding, payload: Payload): State {
    if DelaysNotification(b) then
      d.(pending := d.pending[DdnKey(b.seid, b.pdrId) := Pending(payload, b.far.value.action)])
    else d
  }

  // ---- adaptive flows ----

  /** What a profile overrides while its flow is active. */
  datatype Profile = Profile(gateUl: Option<bool>, gateDl: Option<bool>, mbrUl: nat, mbrDl: nat, duration: Time)

  predicate Uses(s: SessionState, q: QerId) {
    exists p :: p in s.pdrs && q in s.pdrs[p].qerIds
  }

  function UsedQers(s: SessionState): set<QerId> {
    set q | q in s.qers && Uses(s, q)
  }

  /** The installed QERs that some PDR uses, or all installed ones if no PDR uses any. */
  function AdaptiveQers(s: SessionState): set<QerId> {
    if UsedQers(s) != {} then UsedQers(s) else s.qers.Keys
  }

  function StartFlow(s: SessionState, flow: FlowId, p: Profile, now: Time): SessionState {
    var applied := AdaptiveQers(s);
    var o := Override(flow, p.gateUl, p.gateDl, p.mbrUl, p.mbrDl, Some(now + p.duration));
    s.(overrides := map q | q in s.overrides.Keys + applied :: if q in applied then o else s.overrides[q],
       flows := s.flows[flow := applied])
  }

  function EndFlow(s: SessionState, flow: FlowId): SessionState {
    if flow in s.flows then s.(overrides := s.overrides - s.flows[flow], flows := s.flows - {flow}) else s
  }

  // ---- steps ----

  datatype Event =
    | Control(seid: Seid, req: Request)
    | Buffered(binding: Binding, payload: Payload)
    | Scheduled(binding: Binding, payload: Payload)
    | Counted(binding: Binding, bytes: nat, up: bool)
    | Policed(binding: Binding, bytes: nat, dir: Direction, now: Time)
    | Ticked(now: Time)
    | NotificationDue(key: DdnKey)
    | FlowStarted(seid: Seid, flow: FlowId, profile: Profile, now: Time)
    | FlowEnded(seid: Seid, flow: FlowId)
    | FlowsReset

  /** Data steps work on bindings taken from any earlier snapshot; a binding whose session
      is gone has no effect. */
  function Step(d: State, e: Event): State {
    match e
    case Control(seid, req) => Apply(d, seid, req).state
    case Buffered(b, payload) => Buffer(d, b, payload)
    case Scheduled(b, payload) => Schedule(d, b, payload)
    case Counted(b, bytes, up) =>
      if b.seid !in d.sessions then d else
        var s := d.sessions[b.seid];
        Store(d, b.seid, s.(urrReports := CountAll(s.urrReports, b.urrs, bytes, up)))
    case Policed(b, bytes, dir, now) =>
      if b.seid !in d.sessions then d else
        var s := d.sessions[b.seid];
        Store(d, b.seid, s.(meters := RateLimit.Metered(s.meters, RateLimit.Offer(b.qers, s.overrides, bytes, dir,
            now)).0))
    case Ticked(now) => d.(sessions := map k | k in d.sessions :: TickSession(d.sessions[k], now))
    case NotificationDue(key) => Cancel(d, {key})
    case FlowStarted(seid, flow, p, now) =>
      if seid !in d.sessions then d else Store(d, seid, StartFlow(d.sessions[seid], flow, p, now))
    case FlowEnded(seid, flow) =>
      if seid !in d.sessions then d else Store(d, seid, EndFlow(d.sessions[seid], flow))
    case FlowsReset =>
      d.(sessions := map k | k in d.sessions :: d.sessions[k].(overrides := map[], flows := map[]))
  }

  function Run(d: State, events: seq<Event>): State
    decreases |events|
  {
    if events == [] then d else Run(Step(d, events[0]), events[1..])
  }

  lemma {:induction false} RunFirst(d: State, e: Event, rest: seq<Event>)
    ensures Run(d, [e] + rest) == Run(Step(d, e), rest)
  {
    hide Step;
    assert ([e] + rest)[1..] == rest;
  }

  lemma {:induction false} RunAppend(d: State, a: seq<Event>, e: Event)
    ensures Run(d, a + [e]) == Step(Run(d, a), e)
    decreases |a|
  {
    hide Step;
    if a == [] {
      assert a + [e] == [e];
    } else {
      assert (a + [e])[1..] == a[1..] + [e];
      RunAppend(Step(d, a[0]), a[1..], e);
    }
  }

  // ---- what every step keeps ----

  predicate Balanced(u: Usage) {
    u.total == u.up + u.down && u.totalPkts == u.upPkts + u.downPkts
  }

  /** An accumulator holds one report of its own URR, whose total is uplink plus downlink,
      in bytes and in packets. */
  predicate SoundReports(reports: map<UrrId, seq<Usage>>) {
    forall u | u in reports :: |reports[u]| == 1 && reports[u][0].urr == u && Balanced(reports[u][0])
  }

  predicate SoundSession(s: SessionState) {
    SoundReports(s.urrReports) && !Disposable(s)
  }

  /** No stored session is disposable, and all accumulators are sound. */
  predicate Sound(d: State) {
    forall k | k in d.sessions :: SoundSession(d.sessions[k])
  }

  lemma {:induction false} CountAllSound(reports: map<UrrId, seq<Usage>>, urrs: seq<(UrrId, Urr)>, bytes: nat, up: bool)
    requires SoundReports(reports)
    ensures SoundReports(CountAll(reports, urrs, bytes, up))
    ensures reports.Keys <= CountAll(reports, urrs, bytes, up).Keys
    decreases |urrs|
  {
    if urrs != [] {
      CountAllSound(reports, urrs[..|urrs| - 1], bytes, up);
    }
  }

  /** What no rule request touches, and what only some do. */
  predicate Frame(s: SessionState, req: Request, t: SessionState)
    requires !Creates(req) ==> Names(s, req)
  {
    && t.meters == s.meters && t.overrides == s.overrides && t.flows == s.flows
    && t.urrReports == (if req.RemoveUrr? then s.urrReports - {req.uid} else s.urrReports)
    && t.buffers == if req.UpdateFar? then s.buffers - Drained(s, req.fid, s.fars[req.fid]) else s.buffers
  }

  lemma {:induction false} AfterPdrFrame(s: SessionState, req: Request)
    requires req.CreatePdr? || ((req.UpdatePdr? || req.RemovePdr?) && req.pid in s.pdrs)
    ensures Frame(s, req, AfterPdr(s, req))
    ensures req.CreatePdr? || req.UpdatePdr? ==> req.pid in AfterPdr(s, req).pdrs
  {
    hide MergePdr;
  }

  lemma {:induction false} AfterFarFrame(s: SessionState, req: Request)
    requires req.CreateFar? || ((req.UpdateFar? || req.RemoveFar?) && req.fid in s.fars)
    ensures Frame(s, req, AfterFar(s, req))
    ensures req.CreateFar? || req.UpdateFar? ==> req.fid in AfterFar(s, req).fars
  {
    hide MergeFar, Drained;
  }

  lemma {:induction false} AfterUrrFrame(s: SessionState, req: Request)
    requires req.CreateUrr? || ((req.UpdateUrr? || req.RemoveUrr?) && req.uid in s.urrs)
    ensures Frame(s, req, AfterUrr(s, req))
    ensures req.CreateUrr? || req.UpdateUrr? ==> req.uid in AfterUrr(s, req).urrs
  {
  }

  lemma {:induction false} AfterFrame(s: SessionState, req: Request)
    requires !Creates(req) ==> Names(s, req)
    ensures Frame(s, req, After(s, req))
    ensures Creates(req) || Updates(req) ==> Names(After(s, req), req)
  {
    hide AfterPdr, AfterFar, AfterUrr, Drained;
    match req
    case CreatePdr(_, _, _) => AfterPdrFrame(s, req);
    case UpdatePdr(_, _, _, _) => AfterPdrFrame(s, req);
    case RemovePdr(_, _) => AfterPdrFrame(s, req);
    case CreateFar(_, _, _) => AfterFarFrame(s, req);
    case UpdateFar(_, _, _) => AfterFarFrame(s, req);
    case RemoveFar(_) => AfterFarFrame(s, req);
    case CreateUrr(_, _, _, _) => AfterUrrFrame(s, req);
    case UpdateUrr(_, _, _, _) => AfterUrrFrame(s, req);
    case RemoveUrr(_) => AfterUrrFrame(s, req);
    case _ =>
  }

  lemma {:induction false} NamesSomething(s: SessionState, req: Request)
    requires (Creates(req) || Updates(req)) && Names(s, req)
    ensures !NoRules(s)
  {
  }

  /** An accepted request keeps the accumulators sound, and only a removal can leave a
      session with nothing in it. */
  lemma {:induction false} AfterSound(s: SessionState, req: Request)
    requires !Creates(req) ==> Names(s, req)
    requires SoundReports(s.urrReports)
    ensures SoundReports(After(s, req).urrReports)
    ensures Creates(req) || Updates(req) ==> !Disposable(After(s, req))
    ensures req.QueryUrr? ==> After(s, req) == s
  {
    AfterFrame(s, req);
    if Creates(req) || Updates(req) { NamesSomething(After(s, req), req); }
    hide AfterPdr, AfterFar, AfterQer, AfterUrr, AfterBar, NoRules, Drained;
  }

  lemma {:induction false} FreshSound()
    ensures SoundReports(FRESH_SESSION.urrReports)
  {
  }

  lemma {:induction false} ControlSound(d: State, seid: Seid, req: Request)
    requires Sound(d)
    ensures Sound(Apply(d, seid, req).state)
  {
    hide After, Names, Decodes, Cancelled, SoundReports;
    if Refusal(d, seid, req).None? {
      var s := Lookup(d, seid);
      assert seid in d.sessions ==> SoundSession(d.sessions[seid]);
      FreshSound();
      AfterSound(s, req);
      var s' := After(s, req);
      var d' := Apply(d, seid, req).state;
      forall k | k in d'.sessions ensures SoundSession(d'.sessions[k]) {
        if k == seid { assert d'.sessions[k] == s'; } else { assert d'.sessions[k] == d.sessions[k]; }
      }
    }
  }

  lemma {:induction false} TickSound(d: State, now: Time)
    requires Sound(d)
    ensures Sound(Step(d, Ticked(now)))
  {
    var d' := Step(d, Ticked(now));
    forall k | k in d'.sessions ensures SoundSession(d'.sessions[k]) {
      assert SoundSession(d.sessions[k]);
      assert d'.sessions[k].urrReports.Keys == d.sessions[k].urrReports.Keys;
    }
  }

  lemma {:induction false} StepSound(d: State, e: Event)
    requires Sound(d)
    ensures Sound(Step(d, e))
  {
    hide Apply, TickSession, CountAll, SoundReports, Enqueue, RateLimit.Metered, AdaptiveQers;
    match e
    case Control(seid, req) => ControlSound(d, seid, req);
    case Ticked(now) => TickSound(d, now);
    case Counted(b, bytes, up) =>
      if b.seid in d.sessions { CountAllSound(d.sessions[b.seid].urrReports, b.urrs, bytes, up); }
    case Buffered(b, payload) =>
      if b.seid in d.sessions { assert b.pdrId in Step(d, e).sessions[b.seid].buffers; }
    case Scheduled(_, _) =>
    case Policed(_, _, _, _) =>
    case NotificationDue(_) =>
    case FlowStarted(_, _, _, _) =>
    case FlowEnded(_, _) =>
    case FlowsReset =>
  }

  /** Every state any run of events reaches is sound. */
  lemma {:induction false} RunSound(d: State, events: seq<Event>)
    requires Sound(d)
    ensures Sound(Run(d, events))
    decreases |events|
  {
    hide Step, Sound;
    if events != [] {
      StepSound(d, events[0]);
      RunSound(Step(d, events[0]), events[1..]);
    }
  }
}
