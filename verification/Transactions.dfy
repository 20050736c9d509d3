/** PFCP transactions (section 6.4 of 3GPP TS 29.244): retransmission of requests, and
    suppression of duplicate requests, as one event loop with its timers.  A timer that
    fires puts a notification on a channel, which the loop handles later. */
module Transactions {
  import opened Rules

  type Bytes = seq<Byte>

  /** Transactions are keyed by peer address and sequence number. */
  datatype TrId = TrId(peer: string, seqNo: nat)

  datatype Kind = TX | RX
  datatype Timer = Timer(kind: Kind, id: TrId)

  /** A received request: the stored response, if one was sent, and when its timer expires. */
  datatype RxEntry = RxEntry(response: Option<Bytes>, expires: Time)
  datatype TxEntry = TxEntry(request: Bytes, retransmitted: nat)

  datatype Config = Config(maxRetrans: Byte, period: Time)

  /** `armed` and `queued` are the timers that run and the notifications that wait on the
      channel or to get onto it. */
  datatype State = State(
    rx: map<TrId, RxEntry>,
    tx: map<TrId, TxEntry>,
    armed: multiset<Timer>,
    queued: multiset<Timer>,
    sent: nat,
    now: Time)

  const INITIAL := State(map[], map[], multiset{}, multiset{}, 0, 0.0)
  const SEQ_WRAP: nat := 0x1_0000_0000

  datatype Event =
    | Request(id: TrId, answer: Option<Bytes>)
    | Response(id: TrId)
    | Send(peer: string, request: Bytes)
    | Fire(timer: Timer)
    | Handle(timer: Timer)

  /** An event and the time of its step. */
  datatype Timed = Timed(at: Time, event: Event)

  datatype Output =
    | Transmit(id: TrId, message: Bytes)
    | Reply(id: TrId, message: Bytes)
    | Dispatch(id: TrId)
    | DispatchResponse(id: TrId)
    | DispatchTimeout(id: TrId)

  function Times(period: Time, n: nat): Time { period * n as real }

  /** The lifetime of a received request; the retry count is incremented in eight bits. */
  function RxLifetime(c: Config): Time {
    Times(c.period, (c.maxRetrans + 1) % 0x100)
  }

  /** Time does not go back, only armed timers fire and not before they expire, and only
      queued notifications are handled. */
  predicate Enabled(s: State, e: Timed) {
    && s.now <= e.at
    && (e.event.Fire? ==> e.event.timer in s.armed)
    && (e.event.Fire? && e.event.timer.kind.RX? && e.event.timer.id in s.rx ==> s.rx[e.event.timer.id].expires <= e.at)
    && (e.event.Handle? ==> e.event.timer in s.queued)
  }

  function NextId(s: State, peer: string): TrId { TrId(peer, s.sent % SEQ_WRAP) }

  /** A received request: a duplicate gets the stored response or nothing; a fresh one is
      recorded with a timer and dispatched, and `answer` is the response its handler sends,
      if it sends one. */
  function OnRequest(c: Config, s: State, id: TrId, answer: Option<Bytes>): (State, seq<Output>) {
    if id in s.rx then
      (s, if s.rx[id].response.Some? then [Reply(id, s.rx[id].response.value)] else [])
    else
      (s.(rx := s.rx[id := RxEntry(answer, s.now + RxLifetime(c))], armed := s.armed + multiset{Timer(RX, id)}),
       [Dispatch(id)] + if answer.Some? then [Reply(id, answer.value)] else [])
  }

  /** A received response ends its transaction; stopping a timer that has fired already does
      not take its notification back. */
  function OnResponse(s: State, id: TrId): (State, seq<Output>) {
    if id in s.tx then
      (s.(tx := s.tx - {id}, armed := s.armed - multiset{Timer(TX, id)}), [DispatchResponse(id)])
    else (s, [])
  }

  function OnSend(s: State, peer: string, request: Bytes): (State, seq<Output>) {
    var id := NextId(s, peer);
    (s.(tx := s.tx[id := TxEntry(request, 0)], armed := s.armed + multiset{Timer(TX, id)}, sent := s.sent + 1),
     [Transmit(id, request)])
  }

  function OnFire(s: State, t: Timer): State {
    s.(armed := s.armed - multiset{t}, queued := s.queued + multiset{t})
  }

  /** A handled notification ends a received request, retransmits a sent one or, after the
      last retransmission, gives it up; it does nothing if the request is gone. */
  function OnTimeout(c: Config, s: State, t: Timer): (State, seq<Output>) {
    match t.kind
    case RX => (s.(rx := s.rx - {t.id}), [])
    case TX =>
      if t.id !in s.tx then (s, [])
      else
        var entry := s.tx[t.id];
        if entry.retransmitted < c.maxRetrans then
          (s.(tx := s.tx[t.id := entry.(retransmitted := entry.retransmitted + 1)], armed := s.armed + multiset{t}),
           [Transmit(t.id, entry.request)])
        else (s.(tx := s.tx - {t.id}), [DispatchTimeout(t.id)])
  }

  /** One turn of the loop: the new state and what goes out. */
  function Step(c: Config, before: State, e: Timed): (State, seq<Output>) {
    var s := before.(now := e.at);
    match e.event
    case Request(id, answer) => OnRequest(c, s, id, answer)
    case Response(id) => OnResponse(s, id)
    case Send(peer, request) => OnSend(s, peer, request)
    case Fire(t) => (OnFire(s, t), [])
    case Handle(t) => OnTimeout(c, s.(queued := s.queued - multiset{t}), t)
  }

  function Run(c: Config, s: State, events: seq<Timed>): State
    decreases |events|
  {
    if events == [] then s else Run(c, Step(c, s, events[0]).0, events[1..])
  }

  function Outputs(c: Config, s: State, events: seq<Timed>): seq<Output>
    decreases |events|
  {
    if events == [] then [] else Step(c, s, events[0]).1 + Outputs(c, Step(c, s, events[0]).0, events[1..])
  }

  predicate Possible(c: Config, s: State, events: seq<Timed>)
    decreases |events|
  {
    events == [] || (Enabled(s, events[0]) && Possible(c, Step(c, s, events[0]).0, events[1..]))
  }

  // ---- what every turn keeps ----

  function Outstanding(s: State, t: Timer): nat { s.armed[t] + s.queued[t] }

  /** A received request has exactly one outstanding timer, which is not queued before it
      expires; an unknown identifier has none. */
  predicate RxOk(s: State, id: TrId) {
    && Outstanding(s, Timer(RX, id)) == (if id in s.rx then 1 else 0)
    && (id in s.rx && s.queued[Timer(RX, id)] > 0 ==> s.rx[id].expires <= s.now)
  }

  /** A request in the table has exactly one outstanding timer; one that has left it has no
      armed timer, at most one stale notification, and its number is used up. */
  predicate TxOk(c: Config, s: State, id: TrId) {
    && (id in s.tx ==> Outstanding(s, Timer(TX, id)) == 1 && s.tx[id].retransmitted <= c.maxRetrans)
    && (id !in s.tx ==> s.armed[Timer(TX, id)] == 0 && s.queued[Timer(TX, id)] <= 1)
    && (id in s.tx || s.queued[Timer(TX, id)] > 0 ==> id.seqNo < s.sent)
  }

  ghost predicate Inv(c: Config, s: State) {
    forall id: TrId :: RxOk(s, id) && TxOk(c, s, id)
  }

  lemma {:induction false} StepRxOk(c: Config, s: State, e: Timed, id: TrId)
    requires RxOk(s, id) && Enabled(s, e)
    ensures RxOk(Step(c, s, e).0, id)
  {
    hide RxLifetime, NextId, OnRequest, OnResponse, OnSend, OnFire, OnTimeout;
    var s1 := s.(now := e.at);
    assert RxOk(s1, id);
    match e.event
    case Request(x, answer) => RequestRx(c, s1, x, answer, id);
    case Response(x) => ResponseRx(s1, x, id);
    case Send(peer, request) => SendRx(s1, peer, request, id);
    case Fire(t) => FireRx(s1, t, id);
    case Handle(t) => HandleRx(c, s1, t, id);
  }

  lemma {:induction false} RequestRx(c: Config, s: State, x: TrId, answer: Option<Bytes>, id: TrId)
    requires RxOk(s, id)
    ensures RxOk(OnRequest(c, s, x, answer).0, id)
  {
    hide RxLifetime;
    assert x != id ==> Timer(RX, x) != Timer(RX, id);
  }

  lemma {:induction false} ResponseRx(s: State, x: TrId, id: TrId)
    requires RxOk(s, id)
    ensures RxOk(OnResponse(s, x).0, id)
  {
    assert Timer(TX, x) != Timer(RX, id);
  }

  lemma {:induction false} SendRx(s: State, peer: string, request: Bytes, id: TrId)
    requires RxOk(s, id)
    ensures RxOk(OnSend(s, peer, request).0, id)
  {
    hide NextId;
    assert Timer(TX, NextId(s, peer)) != Timer(RX, id);
  }

  lemma {:induction false} FireRx(s: State, t: Timer, id: TrId)
    requires RxOk(s, id) && t in s.armed
    requires t.kind.RX? && t.id in s.rx ==> s.rx[t.id].expires <= s.now
    ensures RxOk(OnFire(s, t), id)
  {
  }

  lemma {:induction false} HandleRx(c: Config, s: State, t: Timer, id: TrId)
    requires RxOk(s, id) && t in s.queued
    ensures RxOk(OnTimeout(c, s.(queued := s.queued - multiset{t}), t).0, id)
  {
    if t.kind.TX? {
      assert t != Timer(RX, id);
    } else if t != Timer(RX, id) {
      assert t.id != id;
    }
  }

  lemma {:induction false} NextIdFresh(s: State, peer: string)
    requires s.sent < SEQ_WRAP
    ensures NextId(s, peer) == TrId(peer, s.sent)
  {
  }

  /** Nothing of an earlier request under this identifier is left. */
  predicate Free(s: State, id: TrId) {
    id !in s.tx && Outstanding(s, Timer(TX, id)) == 0
  }

  /** A turn that sends finds its number free. */
  predicate NumberFree(s: State, e: Timed) {
    e.event.Send? ==> Free(s, NextId(s, e.event.peer))
  }

  lemma {:induction false} StepTxOk(c: Config, s: State, e: Timed, id: TrId)
    requires TxOk(c, s, id) && Enabled(s, e) && NumberFree(s, e)
    ensures TxOk(c, Step(c, s, e).0, id)
  {
    hide RxLifetime, NextId, OnRequest, OnResponse, OnSend, OnFire, OnTimeout;
    var s1 := s.(now := e.at);
    assert TxOk(c, s1, id);
    match e.event
    case Request(x, answer) => RequestTx(c, s1, x, answer, id);
    case Response(x) => ResponseTx(c, s1, x, id);
    case Send(peer, request) =>
      SameNext(s, e.at, peer);
      SendTx(c, s1, peer, request, id);
    case Fire(t) => FireTx(c, s1, t, id);
    case Handle(t) => HandleTx(c, s1, t, id);
  }

  lemma {:induction false} SameNext(s: State, at: Time, peer: string)
    ensures NextId(s.(now := at), peer) == NextId(s, peer)
    ensures Free(s.(now := at), NextId(s, peer)) <==> Free(s, NextId(s, peer))
  {
  }

  lemma {:induction false} RequestTx(c: Config, s: State, x: TrId, answer: Option<Bytes>, id: TrId)
    requires TxOk(c, s, id)
    ensures TxOk(c, OnRequest(c, s, x, answer).0, id)
  {
    hide RxLifetime;
    assert Timer(RX, x) != Timer(TX, id);
  }

  lemma {:induction false} ResponseTx(c: Config, s: State, x: TrId, id: TrId)
    requires TxOk(c, s, id)
    ensures TxOk(c, OnResponse(s, x).0, id)
  {
    assert x != id ==> Timer(TX, x) != Timer(TX, id);
  }

  lemma {:induction false} SendTx(c: Config, s: State, peer: string, request: Bytes, id: TrId)
    requires TxOk(c, s, id) && Free(s, NextId(s, peer))
    ensures TxOk(c, OnSend(s, peer, request).0, id)
  {
    NextIdSmall(s, peer);
    hide NextId;
    var x := NextId(s, peer);
    assert x != id ==> Timer(TX, x) != Timer(TX, id);
  }

  lemma {:induction false} NextIdSmall(s: State, peer: string)
    ensures NextId(s, peer).seqNo <= s.sent
  {
  }

  lemma {:induction false} FireTx(c: Config, s: State, t: Timer, id: TrId)
    requires TxOk(c, s, id) && t in s.armed
    ensures TxOk(c, OnFire(s, t), id)
  {
  }

  lemma {:induction false} HandleTx(c: Config, s: State, t: Timer, id: TrId)
    requires TxOk(c, s, id) && t in s.queued
    ensures TxOk(c, OnTimeout(c, s.(queued := s.queued - multiset{t}), t).0, id)
  {
    if t.kind.RX? {
      assert t != Timer(TX, id);
    } else if t != Timer(TX, id) {
      assert t.id != id;
    }
  }

  /** How many requests the turns send. */
  function Sends(events: seq<Timed>): nat {
    if events == [] then 0 else (if events[0].event.Send? then 1 else 0) + Sends(events[1..])
  }

  /** The requests of the run do not use up the sequence numbers. */
  predicate Unwrapped(s: State, events: seq<Timed>) {
    s.sent + Sends(events) <= SEQ_WRAP
  }

  lemma {:induction false} StepCounts(c: Config, s: State, e: Timed)
    ensures Step(c, s, e).0.sent == s.sent + if e.event.Send? then 1 else 0
  {
    hide NextId, RxLifetime;
  }

  lemma {:induction false} StepKeepsInv(c: Config, s: State, e: Timed)
    requires Inv(c, s) && Enabled(s, e) && NumberFree(s, e)
    ensures Inv(c, Step(c, s, e).0)
  {
    hide RxOk, TxOk, Step, NumberFree;
    forall id: TrId ensures RxOk(Step(c, s, e).0, id) && TxOk(c, Step(c, s, e).0, id) {
      StepRxOk(c, s, e, id);
      StepTxOk(c, s, e, id);
    }
  }

  /** The exact condition under which sending keeps the sender's invariant, wrapped numbers or
      not: nothing is left of an earlier request under the number. */
  lemma {:induction false} SendKeepsInv(c: Config, s: State, e: Timed)
    requires Inv(c, s) && Enabled(s, e) && e.event.Send?
    ensures Inv(c, Step(c, s, e).0) <==> Free(s, NextId(s, e.event.peer))
  {
    hide RxOk, NextId;
    var id := NextId(s, e.event.peer);
    if Free(s, id) {
      StepKeepsInv(c, s, e);
    } else {
      assert TxOk(c, s, id);
      SameNext(s, e.at, e.event.peer);
      var s' := Step(c, s, e).0;
      assert s'.armed[Timer(TX, id)] == s.armed[Timer(TX, id)] + 1;
      assert !TxOk(c, s', id);
    }
  }

  /** Until the numbers wrap, the next one is free. */
  lemma {:induction false} UnwrappedFree(c: Config, s: State, e: Timed)
    requires Inv(c, s) && (e.event.Send? ==> s.sent < SEQ_WRAP)
    ensures NumberFree(s, e)
  {
    if e.event.Send? {
      NextIdFresh(s, e.event.peer);
      assert TxOk(c, s, NextId(s, e.event.peer));
    }
  }

  /** Every turn of the run that sends finds its number free. */
  predicate NumbersFree(c: Config, s: State, events: seq<Timed>)
    decreases |events|
  {
    events == [] || (NumberFree(s, events[0]) && NumbersFree(c, Step(c, s, events[0]).0, events[1..]))
  }

  /** Received requests and their timers are in bijection in every state of every run. */
  lemma {:induction false} RunKeepsRx(c: Config, s: State, events: seq<Timed>, id: TrId)
    requires RxOk(s, id) && Possible(c, s, events)
    ensures RxOk(Run(c, s, events), id)
    decreases |events|
  {
    hide Step, RxOk;
    if events != [] {
      StepRxOk(c, s, events[0], id);
      RunKeepsRx(c, Step(c, s, events[0]).0, events[1..], id);
    }
  }

  /** In every state of every run whose sends find their numbers free, of any length, every sent
      request still in the table has exactly one outstanding timeout. */
  lemma {:induction false} RunKeepsInv(c: Config, s: State, events: seq<Timed>)
    requires Inv(c, s) && Possible(c, s, events) && NumbersFree(c, s, events)
    ensures Inv(c, Run(c, s, events))
    decreases |events|
  {
    hide Step, Inv, NumberFree;
    if events != [] {
      StepKeepsInv(c, s, events[0]);
      RunKeepsInv(c, Step(c, s, events[0]).0, events[1..]);
    }
  }

  /** Runs that send no more requests than there are numbers, however many turns they take, find
      them free. */
  lemma {:induction false} UnwrappedNumbersFree(c: Config, s: State, events: seq<Timed>)
    requires Inv(c, s) && Possible(c, s, events) && Unwrapped(s, events)
    ensures NumbersFree(c, s, events)
    decreases |events|
  {
    hide Step, Inv, NumberFree;
    if events != [] {
      UnwrappedFree(c, s, events[0]);
      StepKeepsInv(c, s, events[0]);
      StepCounts(c, s, events[0]);
      UnwrappedNumbersFree(c, Step(c, s, events[0]).0, events[1..]);
    }
  }

  // ---- received requests ----

  /** `out` gives away nothing about the request but copies of its stored response. */
  predicate OnlyRepeats(out: seq<Output>, id: TrId, response: Option<Bytes>) {
    forall i | 0 <= i < |out| ::
      && out[i] != Dispatch(id)
      && (out[i].Reply? && out[i].id == id ==> response == Some(out[i].message))
  }

  /** Events in which a notification for this received request is handled. */
  predicate Expires(e: Timed, id: TrId) {
    e.event == Handle(Timer(RX, id))
  }

  /** Between the arrival of a request and the end of its timer, whatever else happens, the
      stored response never changes, the request is not dispatched again, and every
      duplicate is answered with the identical bytes or not at all. */
  lemma {:induction false} DuplicatesSuppressed(c: Config, s: State, events: seq<Timed>, id: TrId)
    requires id in s.rx
    requires forall i | 0 <= i < |events| :: !Expires(events[i], id)
    ensures id in Run(c, s, events).rx && Run(c, s, events).rx[id] == s.rx[id]
    ensures OnlyRepeats(Outputs(c, s, events), id, s.rx[id].response)
    decreases |events|
  {
    hide Step;
    if events != [] {
      StepSuppresses(c, s, events[0], id);
      DuplicatesSuppressed(c, Step(c, s, events[0]).0, events[1..], id);
    }
  }

  lemma {:induction false} StepSuppresses(c: Config, s: State, e: Timed, id: TrId)
    requires id in s.rx && !Expires(e, id)
    ensures id in Step(c, s, e).0.rx && Step(c, s, e).0.rx[id] == s.rx[id]
    ensures OnlyRepeats(Step(c, s, e).1, id, s.rx[id].response)
  {
    hide RxLifetime, NextId, OnRequest, OnlyRepeats;
    match e.event
    case Request(x, answer) => RequestSuppresses(c, s.(now := e.at), x, answer, id);
    case _ => QuietSuppresses(Step(c, s, e).1, id, s.rx[id].response);
  }

  lemma {:induction false} RequestSuppresses(c: Config, s: State, x: TrId, answer: Option<Bytes>, id: TrId)
    requires id in s.rx
    ensures var (s', out) := OnRequest(c, s, x, answer);
      id in s'.rx && s'.rx[id] == s.rx[id] && OnlyRepeats(out, id, s.rx[id].response)
  {
    hide RxLifetime;
  }

  lemma {:induction false} QuietSuppresses(out: seq<Output>, id: TrId, response: Option<Bytes>)
    requires forall i | 0 <= i < |out| :: !out[i].Dispatch? && !out[i].Reply?
    ensures OnlyRepeats(out, id, response)
  {
  }

  datatype What = Transmitted | Dispatched | Responded | GivenUp

  predicate Is(o: Output, w: What, id: TrId) {
    match w
    case Transmitted => o.Transmit? && o.id == id
    case Dispatched => o == Dispatch(id)
    case Responded => o == DispatchResponse(id)
    case GivenUp => o == DispatchTimeout(id)
  }

  /** How often something is done for a transaction. */
  function Count(out: seq<Output>, w: What, id: TrId): nat {
    if out == [] then 0 else (if Is(out[0], w, id) then 1 else 0) + Count(out[1..], w, id)
  }

  lemma {:induction false} CountAppend(a: seq<Output>, b: seq<Output>, w: What, id: TrId)
    ensures Count(a + b, w, id) == Count(a, w, id) + Count(b, w, id)
  {
    if a == [] {
      assert a + b == b;
    } else {
      assert (a + b)[1..] == a[1..] + b;
      CountAppend(a[1..], b, w, id);
    }
  }

  lemma {:induction false} CountShort(out: seq<Output>, w: What, id: TrId)
    requires |out| <= 2
    ensures Count(out, w, id) == (if |out| > 0 && Is(out[0], w, id) then 1 else 0)
                               + (if |out| > 1 && Is(out[1], w, id) then 1 else 0)
  {
    if |out| == 2 {
      assert out[1..] == [out[1]];
      CountShort(out[1..], w, id);
    }
  }

  lemma {:induction false} StepDispatches(c: Config, s: State, e: Timed, id: TrId)
    ensures Count(Step(c, s, e).1, Dispatched, id)
         == if e.event.Request? && e.event.id == id && id !in s.rx then 1 else 0
  {
    hide RxLifetime, NextId, Count;
    CountShort(Step(c, s, e).1, Dispatched, id);
  }

  /** All copies of the request that arrive in the run do so before `limit`. */
  predicate ArriveBefore(events: seq<Timed>, id: TrId, limit: Time) {
    forall i | 0 <= i < |events| && events[i].event.Request? && events[i].event.id == id :: events[i].at < limit
  }

  predicate NeverArrives(events: seq<Timed>, id: TrId) {
    forall i | 0 <= i < |events| :: !(events[i].event.Request? && events[i].event.id == id)
  }

  lemma {:induction false} NoArrivalNoDispatch(c: Config, s: State, events: seq<Timed>, id: TrId)
    requires NeverArrives(events, id)
    ensures Count(Outputs(c, s, events), Dispatched, id) == 0
    decreases |events|
  {
    hide Step;
    if events != [] {
      StepDispatches(c, s, events[0], id);
      NoArrivalNoDispatch(c, Step(c, s, events[0]).0, events[1..], id);
      CountAppend(Step(c, s, events[0]).1, Outputs(c, Step(c, s, events[0]).0, events[1..]), Dispatched, id);
    }
  }

  lemma {:induction false} LateNeverArrives(c: Config, s: State, events: seq<Timed>, id: TrId, limit: Time)
    requires Possible(c, s, events) && limit <= s.now && ArriveBefore(events, id, limit)
    ensures NeverArrives(events, id)
    decreases |events|
  {
    hide Step;
    if events != [] {
      StepSetsTime(c, s, events[0]);
      LateNeverArrives(c, Step(c, s, events[0]).0, events[1..], id, limit);
    }
  }

  lemma {:induction false} StepSetsTime(c: Config, s: State, e: Timed)
    ensures Step(c, s, e).0.now == e.at
  {
    hide RxLifetime, NextId;
  }

  /** While its entry lasts a request is not dispatched; after the entry has gone no copy
      that should have come before its expiry is still to come. */
  lemma {:induction false} NotDispatchedAgain(c: Config, s: State, events: seq<Timed>, id: TrId)
    requires id in s.rx && RxOk(s, id) && Possible(c, s, events)
    requires ArriveBefore(events, id, s.rx[id].expires)
    ensures Count(Outputs(c, s, events), Dispatched, id) == 0
    decreases |events|
  {
    hide Step, Outstanding;
    if events != [] {
      var e := events[0];
      var s' := Step(c, s, e).0;
      StepDispatches(c, s, e, id);
      StepRxOk(c, s, e, id);
      StepSetsTime(c, s, e);
      if Expires(e, id) {
        LateNeverArrives(c, s', events[1..], id, s.rx[id].expires);
        NoArrivalNoDispatch(c, s', events[1..], id);
      } else {
        StepSuppresses(c, s, e, id);
        NotDispatchedAgain(c, s', events[1..], id);
      }
      CountAppend(Step(c, s, e).1, Outputs(c, s', events[1..]), Dispatched, id);
    }
  }

  /** A request whose copies all arrive within the lifetime of its entry, counted from the
      first, is dispatched exactly once, whatever happens in between. */
  lemma {:induction false} DispatchedOnce(c: Config, s: State, events: seq<Timed>, id: TrId)
    requires RxOk(s, id) && id !in s.rx && Possible(c, s, events)
    requires events != [] && events[0].event.Request? && events[0].event.id == id
    requires ArriveBefore(events, id, events[0].at + RxLifetime(c))
    requires RxLifetime(c) > 0.0
    ensures Count(Outputs(c, s, events), Dispatched, id) == 1
  {
    hide Outstanding, RxLifetime;
    var s' := Step(c, s, events[0]).0;
    StepRxOk(c, s, events[0], id);
    StepDispatches(c, s, events[0], id);
    NotDispatchedAgain(c, s', events[1..], id);
    CountAppend(Step(c, s, events[0]).1, Outputs(c, s', events[1..]), Dispatched, id);
  }

  lemma {:induction false} StaysUnknown(c: Config, s: State, e: Timed, id: TrId)
    requires id !in s.rx && !(e.event.Request? && e.event.id == id)
    ensures id !in Step(c, s, e).0.rx
  {
    hide RxLifetime, NextId;
  }

  /** Every copy of the request in the run arrives at `base` or less than `span` after it. */
  predicate ArriveWithin(events: seq<Timed>, id: TrId, base: Time, span: Time) {
    forall i | 0 <= i < |events| && events[i].event.Request? && events[i].event.id == id ::
      base <= events[i].at < base + span
  }

  lemma {:induction false} WindowDispatchedOnce(c: Config, s: State, events: seq<Timed>, id: TrId, base: Time)
    requires RxOk(s, id) && id !in s.rx && Possible(c, s, events)
    requires !NeverArrives(events, id) && ArriveWithin(events, id, base, RxLifetime(c))
    ensures Count(Outputs(c, s, events), Dispatched, id) == 1
    decreases |events|
  {
    hide Step, RxOk, RxLifetime;
    var e := events[0];
    if e.event.Request? && e.event.id == id {
      assert base <= e.at < base + RxLifetime(c);
      DispatchedOnce(c, s, events, id);
    } else {
      var s' := Step(c, s, e).0;
      StepRxOk(c, s, e, id);
      StaysUnknown(c, s, e, id);
      StepDispatches(c, s, e, id);
      assert !NeverArrives(events[1..], id) by {
        var i :| 0 <= i < |events| && events[i].event.Request? && events[i].event.id == id;
        assert events[1..][i - 1] == events[i];
      }
      WindowDispatchedOnce(c, s', events[1..], id, base);
      CountAppend(Step(c, s, e).1, Outputs(c, s', events[1..]), Dispatched, id);
    }
  }

  /** Copy `k` of a request sent at `base` and then once a period arrives less than a period
      late. */
  predicate OnSchedule(c: Config, at: Time, base: Time, k: nat) {
    k <= c.maxRetrans && base + Times(c.period, k) <= at < base + Times(c.period, k + 1)
  }

  ghost predicate PeerSchedule(c: Config, events: seq<Timed>, id: TrId, base: Time) {
    forall i | 0 <= i < |events| && events[i].event.Request? && events[i].event.id == id ::
      exists k: nat :: OnSchedule(c, events[i].at, base, k)
  }

  lemma {:induction false} ScheduleSpan(c: Config, at: Time, base: Time, k: nat)
    requires OnSchedule(c, at, base, k) && c.maxRetrans < 255 && 0.0 < c.period
    ensures base <= at < base + RxLifetime(c)
  {
    hide RxLifetime, Times;
    var n: nat := c.maxRetrans + 1;
    LifetimeOf(c);
    ScaleMono(c.period, 0, k);
    ScaleMono(c.period, k + 1, n);
    ScaleZero(c.period);
  }

  lemma {:induction false} ScaleZero(x: real)
    ensures Times(x, 0) == 0.0
  {
  }

  lemma {:induction false} LifetimeOf(c: Config)
    requires c.maxRetrans < 255
    ensures RxLifetime(c) == Times(c.period, c.maxRetrans + 1)
  {
    assert (c.maxRetrans + 1) % 0x100 == c.maxRetrans + 1;
  }

  lemma {:induction false} ScaleMono(x: real, a: nat, b: nat)
    requires 0.0 < x && a <= b
    ensures Times(x, a) <= Times(x, b)
  {
  }

  /** A peer that retransmits on the same schedule, with a skew under one period, has its
      request dispatched exactly once over every run, provided MaxRetrans is below 255. */
  lemma {:induction false} PeerDispatchedOnce(c: Config, s: State, events: seq<Timed>, id: TrId, base: Time)
    requires c.maxRetrans < 255 && 0.0 < c.period
    requires RxOk(s, id) && id !in s.rx && Possible(c, s, events)
    requires !NeverArrives(events, id) && PeerSchedule(c, events, id, base)
    ensures Count(Outputs(c, s, events), Dispatched, id) == 1
  {
    hide RxLifetime, RxOk, OnSchedule;
    forall i | 0 <= i < |events| && events[i].event.Request? && events[i].event.id == id
      ensures base <= events[i].at < base + RxLifetime(c)
    {
      var k: nat :| OnSchedule(c, events[i].at, base, k);
      ScheduleSpan(c, events[i].at, base, k);
    }
    WindowDispatchedOnce(c, s, events, id, base);
  }

  lemma {:induction false} Prepend(c: Config, s: State, e: Timed, rest: seq<Timed>)
    ensures Outputs(c, s, [e] + rest) == Step(c, s, e).1 + Outputs(c, Step(c, s, e).0, rest)
    ensures Possible(c, s, [e] + rest) <==> Enabled(s, e) && Possible(c, Step(c, s, e).0, rest)
    ensures rest == [] ==> Possible(c, Step(c, s, e).0, rest) && Outputs(c, Step(c, s, e).0, rest) == []
  {
    hide Step;
    assert ([e] + rest)[1..] == rest;
  }

  /** At MaxRetrans 255 the lifetime is zero, and a request on the same schedule can be
      dispatched twice: the bound of the previous lemma is exact. */
  lemma {:induction false} RetransOverflow(c: Config, id: TrId)
    returns (events: seq<Timed>)
    requires c.maxRetrans == 255 && 0.0 < c.period
    ensures |events| == 4
    ensures Possible(c, INITIAL, events) && PeerSchedule(c, events, id, 0.0)
    ensures Count(Outputs(c, INITIAL, events), Dispatched, id) == 2
  {
    var first, again := Timed(0.0, Request(id, None)), Timed(c.period, Request(id, None));
    var fire, handle := Timed(0.0, Fire(Timer(RX, id))), Timed(0.0, Handle(Timer(RX, id)));
    events := [first, fire, handle, again];
    hide Run, Outputs, Possible, Count;
    assert RxLifetime(c) == 0.0;
    var t := Timer(RX, id);
    var s1 := State(map[id := RxEntry(None, 0.0)], map[], multiset{t}, multiset{}, 0, 0.0);
    var s2 := s1.(armed := multiset{}, queued := multiset{t});
    assert multiset{} + multiset{t} == multiset{t} && [Dispatch(id)] + [] == [Dispatch(id)];
    assert INITIAL.rx[id := RxEntry(None, 0.0)] == map[id := RxEntry(None, 0.0)];
    assert 0.0 + RxLifetime(c) == 0.0;
    assert OnRequest(c, INITIAL, id, None) == (s1, [Dispatch(id)]);
    assert Step(c, INITIAL, first) == (s1, [Dispatch(id)]);
    assert Step(c, s1, fire) == (s2, []) by { assert multiset{t} - multiset{t} == multiset{}; }
    assert Step(c, s2, handle) == (INITIAL, []) by { assert multiset{t} - multiset{t} == multiset{}; }
    assert Step(c, INITIAL, again).1 == [Dispatch(id)];
    Prepend(c, INITIAL, first, [fire, handle, again]);
    Prepend(c, s1, fire, [handle, again]);
    Prepend(c, s2, handle, [again]);
    Prepend(c, INITIAL, again, []);
    assert [first] + [fire, handle, again] == events && [fire] + [handle, again] == [fire, handle, again];
    assert [handle] + [again] == [handle, again] && [again] + [] == [again];
    assert [Dispatch(id)] + ([] + ([] + ([Dispatch(id)] + []))) == [Dispatch(id), Dispatch(id)];
    var both := [Dispatch(id), Dispatch(id)];
    assert Outputs(c, INITIAL, events) == both;
    CountShort(both, Dispatched, id);
    assert OnSchedule(c, 0.0, 0.0, 0) && OnSchedule(c, c.period, 0.0, 1);
  }

  // ---- sent requests ----

  predicate Opens(s: State, e: Timed, id: TrId) {
    e.event.Send? && NextId(s, e.event.peer) == id
  }

  /** How often a run sends a new request under this identifier. */
  function Opened(c: Config, s: State, events: seq<Timed>, id: TrId): nat
    decreases |events|
  {
    if events == [] then 0
    else (if Opens(s, events[0], id) then 1 else 0) + Opened(c, Step(c, s, events[0]).0, events[1..], id)
  }

  /** Transmissions of a request that is still in the table. */
  function SoFar(s: State, id: TrId): nat {
    if id in s.tx then s.tx[id].retransmitted + 1 else 0
  }

  function Pending(s: State, id: TrId): nat { if id in s.tx then 1 else 0 }

  /** One turn: a request opened or pending before is answered, given up or pending after;
      it is given up only after its last transmission. */
  predicate Accounts(c: Config, s: State, s': State, out: seq<Output>, opens: bool, id: TrId) {
    && Count(out, Responded, id) + Count(out, GivenUp, id) + Pending(s', id)
        == Pending(s, id) + (if opens then 1 else 0)
    && (id in s'.tx ==> SoFar(s', id) == SoFar(s, id) + Count(out, Transmitted, id))
    && (id !in s'.tx ==> Count(out, Transmitted, id) == 0)
    && (Count(out, GivenUp, id) > 0 ==> SoFar(s, id) == c.maxRetrans + 1)
    && (opens ==> id !in s.tx)
  }

  lemma {:induction false} StepLedger(c: Config, s: State, e: Timed, id: TrId)
    requires TxOk(c, s, id) && (Opens(s, e, id) ==> id !in s.tx)
    ensures Accounts(c, s, Step(c, s, e).0, Step(c, s, e).1, Opens(s, e, id), id)
  {
    hide RxLifetime, NextId, Count, OnRequest, OnResponse, OnSend, OnFire, OnTimeout, Outstanding;
    var s1 := s.(now := e.at);
    match e.event
    case Request(x, answer) => RequestLedger(c, s1, x, answer, id);
    case Response(x) => ResponseLedger(c, s1, x, id);
    case Send(peer, request) =>
      SameNext(s, e.at, peer);
      SendLedger(c, s1, peer, request, id);
    case Fire(t) => FireLedger(c, s1, t, id);
    case Handle(t) => TimeoutLedger(c, s1, t, id);
  }

  lemma {:induction false} RequestLedger(c: Config, s: State, x: TrId, answer: Option<Bytes>, id: TrId)
    ensures Accounts(c, s, OnRequest(c, s, x, answer).0, OnRequest(c, s, x, answer).1, false, id)
  {
    hide RxLifetime, Count;
    var out := OnRequest(c, s, x, answer).1;
    CountShort(out, Responded, id);
    CountShort(out, GivenUp, id);
    CountShort(out, Transmitted, id);
  }

  lemma {:induction false} ResponseLedger(c: Config, s: State, x: TrId, id: TrId)
    ensures Accounts(c, s, OnResponse(s, x).0, OnResponse(s, x).1, false, id)
  {
    hide Count;
    var out := OnResponse(s, x).1;
    CountShort(out, Responded, id);
    CountShort(out, GivenUp, id);
    CountShort(out, Transmitted, id);
  }

  lemma {:induction false} SendLedger(c: Config, s: State, peer: string, request: Bytes, id: TrId)
    requires NextId(s, peer) == id ==> id !in s.tx
    ensures Accounts(c, s, OnSend(s, peer, request).0, OnSend(s, peer, request).1, NextId(s, peer) == id, id)
  {
    hide Count, NextId;
    var out := OnSend(s, peer, request).1;
    CountShort(out, Responded, id);
    CountShort(out, GivenUp, id);
    CountShort(out, Transmitted, id);
  }

  lemma {:induction false} FireLedger(c: Config, s: State, t: Timer, id: TrId)
    ensures Accounts(c, s, OnFire(s, t), [], false, id)
  {
  }

  lemma {:induction false} TimeoutLedger(c: Config, s: State, t: Timer, id: TrId)
    requires id in s.tx ==> s.tx[id].retransmitted <= c.maxRetrans
    ensures var r := OnTimeout(c, s.(queued := s.queued - multiset{t}), t); Accounts(c, s, r.0, r.1, false, id)
  {
    hide Count;
    var out := OnTimeout(c, s.(queued := s.queued - multiset{t}), t).1;
    CountShort(out, Responded, id);
    CountShort(out, GivenUp, id);
    CountShort(out, Transmitted, id);
  }

  /** The transmissions of one turn and of the later ones, `m` allowed for each request. */
  lemma {:induction false} AddUp(m: nat, before: nat, now: nat, after: nat, later: nat, p: nat, o: nat, q: nat, r: nat)
    requires before <= m * p && after + later <= m * (q + r) && q <= p + o
    requires if q > 0 then after == before + now else now == 0
    ensures before + now + later <= m * (p + o + r)
  {
    if q > 0 {
      Scale(m, q + r, p + o + r);
    } else {
      assert m * (p + r) == m * p + m * r;
      Scale(m, p + r, p + o + r);
    }
  }

  lemma {:induction false} Scale(m: nat, a: nat, b: nat)
    requires a <= b
    ensures m * a <= m * b
  {
    assert m * b == m * a + m * (b - a);
  }

  /** A pending request has been sent once and retransmitted at most MaxRetrans times. */
  lemma {:induction false} SoFarBounded(c: Config, s: State, id: TrId)
    requires TxOk(c, s, id)
    ensures SoFar(s, id) <= (c.maxRetrans + 1) * Pending(s, id)
    ensures Pending(s, id) > 0 <==> id in s.tx
  {
  }

  /** Over every run whose sends find their numbers free, of any length and with numbers that wrap:
      each request opened or pending is answered, given up or still pending, exactly one of them,
      and they are transmitted at most MaxRetrans plus one times each. */
  lemma {:induction false} Settles(c: Config, s: State, events: seq<Timed>, id: TrId)
    requires TxOk(c, s, id) && Possible(c, s, events) && NumbersFree(c, s, events)
    ensures var out := Outputs(c, s, events); var end := Run(c, s, events);
            var requests := Pending(s, id) + Opened(c, s, events, id);
      && Count(out, Responded, id) + Count(out, GivenUp, id) + Pending(end, id) == requests
      && SoFar(s, id) + Count(out, Transmitted, id) <= (c.maxRetrans + 1) * requests
    decreases |events|
  {
    hide Step, Opens, TxOk, NumberFree, Enabled, Count, SoFar, Pending;
    SoFarBounded(c, s, id);
    NothingOut(id);
    if events != [] {
      var e := events[0];
      var (s', out) := Step(c, s, e);
      FreeOpens(s, e, id);
      StepLedger(c, s, e, id);
      StepTxOk(c, s, e, id);
      SoFarBounded(c, s', id);
      Settles(c, s', events[1..], id);
      var rest := Outputs(c, s', events[1..]);
      CountAppend(out, rest, Responded, id);
      CountAppend(out, rest, GivenUp, id);
      CountAppend(out, rest, Transmitted, id);
      AddUp(c.maxRetrans + 1, SoFar(s, id), Count(out, Transmitted, id), SoFar(s', id), Count(rest, Transmitted, id),
            Pending(s, id), if Opens(s, e, id) then 1 else 0, Pending(s', id), Opened(c, s', events[1..], id));
    }
  }

  lemma {:induction false} NothingOut(id: TrId)
    ensures forall w: What :: Count([], w, id) == 0
  {
  }

  lemma {:induction false} FreeOpens(s: State, e: Timed, id: TrId)
    requires NumberFree(s, e)
    ensures Opens(s, e, id) ==> id !in s.tx
  {
  }

  /** Over every run that sends no more requests than there are sequence numbers: a request is opened at most
      once under an identifier and then answered, given up or pending, exactly one of them;
      it is transmitted at most MaxRetrans plus one times, and exactly that often if it is
      given up. */
  lemma {:induction false} Ledger(c: Config, s: State, events: seq<Timed>, id: TrId)
    requires TxOk(c, s, id) && Possible(c, s, events) && Unwrapped(s, events)
    ensures var out := Outputs(c, s, events); var end := Run(c, s, events);
      && Count(out, Responded, id) + Count(out, GivenUp, id) + Pending(end, id)
          == Pending(s, id) + Opened(c, s, events, id)
      && Pending(s, id) + Opened(c, s, events, id) <= 1
      && (id.seqNo < s.sent ==> Opened(c, s, events, id) == 0)
      && SoFar(s, id) + Count(out, Transmitted, id) <= c.maxRetrans + 1
      && (id in end.tx ==> SoFar(end, id) == SoFar(s, id) + Count(out, Transmitted, id))
      && (Count(out, GivenUp, id) > 0 ==> SoFar(s, id) + Count(out, Transmitted, id) == c.maxRetrans + 1)
      && (Pending(s, id) + Opened(c, s, events, id) == 0 ==> Count(out, Transmitted, id) == 0)
    decreases |events|
  {
    hide Step, Opens, Outstanding;
    if events != [] {
      var e := events[0];
      var (s', out) := Step(c, s, e);
      FreshOpens(c, s, e, id);
      StepLedger(c, s, e, id);
      StepCounts(c, s, e);
      LedgerTxOk(c, s, e, id);
      OpenUses(c, s, e, id);
      Ledger(c, s', events[1..], id);
      var rest := Outputs(c, s', events[1..]);
      CountAppend(out, rest, Responded, id);
      CountAppend(out, rest, GivenUp, id);
      CountAppend(out, rest, Transmitted, id);
    }
  }

  lemma {:induction false} FreshOpens(c: Config, s: State, e: Timed, id: TrId)
    requires TxOk(c, s, id) && (e.event.Send? ==> s.sent < SEQ_WRAP)
    ensures Opens(s, e, id) ==> id !in s.tx && id.seqNo == s.sent
  {
    if e.event.Send? { NextIdFresh(s, e.event.peer); }
  }

  lemma {:induction false} LedgerTxOk(c: Config, s: State, e: Timed, id: TrId)
    requires TxOk(c, s, id) && Enabled(s, e) && (e.event.Send? ==> s.sent < SEQ_WRAP)
    ensures TxOk(c, Step(c, s, e).0, id)
  {
    hide NextId, OnSend, OnRequest, OnResponse, OnTimeout, OnFire;
    if e.event.Send? {
      var s1 := s.(now := e.at);
      NextIdFresh(s, e.event.peer);
      NextIdFresh(s1, e.event.peer);
      SendOther(c, s1, e.event.peer, e.event.request, id);
    } else {
      StepTxOk(c, s, e, id);
    }
  }

  lemma {:induction false} SendOther(c: Config, s: State, peer: string, request: Bytes, id: TrId)
    requires TxOk(c, s, id) && s.sent < SEQ_WRAP
    ensures TxOk(c, OnSend(s, peer, request).0, id)
  {
    NextIdFresh(s, peer);
    hide NextId;
    var x := NextId(s, peer);
    assert x != id ==> Timer(TX, x) != Timer(TX, id);
  }

  lemma {:induction false} OpenUses(c: Config, s: State, e: Timed, id: TrId)
    requires e.event.Send? ==> s.sent < SEQ_WRAP
    ensures Opens(s, e, id) || id.seqNo < s.sent ==> id.seqNo < Step(c, s, e).0.sent
  {
    hide NextId, RxLifetime;
    if Opens(s, e, id) { NextIdFresh(s, e.event.peer); }
  }

  // ---- the bytes ----

  /** The bytes last sent under each identifier. */
  function SentBytes(s: State, e: Timed, sent: map<TrId, Bytes>): map<TrId, Bytes> {
    if e.event.Send? then sent[NextId(s, e.event.peer) := e.event.request] else sent
  }

  /** Each transmission carries the bytes last sent under its identifier. */
  predicate AllCarried(out: seq<Output>, sent: map<TrId, Bytes>) {
    forall o | o in out && o.Transmit? :: o.id in sent && o.message == sent[o.id]
  }

  /** Every transmission of the run, first or repeated, carries the bytes of the Send that opened its
      identifier last; `sent` are those of before. */
  predicate Carry(c: Config, s: State, events: seq<Timed>, sent: map<TrId, Bytes>)
    decreases |events|
  {
    events == [] ||
    (var now := SentBytes(s, events[0], sent);
     && AllCarried(Step(c, s, events[0]).1, now)
     && Carry(c, Step(c, s, events[0]).0, events[1..], now))
  }

  /** What is kept for retransmission is what was sent. */
  predicate Kept(s: State, sent: map<TrId, Bytes>) {
    forall id | id in s.tx :: id in sent && s.tx[id].request == sent[id]
  }

  lemma {:induction false} TurnCarries(c: Config, s: State, e: Timed, sent: map<TrId, Bytes>)
    requires Kept(s, sent)
    ensures var now := SentBytes(s, e, sent);
      Kept(Step(c, s, e).0, now) && AllCarried(Step(c, s, e).1, now)
  {
    hide RxLifetime, NextId, OnRequest, OnResponse, OnSend, OnFire, OnTimeout, Kept;
    var s1 := s.(now := e.at);
    KeptLater(s, e.at, sent);
    match e.event
    case Request(x, answer) => OthersCarry(c, s1, e.event, sent);
    case Response(x) => OthersCarry(c, s1, e.event, sent);
    case Send(peer, request) =>
      SameNext(s, e.at, peer);
      SendCarries(s1, peer, request, sent);
    case Fire(t) => OthersCarry(c, s1, e.event, sent);
    case Handle(t) =>
      KeptQueue(s1, t, sent);
      TimeoutCarries(c, s1.(queued := s1.queued - multiset{t}), t, sent);
  }

  lemma {:induction false} KeptLater(s: State, at: Time, sent: map<TrId, Bytes>)
    ensures Kept(s.(now := at), sent) <==> Kept(s, sent)
  {
  }

  lemma {:induction false} KeptQueue(s: State, t: Timer, sent: map<TrId, Bytes>)
    ensures Kept(s.(queued := s.queued - multiset{t}), sent) <==> Kept(s, sent)
  {
  }

  lemma {:induction false} OthersCarry(c: Config, s: State, e: Event, sent: map<TrId, Bytes>)
    requires Kept(s, sent) && (e.Request? || e.Response? || e.Fire?)
    ensures e.Request? ==> Kept(OnRequest(c, s, e.id, e.answer).0, sent) && AllCarried(OnRequest(c, s, e.id, e.answer).1, sent)
    ensures e.Response? ==> Kept(OnResponse(s, e.id).0, sent) && AllCarried(OnResponse(s, e.id).1, sent)
    ensures e.Fire? ==> Kept(OnFire(s, e.timer), sent)
  {
    hide RxLifetime;
  }

  lemma {:induction false} SendCarries(s: State, peer: string, request: Bytes, sent: map<TrId, Bytes>)
    requires Kept(s, sent)
    ensures var now := sent[NextId(s, peer) := request];
      Kept(OnSend(s, peer, request).0, now) && AllCarried(OnSend(s, peer, request).1, now)
  {
    hide NextId;
  }

  lemma {:induction false} TimeoutCarries(c: Config, s: State, t: Timer, sent: map<TrId, Bytes>)
    requires Kept(s, sent)
    ensures Kept(OnTimeout(c, s, t).0, sent) && AllCarried(OnTimeout(c, s, t).1, sent)
  {
  }

  /** Over every run, of any length and with numbers that wrap: each transmission of a request carries
      the bytes of the Send that opened it. */
  lemma {:induction false} RetransmitsTheSame(c: Config, s: State, events: seq<Timed>, sent: map<TrId, Bytes>)
    requires Kept(s, sent)
    ensures Carry(c, s, events, sent)
    decreases |events|
  {
    hide Step, Kept, SentBytes;
    if events != [] {
      TurnCarries(c, s, events[0], sent);
      RetransmitsTheSame(c, Step(c, s, events[0]).0, events[1..], SentBytes(s, events[0], sent));
    }
  }

  /** A Send transmits its bytes at once, under the next number for its peer, which is the count of
      requests so far in 32 bits. */
  lemma {:induction false} SendTransmits(c: Config, s: State, e: Timed)
    requires e.event.Send?
    ensures Step(c, s, e).1 == [Transmit(TrId(e.event.peer, s.sent % 0x1_0000_0000), e.event.request)]
    ensures Step(c, s, e).0.sent == s.sent + 1
  {
  }

  /** The answers of the run: a request dispatched with an answer is replied to with it, and so is every
      duplicate while its entry lasts; `stored` are the answers of before. */
  predicate AnswersCarry(c: Config, s: State, events: seq<Timed>, stored: map<TrId, Option<Bytes>>)
    decreases |events|
  {
    events == [] ||
    (var e := events[0].event;
     var now := if e.Request? && e.id !in s.rx then stored[e.id := e.answer] else stored;
     && (e.Request? ==>
           && e.id in now
           && Step(c, s, events[0]).1 == (if e.id in s.rx then [] else [Dispatch(e.id)])
                + (if now[e.id].Some? then [Reply(e.id, now[e.id].value)] else []))
     && (!e.Request? ==> forall o | o in Step(c, s, events[0]).1 :: !o.Reply?)
     && AnswersCarry(c, Step(c, s, events[0]).0, events[1..], now))
  }

  predicate Stored(s: State, stored: map<TrId, Option<Bytes>>) {
    forall id | id in s.rx :: id in stored && s.rx[id].response == stored[id]
  }

  lemma {:induction false} TurnStores(c: Config, s: State, e: Timed, stored: map<TrId, Option<Bytes>>)
    requires Stored(s, stored)
    ensures var x := e.event;
            var now := if x.Request? && x.id !in s.rx then stored[x.id := x.answer] else stored;
      && Stored(Step(c, s, e).0, now)
      && (x.Request? ==>
            && x.id in now
            && Step(c, s, e).1 == (if x.id in s.rx then [] else [Dispatch(x.id)])
                 + (if now[x.id].Some? then [Reply(x.id, now[x.id].value)] else []))
      && (!x.Request? ==> forall o | o in Step(c, s, e).1 :: !o.Reply?)
  {
    hide NextId, RxLifetime;
    if e.event.Request? && e.event.id in s.rx {
      var r := s.rx[e.event.id].response;
      assert [] + (if r.Some? then [Reply(e.event.id, r.value)] else []) == if r.Some? then [Reply(e.event.id, r.value)] else [];
    }
  }

  lemma {:induction false} RepliesTheSame(c: Config, s: State, events: seq<Timed>, stored: map<TrId, Option<Bytes>>)
    requires Stored(s, stored)
    ensures AnswersCarry(c, s, events, stored)
    decreases |events|
  {
    hide Step, Stored;
    if events != [] {
      var e := events[0].event;
      TurnStores(c, s, events[0], stored);
      RepliesTheSame(c, Step(c, s, events[0]).0, events[1..],
        if e.Request? && e.id !in s.rx then stored[e.id := e.answer] else stored);
    }
  }

  // ---- sequence numbers on the wire ----

  /** A message carries 24 bits of its sequence number; the table is keyed by all 32. */
  const WIRE_WRAP: nat := 0x100_0000

  /** The identifier that a response to the request comes back with. */
  function OnWire(id: TrId): TrId { TrId(id.peer, id.seqNo % WIRE_WRAP) }

  predicate FromWire(events: seq<Timed>) {
    forall i | 0 <= i < |events| && events[i].event.Response? :: events[i].event.id.seqNo < WIRE_WRAP
  }

  /** The exact condition under which the peer's response reaches a pending request; otherwise it ends
      the pending request of the number it came with, if there is one. */
  lemma {:induction false} ResponseReaches(c: Config, s: State, e: Timed, id: TrId)
    requires id in s.tx && e.event == Response(OnWire(id))
    ensures var (s', out) := Step(c, s, e);
      && (Count(out, Responded, id) == 1 && id !in s'.tx <==> id.seqNo < WIRE_WRAP)
      && (id.seqNo >= WIRE_WRAP ==> id in s'.tx && s'.tx[id] == s.tx[id])
      && Count(out, Responded, OnWire(id)) == Pending(s, OnWire(id))
  {
    hide Count;
    var out := Step(c, s, e).1;
    CountShort(out, Responded, id);
    CountShort(out, Responded, OnWire(id));
  }

  lemma {:induction false} UnansweredTurn(c: Config, s: State, e: Timed, id: TrId)
    requires e.event.Response? ==> e.event.id != id
    ensures Count(Step(c, s, e).1, Responded, id) == 0
  {
    hide Count, RxLifetime, NextId;
    CountShort(Step(c, s, e).1, Responded, id);
  }

  /** Over every run, however many responses arrive: from number 2^24 on no request is answered, and
      each one sent is given up or still pending. */
  lemma {:induction false} UnansweredFrom(c: Config, s: State, events: seq<Timed>, id: TrId)
    requires TxOk(c, s, id) && Possible(c, s, events) && NumbersFree(c, s, events)
    requires FromWire(events) && id.seqNo >= WIRE_WRAP
    ensures Count(Outputs(c, s, events), Responded, id) == 0
    ensures Count(Outputs(c, s, events), GivenUp, id) + Pending(Run(c, s, events), id)
         == Pending(s, id) + Opened(c, s, events, id)
  {
    hide TxOk, Possible, NumbersFree, Outputs, Run, Opened, Count, Pending;
    Settles(c, s, events, id);
    NoneAnswered(c, s, events, id);
  }

  lemma {:induction false} NoneAnswered(c: Config, s: State, events: seq<Timed>, id: TrId)
    requires FromWire(events) && id.seqNo >= WIRE_WRAP
    ensures Count(Outputs(c, s, events), Responded, id) == 0
    decreases |events|
  {
    hide Step, Count;
    NothingOut(id);
    if events != [] {
      var (s', out) := Step(c, s, events[0]);
      UnansweredTurn(c, s, events[0], id);
      NoneAnswered(c, s', events[1..], id);
      CountAppend(out, Outputs(c, s', events[1..]), Responded, id);
    }
  }

  /** A fresh request's entry expires MaxRetrans plus one periods after it arrived; at MaxRetrans 255 that
      number is zero in eight bits. */
  lemma {:induction false} RxExpires(c: Config, s: State, e: Timed)
    requires e.event.Request? && e.event.id !in s.rx
    ensures var s' := Step(c, s, e).0;
      && e.event.id in s'.rx && s'.rx[e.event.id].response == e.event.answer
      && s'.rx[e.event.id].expires
         == e.at + if c.maxRetrans == 255 then 0.0 else c.period * (c.maxRetrans as real + 1.0)
  {
    hide RxLifetime;
    LifetimeInPeriods(c);
  }

  lemma {:induction false} LifetimeInPeriods(c: Config)
    ensures RxLifetime(c) == if c.maxRetrans == 255 then 0.0 else c.period * (c.maxRetrans as real + 1.0)
  {
    if c.maxRetrans < 255 {
      LifetimeOf(c);
    } else {
      assert (c.maxRetrans + 1) % 0x100 == 0;
      TimesZero(c.period);
    }
  }

  lemma {:induction false} TimesZero(period: Time)
    ensures Times(period, 0) == 0.0
  {
  }

  /** A handled timeout of a pending request: one more retransmission as long as there were fewer than
      MaxRetrans, else it is given up. */
  lemma {:induction false} TimeoutLaw(c: Config, s: State, e: Timed, id: TrId)
    requires e.event == Handle(Timer(TX, id)) && id in s.tx
    ensures var (s', out) := Step(c, s, e);
      if s.tx[id].retransmitted < c.maxRetrans
      then
        && out == [Transmit(id, s.tx[id].request)]
        && id in s'.tx && s'.tx[id].request == s.tx[id].request && s'.tx[id].retransmitted == s.tx[id].retransmitted + 1
        && s'.armed[Timer(TX, id)] == s.armed[Timer(TX, id)] + 1
      else out == [DispatchTimeout(id)] && id !in s'.tx
  {
  }
}
