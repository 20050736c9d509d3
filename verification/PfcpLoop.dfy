/** The transaction tables of the PFCP server as an object: the turns of its event loop create,
    answer, retransmit and drop transactions in place, and do what the state machine of module
    Transactions says. */
module PfcpLoop {
  import opened Rules
  import opened Transactions

  class Loop {
    const config: Config
    var rxTrans: map<TrId, RxEntry>
    var txTrans: map<TrId, TxEntry>
    var armed: multiset<Timer>
    var queued: multiset<Timer>
    var txSeq: nat
    var now: Time

    ghost function Model(): State
      reads this
    {
      State(rxTrans, txTrans, armed, queued, txSeq, now)
    }

    /** Transactions and outstanding timers match one to one. */
    ghost predicate Valid()
      reads this
    {
      Inv(config, Model())
    }

    constructor (config: Config)
      ensures this.config == config && Model() == INITIAL && Valid()
    {
      this.config := config;
      rxTrans, txTrans, armed, queued, txSeq, now := map[], map[], multiset{}, multiset{}, 0, 0.0;
    }

    // ---- received requests ----

    /** A new RxTransaction: its timer runs from now on. */
    method NewRx(id: TrId)
      modifies this`rxTrans, this`armed
      ensures rxTrans == old(rxTrans)[id := RxEntry(None, now + RxLifetime(config))]
      ensures armed == old(armed) + multiset{Timer(RX, id)}
    {
      rxTrans := rxTrans[id := RxEntry(None, now + RxLifetime(config))];
      armed := armed + multiset{Timer(RX, id)};
    }

    /** sendRspTo and RxTransaction.send: the response is stored and sent. */
    method SendResponse(id: TrId, response: Bytes) returns (out: seq<Output>)
      modifies this`rxTrans
      ensures id in old(rxTrans) ==>
        rxTrans == old(rxTrans)[id := old(rxTrans)[id].(response := Some(response))] && out == [Reply(id, response)]
      ensures id !in old(rxTrans) ==> rxTrans == old(rxTrans) && out == []
    {
      if id !in rxTrans { return []; }
      rxTrans := rxTrans[id := rxTrans[id].(response := Some(response))];
      return [Reply(id, response)];
    }

    /** RxTransaction.recv: whether to dispatch, and the stored response if it is sent again. */
    method RecvRequest(id: TrId, found: bool) returns (dispatch: bool, out: seq<Output>)
      requires id in rxTrans
      ensures dispatch == !found
      ensures out == if found && rxTrans[id].response.Some? then [Reply(id, rxTrans[id].response.value)] else []
    {
      if !found { return true, []; }
      if rxTrans[id].response.None? { return false, []; }
      return false, [Reply(id, rxTrans[id].response.value)];
    }

    /** A request from the network; `answer` is what its handler sends if it is dispatched. */
    method ReceiveRequest(id: TrId, answer: Option<Bytes>) returns (out: seq<Output>)
      modifies this`rxTrans, this`armed
      ensures (Model(), out) == OnRequest(config, old(Model()), id, answer)
    {
      var found := id in rxTrans;
      if !found { NewRx(id); }
      var dispatch;
      dispatch, out := RecvRequest(id, found);
      if dispatch {
        out := [Dispatch(id)];
        assert [Dispatch(id)] + [] == [Dispatch(id)];
        if answer.Some? {
          var sent := SendResponse(id, answer.value);
          out := out + sent;
          assert rxTrans == old(rxTrans)[id := RxEntry(answer, now + RxLifetime(config))];
        }
      }
    }

    // ---- sent requests ----

    /** TxTransaction.recv. */
    method ReceiveResponse(id: TrId) returns (out: seq<Output>)
      modifies this`txTrans, this`armed
      ensures (Model(), out) == OnResponse(old(Model()), id)
    {
      if id !in txTrans { return []; }
      armed := armed - multiset{Timer(TX, id)};
      txTrans := txTrans - {id};
      return [DispatchResponse(id)];
    }

    /** sendReqTo. */
    method SendRequest(peer: string, request: Bytes) returns (out: seq<Output>)
      modifies this`txTrans, this`armed, this`txSeq
      ensures (Model(), out) == OnSend(old(Model()), peer, request)
    {
      var id := TrId(peer, txSeq % SEQ_WRAP);
      txSeq := txSeq + 1;
      txTrans := txTrans[id := TxEntry(request, 0)];
      armed := armed + multiset{Timer(TX, id)};
      return [Transmit(id, request)];
    }

    // ---- timers ----

    /** A timer fires: NotifyTransTimeout. */
    method Fire(t: Timer)
      modifies this`armed, this`queued
      ensures Model() == OnFire(old(Model()), t)
    {
      armed := armed - multiset{t};
      queued := queued + multiset{t};
    }

    /** TxTransaction.handleTimeout and RxTransaction.handleTimeout. */
    method HandleTimeout(t: Timer) returns (out: seq<Output>)
      modifies this`rxTrans, this`txTrans, this`armed
      ensures (Model(), out) == OnTimeout(config, old(Model()), t)
    {
      if t.kind.TX? {
        if t.id !in txTrans { return []; }
        var entry := txTrans[t.id];
        if entry.retransmitted < config.maxRetrans {
          txTrans := txTrans[t.id := entry.(retransmitted := entry.retransmitted + 1)];
          armed := armed + multiset{t};
          return [Transmit(t.id, entry.request)];
        }
        txTrans := txTrans - {t.id};
        return [DispatchTimeout(t.id)];
      }
      if t.id !in rxTrans {
        assert rxTrans - {t.id} == rxTrans;
        return [];
      }
      rxTrans := rxTrans - {t.id};
      return [];
    }

    // ---- the loop ----

    method Turn(e: Timed) returns (out: seq<Output>)
      requires Enabled(Model(), e)
      modifies this
      ensures (Model(), out) == Step(config, old(Model()), e)
      ensures old(Valid()) && NumberFree(old(Model()), e) ==> Valid()
    {
      hide RxOk, TxOk, OnRequest, OnResponse, OnSend, OnFire, OnTimeout;
      ghost var s := Model();
      if Inv(config, s) && NumberFree(s, e) { StepKeepsInv(config, s, e); }
      now := e.at;
      match e.event
      case Request(id, answer) => out := ReceiveRequest(id, answer);
      case Response(id) => out := ReceiveResponse(id);
      case Send(peer, request) => out := SendRequest(peer, request);
      case Fire(t) =>
        Fire(t);
        out := [];
      case Handle(t) => {
        queued := queued - multiset{t};
        out := HandleTimeout(t);
      }
      assert Model() == Step(config, s, e).0;
    }

    /** Any number of turns; the lemmas about runs speak of this state and these outputs. */
    method Serve(events: seq<Timed>) returns (out: seq<Output>)
      requires Possible(config, Model(), events)
      modifies this
      ensures Model() == Run(config, old(Model()), events)
      ensures out == Outputs(config, old(Model()), events)
      ensures old(Valid()) && NumbersFree(config, old(Model()), events) ==> Valid()
    {
      hide Step, Inv;
      ghost var s := Model();
      out := [];
      for i := 0 to |events|
        invariant Possible(config, Model(), events[i..])
        invariant Run(config, s, events) == Run(config, Model(), events[i..])
        invariant Outputs(config, s, events) == out + Outputs(config, Model(), events[i..])
      {
        var more := Turn(events[i]);
        assert events[i..][1..] == events[i + 1..];
        assert out + (more + Outputs(config, Model(), events[i + 1..]))
            == out + more + Outputs(config, Model(), events[i + 1..]);
        out := out + more;
      }
      if Inv(config, s) && NumbersFree(config, s, events) { RunKeepsInv(config, s, events); }
    }
  }
}
