/** The periodic-report server of internal/forwarder/perio: groups of URRs by period, one
    ticker per group.  It refines a set of (period, SEID, URR) triples. */
module Perio {
  import opened Rules

  type Period = x: nat | 0 < x witness 1

  datatype Triple = Triple(period: Period, seid: Seid, urr: UrrId)

  datatype Event =
    | Add(seid: Seid, urr: UrrId, period: Period)
    | Del(seid: Seid, urr: UrrId)
    | Timeout(period: Period)
    | Close

  type Groups = map<Period, map<Seid, set<UrrId>>>

  predicate Holds(g: Groups, t: Triple) {
    t.period in g && t.seid in g[t.period] && t.urr in g[t.period][t.seid]
  }

  /** No group and no inner set is ever left empty. */
  predicate NoEmpties(g: Groups) {
    forall p | p in g :: g[p] != map[] && forall s | s in g[p] :: g[p][s] != {}
  }

  /** The groups after a held triple is taken out, with what became empty. */
  function Without(g: Groups, t: Triple): Groups
    requires Holds(g, t)
  {
    var group: map<Seid, set<UrrId>> := g[t.period];
    var urrs: set<UrrId> := group[t.seid] - {t.urr};
    if urrs != {} then g[t.period := group[t.seid := urrs]]
    else if group - {t.seid} != map[] then g[t.period := group - {t.seid}]
    else g - {t.period}
  }

  lemma {:induction false} WithoutHolds(g: Groups, t: Triple)
    requires Holds(g, t) && NoEmpties(g)
    ensures NoEmpties(Without(g, t))
    ensures forall x: Triple :: Holds(Without(g, t), x) <==> Holds(g, x) && x != t
  {
    var group := g[t.period];
    var urrs := group[t.seid] - {t.urr};
    if urrs == {} {
      assert group[t.seid] == {t.urr};
      if group - {t.seid} == map[] {
        assert forall s | s in group :: s == t.seid by {
          forall s | s in group ensures s == t.seid { assert s in group - {t.seid} || s == t.seid; }
        }
      }
    }
  }

  // ---- the abstract machine over sets of triples ----

  /** DEL removes one matching triple, of whatever period, if there is any. */
  predicate Removes(before: set<Triple>, after: set<Triple>, seid: Seid, urr: UrrId) {
    if exists t :: t in before && t.seid == seid && t.urr == urr
    then exists t :: t in before && t.seid == seid && t.urr == urr && after == before - {t}
    else after == before
  }

  /** A query to the data plane: the URRs asked for, by SEID. */
  type Query = map<Seid, seq<UrrId>>

  /** What is registered, and every query sent so far. */
  datatype Registry = Registry(triples: set<Triple>, asked: seq<Query>)

  /** The query lists every URR registered under the period once, and nothing else. */
  ghost predicate Asks(triples: set<Triple>, period: Period, q: Query) {
    && (forall s: Seid, u: UrrId :: Triple(period, s, u) in triples <==> s in q && u in q[s])
    && (forall s | s in q :: q[s] != [] && forall i, j | 0 <= i < j < |q[s]| :: q[s][i] != q[s][j])
  }

  predicate InUse(triples: set<Triple>, period: Period) {
    exists t :: t in triples && t.period == period
  }

  /** A timeout of a period in use sends one query, for that period; one of a period that has gone
      since sends none. */
  ghost predicate Next(before: Registry, e: Event, after: Registry) {
    match e
    case Add(s, u, p) => after == before.(triples := before.triples + {Triple(p, s, u)})
    case Del(s, u) => Removes(before.triples, after.triples, s, u) && after.asked == before.asked
    case Timeout(p) =>
      if InUse(before.triples, p)
      then exists q :: Asks(before.triples, p, q) && after == before.(asked := before.asked + [q])
      else after == before
    case Close => after == before.(triples := {})
  }

  /** The events the server handles: it returns after a close event. */
  function Handled(events: seq<Event>): (n: nat)
    ensures n <= |events|
    ensures forall i | 0 <= i < n - 1 :: !events[i].Close?
    ensures n < |events| ==> 0 < n && events[n - 1].Close?
  {
    if events == [] then 0 else if events[0].Close? then 1 else 1 + Handled(events[1..])
  }

  function Of(before: set<Triple>, seid: Seid, urr: UrrId): set<Triple> {
    set t | t in before && t.seid == seid && t.urr == urr
  }

  /** After a DEL the URR is no longer queried if and only if it was registered under at
      most one period: registering a URR again under a new period leaves the old triple. */
  lemma {:induction false} DelForgets(before: set<Triple>, after: set<Triple>, seid: Seid, urr: UrrId)
    requires Removes(before, after, seid, urr)
    ensures Of(after, seid, urr) == {} <==> |Of(before, seid, urr)| <= 1
  {
    var m := Of(before, seid, urr);
    if m == {} {
      assert forall t | t in before :: !(t.seid == seid && t.urr == urr) by {
        forall t | t in before ensures !(t.seid == seid && t.urr == urr) {
          assert t in m <==> t.seid == seid && t.urr == urr;
        }
      }
    } else {
      var x :| x in m;
      assert x in before && x.seid == seid && x.urr == urr;
      var t :| t in before && t.seid == seid && t.urr == urr && after == before - {t};
      assert t in m;
      assert Of(after, seid, urr) == m - {t};
      assert |m - {t}| == |m| - 1;
    }
  }

  class Server {
    var perioList: Groups
    /** Periods whose ticker goroutine is running. */
    var tickers: set<Period>
    /** Every query sent to the data plane. */
    var queries: seq<Query>

    ghost predicate Valid() reads this {
      NoEmpties(perioList) && tickers == perioList.Keys
    }

    /** The triples registered. */
    ghost function Triples(): (r: set<Triple>)
      reads this
      ensures forall t: Triple :: t in r <==> Holds(perioList, t)
    {
      var r := set p, s, u | p in perioList && s in perioList[p] && u in perioList[p][s] :: Triple(p, s, u);
      r
    }

    /** The state of the abstract machine. */
    ghost function Now(): Registry
      reads this
    {
      Registry(Triples(), queries)
    }

    constructor ()
      ensures Valid() && Triples() == {} && queries == []
    {
      perioList, tickers, queries := map[], {}, [];
    }

    /** A ticker runs exactly for the periods that occur in a triple. */
    lemma TickersMatchTriples(p: Period)
      requires Valid()
      ensures p in tickers <==> InUse(Triples(), p)
    {
      if p in tickers {
        var s :| s in perioList[p];
        var u :| u in perioList[p][s];
        assert Triple(p, s, u) in Triples();
      }
    }

    method HandleAdd(seid: Seid, urr: UrrId, period: Period)
      requires Valid()
      modifies this`perioList, this`tickers
      ensures Valid()
      ensures Triples() == old(Triples()) + {Triple(period, seid, urr)}
    {
      var group: map<Seid, set<UrrId>> := map[];
      if period in perioList {
        group := perioList[period];
      } else {
        tickers := tickers + {period};
      }
      var urrs: set<UrrId> := if seid in group then group[seid] else {};
      group := group[seid := urrs + {urr}];
      perioList := perioList[period := group];
      assert forall t: Triple :: Holds(perioList, t) <==>
        old(Holds(perioList, t)) || t == Triple(period, seid, urr);
    }

    /** The body of that loop for the group that holds the URR: what becomes empty goes, and with
        the last entry of a period its ticker. */
    method RemoveFrom(period: Period, seid: Seid, urr: UrrId)
      requires Valid() && Holds(perioList, Triple(period, seid, urr))
      modifies this`perioList, this`tickers
      ensures Valid() && perioList == Without(old(perioList), Triple(period, seid, urr))
    {
      WithoutHolds(perioList, Triple(period, seid, urr));
      hide NoEmpties;
      var group: map<Seid, set<UrrId>> := perioList[period];
      var urrs: set<UrrId> := group[seid] - {urr};
      if urrs != {} {
        perioList := perioList[period := group[seid := urrs]];
        return;
      }
      group := group - {seid};
      if group == map[] {
        tickers := tickers - {period};
        perioList := perioList - {period};
      } else {
        perioList := perioList[period := group];
      }
    }

    /** The loop over the groups stops at the first one that holds the URR; the map is walked
        in any order. */
    method HandleDel(seid: Seid, urr: UrrId)
      requires Valid()
      modifies this`perioList, this`tickers
      ensures Valid()
      ensures Removes(old(Triples()), Triples(), seid, urr)
    {
      hide NoEmpties, Without;
      ghost var before := Triples();
      var periods := perioList.Keys;
      while periods != {}
        invariant periods <= perioList.Keys
        invariant perioList == old(perioList) && tickers == old(tickers)
        invariant forall p | p in perioList && p !in periods :: !Holds(perioList, Triple(p, seid, urr))
      {
        var period :| period in periods;
        periods := periods - {period};
        var group: map<Seid, set<UrrId>> := perioList[period];
        if seid in group && urr in group[seid] {
          WithoutHolds(perioList, Triple(period, seid, urr));
          RemoveFrom(period, seid, urr);
          assert Triples() == before - {Triple(period, seid, urr)};
          return;
        }
      }
      assert forall t | t in before :: !(t.seid == seid && t.urr == urr) by {
        forall t | t in before ensures !(t.seid == seid && t.urr == urr) {
          assert !Holds(perioList, Triple(t.period, seid, urr));
        }
      }
    }

    /** A timeout asks for exactly the URRs registered under its period, once each; one for a
        period that has gone since asks for nothing. */
    method HandleTimeout(period: Period)
      requires Valid()
      modifies this`queries
      ensures Valid() && Triples() == old(Triples())
      ensures if InUse(Triples(), period)
              then exists q :: Asks(Triples(), period, q) && queries == old(queries) + [q]
              else queries == old(queries)
    {
      hide InUse, Asks;
      TickersMatchTriples(period);
      if period !in perioList { return; }
      var group := perioList[period];
      var q: Query := map[];
      var seids := group.Keys;
      while seids != {}
        invariant seids <= group.Keys && q.Keys == group.Keys - seids && queries == old(queries)
        invariant forall s | s in q :: Lists(q[s], group[s])
      {
        var seid :| seid in seids;
        seids := seids - {seid};
        var listed := ListAll(group[seid]);
        q := q[seid := listed];
      }
      assert AsksFor(group, q);
      AsksTriples(period, q);
      queries := queries + [q];
      assert queries == old(queries) + [q];
    }

    /** The close event: every ticker is stopped and no group is left. */
    method HandleClose()
      requires Valid()
      modifies this`perioList, this`tickers
      ensures Valid() && Triples() == {} && tickers == {}
    {
      var periods := perioList.Keys;
      while periods != {}
        invariant periods == perioList.Keys && Valid()
      {
        var period :| period in periods;
        periods := periods - {period};
        tickers := tickers - {period};
        perioList := perioList - {period};
      }
    }

    /** Serve: handles the events of the channel one after the other, up to a close event.  The states
        it goes through, with every query it sends, are a run of the abstract machine. */
    method Serve(events: seq<Event>) returns (ghost trace: seq<Registry>)
      requires Valid()
      modifies this
      ensures Valid()
      ensures |trace| == Handled(events) + 1 && trace[0] == old(Now()) && trace[Handled(events)] == Now()
      ensures forall i | 0 <= i < Handled(events) :: Next(trace[i], events[i], trace[i + 1])
      ensures forall i | 0 <= i < Handled(events) && events[i].Close? :: Triples() == {} && tickers == {}
    {
      hide Next;
      trace := [Now()];
      for i := 0 to |events|
        invariant Valid()
        invariant i <= Handled(events) && forall j | 0 <= j < i :: !events[j].Close?
        invariant |trace| == i + 1 && trace[0] == old(Now()) && trace[i] == Now()
        invariant forall j | 0 <= j < i :: Next(trace[j], events[j], trace[j + 1])
      {
        HandledAt(events, i);
        HandleOne(events[i]);
        trace := trace + [Now()];
        if events[i].Close? { return; }
      }
    }

    /** One event of the channel. */
    method HandleOne(e: Event)
      requires Valid()
      modifies this
      ensures Valid() && Next(old(Now()), e, Now())
      ensures e.Close? ==> Triples() == {} && tickers == {}
    {
      hide InUse, Asks, Removes, NoEmpties;
      match e {
        case Add(s, u, p) => HandleAdd(s, u, p);
        case Del(s, u) => HandleDel(s, u);
        case Timeout(p) => HandleTimeout(p);
        case Close => HandleClose();
      }
    }

    lemma AsksTriples(period: Period, q: Query)
      requires Valid() && period in perioList && AsksFor(perioList[period], q)
      ensures Asks(Triples(), period, q)
    {
    }
  }

  lemma {:induction false} HandledAt(events: seq<Event>, i: nat)
    requires i < |events| && forall j | 0 <= j < i :: !events[j].Close?
    ensures Handled(events) > i
    ensures Handled(events) == i + 1 <==> events[i].Close? || i + 1 == |events|
    decreases i
  {
    if i > 0 { HandledAt(events[1..], i - 1); }
  }

  /** `s` lists each element of `u` once. */
  ghost predicate Lists(s: seq<UrrId>, u: set<UrrId>) {
    && (forall x :: x in s <==> x in u)
    && (forall i, j | 0 <= i < j < |s| :: s[i] != s[j])
  }

  ghost predicate AsksFor(group: map<Seid, set<UrrId>>, q: map<Seid, seq<UrrId>>) {
    q.Keys == group.Keys && forall s | s in q :: Lists(q[s], group[s])
  }

  method ListAll(u: set<UrrId>) returns (s: seq<UrrId>)
    ensures Lists(s, u)
  {
    s := [];
    var todo := u;
    while todo != {}
      invariant todo <= u && Lists(s, u - todo)
    {
      var x :| x in todo;
      todo := todo - {x};
      s := s + [x];
    }
  }
}
