/** Runs of the server in which steps of the data plane fall between the operations of a request and
    between the removals of a Close, and the usage that a session's reports hold over them. */
module Turns {
  import opened Rules
  import opened Session
  import opened Closing
  import opened Numbering
  import opened Node
  import opened Interleaved
  import Leftovers
  import NodeRuns
  import Driver
  import U = UsageConservation

  /** A whole event, the operations of a request on a live session with their response, or the
      deletion of a session.  An establishment or modification that is disturbed is the event without
      operations followed by the operations. */
  datatype Turn =
    | Whole(event: Event)
    | Requested(seid: Seid, parts: seq<Part>)
    | Closed(seid: Seid, parts: seq<Part>)

  ghost predicate CanTurn(w: World, t: Turn)
    requires Wired(w)
  {
    match t
    case Whole(e) => Possible(w, e)
    case Requested(_, parts) => DataOnly(parts)
    case Closed(seid, parts) => DataOnly(parts) && (Live(w, seid) ==> ClosePlan(SessOf(w, seid), Asked(parts)))
  }

  /** The world without the session, its SEID free again. */
  function WithoutSess(w: World, seid: Seid, d: Driver.State): World
    requires Live(w, seid) && SessOf(w, seid).owner < |w.nodes|
  {
    var n := SessOf(w, seid).owner;
    w.(nodes := w.nodes[n := w.nodes[n].(sess := w.nodes[n].sess - {seid})],
       slots := w.slots[seid - 1 := None], free := w.free + [seid], driver := d)
  }

  ghost function Worked(w: World, seid: Seid, parts: seq<Part>): Result
    requires Live(w, seid)
  {
    Work(SessOf(w, seid), w.driver, parts)
  }

  ghost function Took(w: World, t: Turn): World
    requires Wired(w) && CanTurn(w, t)
  {
    match t
    case Whole(e) => Step(w, e)
    case Requested(seid, parts) =>
      if !Live(w, seid) then w
      else
        var r := Worked(w, seid, parts);
        Renumber(WithSess(w, seid, r.sess).(driver := r.driver), seid, r.reports, true)
    case Closed(seid, parts) => if !Live(w, seid) then w else WithoutSess(w, seid, Worked(w, seid, parts).driver)
  }

  ghost predicate CanTake(w: World, turns: seq<Turn>)
    decreases |turns|
  {
    turns == [] || (Wired(w) && CanTurn(w, turns[0]) && CanTake(Took(w, turns[0]), turns[1..]))
  }

  ghost function Taken(w: World, turns: seq<Turn>): World
    requires CanTake(w, turns)
    decreases |turns|
  {
    if turns == [] then w else Taken(Took(w, turns[0]), turns[1..])
  }

  // ---- the invariant over both layers ----

  lemma {:induction false} ReplaceAmid(w: World, seid: Seid, s: Sess, d: Driver.State)
    requires Inv(w) && Live(w, seid)
    requires s.localId == seid && s.owner == SessOf(w, seid).owner
    requires Link(s, Driver.Lookup(d, seid)) && InRange(s) && Driver.Sound(d)
    requires forall k: Seid | k != seid :: SameInstalled(Driver.Lookup(w.driver, k), Driver.Lookup(d, k))
    ensures Inv(WithSess(w, seid, s).(driver := d))
  {
    hide Driver.Lookup, Driver.Sound, Link, Driver.NoRules, InRange, SameInstalled;
    var w' := WithSess(w, seid, s).(driver := d);
    assert forall k: Seid :: Live(w', k) <==> Live(w, k);
    assert forall k: Seid | Live(w, k) :: SessOf(w', k) == if k == seid then s else SessOf(w, k);
    assert Allocated(w') && Owned(w');
    forall k: Seid ensures Linked(w', k) {
      assert Linked(w, k);
      if k != seid { LinkSame(w, w', k); }
    }
  }

  lemma {:induction false} LinkSame(w: World, w': World, k: Seid)
    requires Linked(w, k) && SameInstalled(Driver.Lookup(w.driver, k), Driver.Lookup(w'.driver, k))
    requires (Live(w', k) <==> Live(w, k)) && (Live(w, k) ==> SessOf(w', k) == SessOf(w, k))
    ensures Linked(w', k)
  {
    hide Driver.Lookup, Link, Driver.NoRules, InRange, SameInstalled;
    var t, t' := Driver.Lookup(w.driver, k), Driver.Lookup(w'.driver, k);
    if Live(w, k) { LinkByRules(SessOf(w, k), t, t'); } else { LinkByRules(FreshSess(), t, t'); }
  }

  function FreshSess(): Sess { Sess(1, 0, 0, map[], {}, {}, map[], {}) }

  /** What the work on a live session keeps. */
  lemma {:induction false} WorkedKeeps(w: World, seid: Seid, parts: seq<Part>)
    requires Inv(w) && Live(w, seid) && DataOnly(parts)
    ensures var s, r := SessOf(w, seid), Worked(w, seid, parts);
      && s.localId == seid && s.owner < |w.nodes| && Link(s, Driver.Lookup(w.driver, seid)) && InRange(s)
      && Driver.Sound(w.driver)
      && r.sess.localId == seid && NodeRuns.SameHolder(s, r.sess)
      && Link(r.sess, Driver.Lookup(r.driver, seid)) && InRange(r.sess) && Driver.Sound(r.driver)
      && forall k: Seid | k != seid :: SameInstalled(Driver.Lookup(w.driver, k), Driver.Lookup(r.driver, k))
  {
    hide Driver.Lookup, Driver.Sound, Link, InRange, SameInstalled, Work, DataOnly;
    OwnerInRange(w, seid);
    assert Linked(w, seid);
    WorkIdentity(SessOf(w, seid), w.driver, parts);
    forall k: Seid ensures k != seid ==>
        SameInstalled(Driver.Lookup(w.driver, k), Driver.Lookup(Worked(w, seid, parts).driver, k))
    {
      WorkKeeps(SessOf(w, seid), w.driver, parts, k);
    }
    WorkKeeps(SessOf(w, seid), w.driver, parts, seid);
  }

  lemma {:induction false} RequestedInv(w: World, seid: Seid, parts: seq<Part>)
    requires Inv(w) && Wired(w) && Live(w, seid) && DataOnly(parts)
    ensures var w' := Took(w, Requested(seid, parts));
      && Inv(w') && w'.nodes == w.nodes && w'.rnodes == w.rnodes
      && forall k: Seid :: (Live(w', k) <==> Live(w, k)) && (Live(w, k) ==> NodeRuns.SameHolder(SessOf(w, k), SessOf(w', k)))
  {
    hide Inv, Driver.Lookup, Link, InRange, Driver.Sound, SameInstalled, Renumber, Worked;
    var r := Worked(w, seid, parts);
    WorkedKeeps(w, seid, parts);
    ReplaceAmid(w, seid, r.sess, r.driver);
    var w1 := WithSess(w, seid, r.sess).(driver := r.driver);
    RenumberInv(w1, seid, r.reports, true);
    NodeRuns.RenumberOwners(w1, seid, r.reports, true);
  }

  lemma {:induction false} ClosedInv(w: World, seid: Seid, parts: seq<Part>)
    requires Inv(w) && Wired(w) && Live(w, seid) && CanTurn(w, Closed(seid, parts))
    ensures var w' := Took(w, Closed(seid, parts));
      && Inv(w') && |w'.nodes| == |w.nodes| && w'.rnodes == w.rnodes && w'.free == w.free + [seid]
      && (forall k: Seid :: Live(w', k) <==> Live(w, k) && k != seid)
      && (forall k: Seid | Live(w', k) :: SessOf(w', k) == SessOf(w, k))
  {
    hide Driver.Lookup, Link, InRange, Driver.Sound, SameInstalled, Worked, ClosePlan, Driver.NoRules, Interleaved.SomethingLeft;
    var r := Worked(w, seid, parts);
    var w' := Took(w, Closed(seid, parts));
    WorkedKeeps(w, seid, parts);
    ClosedEmpty(w, seid, parts);
    assert forall k: Seid :: Live(w', k) <==> Live(w, k) && k != seid;
    assert forall k: Seid | Live(w', k) :: SessOf(w', k) == SessOf(w, k);
    assert Allocated(w') by {
      assert seid !in w.free;
      assert forall f: Seid :: f in w'.free <==> f in w.free || f == seid;
    }
    assert Owned(w');
    forall k: Seid ensures Linked(w', k) {
      assert Linked(w, k);
      if k != seid { LinkSame(w, w', k); }
    }
  }

  /** The exact condition of CloseAmid for a live session of the server. */
  lemma {:induction false} ClosedEmpty(w: World, seid: Seid, parts: seq<Part>)
    requires Inv(w) && Wired(w) && Live(w, seid) && CanTurn(w, Closed(seid, parts))
    ensures var d' := Worked(w, seid, parts).driver;
      && Driver.NoRules(Driver.Lookup(d', seid))
      && (seid in d'.sessions <==>
            Leftovers.Outlives(Driver.Lookup(w.driver, seid)) || SomethingLeft(SessOf(w, seid), w.driver, parts))
  {
    hide Inv, Driver.Lookup, Link, InRange, Driver.Sound, Work, ClosePlan, Driver.NoRules, SomethingLeft,
      Leftovers.Outlives, DataOnly, SameInstalled;
    WorkedKeeps(w, seid, parts);
    CloseAmid(SessOf(w, seid), w.driver, parts);
  }

  /** Both layers stay in step through every turn, whatever falls between the operations. */
  lemma {:induction false} TurnInv(w: World, t: Turn)
    requires Inv(w) && Wired(w) && CanTurn(w, t)
    ensures Inv(Took(w, t))
  {
    hide Inv, Step, Possible, Renumber, Worked, ClosePlan, WithoutSess;
    match t
    case Whole(e) => StepInv(w, e);
    case Requested(seid, parts) => if Live(w, seid) { RequestedInv(w, seid, parts); }
    case Closed(seid, parts) => if Live(w, seid) { ClosedInv(w, seid, parts); }
  }

  /** The cross-layer invariant in every state of every such run. */
  lemma {:induction false} TurnsInv(w: World, turns: seq<Turn>)
    requires Inv(w) && CanTake(w, turns)
    ensures Inv(Taken(w, turns))
    decreases |turns|
  {
    hide Inv, Took, CanTurn, Wired;
    if turns != [] {
      TurnInv(w, turns[0]);
      TurnsInv(Took(w, turns[0]), turns[1..]);
    }
  }

  /** After a disturbed Close the SEID is the next one given out, without rules, and the driver has a
      session under it if and only if CloseAmid's condition held. */
  lemma {:induction false} NextAfterClose(w: World, seid: Seid, parts: seq<Part>, n: nat, remoteId: nat)
    requires Inv(w) && Wired(w) && Live(w, seid) && CanTurn(w, Closed(seid, parts)) && n < |w.nodes|
    ensures var w' := Took(w, Closed(seid, parts));
      && Wired(w') && |w'.nodes| == |w.nodes| && NewSess(w', n, remoteId).1 == seid
      && Driver.NoRules(Driver.Lookup(w'.driver, seid))
      && (seid in w'.driver.sessions <==>
            Leftovers.Outlives(Driver.Lookup(w.driver, seid)) || SomethingLeft(SessOf(w, seid), w.driver, parts))
  {
    hide Inv, Worked, ClosePlan, Driver.Lookup, Driver.NoRules, SomethingLeft, Leftovers.Outlives, DataOnly, Live;
    ClosedInv(w, seid, parts);
    ClosedEmpty(w, seid, parts);
    var w' := Took(w, Closed(seid, parts));
    InvWired(w');
    assert w'.free[|w'.free| - 1] == seid;
  }
}
