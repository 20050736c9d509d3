/** PDRs and FARs as the heap objects they are.  The live maps and the published snapshots share
    them, and an updated rule shares the parts that the update does not name with the old one. */
module RuleObjects {
  import opened Rules
  import Driver

  class PdiObject {
    var srcIf: Option<Interface>
    var teid: Option<Teid>
    var ue: Option<Ipv4>
    var sdf: seq<SdfRule>

    ghost function Value(): Pdi
      reads this
    {
      Pdi(srcIf, teid, ue, sdf)
    }

    /** `merged := *prev`. */
    constructor Copy(from: PdiObject)
      ensures Value() == from.Value()
    {
      srcIf, teid, ue, sdf := from.srcIf, from.teid, from.ue, from.sdf;
    }
  }

  ghost function PdiOf(p: PdiObject?): Option<Pdi>
    reads p
  {
    if p == null then None else Some(p.Value())
  }

  class PdrObject {
    var precedence: Option<nat>
    var pdi: PdiObject?
    var farId: Option<FarId>
    var qerIds: seq<QerId>
    var urrIds: seq<UrrId>

    ghost function Value(): Pdr
      reads this, pdi
    {
      Pdr(precedence, PdiOf(pdi), farId, qerIds, urrIds)
    }

    constructor Copy(from: PdrObject)
      ensures Value() == from.Value() && pdi == from.pdi
    {
      precedence, pdi, farId, qerIds, urrIds := from.precedence, from.pdi, from.farId, from.qerIds, from.urrIds;
    }
  }

  class ForwardingObject {
    var dstIf: Option<Interface>
    var outer: Option<OuterHeader>

    ghost function Value(): Forwarding
      reads this
    {
      Forwarding(dstIf, outer)
    }

    constructor Copy(from: ForwardingObject)
      ensures Value() == from.Value()
    {
      dstIf, outer := from.dstIf, from.outer;
    }
  }

  class FarObject {
    var action: set<ApplyFlag>
    var forwarding: ForwardingObject?
    var barId: Option<BarId>

    ghost function Value(): Far
      reads this, forwarding
    {
      Far(action, if forwarding == null then None else Some(forwarding.Value()), barId)
    }

    constructor Copy(from: FarObject)
      ensures Value() == from.Value() && forwarding == from.forwarding
    {
      action, forwarding, barId := from.action, from.forwarding, from.barId;
    }
  }

  // ---- the merges: they write to the copy they have just made and to nothing else ----

  function MergedPdi(prev: Option<Pdi>, next: Option<Pdi>): Option<Pdi> {
    if prev.Some? && next.Some? then Some(Driver.MergePdi(prev.value, next.value)) else Driver.Or(next, prev)
  }

  method MergePdi(prev: PdiObject?, next: PdiObject?) returns (r: PdiObject?)
    ensures r == next || r == prev || fresh(r)
    ensures PdiOf(r) == MergedPdi(PdiOf(prev), PdiOf(next))
  {
    if prev == null { return next; }
    if next == null { return prev; }
    var merged := new PdiObject.Copy(prev);
    if next.srcIf.Some? { merged.srcIf := next.srcIf; }
    if next.teid.Some? { merged.teid := next.teid; }
    if next.ue.Some? { merged.ue := next.ue; }
    if next.sdf != [] { merged.sdf := next.sdf; }
    return merged;
  }

  lemma MergedFields(prev: Pdr, next: Pdr, p: Option<Pdi>)
    requires p == MergedPdi(prev.pdi, next.pdi)
    ensures Driver.MergePdr(prev, next) ==
      Pdr(Driver.Or(next.precedence, prev.precedence), p, Driver.Or(next.farId, prev.farId),
          Driver.OrSeq(next.qerIds, prev.qerIds), Driver.OrSeq(next.urrIds, prev.urrIds))
  {
  }

  /** The assignments to the copy. */
  method OverwritePdr(merged: PdrObject, next: PdrObject, p: PdiObject?)
    requires merged != next
    modifies merged
    ensures merged.precedence == Driver.Or(next.precedence, old(merged.precedence)) && merged.pdi == p
    ensures merged.farId == Driver.Or(next.farId, old(merged.farId))
    ensures merged.qerIds == Driver.OrSeq(next.qerIds, old(merged.qerIds))
    ensures merged.urrIds == Driver.OrSeq(next.urrIds, old(merged.urrIds))
  {
    merged.pdi := p;
    if next.precedence.Some? { merged.precedence := next.precedence; }
    if next.farId.Some? { merged.farId := next.farId; }
    if next.qerIds != [] { merged.qerIds := next.qerIds; }
    if next.urrIds != [] { merged.urrIds := next.urrIds; }
  }

  method MergePdr(prev: PdrObject, next: PdrObject) returns (merged: PdrObject)
    ensures fresh(merged) && merged.Value() == Driver.MergePdr(prev.Value(), next.Value())
  {
    var p := MergePdi(prev.pdi, next.pdi);
    merged := new PdrObject.Copy(prev);
    MergedFields(prev.Value(), next.Value(), PdiOf(p));
    OverwritePdr(merged, next, p);
  }

  method MergeForwarding(prev: ForwardingObject?, next: ForwardingObject?) returns (r: ForwardingObject?)
    ensures prev == null ==> r == next
    ensures next == null ==> r == prev
    ensures prev != null && next != null ==>
      && r != null && fresh(r)
      && r.Value() == Forwarding(Driver.Or(next.dstIf, prev.dstIf), Driver.Or(next.outer, prev.outer))
  {
    if prev == null { return next; }
    if next == null { return prev; }
    var merged := new ForwardingObject.Copy(prev);
    if next.dstIf.Some? { merged.dstIf := next.dstIf; }
    if next.outer.Some? { merged.outer := next.outer; }
    return merged;
  }

  method MergeFar(prev: FarObject, next: FarObject) returns (merged: FarObject)
    ensures fresh(merged) && merged.Value() == Driver.MergeFar(prev.Value(), next.Value())
  {
    merged := new FarObject.Copy(prev);
    if next.action != {} { merged.action := next.action; }
    if next.forwarding != null {
      var f := MergeForwarding(prev.forwarding, next.forwarding);
      merged.forwarding := f;
    }
    if next.barId.Some? { merged.barId := next.barId; }
  }

  // ---- one session's rules ----

  /** A rule request with the object its element was parsed into. */
  datatype Change =
    | CreatePdr(pid: PdrId, pdr: PdrObject)
    | UpdatePdr(pid: PdrId, pdr: PdrObject)
    | RemovePdr(pid: PdrId)
    | CreateFar(fid: FarId, far: FarObject)
    | UpdateFar(fid: FarId, far: FarObject)
    | RemoveFar(fid: FarId)

  /** A binding of a snapshot shares its rules with the live maps. */
  datatype Shared = Shared(pdr: PdrObject, far: FarObject?)

  ghost function Values(rules: map<PdrId, PdrObject>): map<PdrId, Pdr>
    reads rules.Values, set p | p in rules.Values && p.pdi != null :: p.pdi
  {
    map p | p in rules :: rules[p].Value()
  }

  ghost function FarValues(rules: map<FarId, FarObject>): map<FarId, Far>
    reads rules.Values, set f | f in rules.Values && f.forwarding != null :: f.forwarding
  {
    map f | f in rules :: rules[f].Value()
  }

  class RuleTable {
    var pdrs: map<PdrId, PdrObject>
    var fars: map<FarId, FarObject>
    var snapshot: map<PdrId, Shared>

    constructor ()
      ensures pdrs == map[] && fars == map[] && snapshot == map[]
    {
      pdrs, fars, snapshot := map[], map[], map[];
    }

    /** The published bindings hold the live objects themselves. */
    ghost predicate Published()
      reads this, pdrs.Values
    {
      && snapshot.Keys == pdrs.Keys
      && forall p | p in pdrs ::
           && snapshot[p].pdr == pdrs[p]
           && snapshot[p].far == FarOf(pdrs[p])
    }

    ghost function FarOf(p: PdrObject): FarObject?
      reads this, p
    {
      if p.farId.Some? && p.farId.value in fars then fars[p.farId.value] else null
    }

    method Publish()
      modifies this`snapshot
      ensures Published()
    {
      snapshot := map[];
      var pids := pdrs.Keys;
      while pids != {}
        invariant pids <= pdrs.Keys && snapshot.Keys == pdrs.Keys - pids
        invariant forall p | p in snapshot :: snapshot[p].pdr == pdrs[p] && snapshot[p].far == FarOf(pdrs[p])
      {
        var p :| p in pids;
        var pdr := pdrs[p];
        var far: FarObject? := if pdr.farId.Some? && pdr.farId.value in fars then fars[pdr.farId.value] else null;
        snapshot := snapshot[p := Shared(pdr, far)];
        pids := pids - {p};
      }
    }

    method ChangePdrs(c: Change) returns (ok: bool)
      requires c.CreatePdr? || c.UpdatePdr? || c.RemovePdr?
      modifies this`pdrs
      ensures ok <==> c.CreatePdr? || c.pid in old(pdrs)
      ensures !ok ==> pdrs == old(pdrs)
      ensures Values(pdrs) == PdrsAfter(old(Values(pdrs)), c, if HasPdr(c) then Some(old(c.pdr.Value())) else None)
    {
      hide Driver.MergePdr;
      if !c.CreatePdr? && c.pid !in pdrs { return false; }
      match c {
        case CreatePdr(id, pdr) => pdrs := pdrs[id := pdr];
        case UpdatePdr(id, pdr) =>
          var merged := MergePdr(pdrs[id], pdr);
          pdrs := pdrs[id := merged];
        case RemovePdr(id) => pdrs := pdrs - {id};
      }
      return true;
    }

    method ChangeFars(c: Change) returns (ok: bool)
      requires c.CreateFar? || c.UpdateFar? || c.RemoveFar?
      modifies this`fars
      ensures ok <==> c.CreateFar? || c.fid in old(fars)
      ensures !ok ==> fars == old(fars)
      ensures FarValues(fars) == FarsAfter(old(FarValues(fars)), c, if HasFar(c) then Some(old(c.far.Value())) else None)
    {
      hide Driver.MergeFar;
      if !c.CreateFar? && c.fid !in fars { return false; }
      match c {
        case CreateFar(id, far) => fars := fars[id := far];
        case UpdateFar(id, far) =>
          var merged := MergeFar(fars[id], far);
          fars := fars[id := merged];
        case RemoveFar(id) => fars := fars - {id};
      }
      return true;
    }

    /** One rule request.  Only the maps change: every object that existed before, whoever holds it,
        keeps all its fields. */
    method Apply(c: Change) returns (ok: bool)
      modifies this
      ensures ok <==> Accepted(c, old(pdrs.Keys), old(fars.Keys))
      ensures ok ==> Published()
      ensures !ok ==> pdrs == old(pdrs) && fars == old(fars) && snapshot == old(snapshot)
      ensures Values(pdrs) == PdrsAfter(old(Values(pdrs)), c, if HasPdr(c) then Some(old(c.pdr.Value())) else None)
      ensures FarValues(fars) == FarsAfter(old(FarValues(fars)), c, if HasFar(c) then Some(old(c.far.Value())) else None)
    {
      hide Driver.MergePdr, Driver.MergeFar, Published, Values, FarValues;
      if c.CreatePdr? || c.UpdatePdr? || c.RemovePdr? { ok := ChangePdrs(c); } else { ok := ChangeFars(c); }
      if ok { Publish(); }
    }

    /** Any number of requests, for any snapshot that a reader took before and still holds: it shows
        the rules it showed when it was taken. */
    method Serve(changes: seq<Change>, ghost held: map<PdrId, Shared>)
      modifies this
      ensures forall p | p in held ::
        && held[p].pdr.Value() == old(held[p].pdr.Value())
        && (held[p].far != null ==> held[p].far.Value() == old(held[p].far.Value()))
    {
      for i := 0 to |changes| {
        var ok := Apply(changes[i]);
      }
    }
  }

  /** An update or removal must name an installed rule. */
  predicate Accepted(c: Change, pids: set<PdrId>, fids: set<FarId>) {
    match c
    case UpdatePdr(id, _) => id in pids
    case RemovePdr(id) => id in pids
    case UpdateFar(id, _) => id in fids
    case RemoveFar(id) => id in fids
    case _ => true
  }

  predicate HasPdr(c: Change) { c.CreatePdr? || c.UpdatePdr? }
  predicate HasFar(c: Change) { c.CreateFar? || c.UpdateFar? }

  /** The PDRs as values: what the state machine of module Driver makes of them. */
  function PdrsAfter(pdrs: map<PdrId, Pdr>, c: Change, v: Option<Pdr>): map<PdrId, Pdr>
    requires HasPdr(c) ==> v.Some?
  {
    match c
    case CreatePdr(id, _) => pdrs[id := v.value]
    case UpdatePdr(id, _) => if id in pdrs then pdrs[id := Driver.MergePdr(pdrs[id], v.value)] else pdrs
    case RemovePdr(id) => pdrs - {id}
    case _ => pdrs
  }

  function FarsAfter(fars: map<FarId, Far>, c: Change, v: Option<Far>): map<FarId, Far>
    requires HasFar(c) ==> v.Some?
  {
    match c
    case CreateFar(id, _) => fars[id := v.value]
    case UpdateFar(id, _) => if id in fars then fars[id := Driver.MergeFar(fars[id], v.value)] else fars
    case RemoveFar(id) => fars - {id}
    case _ => fars
  }
}
