/** What the data plane does with a packet once it is classified. */
module Forwarding {
  import opened Rules
  import Gtpu

  const GTPU_PORT: Port := 2152

  datatype Action = DropPacket | BufferPacket | ForwardPacket | Unknown

  /** resolveAction: DROP wins over BUFF, BUFF over FORW. */
  function ActionOf(b: Binding): Action {
    if b.far.None? then Unknown
    else if DROP in b.far.value.action then DropPacket
    else if BUFF in b.far.value.action then BufferPacket
    else if FORW in b.far.value.action then ForwardPacket
    else Unknown
  }

  datatype Outcome =
    | RawIp(seid: Seid, pdrId: PdrId, payload: Payload)
    | Encapsulated(seid: Seid, pdrId: PdrId, payload: Payload, peer: Ipv4, port: Port)

  /** The first QER that carries a QFI decides; zero stands for none. */
  function FirstQfi(qers: seq<(QerId, Qer)>): (r: Byte)
    ensures (r == 0 && forall i | 0 <= i < |qers| :: qers[i].1.qfi.None?)
         || exists i :: 0 <= i < |qers| && qers[i].1.qfi == Some(r) && forall j | 0 <= j < i :: qers[j].1.qfi.None?
  {
    if qers == [] then 0
    else if qers[0].1.qfi.Some? then qers[0].1.qfi.value
    else FirstQfi(qers[1..])
  }

  function OuterOf(b: Binding): Option<OuterHeader> {
    if b.far.Some? && b.far.value.forwarding.Some? then b.far.value.forwarding.value.outer else None
  }

  /** forwardUplink and forwardDownlink: a G-PDU to the FAR's peer if the FAR creates an
      outer header, the bare packet otherwise. */
  function Forward(b: Binding, payload: Payload, uplink: bool): Outcome {
    var outer := OuterOf(b);
    if outer.None? then RawIp(b.seid, b.pdrId, payload)
    else
      var m := Gtpu.GPdu(outer.value.teid, FirstQfi(b.qers), uplink, payload);
      Encapsulated(b.seid, b.pdrId, Gtpu.Wire(m, [0, 0, 0]), outer.value.ip,
                   if outer.value.port == 0 then GTPU_PORT else outer.value.port)
  }

  /** The binding's FAR creates this outer header. */
  predicate CreatesHeader(b: Binding, h: OuterHeader) {
    b.far.Some? && b.far.value.forwarding.Some? && b.far.value.forwarding.value.outer == Some(h)
  }

  /** Nothing is lost in forwarding.  Without an outer header in the FAR the packet sent is the payload
      itself; with one it goes to that header's peer, at its port or at 2152 if that is zero, and decodes
      to the payload under the header's TEID; a nonzero QFI travels in one container, with the
      direction. */
  lemma {:induction false} ForwardCarries(b: Binding, payload: Payload, uplink: bool)
    ensures match Forward(b, payload, uplink)
      case RawIp(seid, pdrId, p) =>
        (forall h :: !CreatesHeader(b, h)) && p == payload && seid == b.seid && pdrId == b.pdrId
      case Encapsulated(seid, pdrId, p, peer, port) =>
        exists h: OuterHeader :: CreatesHeader(b, h)
          && peer == h.ip && seid == b.seid && pdrId == b.pdrId && port == (if h.port == 0 then 2152 else h.port)
          && Gtpu.Decode(p) == Gtpu.Accepted(Gtpu.Decoded(h.teid, payload))
          && Gtpu.ContainersOf(p) == (if FirstQfi(b.qers) == 0 then [] else
               Gtpu.ContainerBytes(Gtpu.Container(if uplink then 1 else 0, FirstQfi(b.qers))))
  {
    if OuterOf(b).Some? {
      Gtpu.ForwardedPacketDecodes(OuterOf(b).value.teid, FirstQfi(b.qers), uplink, payload);
      assert CreatesHeader(b, OuterOf(b).value);
    }
  }
}
