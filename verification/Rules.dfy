/** The entities of the UPF: the rules a control-plane function installs, the state kept
    for each session, and the requests that change it.  A rule's identifier is the key it
    is stored under.  Fields that no modelled decision reads are left out. */
module Rules {
  datatype Option<+T> = None | Some(value: T)

  type Seid = nat
  type PdrId = x: nat | x < 0x1_0000
  type FarId = nat
  type QerId = nat
  type UrrId = nat
  type BarId = nat
  type FlowId = string
  type Byte = x: int | 0 <= x < 0x100
  type Teid = x: int | 0 <= x < 0x1_0000_0000
  type Ipv4 = x: nat | x < 0x1_0000_0000
  type Port = x: nat | x < 0x1_0000
  type Payload = seq<Byte>
  /** Seconds. */
  type Time = real

  datatype Direction = Uplink | Downlink

  // ---- service data flow filters ----

  datatype PortRange = PortRange(from: Port, to: Port)

  datatype Network = Network(base: Ipv4, prefix: nat)

  datatype Endpoint = Endpoint(
    isAny: bool,
    isAssigned: bool,
    network: Option<Network>,
    ports: seq<PortRange>)

  datatype SdfRule = SdfRule(
    direction: string,
    protocol: string,
    source: Endpoint,
    destination: Endpoint)

  /** What classification looks at in a packet. */
  datatype Meta = Meta(
    src: Ipv4,
    dst: Ipv4,
    protocol: nat,
    srcPort: Port,
    dstPort: Port,
    hasPorts: bool)

  // ---- rules ----

  datatype Interface = Access | Core | OtherInterface(code: nat)

  datatype Pdi = Pdi(
    srcIf: Option<Interface>,
    teid: Option<Teid>,
    ue: Option<Ipv4>,
    sdf: seq<SdfRule>)

  datatype Pdr = Pdr(
    precedence: Option<nat>,
    pdi: Option<Pdi>,
    farId: Option<FarId>,
    qerIds: seq<QerId>,
    urrIds: seq<UrrId>)

  datatype ApplyFlag = DROP | FORW | BUFF | NOCP | OtherAction(bit: nat)

  datatype OuterHeader = OuterHeader(teid: Teid, ip: Ipv4, port: Port)

  datatype Forwarding = Forwarding(dstIf: Option<Interface>, outer: Option<OuterHeader>)

  datatype Far = Far(
    action: set<ApplyFlag>,
    forwarding: Option<Forwarding>,
    barId: Option<BarId>)

  datatype Gate = Gate(ulClosed: bool, dlClosed: bool)

  /** MBR values are in kilobits per second. */
  datatype Qer = Qer(
    gate: Option<Gate>,
    mbrUl: Option<nat>,
    mbrDl: Option<nat>,
    qfi: Option<Byte>)

  datatype Urr = Urr(
    perio: bool,
    period: Time,
    threshold: Option<nat>,
    quota: Option<nat>)

  datatype Bar = Bar(delay: Option<Time>, suggestedCount: Option<nat>)

  // ---- usage ----

  datatype Trigger = PERIO | VOLTH | VOLQU | IMMER | TERMR

  datatype Usage = Usage(
    urr: UrrId,
    triggers: set<Trigger>,
    total: nat,
    up: nat,
    down: nat,
    totalPkts: nat,
    upPkts: nat,
    downPkts: nat)

  // ---- per-session state of the data plane ----

  /** A token bucket; no refill yet is the source's zero time. */
  datatype Bucket = Bucket(tokens: real, lastRefill: Option<Time>)

  datatype Meter = Meter(uplink: Bucket, downlink: Bucket)

  datatype Override = Override(
    flow: FlowId,
    gateUl: Option<bool>,
    gateDl: Option<bool>,
    mbrUl: nat,
    mbrDl: nat,
    expiresAt: Option<Time>)

  datatype SessionState = SessionState(
    pdrs: map<PdrId, Pdr>,
    fars: map<FarId, Far>,
    qers: map<QerId, Qer>,
    urrs: map<UrrId, Urr>,
    bars: map<BarId, Bar>,
    buffers: map<PdrId, seq<Payload>>,
    urrReports: map<UrrId, seq<Usage>>,
    urrPeriodAt: map<UrrId, Time>,
    meters: map<QerId, Meter>,
    overrides: map<QerId, Override>,
    flows: map<FlowId, set<QerId>>)

  const FRESH_SESSION :=
    SessionState(map[], map[], map[], map[], map[], map[], map[], map[], map[], map[], map[])

  /** A PDR with the rules it refers to, resolved against one session. */
  datatype Binding = Binding(
    seid: Seid,
    pdrId: PdrId,
    pdr: Pdr,
    far: Option<Far>,
    qers: seq<(QerId, Qer)>,
    urrs: seq<(UrrId, Urr)>,
    bar: Option<Bar>)

  // ---- requests of the control plane, one identifier per grouped element ----

  /** `ok` says whether the data plane can decode the element; the session layer reads the
      identifiers (and the URR list of a PDR) either way. */
  datatype Request =
    | CreatePdr(pid: PdrId, pdr: Pdr, ok: bool)
    | UpdatePdr(pid: PdrId, pdr: Pdr, ok: bool, hint: seq<UrrId>)
    | RemovePdr(pid: PdrId, hint: seq<UrrId>)
    | CreateFar(fid: FarId, far: Far, ok: bool)
    | UpdateFar(fid: FarId, far: Far, ok: bool)
    | RemoveFar(fid: FarId)
    | CreateQer(qid: QerId, qer: Qer, ok: bool)
    | UpdateQer(qid: QerId, qer: Qer, ok: bool)
    | RemoveQer(qid: QerId)
    | CreateUrr(uid: UrrId, urr: Urr, ok: bool, now: Time)
    | UpdateUrr(uid: UrrId, urr: Urr, ok: bool, now: Time)
    | RemoveUrr(uid: UrrId)
    | QueryUrr(uid: UrrId)
    | CreateBar(bid: BarId, bar: Bar, ok: bool)
    | UpdateBar(bid: BarId, bar: Bar, ok: bool)
    | RemoveBar(bid: BarId)

  datatype Error = DecodeError | SessionNotFound | RuleNotFound
}
