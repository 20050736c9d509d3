/** GTP-U framing: the message encoder of internal/gtpv1 and the decoder of the
    userspace data plane.  Bytes and words are bounded integers; masks and shifts
    are written as the division and remainder they stand for. */
module Gtpu {
  import opened Rules

  type Word16 = x: int | 0 <= x < 0x1_0000
  type Word32 = x: int | 0 <= x < 0x1_0000_0000

  const EXT_TYPE_PDU_SESSION: Byte := 0x85
  const HEADER_LEN := 12

  datatype Container = Container(pduType: Byte, qfi: Byte)

  datatype Message = Message(
    flags: Byte,
    msgType: Byte,
    teid: Word32,
    seqNo: Word16,
    npdu: Byte,
    exts: seq<Container>,
    payload: seq<Byte>)
  {
    predicate HasSequence() { flags / 2 % 2 == 1 }
    predicate HasNpdu() { flags % 2 == 1 }

    /** Position just before the first extension header, after alignment. */
    function AlignedPos(): (pos: int)
      ensures pos == 11
    {
      Aligned(8 + (if HasSequence() then 2 else 0) + (if HasNpdu() then 1 else 0))
    }
  }

  /** Rounding up to one octet before the next four-octet boundary. */
  function Aligned(pos: int): (r: int)
    ensures 8 <= pos <= 11 ==> r == 11
  {
    (pos + 4) / 4 * 4 - 1
  }

  datatype Decoded = Decoded(teid: Word32, inner: seq<Byte>)
  datatype DecodeResult = Accepted(value: Decoded) | TooShort | Truncated | BadExtLength

  function Be16(x: Word16): (s: seq<Byte>)
    ensures |s| == 2 && FromBe16(s) == x
  {
    [x / 0x100, x % 0x100]
  }

  function FromBe16(s: seq<Byte>): Word16
    requires |s| == 2
  {
    var hi: int, lo: int := s[0], s[1];
    hi * 0x100 + lo
  }

  function Be32(x: Word32): (s: seq<Byte>)
    ensures |s| == 4 && FromBe32(s) == x
  {
    var s := Be16(x / 0x1_0000) + Be16(x % 0x1_0000);
    assert s[..2] == Be16(x / 0x1_0000) && s[2..] == Be16(x % 0x1_0000);
    s
  }

  function FromBe32(s: seq<Byte>): Word32
    requires |s| == 4
  {
    var hi: int, lo: int := FromBe16(s[..2]), FromBe16(s[2..]);
    hi * 0x1_0000 + lo
  }

  /** The four octets of one PDU session container: type, length in units of four
      octets, PDU type in the high nibble, low four bits of the QFI. */
  function ContainerBytes(c: Container): (s: seq<Byte>)
    ensures |s| == 4
  {
    [EXT_TYPE_PDU_SESSION, 1, c.pduType * 16 % 0x100, c.qfi % 16]
  }

  function ExtBytes(exts: seq<Container>): (s: seq<Byte>)
    ensures |s| == 4 * |exts|
  {
    if exts == [] then [] else ExtBytes(exts[..|exts| - 1]) + ContainerBytes(exts[|exts| - 1])
  }

  /** Octets 8 to 10: the optional fields the flags ask for; the octets the encoder
      skips keep what the buffer held before. */
  function OptionalBytes(m: Message, before: seq<Byte>): (s: seq<Byte>)
    requires |before| == 3
    ensures |s| == 3
  {
    if m.HasSequence() && m.HasNpdu() then Be16(m.seqNo) + [m.npdu]
    else if m.HasSequence() then Be16(m.seqNo) + [before[2]]
    else if m.HasNpdu() then [m.npdu] + before[1..]
    else before
  }

  /** The eleven octets before the first extension header. */
  function Header(m: Message, before: seq<Byte>): (s: seq<Byte>)
    requires |before| == 3
    ensures |s| == 11
  {
    [m.flags, m.msgType]
    + Be16((4 + 4 * |m.exts| + |m.payload|) % 0x1_0000)
    + Be32(m.teid)
    + OptionalBytes(m, before)
  }

  /** The wire image of a message in a buffer whose octets 8 to 10 were `before`. */
  function Wire(m: Message, before: seq<Byte>): (s: seq<Byte>)
    requires |before| == 3
    ensures |s| == HEADER_LEN + 4 * |m.exts| + |m.payload|
  {
    Header(m, before) + ExtBytes(m.exts) + [0] + m.payload
  }

  /** Message.Len: the loop over the extensions adds up to the size of the wire image. */
  method Len(m: Message) returns (l: int)
    ensures l == HEADER_LEN + 4 * |m.exts| + |m.payload|
  {
    l := m.AlignedPos();
    for i := 0 to |m.exts|
      invariant l == 11 + 4 * i
    {
      l := l + 4;
    }
    l := l + 1 + |m.payload|;
  }

  /** The optional sequence and N-PDU numbers; returns the position after them. */
  method EncodeOptional(m: Message, b: array<Byte>) returns (pos: int)
    requires b.Length >= 11
    modifies b
    ensures 8 <= pos <= 11
    ensures b[8..11] == OptionalBytes(m, old(b[8..11]))
    ensures b[..8] == old(b[..8]) && b[11..] == old(b[11..])
  {
    pos := 8;
    if m.HasSequence() {
      var s := Be16(m.seqNo);
      b[pos], b[pos + 1] := s[0], s[1];
      pos := pos + 2;
    }
    if m.HasNpdu() {
      b[pos] := m.npdu;
      pos := pos + 1;
    }
  }

  /** Everything before the extension headers; returns the aligned position after it. */
  method EncodeHeader(m: Message, b: array<Byte>) returns (pos: int)
    requires b.Length >= HEADER_LEN + 4 * |m.exts| + |m.payload|
    modifies b
    ensures pos == 11
    ensures b[..pos] == Header(m, old(b[8..11]))
    ensures b[pos..] == old(b[pos..])
  {
    var l := Len(m);
    var len16 := Be16((l - 8) % 0x1_0000);
    var t := Be32(m.teid);
    b[0], b[1], b[2], b[3] := m.flags, m.msgType, len16[0], len16[1];
    b[4], b[5], b[6], b[7] := t[0], t[1], t[2], t[3];
    ghost var first := b[..8];
    assert b[8..11] == old(b[8..11]);
    pos := EncodeOptional(m, b);
    pos := Aligned(pos);
    assert b[..11] == b[..8] + b[8..11] && b[..8] == first;
    assert first == [m.flags, m.msgType] + len16 + t;
  }

  /** PDUSessionContainer.Encode: its four octets at a position. */
  method EncodeContainer(c: Container, b: array<Byte>, pos: int)
    requires 0 <= pos && pos + 4 <= b.Length
    modifies b
    ensures b[..pos + 4] == old(b[..pos]) + ContainerBytes(c)
    ensures b[pos + 4..] == old(b[pos + 4..])
  {
    b[pos], b[pos + 1] := EXT_TYPE_PDU_SESSION, 1;
    b[pos + 2], b[pos + 3] := c.pduType * 16 % 0x100, c.qfi % 16;
  }

  /** The loop over the extension headers and the terminating zero. */
  method EncodeExts(m: Message, b: array<Byte>, start: int) returns (pos: int)
    requires 0 <= start && b.Length >= start + 4 * |m.exts| + 1
    modifies b
    ensures pos == start + 4 * |m.exts| + 1
    ensures b[..pos] == old(b[..start]) + ExtBytes(m.exts) + [0]
    ensures b[pos..] == old(b[pos..])
  {
    hide ContainerBytes;
    pos := start;
    for i := 0 to |m.exts|
      invariant pos == start + 4 * i
      invariant b[..pos] == old(b[..start]) + ExtBytes(m.exts[..i])
      invariant b[pos..] == old(b[pos..])
    {
      assert m.exts[..i + 1][..i] == m.exts[..i];
      ghost var rest := b[pos..];
      assert b[pos + 4..] == rest[4..];
      EncodeContainer(m.exts[i], b, pos);
      pos := pos + 4;
    }
    assert m.exts[..|m.exts|] == m.exts;
    ghost var done, rest := b[..pos], b[pos..];
    b[pos] := 0;
    pos := pos + 1;
    assert b[..pos] == done + [0];
    assert b[pos..] == rest[1..];
  }

  /** The payload, from a position on. */
  method EncodePayload(payload: seq<Byte>, b: array<Byte>, pos: int)
    requires 0 <= pos && pos + |payload| <= b.Length
    modifies b
    ensures b[..pos + |payload|] == old(b[..pos]) + payload
    ensures b[pos + |payload|..] == old(b[pos + |payload|..])
  {
    for i := 0 to |payload|
      invariant b[..pos + i] == old(b[..pos]) + payload[..i]
      invariant b[pos + i..] == old(b[pos + i..])
    {
      ghost var done, rest := b[..pos + i], b[pos + i..];
      b[pos + i] := payload[i];
      assert b[..pos + i + 1] == done + [payload[i]];
      assert b[pos + i + 1..] == rest[1..];
    }
    assert payload[..|payload|] == payload;
  }

  /** Message.Encode writes through a moving position.  It fills exactly the first Len
      octets with the wire image and nothing after them.  The caller provides at least
      Len octets: the source indexes out of range otherwise. */
  method Encode(m: Message, b: array<Byte>) returns (n: int)
    requires b.Length >= HEADER_LEN + 4 * |m.exts| + |m.payload|
    modifies b
    ensures n == HEADER_LEN + 4 * |m.exts| + |m.payload|
    ensures b[..n] == Wire(m, old(b[8..11]))
    ensures b[n..] == old(b[n..])
  {
    hide Header, ExtBytes;
    ghost var was := b[..];
    var pos := EncodeHeader(m, b);
    assert b[11..] == was[11..];
    pos := EncodeExts(m, b, pos);
    assert b[pos..] == was[pos..];
    EncodePayload(m.payload, b, pos);
    n := Len(m);
    assert b[n..] == was[n..];
  }

  /** Where the payload starts, walking the chain of extension headers from `pos`. */
  function PayloadOffset(p: seq<Byte>, pos: nat): (r: (bool, nat))
    requires HEADER_LEN <= pos <= |p|
    ensures r.0 ==> pos <= r.1 <= |p| && (r.1 - pos) % 4 == 0 && p[r.1 - 1] == 0
    decreases |p| - pos
  {
    if p[pos - 1] == 0 then (true, pos)
    else if |p| < pos + 1 then (false, 0)
    else
      var ext: int := (p[pos] as int) * 4;
      if ext == 0 || |p| < pos + ext then (false, 1) else PayloadOffset(p, pos + ext)
  }

  function Decode(p: seq<Byte>): DecodeResult {
    if |p| < HEADER_LEN then TooShort
    else if p[0] % 8 == 0 then Accepted(Decoded(FromBe32(p[4..8]), p[HEADER_LEN..]))
    else
      var r := PayloadOffset(p, HEADER_LEN);
      if r.0 then Accepted(Decoded(FromBe32(p[4..8]), p[r.1..]))
      else if r.1 == 0 then Truncated
      else BadExtLength
  }

  /** decodeGTPU as written: a loop that moves headerLen along the extension chain.  It
      ends on every input, reads inside the packet only, and what it accepts is a suffix
      of the packet at an offset of twelve plus a multiple of four octets. */
  method DecodeGtpu(p: seq<Byte>) returns (r: DecodeResult)
    ensures r == Decode(p)
    ensures r.Accepted? ==> exists k: nat ::
      HEADER_LEN + 4 * k <= |p| && r.value.inner == p[HEADER_LEN + 4 * k..]
    ensures r.TooShort? <==> |p| < HEADER_LEN
  {
    if |p| < HEADER_LEN {
      return TooShort;
    }
    var headerLen := HEADER_LEN;
    if p[0] % 8 != 0 {
      while p[headerLen - 1] != 0
        invariant HEADER_LEN <= headerLen <= |p| && (headerLen - HEADER_LEN) % 4 == 0
        invariant PayloadOffset(p, HEADER_LEN) == PayloadOffset(p, headerLen)
        decreases |p| - headerLen
      {
        if |p| < headerLen + 1 {
          return Truncated;
        }
        var extLen: int := (p[headerLen] as int) * 4;
        if extLen == 0 || |p| < headerLen + extLen {
          return BadExtLength;
        }
        headerLen := headerLen + extLen;
      }
    }
    ghost var k := (headerLen - HEADER_LEN) / 4;
    assert HEADER_LEN + 4 * k == headerLen;
    r := Accepted(Decoded(FromBe32(p[4..8]), p[headerLen..]));
  }

  /** Before each container stands its type, and its first octet is its length; after the last
      one stands a zero. */
  lemma {:induction false} WireOctets(m: Message, before: seq<Byte>, i: nat)
    requires |before| == 3 && i <= |m.exts|
    ensures var w, pos := Wire(m, before), HEADER_LEN + 4 * i;
      if i == |m.exts| then w[pos - 1] == 0 else w[pos - 1] == EXT_TYPE_PDU_SESSION && w[pos] == 1
  {
    ExtAt(m.exts, i);
    hide Header, ExtBytes, OptionalBytes;
    var head, exts, tail := Header(m, before), ExtBytes(m.exts), [0] + m.payload;
    var w, at := Wire(m, before), 11 + 4 * i;
    assert w == head + exts + tail;
    if i < |m.exts| {
      var four := exts[4 * i..4 * i + 4];
      assert w[at] == exts[4 * i] == four[0] && w[at + 1] == exts[4 * i + 1] == four[1];
    } else {
      assert w[at] == tail[0];
    }
  }

  /** A chain that starts right after `i` containers is walked to its end. */
  lemma {:induction false} WalkContainers(m: Message, before: seq<Byte>, i: nat)
    requires |before| == 3 && i <= |m.exts|
    ensures PayloadOffset(Wire(m, before), HEADER_LEN + 4 * i) == (true, HEADER_LEN + 4 * |m.exts|)
    decreases |m.exts| - i
  {
    hide Wire, ExtBytes, Header;
    WireOctets(m, before, i);
    if i < |m.exts| { WalkContainers(m, before, i + 1); }
  }

  lemma {:induction false} ExtAt(exts: seq<Container>, i: nat)
    requires i <= |exts|
    ensures i < |exts| ==> ExtBytes(exts)[4 * i..4 * i + 4] == ContainerBytes(exts[i])
  {
    hide ContainerBytes;
    if i < |exts| {
      var front, last := exts[..|exts| - 1], ContainerBytes(exts[|exts| - 1]);
      assert ExtBytes(exts) == ExtBytes(front) + last;
      if i < |exts| - 1 {
        ExtAt(front, i);
        assert front[i] == exts[i];
        assert ExtBytes(exts)[4 * i..4 * i + 4] == ExtBytes(front)[4 * i..4 * i + 4];
      } else {
        assert ExtBytes(exts)[4 * i..4 * i + 4] == last;
      }
    }
  }

  /** The round trip, with its exact condition: decoding an encoded message gives back its
      TEID always, and its payload if and only if the message has no extension or one of
      the E, S and PN flags is set.  It holds for payloads of any length, the 16-bit length
      field wrapping around included, and for whatever the buffer held before. */
  lemma {:induction false} RoundTrip(m: Message, before: seq<Byte>)
    requires |before| == 3
    ensures Decode(Wire(m, before)).Accepted?
    ensures Decode(Wire(m, before)).value.teid == m.teid
    ensures Decode(Wire(m, before)).value.inner == m.payload <==> m.exts == [] || m.flags % 8 != 0
  {
    var w := Wire(m, before);
    assert w[0] == m.flags && w[4..8] == Be32(m.teid);
    if m.flags % 8 != 0 {
      WalkContainers(m, before, 0);
      assert w[HEADER_LEN + 4 * |m.exts|..] == m.payload;
    } else if m.exts == [] {
      assert w[HEADER_LEN..] == m.payload;
    }
  }

  /** The QFI survives encoding if and only if it fits the four bits the container keeps;
      flow identifiers from 16 to 63 are altered. */
  lemma {:induction false} QfiCarried(c: Container)
    ensures ContainerBytes(c)[3] == c.qfi <==> c.qfi < 16
  {
  }

  /** encodeGTPU of the pipeline: a G-PDU towards the peer of a FAR, with one container
      when the binding has a nonzero QFI. */
  function GPdu(teid: Word32, qfi: Byte, uplink: bool, payload: seq<Byte>): (m: Message)
    ensures m.teid == teid && m.payload == payload
    ensures m.exts == [] || m.flags % 8 != 0
  {
    var exts := if qfi == 0 then [] else [Container(if uplink then 1 else 0, qfi)];
    Message(if exts == [] then 0x30 else 0x34, 255, teid, 0, 0, exts, payload)
  }

  /** The extension headers of a packet that the decoder accepts. */
  function ContainersOf(p: seq<Byte>): seq<Byte> {
    if |p| < HEADER_LEN || p[0] % 8 == 0 then []
    else
      var r := PayloadOffset(p, HEADER_LEN);
      if r.0 then p[HEADER_LEN - 1..r.1 - 1] else []
  }

  /** Every packet the data plane encapsulates is decoded by the data plane to the tunnel
      endpoint and payload it was built from, with the container it was given. */
  lemma {:induction false} ForwardedPacketDecodes(teid: Word32, qfi: Byte, uplink: bool, payload: seq<Byte>)
    ensures var w := Wire(GPdu(teid, qfi, uplink, payload), [0, 0, 0]);
      && Decode(w) == Accepted(Decoded(teid, payload))
      && ContainersOf(w) == if qfi == 0 then [] else ContainerBytes(Container(if uplink then 1 else 0, qfi))
  {
    hide Decode, PayloadOffset, ContainerBytes, Be16, Be32;
    var m := GPdu(teid, qfi, uplink, payload);
    RoundTrip(m, [0, 0, 0]);
    var w := Wire(m, [0, 0, 0]);
    if qfi != 0 {
      WalkContainers(m, [0, 0, 0], 0);
      assert m.exts[..0] == [];
      var head, four := Header(m, [0, 0, 0]), ContainerBytes(m.exts[0]);
      assert ExtBytes(m.exts) == [] + four;
      assert w == head + four + ([0] + payload);
      assert w[11..15] == four;
    }
  }

  // ---- octet by octet ----

  /** The number that four octets are, the most significant first. */
  function Number32(a: Byte, b: Byte, c: Byte, d: Byte): int {
    var x: int, y: int := a, b;
    0x1_0000 * (0x100 * x + y) + Number16(c, d)
  }

  function Number16(a: Byte, b: Byte): int {
    var x: int, y: int := a, b;
    0x100 * x + y
  }

  lemma {:induction false} Be16Octets(x: Word16)
    ensures Number16(Be16(x)[0], Be16(x)[1]) == x
  {
  }

  lemma {:induction false} Be32Octets(x: Word32)
    ensures Number32(Be32(x)[0], Be32(x)[1], Be32(x)[2], Be32(x)[3]) == x
  {
    hide Be16, FromBe16;
    Be16Octets(x / 0x1_0000);
    Be16Octets(x % 0x1_0000);
    assert x == x / 0x1_0000 * 0x1_0000 + x % 0x1_0000;
  }

  /** The octets of an encoded message: flags, type, the length of all that follows octet 8 and the TEID,
      the most significant octet first; sequence and N-PDU numbers as the flags ask; then each container
      with its type, its length in units of four octets, its PDU type and its QFI; a zero; the payload. */
  lemma {:induction false} EncodedOctets(m: Message, before: seq<Byte>, i: nat)
    requires |before| == 3 && i < |m.exts|
    ensures HeaderOctets(m, before)
    ensures var w, at := Wire(m, before), 11 + 4 * i;
      w[at] == 0x85 && w[at + 1] == 1 && w[at + 2] == 16 * m.exts[i].pduType % 256 && w[at + 3] == m.exts[i].qfi % 16
  {
    HeaderOctetsOf(m, before);
    hide Header, OptionalBytes, Be16, Be32, HeaderOctets;
    ContainerAt(m.exts, i);
    var h, x := Header(m, before), ExtBytes(m.exts);
    assert Wire(m, before) == h + x + ([0] + m.payload);
  }

  lemma {:induction false} ContainerAt(exts: seq<Container>, i: nat)
    requires i < |exts|
    ensures |ExtBytes(exts)| == 4 * |exts| && ExtBytes(exts)[4 * i..4 * i + 4] == ContainerBytes(exts[i])
    decreases |exts|
  {
    var n := |exts| - 1;
    var front := ExtBytes(exts[..n]);
    assert |front| == 4 * n;
    if i < n {
      ContainerAt(exts[..n], i);
      assert ExtBytes(exts)[4 * i..4 * i + 4] == front[4 * i..4 * i + 4];
    }
  }

  predicate HeaderOctets(m: Message, before: seq<Byte>)
    requires |before| == 3
  {
    var w := Wire(m, before);
    && |w| == 12 + 4 * |m.exts| + |m.payload|
    && w[0] == m.flags && w[1] == m.msgType
    && Number16(w[2], w[3]) == (|w| - 8) % 0x1_0000
    && Number32(w[4], w[5], w[6], w[7]) == m.teid
    && (if m.flags / 2 % 2 == 1
        then Number16(w[8], w[9]) == m.seqNo && w[10] == (if m.flags % 2 == 1 then m.npdu else before[2])
        else w[8] == (if m.flags % 2 == 1 then m.npdu else before[0]) && w[9..11] == before[1..])
    && w[11 + 4 * |m.exts|] == 0 && w[12 + 4 * |m.exts|..] == m.payload
  }

  lemma {:induction false} HeaderOctetsOf(m: Message, before: seq<Byte>)
    requires |before| == 3
    ensures HeaderOctets(m, before)
  {
    hide Be16, Be32, FromBe16, FromBe32, ExtBytes;
    Be32Octets(m.teid);
    Be16Octets(m.seqNo);
    Be16Octets((4 + 4 * |m.exts| + |m.payload|) % 0x1_0000);
    var w, h, x := Wire(m, before), Header(m, before), ExtBytes(m.exts);
    assert w == h + (x + [0] + m.payload);
    assert w[..11] == h;
    assert w == (h + x + [0]) + m.payload;
    assert h[2..4] == Be16((4 + 4 * |m.exts| + |m.payload|) % 0x1_0000);
    assert h[4..8] == Be32(m.teid);
    assert h[8..11] == OptionalBytes(m, before);
    assert h[2] == h[2..4][0] && h[3] == h[2..4][1];
    assert h[4] == h[4..8][0] && h[5] == h[4..8][1] && h[6] == h[4..8][2] && h[7] == h[4..8][3];
  }

  /** What the data plane sends to a peer: a G-PDU, message type 255, of version 1; the extension flag and
      one container, with PDU type 1 on the uplink and 0 on the downlink, exactly if the QFI is not zero. */
  lemma {:induction false} ForwardedOctets(teid: Word32, qfi: Byte, uplink: bool, payload: seq<Byte>)
    ensures var w := Wire(GPdu(teid, qfi, uplink, payload), [0, 0, 0]);
      && |w| == (if qfi == 0 then 12 else 16) + |payload|
      && w[0] == (if qfi == 0 then 0x30 else 0x34) && w[1] == 255
      && Number16(w[2], w[3]) == (|w| - 8) % 0x1_0000 && Number32(w[4], w[5], w[6], w[7]) == teid
      && w[8..11] == [0, 0, 0]
      && (qfi != 0 ==> w[11..15] == [0x85, 1, if uplink then 0x10 else 0, qfi % 16])
      && w[|w| - |payload| - 1] == 0 && w[|w| - |payload|..] == payload
  {
    hide Wire, Number32;
    var m := GPdu(teid, qfi, uplink, payload);
    var w := Wire(m, [0, 0, 0]);
    HeaderOctetsOf(m, [0, 0, 0]);
    assert w[8..11] == [0, 0, 0] by { assert w[9..11] == [0, 0] && w[8] == 0; }
    if qfi != 0 {
      EncodedOctets(m, [0, 0, 0], 0);
      assert w[11..15] == [w[11], w[12], w[13], w[14]];
    }
  }

  /** What the decoder reads: the TEID in octets 4 to 7, and the payload from octet 12 on unless one of the
      three low flags is set and octet 11 names an extension. */
  lemma {:induction false} DecodeReads(p: seq<Byte>)
    ensures Decode(p).Accepted? ==>
      && |p| >= 12 && Decode(p).value.teid == Number32(p[4], p[5], p[6], p[7])
      && (p[0] % 8 == 0 || p[11] == 0 ==> Decode(p).value.inner == p[12..])
    ensures |p| >= 12 && (p[0] % 8 == 0 || p[11] == 0) ==> Decode(p).Accepted?
  {
    if |p| >= 12 {
      assert p[4..8][..2] == [p[4], p[5]] && p[4..8][2..] == [p[6], p[7]];
    }
  }
}
