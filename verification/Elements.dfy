/** Information elements: their contents, what `dump_to` writes for each kind and what `load_from`
    makes of octets (section 8 of 3GPP TS 29.274). */
module Elements {
  import opened Octets
  import Labels

  type u16 = n: int | 0 <= n < 0x1_0000
  type u32 = n: int | 0 <= n < 0x1_0000_0000
  type Octets3 = b: bytes | |b| == 3 witness [0, 0, 0]
  type Octets4 = b: bytes | |b| == 4 witness [0, 0, 0, 0]
  type Octets5 = b: bytes | |b| == 5 witness [0, 0, 0, 0, 0]
  type Octets7 = b: bytes | |b| == 7 witness [0, 0, 0, 0, 0, 0, 0]
  type Octets8 = b: bytes | |b| == 8 witness [0, 0, 0, 0, 0, 0, 0, 0]
  type Octets16 = b: bytes | |b| == 16 witness [0, 0, 0, 0, 0, 0, 0, 0, 0, 0, 0, 0, 0, 0, 0, 0]

  const IMSI: byte := 1
  const CAUSE: byte := 2
  const RECOVERY: byte := 3
  const APN: byte := 71
  const AMBR: byte := 72
  const EBI: byte := 73
  const IP_ADDRESS: byte := 74
  const MEI: byte := 75
  const MSISDN: byte := 76
  const INDICATION: byte := 77
  const PCO: byte := 78
  const PAA: byte := 79
  const BEARER_QOS: byte := 80
  const FLOW_QOS: byte := 81
  const RAT_TYPE: byte := 82
  const SERVING_NETWORK: byte := 83
  const BEARER_TFT: byte := 84
  const ULI: byte := 86
  const F_TEID: byte := 87
  const DELAY_VALUE: byte := 92
  const BEARER_CONTEXT: byte := 93
  const CHARGING_ID: byte := 94
  const BEARER_FLAGS: byte := 97
  const PDN_TYPE: byte := 99
  const UE_TIME_ZONE: byte := 114
  const APN_RESTRICTION: byte := 127
  const SELECTION_MODE: byte := 128
  const FQ_CSID: byte := 132
  const NODE_TYPE: byte := 135
  const NODE_FEATURES: byte := 152
  const CIOT_SUPPORT: byte := 194

  const MANDATORY_IE_INCORRECT: byte := 69

  /** One octet of contents, whose length `load_from` checks. */
  predicate CheckedOctet(kind: byte) {
    kind == RAT_TYPE || kind == DELAY_VALUE || kind == BEARER_FLAGS || kind == PDN_TYPE
    || kind == APN_RESTRICTION || kind == SELECTION_MODE || kind == NODE_TYPE
    || kind == NODE_FEATURES || kind == CIOT_SUPPORT
  }

  /** One octet of contents, read whatever the declared length is. */
  predicate UncheckedOctet(kind: byte) {
    kind == RECOVERY || kind == EBI || kind == BEARER_TFT
  }

  predicate DigitString(kind: byte) {
    kind == IMSI || kind == MEI || kind == MSISDN
  }

  datatype Container = Container(id: u16, declared: byte, contents: bytes)

  /** The node of an FQ-CSID; the packed form keeps mcc * 1000 + mnc in 20 bits. */
  datatype Node =
    | Ipv4(a4: Octets4)
    | Ipv6(a6: Octets16)
    | Operator(mcc: nat, mnc: nat, id: nat)

  datatype Body =
    | Octet(v: byte)
    | Digits(b: Octets8, count: nat)
    | Cause(value: byte, bits: byte, offendingKind: byte, offendingLength: u16, offendingInstance: byte)
    | Apn(name: bytes)
    | Ambr(uplink: u32, downlink: u32)
    | IpAddress(raw: Octets16, isIpv4: bool)
    | Indication(flags: Octets7)
    | Pco(head: byte, containers: seq<Container>)
    | Paa(pdn: byte, prefix: byte, paa6: Octets16, paa4: Octets4)
    | BearerQos(arp: byte, qci: byte, mbrUp: Octets5, mbrDown: Octets5, gbrUp: Octets5, gbrDown: Octets5)
    | FlowQos(label_: byte, maxUp: Octets5, maxDown: Octets5, minUp: Octets5, minDown: Octets5)
    | ServingNetwork(plmn: Octets3)
    | Uli(places: byte, fields: seq<bytes>, macroTop: byte)
    | Fteid(interface_: byte, key: u32, teid4: Octets4, teid6: Octets16)
    | Group(ies: seq<Ie>)
    | ChargingId(charging: u32)
    | TimeZone(zone: byte, daylight: byte)
    | FqCsid(counts: byte, node: Node, csids: seq<u16>)

  /** An element: type, length and instance octet of its header, then its contents. */
  datatype Ie = Ie(kind: byte, length: u16, tag: byte, body: Body)

  function Instance(ie: Ie): nat {
    Low(ie.tag)
  }

  // ---- sizes the C++ arrays and unions fix ----

  function PlaceSize(i: nat): nat
    requires i < 8
  {
    // CGI, SAI, RAI, TAI, ECGI, LAI, macro eNodeB, extended macro eNodeB
    if i == 0 || i == 1 || i == 2 || i == 4 then 7 else if i == 7 then 6 else 5
  }

  function Weight(i: nat): (w: nat)
    requires i < 8
    ensures w > 0
  {
    [1, 2, 4, 8, 16, 32, 64, 128][i]
  }

  predicate Bit(b: byte, i: nat)
    requires i < 8
  {
    b / Weight(i) % 2 == 1
  }

  /** Representation invariant of the object behind each kind: every constructor and every
      `load_from` establishes it. */
  predicate Sound(body: Body) {
    match body
    case Uli(_, fields, _) => |fields| == 8 && forall i :: 0 <= i < 8 ==> |fields[i]| == PlaceSize(i)
    case Paa(pdn, _, _, _) => 1 <= pdn % 8 <= 4
    case FqCsid(counts, node, csids) =>
      && |csids| == counts % 16
      && counts / 16 == NodeTag(node)
      && (node.Operator? ==> node.mnc < 1000 && node.id < 4096 && node.mcc * 1000 + node.mnc < 0x10_0000)
    case _ => true
  }

  function NodeTag(node: Node): nat {
    match node case Ipv4(_) => 0 case Ipv6(_) => 1 case Operator(_, _, _) => 2
  }

  // ---- what dump_to writes after the header ----

  function ContainerBytes(c: Container): bytes {
    Word(c.id) + [c.declared] + c.contents
  }

  function ContainersBytes(cs: seq<Container>): bytes {
    if cs == [] then [] else ContainerBytes(cs[0]) + ContainersBytes(cs[1..])
  }

  function PlacesBytes(places: byte, fields: seq<bytes>, i: nat): bytes
    requires i <= 8 && |fields| == 8
    decreases 8 - i
  {
    if i == 8 then []
    else (if Bit(places, i) then fields[i] else []) + PlacesBytes(places, fields, i + 1)
  }

  function NodeBytes(node: Node): bytes {
    match node
    case Ipv4(a) => a
    case Ipv6(a) => a
    case Operator(mcc, mnc, id) => Big((mcc * 1000 + mnc) * 4096 + id, 4)
  }

  function CsidBytes(csids: seq<u16>): bytes {
    if csids == [] then [] else Word(csids[0]) + CsidBytes(csids[1..])
  }

  function PaaBytes(pdn: byte, prefix: byte, a6: Octets16, a4: Octets4): bytes {
    var t := pdn % 8;
    if t == 1 then [pdn] + a4
    else if t == 2 then [pdn, prefix] + a6
    else if t == 3 then [pdn, prefix] + a6 + a4
    else [pdn]
  }

  function FteidBytes(interface_: byte, key: u32, a4: Octets4, a6: Octets16): bytes {
    [interface_] + Big(key, 4) + (if Bit(interface_, 7) then a4 else []) + (if Bit(interface_, 6) then a6 else [])
  }

  /** The contents of an ungrouped element. */
  function Payload(length: nat, body: Body): bytes
    requires !body.Group? && Sound(body)
  {
    match body
    case Octet(v) => [v]
    case Digits(b, _) => Take(b, length)
    case Cause(value, bits, k, l, _) => [value, bits] + (if length == 6 then [k] + Word(l) else [])
    case Apn(name) => Labels.Dotted(name)
    case Ambr(up, down) => Big(up, 4) + Big(down, 4)
    case IpAddress(raw, isIpv4) => if isIpv4 then raw[..4] else raw
    case Indication(flags) => flags[..Clamp(length)]
    case Pco(head, cs) => [head] + ContainersBytes(cs)
    case Paa(pdn, prefix, a6, a4) => PaaBytes(pdn, prefix, a6, a4)
    case BearerQos(arp, qci, r0, r1, r2, r3) => [arp, qci] + r0 + r1 + r2 + r3
    case FlowQos(qci, r0, r1, r2, r3) => [qci] + r0 + r1 + r2 + r3
    case ServingNetwork(plmn) => plmn
    case Uli(places, fields, _) => [places] + PlacesBytes(places, fields, 0)
    case Fteid(i, key, a4, a6) => FteidBytes(i, key, a4, a6)
    case ChargingId(id) => Big(id, 4)
    case TimeZone(zone, daylight) => [zone, daylight]
    case FqCsid(counts, node, csids) => [counts] + NodeBytes(node) + CsidBytes(csids)
  }

  /** Indication octets written or read for a declared length. */
  function Clamp(length: nat): (n: nat)
    ensures 1 <= n <= 7 && (1 <= length <= 7 ==> n == length)
  {
    if length < 1 then 1 else if length > 7 then 7 else length
  }

  // ---- what load_from makes of octets ----

  datatype Error =
    | BadLength        // the element's length does not suit its kind
    | BadValue         // a field value with no meaning
    | BadMessageLength // the elements do not fill the message
    | Overrun          // the source reads past a fixed buffer here
    | Stuck            // the source's label decoder throws or never returns here

  datatype Loaded = Loaded(body: Body, rest: bytes) | Refused(error: Error)

  function DigitCount(kind: byte, length: nat, b: bytes): nat
    requires 1 <= length <= |b|
  {
    var n := 2 * length - (if High(b[length - 1]) == 15 then 1 else 0);
    if kind != MSISDN && n > 15 then 15 else n
  }

  function LoadDigits(kind: byte, length: nat, s: bytes): Loaded
    requires length >= 1
  {
    if length > 8 then Refused(Overrun)
    else
      var b: Octets8 := Take(s, length) + Zeros(8 - length);
      Loaded(Digits(b, DigitCount(kind, length, b)), Drop(s, length))
  }

  function LoadCause(length: nat, s: bytes): Loaded {
    var b := Take(s, 6);
    if length == 6 then
      Loaded(Cause(b[0], b[1], b[2], Value16(b[3..5]), b[5]), Drop(s, 6))
    else Loaded(Cause(b[0], b[1], 0, 0, 0), Drop(s, 2))
  }

  /** A 16-bit number in network byte order. */
  function Word(n: u16): (b: bytes)
    ensures |b| == 2
  {
    [n / 256, n % 256]
  }

  function Value16(b: bytes): u16
    requires |b| == 2
  {
    (b[0] as int) * 256 + b[1]
  }

  function Value32(b: bytes): u32
    requires |b| == 4
  {
    Capacities();
    Value(b)
  }

  function LoadApn(length: nat, s: bytes): Loaded {
    if length > Labels.LONGEST_BODY then Refused(Overrun)
    else
      match Labels.DottedToStringSpec(Take(s, length))
      case Text(text, _) => Loaded(Apn(text), Drop(s, length))
      case _ => Refused(Stuck)
  }

  function LoadIpAddress(length: nat, s: bytes): Loaded {
    if length == 4 then Loaded(IpAddress(Take(s, 4) + Zeros(12), true), Drop(s, 4))
    else if length == 16 then Loaded(IpAddress(Take(s, 16), true), Drop(s, 16))
    else Refused(BadLength)
  }

  function LoadIndication(length: nat, s: bytes): Loaded {
    var n := Clamp(length);
    Loaded(Indication(Take(s, n) + Zeros(7 - n)), Drop(s, n))
  }

  datatype LoadedContainers = Containers(cs: seq<Container>, rest: bytes) | TooLong

  /** The container at the front of the stream, and what follows it. */
  function OneContainer(s: bytes): (Container, bytes) {
    var head, after := Take(s, 3), Drop(s, 3);
    (Container(Value16(head[..2]), head[2], Take(after, head[2])), Drop(after, head[2]))
  }

  function LoadContainers(remaining: int, s: bytes): LoadedContainers
    decreases remaining
  {
    if remaining <= 0 then Containers([], s)
    else
      var (c, after) := OneContainer(s);
      if c.declared + 3 > remaining then TooLong
      else
        match LoadContainers(remaining - (c.declared + 3), after)
        case TooLong => TooLong
        case Containers(cs, rest) => Containers([c] + cs, rest)
  }

  function LoadPco(length: nat, s: bytes): Loaded {
    match LoadContainers(length - 1, Drop(s, 1))
    case TooLong => Refused(BadLength)
    case Containers(cs, rest) => Loaded(Pco(TakeOne(s, 128), cs), rest)
  }

  function LoadPaa(length: nat, s: bytes): Loaded {
    var pdn, r := TakeOne(s, 4), Drop(s, 1);
    var t := pdn % 8;
    if t == 1 then
      if length != 5 then Refused(BadLength)
      else Loaded(Paa(pdn, 0, Zeros(16), Take(r, 4)), Drop(r, 4))
    else if t == 2 then
      if length != 18 then Refused(BadLength)
      else Loaded(Paa(pdn, Take(r, 1)[0], Take(Drop(r, 1), 16), Zeros(4)), Drop(r, 17))
    else if t == 3 then
      if length != 22 then Refused(BadLength)
      else Loaded(Paa(pdn, Take(r, 1)[0], Take(Drop(r, 1), 16), Take(Drop(r, 17), 4)), Drop(r, 21))
    else if t == 4 then
      if length != 1 then Refused(BadLength) else Loaded(Paa(pdn, 0, Zeros(16), Zeros(4)), r)
    else Refused(BadValue)
  }

  function LoadBearerQos(length: nat, s: bytes): Loaded {
    if length != 22 then Refused(BadLength)
    else
      var b := Take(s, 22);
      Loaded(BearerQos(b[0], b[1], b[2..7], b[7..12], b[12..17], b[17..22]), Drop(s, 22))
  }

  function LoadFlowQos(length: nat, s: bytes): Loaded {
    if length != 21 then Refused(BadLength)
    else
      var b := Take(s, 21);
      Loaded(FlowQos(b[0], b[1..6], b[6..11], b[11..16], b[16..21]), Drop(s, 21))
  }

  datatype LoadedPlaces = Places(fields: seq<bytes>, rest: bytes)

  function LoadPlaces(places: byte, s: bytes, i: nat): (r: LoadedPlaces)
    requires i <= 8
    ensures |r.fields| == 8 - i
    ensures forall j :: 0 <= j < 8 - i ==> |r.fields[j]| == PlaceSize(i + j)
    decreases 8 - i
  {
    if i == 8 then Places([], s)
    else if Bit(places, i) then
      var more := LoadPlaces(places, Drop(s, PlaceSize(i)), i + 1);
      Places([Take(s, PlaceSize(i))] + more.fields, more.rest)
    else
      var more := LoadPlaces(places, s, i + 1);
      Places([Zeros(PlaceSize(i))] + more.fields, more.rest)
  }

  function LoadUli(s: bytes): Loaded {
    var places := TakeOne(s, 0);
    var p := LoadPlaces(places, Drop(s, 1), 0);
    Loaded(Uli(places, p.fields, 0), p.rest)
  }

  function FteidLength(interface_: byte): nat {
    5 + (if Bit(interface_, 7) then 4 else 0) + (if Bit(interface_, 6) then 16 else 0)
  }

  function LoadFteid(length: nat, s: bytes): Loaded {
    var i, r := TakeOne(s, 0), Drop(s, 1);
    if length != FteidLength(i) then Refused(BadLength)
    else
      var key, r4 := Value32(Take(r, 4)), Drop(r, 4);
      var a4: Octets4, r6 := if Bit(i, 7) then Take(r4, 4) else Zeros(4), if Bit(i, 7) then Drop(r4, 4) else r4;
      if Bit(i, 6) then Loaded(Fteid(i, key, a4, Take(r6, 16)), Drop(r6, 16))
      else Loaded(Fteid(i, key, a4, Zeros(16)), r6)
  }

  function LoadCsids(n: nat, s: bytes): (r: (seq<u16>, bytes))
    ensures |r.0| == n
  {
    if n == 0 then ([], s)
    else
      var more := LoadCsids(n - 1, Drop(s, 2));
      ([Value16(Take(s, 2))] + more.0, more.1)
  }

  /** The packed node id: operator id in the low 12 bits, mcc * 1000 + mnc above. */
  function Unpacked(exotic: u32): (node: Node)
    ensures node.Operator? && node.mnc < 1000 && node.id < 4096
    ensures node.mcc * 1000 + node.mnc < 0x10_0000
    ensures (node.mcc * 1000 + node.mnc) * 4096 + node.id == exotic
  {
    Operator(exotic / 4096 / 1000, exotic / 4096 % 1000, exotic % 4096)
  }

  function LoadFqCsid(length: nat, s: bytes): Loaded {
    var counts, r := TakeOne(s, 0), Drop(s, 1);
    var tag, n := counts / 16, counts % 16;
    if tag > 2 then Refused(BadValue)
    else if length < (if tag == 1 then 17 else 5) + n * 2 then Refused(BadLength)
    else
      var size := if tag == 1 then 16 else 4;
      var a := Take(r, size);
      var node := if tag == 0 then Ipv4(a) else if tag == 1 then Ipv6(a) else Unpacked(Value32(a));
      var csids := LoadCsids(n, Drop(r, size));
      Loaded(FqCsid(counts, node, csids.0), csids.1)
  }

  /** Kinds the factory knows, groups apart. */
  predicate LeafKind(kind: byte) {
    CheckedOctet(kind) || UncheckedOctet(kind) || DigitString(kind) || kind == CAUSE || kind == APN
    || kind == AMBR || kind == IP_ADDRESS || kind == INDICATION || kind == PCO || kind == PAA
    || kind == BEARER_QOS || kind == FLOW_QOS || kind == SERVING_NETWORK || kind == ULI
    || kind == F_TEID || kind == CHARGING_ID || kind == UE_TIME_ZONE || kind == FQ_CSID
  }

  function LoadLeaf(kind: byte, length: nat, s: bytes): Loaded
    requires LeafKind(kind) && length >= 1
  {
    if CheckedOctet(kind) then
      if length != 1 then Refused(BadLength) else Loaded(Octet(TakeOne(s, 0)), Drop(s, 1))
    else if UncheckedOctet(kind) then Loaded(Octet(TakeOne(s, 0)), Drop(s, 1))
    else if DigitString(kind) then LoadDigits(kind, length, s)
    else if kind == CAUSE then LoadCause(length, s)
    else if kind == APN then LoadApn(length, s)
    else if kind == AMBR then
      Loaded(Ambr(Value32(Take(s, 8)[..4]), Value32(Take(s, 8)[4..])), Drop(s, 8))
    else if kind == IP_ADDRESS then LoadIpAddress(length, s)
    else if kind == INDICATION then LoadIndication(length, s)
    else if kind == PCO then LoadPco(length, s)
    else if kind == PAA then LoadPaa(length, s)
    else if kind == BEARER_QOS then LoadBearerQos(length, s)
    else if kind == FLOW_QOS then LoadFlowQos(length, s)
    else if kind == SERVING_NETWORK then
      if length != 3 then Refused(BadLength) else Loaded(ServingNetwork(Take(s, 3)), Drop(s, 3))
    else if kind == ULI then LoadUli(s)
    else if kind == F_TEID then LoadFteid(length, s)
    else if kind == CHARGING_ID then
      if length != 4 then Refused(BadLength) else Loaded(ChargingId(Value32(Take(s, 4))), Drop(s, 4))
    else if kind == UE_TIME_ZONE then
      if length != 2 then Refused(BadLength) else Loaded(TimeZone(Take(s, 2)[0], Take(s, 2)[1]), Drop(s, 2))
    else LoadFqCsid(length, s)
  }
}
