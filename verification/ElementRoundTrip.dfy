/** `load_from` inverts `dump_to` on every well-formed element that is not a group. */
module ElementRoundTrip {
  import opened Octets
  import opened Elements
  import Labels

  predicate AllZero(b: bytes) {
    forall i :: 0 <= i < |b| ==> b[i] == 0
  }

  /** Contents of the right kind, with every field that is not transmitted at its initial value. */
  predicate Canonical(kind: byte, length: nat, body: Body)
    requires !body.Group? && Sound(body)
  {
    match body
    case Octet(_) => CheckedOctet(kind) || UncheckedOctet(kind)
    case Digits(b, count) =>
      DigitString(kind) && 1 <= length <= 8 && AllZero(b[length..]) && count == DigitCount(kind, length, b)
    case Cause(value, _, k, l, i) => kind == CAUSE && length != 6 && k == 0 && l == 0 && i == 0
    case Apn(name) => kind == APN && Labels.Encodable(name) && Labels.ShortLabels(Labels.Split(name))
    case Ambr(_, _) => kind == AMBR
    case IpAddress(raw, isIpv4) => kind == IP_ADDRESS && isIpv4 && AllZero(raw[4..])
    case Indication(flags) => kind == INDICATION && 1 <= length <= 7 && AllZero(flags[length..])
    case Pco(_, cs) => kind == PCO && forall i :: 0 <= i < |cs| ==> cs[i].declared == |cs[i].contents|
    case Paa(pdn, prefix, a6, a4) =>
      && kind == PAA
      && (pdn % 8 == 1 || pdn % 8 == 4 ==> prefix == 0 && AllZero(a6))
      && (pdn % 8 == 2 || pdn % 8 == 4 ==> AllZero(a4))
    case BearerQos(_, _, _, _, _, _) => kind == BEARER_QOS
    case FlowQos(_, _, _, _, _) => kind == FLOW_QOS
    case ServingNetwork(_) => kind == SERVING_NETWORK
    case Uli(places, fields, top) =>
      kind == ULI && top == 0 && forall i :: 0 <= i < 8 && !Bit(places, i) ==> AllZero(fields[i])
    case Fteid(i, _, a4, a6) =>
      kind == F_TEID && (!Bit(i, 7) ==> AllZero(a4)) && (!Bit(i, 6) ==> AllZero(a6))
    case ChargingId(_) => kind == CHARGING_ID
    case TimeZone(_, _) => kind == UE_TIME_ZONE
    case FqCsid(_, _, _) => kind == FQ_CSID
  }

  /** Canonical, and as long as it declares; a ULI is read without regard to its length. */
  predicate WellFormedLeaf(kind: byte, length: nat, body: Body) {
    && !body.Group? && Sound(body) && Canonical(kind, length, body)
    && length > 0 && (!body.Uli? ==> length == |Payload(length, body)|)
  }

  lemma ZerosAre(b: bytes)
    requires AllZero(b)
    ensures b == Zeros(|b|)
  {
  }

  lemma DigitsBack(kind: byte, length: nat, b: Octets8, count: nat, rest: bytes)
    requires WellFormedLeaf(kind, length, Digits(b, count))
    ensures LoadDigits(kind, length, Payload(length, Digits(b, count)) + rest) == Loaded(Digits(b, count), rest)
  {
    ReadBack(b[..length], rest);
    ZerosAre(b[length..]);
    assert b == b[..length] + b[length..];
  }

  lemma CauseBack(length: nat, c: Body, rest: bytes)
    requires c.Cause? && WellFormedLeaf(CAUSE, length, c)
    ensures LoadCause(length, Payload(length, c) + rest) == Loaded(c, rest)
  {
  }

  lemma ApnBack(length: nat, name: bytes, rest: bytes)
    requires WellFormedLeaf(APN, length, Apn(name))
    ensures LoadApn(length, Payload(length, Apn(name)) + rest) == Loaded(Apn(name), rest)
  {
    ReadBack(Labels.Dotted(name), rest);
    Labels.ApnRoundTrip(name);
  }

  lemma Value32Back(n: u32)
    ensures Value32(Big(n, 4)) == n
  {
    Capacities();
    BigRoundTrip(n, 4);
  }

  lemma Value16Back(n: u16)
    ensures Value16(Word(n)) == n
  {
  }

  lemma AmbrBack(length: nat, up: u32, down: u32, rest: bytes)
    requires length >= 1
    ensures LoadLeaf(AMBR, length, Payload(length, Ambr(up, down)) + rest) == Loaded(Ambr(up, down), rest)
  {
    Value32Back(up);
    Value32Back(down);
    ReadBack(Big(up, 4) + Big(down, 4), rest);
    assert (Big(up, 4) + Big(down, 4))[..4] == Big(up, 4);
    assert (Big(up, 4) + Big(down, 4))[4..] == Big(down, 4);
  }

  lemma IpAddressBack(length: nat, raw: Octets16, rest: bytes)
    requires WellFormedLeaf(IP_ADDRESS, length, IpAddress(raw, true))
    ensures LoadIpAddress(length, Payload(length, IpAddress(raw, true)) + rest) == Loaded(IpAddress(raw, true), rest)
  {
    ReadBack(raw[..4], rest);
    ZerosAre(raw[4..]);
    assert raw == raw[..4] + raw[4..];
  }

  lemma IndicationBack(length: nat, flags: Octets7, rest: bytes)
    requires WellFormedLeaf(INDICATION, length, Indication(flags))
    ensures LoadIndication(length, Payload(length, Indication(flags)) + rest) == Loaded(Indication(flags), rest)
  {
    ReadBack(flags[..length], rest);
    ZerosAre(flags[length..]);
    assert flags == flags[..length] + flags[length..];
  }

  lemma OneContainerBack(c: Container, rest: bytes, s: bytes)
    requires c.declared == |c.contents| && s == ContainerBytes(c) + rest
    ensures OneContainer(s) == (c, rest)
  {
    var head := Word(c.id) + [c.declared];
    Assoc(head, c.contents, rest);
    ReadBack(head, c.contents + rest);
    ReadBack(c.contents, rest);
    assert head[..2] == Word(c.id);
  }

  lemma {:induction false} ContainersBack(cs: seq<Container>, rest: bytes)
    requires forall i :: 0 <= i < |cs| ==> cs[i].declared == |cs[i].contents|
    ensures LoadContainers(|ContainersBytes(cs)|, ContainersBytes(cs) + rest) == Containers(cs, rest)
  {
    if cs == [] {
      assert ContainersBytes(cs) + rest == rest;
    } else {
      ContainersBack(cs[1..], rest);
      AddContainer(ContainersBytes(cs), ContainersBytes(cs[1..]), cs[0], cs[1..], rest);
      assert [cs[0]] + cs[1..] == cs;
    }
  }

  lemma AddContainer(all: bytes, more: bytes, c: Container, cs: seq<Container>, rest: bytes)
    requires c.declared == |c.contents| && all == ContainerBytes(c) + more
    requires LoadContainers(|more|, more + rest) == Containers(cs, rest)
    ensures LoadContainers(|all|, all + rest) == Containers([c] + cs, rest)
  {
    Assoc(ContainerBytes(c), more, rest);
    OneContainerBack(c, more + rest, all + rest);
    NextContainer(|more|, |all|, all + rest, more + rest, c, cs, rest);
  }

  lemma NextContainer(n: nat, all: nat, s: bytes, after: bytes, c: Container, cs: seq<Container>, rest: bytes)
    requires OneContainer(s) == (c, after) && all == c.declared + 3 + n
    requires LoadContainers(n, after) == Containers(cs, rest)
    ensures LoadContainers(all, s) == Containers([c] + cs, rest)
  {
  }

  lemma PcoBack(head: byte, cs: seq<Container>, rest: bytes)
    requires forall i :: 0 <= i < |cs| ==> cs[i].declared == |cs[i].contents|
    ensures var all := [head] + ContainersBytes(cs);
            LoadPco(|all|, all + rest) == Loaded(Pco(head, cs), rest)
  {
    ContainersBack(cs, rest);
    FirstOctet(head, ContainersBytes(cs), rest, 128);
  }

  lemma FirstOctet(head: byte, all: bytes, rest: bytes, old_: byte)
    ensures var s := [head] + all + rest;
            TakeOne(s, old_) == head && Drop(s, 1) == all + rest && |[head] + all| == 1 + |all|
  {
    Assoc([head], all, rest);
  }

  lemma PaaBack(length: nat, pdn: byte, prefix: byte, a6: Octets16, a4: Octets4, rest: bytes)
    requires WellFormedLeaf(PAA, length, Paa(pdn, prefix, a6, a4))
    ensures LoadPaa(length, Payload(length, Paa(pdn, prefix, a6, a4)) + rest)
         == Loaded(Paa(pdn, prefix, a6, a4), rest)
  {
    var t := pdn % 8;
    if t == 1 {
      Assoc([pdn], a4, rest);
      ReadBack(a4, rest);
      ZerosAre(a6);
    } else if t == 2 {
      Paa6Back(pdn, prefix, a6, rest);
      ZerosAre(a4);
    } else if t == 3 {
      Assoc([pdn, prefix] + a6, a4, rest);
      Paa6Back(pdn, prefix, a6, a4 + rest);
      ReadBack(a4, rest);
      var r := Drop([pdn, prefix] + a6 + (a4 + rest), 1);
      assert Drop(r, 21) == Drop(Drop(r, 17), 4);
    } else {
      ZerosAre(a6);
      ZerosAre(a4);
    }
  }

  lemma Paa6Back(pdn: byte, prefix: byte, a6: Octets16, rest: bytes)
    ensures var s := [pdn, prefix] + a6 + rest;
            && TakeOne(s, 4) == pdn
            && Take(Drop(s, 1), 1)[0] == prefix
            && Take(Drop(Drop(s, 1), 1), 16) == a6
            && Drop(Drop(s, 1), 17) == rest
  {
    var s := [pdn, prefix] + a6 + rest;
    assert Drop(s, 1) == [prefix] + (a6 + rest);
    assert Drop(Drop(s, 1), 1) == a6 + rest;
    assert Drop(Drop(s, 1), 17) == rest;
  }

  lemma Middle(x: bytes, y: bytes, z: bytes)
    ensures (x + y + z)[|x|..|x| + |y|] == y
  {
  }

  /** Four rates of five octets each behind a head. */
  lemma Rates(h: bytes, r0: Octets5, r1: Octets5, r2: Octets5, r3: Octets5)
    ensures var b, n := h + r0 + r1 + r2 + r3, |h|;
            b[n..n + 5] == r0 && b[n + 5..n + 10] == r1 && b[n + 10..n + 15] == r2 && b[n + 15..n + 20] == r3
  {
    var b, n := h + r0 + r1 + r2 + r3, |h|;
    Assoc(h + r0 + r1, r2, r3);
    Assoc(h + r0, r1, r2 + r3);
    Middle(h, r0, r1 + (r2 + r3));
    Middle(h + r0, r1, r2 + r3);
    Middle(h + r0 + r1, r2, r3);
    Middle(h + r0 + r1 + r2, r3, []);
    assert b + [] == b;
    assert b == h + r0 + (r1 + (r2 + r3));
  }

  lemma BearerQosBack(length: nat, q: Body, rest: bytes)
    requires q.BearerQos? && WellFormedLeaf(BEARER_QOS, length, q)
    ensures LoadBearerQos(length, Payload(length, q) + rest) == Loaded(q, rest)
  {
    ReadBack(Payload(length, q), rest);
    Rates([q.arp, q.qci], q.mbrUp, q.mbrDown, q.gbrUp, q.gbrDown);
  }

  lemma FlowQosBack(length: nat, q: Body, rest: bytes)
    requires q.FlowQos? && WellFormedLeaf(FLOW_QOS, length, q)
    ensures LoadFlowQos(length, Payload(length, q) + rest) == Loaded(q, rest)
  {
    ReadBack(Payload(length, q), rest);
    Rates([q.label_], q.maxUp, q.maxDown, q.minUp, q.minDown);
  }

  /** One location, present or not, read back in front of the others. */
  lemma NextPlace(places: byte, i: nat, field: bytes, more: bytes, others: seq<bytes>, rest: bytes)
    requires i < 8 && |field| == PlaceSize(i) && (!Bit(places, i) ==> AllZero(field))
    requires LoadPlaces(places, more + rest, i + 1) == Places(others, rest)
    ensures LoadPlaces(places, (if Bit(places, i) then field else []) + more + rest, i)
         == Places([field] + others, rest)
  {
    if Bit(places, i) {
      Assoc(field, more, rest);
      ReadBack(field, more + rest);
    } else {
      ZerosAre(field);
      assert [] + more == more;
    }
  }

  lemma {:induction false} PlacesBack(places: byte, fields: seq<bytes>, i: nat, rest: bytes)
    requires i <= 8 && |fields| == 8 && forall j :: 0 <= j < 8 ==> |fields[j]| == PlaceSize(j)
    requires forall j :: 0 <= j < 8 && !Bit(places, j) ==> AllZero(fields[j])
    ensures LoadPlaces(places, PlacesBytes(places, fields, i) + rest, i) == Places(fields[i..], rest)
    decreases 8 - i
  {
    if i == 8 {
      assert PlacesBytes(places, fields, i) + rest == rest;
    } else {
      PlacesBack(places, fields, i + 1, rest);
      NextPlace(places, i, fields[i], PlacesBytes(places, fields, i + 1), fields[i + 1..], rest);
      assert fields[i..] == [fields[i]] + fields[i + 1..];
    }
  }

  lemma UliBack(places: byte, fields: seq<bytes>, rest: bytes)
    requires |fields| == 8 && forall j :: 0 <= j < 8 ==> |fields[j]| == PlaceSize(j)
    requires forall j :: 0 <= j < 8 && !Bit(places, j) ==> AllZero(fields[j])
    ensures LoadUli([places] + PlacesBytes(places, fields, 0) + rest) == Loaded(Uli(places, fields, 0), rest)
  {
    FirstOctet(places, PlacesBytes(places, fields, 0), rest, 0);
    PlacesBack(places, fields, 0, rest);
    assert fields[0..] == fields;
  }

  lemma FteidBack(length: nat, i: byte, key: u32, a4: Octets4, a6: Octets16, rest: bytes)
    requires WellFormedLeaf(F_TEID, length, Fteid(i, key, a4, a6))
    ensures LoadFteid(length, Payload(length, Fteid(i, key, a4, a6)) + rest) == Loaded(Fteid(i, key, a4, a6), rest)
  {
    var p4, p6 := if Bit(i, 7) then a4 else [], if Bit(i, 6) then a6 else [];
    var k := Big(key, 4);
    Assoc([i] + k + p4, p6, rest);
    Assoc([i] + k, p4, p6 + rest);
    Assoc([i], k, p4 + (p6 + rest));
    ReadBack([i], k + (p4 + (p6 + rest)));
    ReadBack(k, p4 + (p6 + rest));
    Value32Back(key);
    ReadBack(p4, p6 + rest);
    ReadBack(p6, rest);
    if !Bit(i, 7) {
      ZerosAre(a4);
      assert p4 + (p6 + rest) == p6 + rest;
    }
    if !Bit(i, 6) {
      ZerosAre(a6);
      assert p6 + rest == rest;
    }
  }

  lemma {:induction false} CsidsBack(csids: seq<u16>, rest: bytes)
    ensures LoadCsids(|csids|, CsidBytes(csids) + rest) == (csids, rest)
  {
    if csids == [] {
      assert CsidBytes(csids) + rest == rest;
    } else {
      var more := CsidBytes(csids[1..]);
      Assoc(Word(csids[0]), more, rest);
      ReadBack(Word(csids[0]), more + rest);
      Value16Back(csids[0]);
      CsidsBack(csids[1..], rest);
      assert csids == [csids[0]] + csids[1..];
    }
  }

  /** The packed node id is read back as the same mcc, mnc and operator id. */
  lemma NodeBack(node: Node)
    requires node.Operator? && node.mnc < 1000 && node.id < 4096 && node.mcc * 1000 + node.mnc < 0x10_0000
    ensures Unpacked(Value32(NodeBytes(node))) == node
  {
    var m := node.mcc * 1000 + node.mnc;
    assert m / 1000 == node.mcc && m % 1000 == node.mnc;
    assert (m * 4096 + node.id) / 4096 == m && (m * 4096 + node.id) % 4096 == node.id;
    Value32Back(m * 4096 + node.id);
  }

  lemma {:induction false} CsidSize(csids: seq<u16>)
    ensures |CsidBytes(csids)| == 2 * |csids|
  {
    if csids != [] {
      CsidSize(csids[1..]);
    }
  }

  lemma FqCsidBack(length: nat, counts: byte, node: Node, csids: seq<u16>, rest: bytes)
    requires WellFormedLeaf(FQ_CSID, length, FqCsid(counts, node, csids))
    ensures LoadFqCsid(length, Payload(length, FqCsid(counts, node, csids)) + rest)
         == Loaded(FqCsid(counts, node, csids), rest)
  {
    var n, c := NodeBytes(node), CsidBytes(csids);
    Assoc([counts] + n, c, rest);
    Assoc([counts], n, c + rest);
    ReadBack([counts], n + (c + rest));
    ReadBack(n, c + rest);
    CsidsBack(csids, rest);
    CsidSize(csids);
    if node.Operator? {
      NodeBack(node);
    }
  }

  lemma FixedBack(kind: byte, length: nat, body: Body, rest: bytes)
    requires WellFormedLeaf(kind, length, body)
    requires body.Octet? || body.ServingNetwork? || body.ChargingId? || body.TimeZone?
    ensures LoadLeaf(kind, length, Payload(length, body) + rest) == Loaded(body, rest)
  {
    ReadBack(Payload(length, body), rest);
    if body.ChargingId? {
      Value32Back(body.charging);
    }
  }

  /** Every well-formed element's contents are read back exactly, and nothing after them is touched. */
  lemma LeafRoundTrip(kind: byte, length: nat, body: Body, rest: bytes)
    requires WellFormedLeaf(kind, length, body)
    ensures LeafKind(kind)
    ensures LoadLeaf(kind, length, Payload(length, body) + rest) == Loaded(body, rest)
  {
    match body
    case Digits(b, count) => DigitsBack(kind, length, b, count, rest);
    case Cause(_, _, _, _, _) => CauseBack(length, body, rest);
    case Apn(name) => ApnBack(length, name, rest);
    case Ambr(up, down) => AmbrBack(length, up, down, rest);
    case IpAddress(raw, _) => IpAddressBack(length, raw, rest);
    case Indication(flags) => IndicationBack(length, flags, rest);
    case Pco(head, cs) => PcoBack(head, cs, rest);
    case Paa(pdn, prefix, a6, a4) => PaaBack(length, pdn, prefix, a6, a4, rest);
    case BearerQos(_, _, _, _, _, _) => BearerQosBack(length, body, rest);
    case FlowQos(_, _, _, _, _) => FlowQosBack(length, body, rest);
    case Uli(places, fields, _) => UliBack(places, fields, rest);
    case Fteid(i, key, a4, a6) => FteidBack(length, i, key, a4, a6, rest);
    case FqCsid(counts, node, csids) => FqCsidBack(length, counts, node, csids, rest);
    case _ => FixedBack(kind, length, body, rest);
  }
}
