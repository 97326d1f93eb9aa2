/** The element each constructor makes of a core structure, `to_core_type` back, and the values for
    which the two are inverse across the wire. */
module Conversions {
  import opened Octets
  import opened Elements
  import opened ElementRoundTrip
  import opened Messages
  import opened MessageRoundTrip
  import opened CoreTypes
  import Labels

  const INDICATION_FLAGS: nat := 53
  const MAX_CONTAINERS: nat := 30

  /** A constructor's declared length and contents; it may throw instead. */
  datatype Making = Makes(length: nat, body: Body) | Throws

  /** Bits of a one-octet element that its bit field keeps. */
  function Kept(kind: byte, v: byte): byte {
    if kind == EBI then v % 16
    else if kind == PDN_TYPE then v % 8
    else if kind == SELECTION_MODE then v % 4
    else v
  }

  /** The one-octet fields of a request and of its contexts. */
  predicate SmallField(kind: byte) {
    kind == EBI || kind == PDN_TYPE || kind == SELECTION_MODE || kind == RAT_TYPE || kind == APN_RESTRICTION
  }

  function DigitLength(count: nat): nat {
    (count + 1) / 2
  }

  function MakeIdentity(kind: byte, b: Octets8, count: nat): Making {
    if count > 16 then Throws
    else if kind == MEI && count % 2 == 1 then
      Makes(DigitLength(count), Digits(b[count / 2 := FillHigh(b[count / 2])], count))
    else if kind == MSISDN then Makes(if count > 15 then 8 else DigitLength(count), Digits(FifteenDigits(b), count))
    else Makes(DigitLength(count), Digits(b, count))
  }

  /** An MSISDN has no sixteenth digit: that half octet is not copied in either direction. */
  function FifteenDigits(b: Octets8): Octets8 {
    b[7 := Low(b[7])]
  }

  /** What the ULI constructor adds to the length for a location; it is not what is written. */
  function DeclaredSize(i: nat): nat
    requires i < 8
  {
    [7, 7, 5, 5, 7, 4, 6, 6][i]
  }

  function DeclaredFrom(places: byte, i: nat): nat
    requires i <= 8
    decreases 8 - i
  {
    if i == 8 then 0 else (if Bit(places, i) then DeclaredSize(i) else 0) + DeclaredFrom(places, i + 1)
  }

  /** The spare bits of an ECGI and of an extended eNodeB id are cleared. */
  function Masked(i: nat, s: Site): Site
    requires i < 8
  {
    if i == 4 && s.extra != [] then s.(extra := s.extra[0 := s.extra[0] % 16])
    else if i == 7 && s.extra != [] then s.(extra := s.extra[0 := s.extra[0] / 128 * 128 + s.extra[0] % 16])
    else s
  }

  function MakeSites(places: byte, sites: seq<Site>): (f: seq<bytes>)
    requires |sites| == 8
    ensures |f| == 8 && forall i :: 0 <= i < 8 ==> f[i] == FieldOf(places, i, sites[i])
  {
    seq(8, i requires 0 <= i < 8 => FieldOf(places, i, sites[i]))
  }

  function FieldOf(places: byte, i: nat, s: Site): bytes
    requires i < 8
  {
    if Bit(places, i) then SiteBytes(Masked(i, s)) else Zeros(PlaceSize(i))
  }

  function TunnelOctet(v4: bool, v6: bool, kind: nat): byte {
    kind % 64 + (if v6 then 64 else 0) + (if v4 then 128 else 0)
  }

  function MakeAddress(pdnType: byte, prefix: byte, p6: Octets16, p4: Octets4): Making {
    var t := pdnType % 8;
    if t == 1 then Makes(5, Paa(t, 0, Zeros(16), p4))
    else if t == 2 then Makes(18, Paa(t, prefix, p6, Zeros(4)))
    else if t == 3 then Makes(22, Paa(t, prefix, p6, p4))
    else if t == 4 then Makes(1, Paa(t, 0, Zeros(16), Zeros(4)))
    else Throws
  }

  function PriorityOctet(pci: bool, pl: nat, pvi: bool): byte {
    (if pvi then 1 else 0) + pl % 16 * 4 + (if pci then 64 else 0)
  }

  function MakeSetId(node: Node, csids: seq<u16>): Making {
    if |csids| > 15 then Throws
    else Makes(1 + 2 * |csids| + (if node.Ipv6? then 16 else 4), FqCsid(NodeTag(node) * 16 + |csids|, node, csids))
  }

  /** The constructor behind an element type, from its core structure. */
  function Make(kind: byte, core: Core): Making {
    match core
    case Identity(b, count) => MakeIdentity(kind, b, count)
    case Location(places, sites, top) =>
      if |sites| != 8 then Throws else Makes(1 + DeclaredFrom(places, 0), Uli(places, MakeSites(places, sites), top))
    case Network(plmn) => Makes(3, ServingNetwork(PlmnOctets(plmn)))
    case Small(v) => if SmallField(kind) then Makes(1, Octet(Kept(kind, v))) else Throws
    case Flags(f) =>
      if |f| != INDICATION_FLAGS then Throws else Makes(7, Indication(FlagOctets(f + [false, false, false])))
    case Tunnel(v4, v6, k, key, a4, a6) =>
      Makes(5 + (if v4 then 4 else 0) + (if v6 then 16 else 0), Fteid(TunnelOctet(v4, v6, k), key, a4, a6))
    case Name(text) => Makes(|text| + 1, Apn(text))
    case Address(t, prefix, p6, p4) => MakeAddress(t, prefix, p6, p4)
    case Rates(up, down) => Makes(8, Ambr(up, down))
    case Options(ext, protocol, cs) =>
      if |cs| > MAX_CONTAINERS then Throws
      else Makes(1 + ContainersLength(cs), Pco((if ext then 128 else 0) + protocol % 8, cs))
    case SetId(node, csids) => MakeSetId(node, csids)
    case Zone(zone, daylight) => Makes(2, TimeZone(zone, daylight % 4))
    case Quality(pci, pl, pvi, qci, mu, md, gu, gd) =>
      Makes(22, BearerQos(PriorityOctet(pci, pl, pvi), qci, Big(mu, 5), Big(md, 5), Big(gu, 5), Big(gd, 5)))
    case Raw(_) => Throws
  }

  // ---- back ----

  function ReadSites(fields: seq<bytes>): (r: seq<Site>)
    requires |fields| == 8 && forall j :: 0 <= j < 8 ==> |fields[j]| == PlaceSize(j)
    ensures |r| == 8 && forall i :: 0 <= i < 8 ==> r[i] == SiteOf(i, fields[i])
  {
    seq(8, i requires 0 <= i < 8 => SiteOf(i, fields[i]))
  }

  /** `to_core_type` of an element; absent locations were read as zeros. Whatever `load_from` builds
      is sound. */
  function CoreOf(kind: byte, body: Body): Core {
    if !Sound(body) then Raw(body)
    else
    match body
    case Digits(b, count) => Identity(if kind == MSISDN then FifteenDigits(b) else b, count)
    case Uli(places, fields, top) => Location(places, ReadSites(fields), top % 16)
    case ServingNetwork(plmn) => Network(PlmnOf(plmn))
    case Octet(v) => Small(Kept(kind, v))
    case Indication(flags) => Flags(OctetFlags(flags)[..INDICATION_FLAGS])
    case Fteid(i, key, a4, a6) => Tunnel(Bit(i, 7), Bit(i, 6), i % 64, key, a4, a6)
    case Apn(text) => Name(text)
    case Paa(pdn, prefix, a6, a4) =>
      var t := pdn % 8;
      Address(t, if t == 2 || t == 3 then prefix else 0, if t == 2 || t == 3 then a6 else Zeros(16),
              if t == 1 || t == 3 then a4 else Zeros(4))
    case Ambr(up, down) => Rates(up, down)
    case Pco(head, cs) => Options(Bit(head, 7), head % 8, cs)
    case FqCsid(_, node, csids) => SetId(node, csids)
    case TimeZone(zone, daylight) => Zone(zone, daylight % 4)
    case BearerQos(arp, qci, r0, r1, r2, r3) =>
      Quality(Bit(arp, 6), arp / 4 % 16, Bit(arp, 0), qci, Value(r0), Value(r1), Value(r2), Value(r3))
    case _ => Raw(body)
  }

  // ---- the values that survive ----

  /** The digits past the last are zero, and the half octet after an odd number is the filler wherever the
      constructor, `dump_to` or `load_from` puts or expects it. */
  predicate IdentityFits(kind: byte, b: Octets8, count: nat) {
    && (kind == 1 || kind == 75 || kind == 76) && 1 <= count <= 15
    && AllZero(b[DigitLength(count)..])
    && if kind == 76 && count == 15 then High(b[7]) == 0
       else if kind == 1 && count == 15 then true
       else High(b[DigitLength(count) - 1]) == 15 <==> count % 2 == 1
  }

  predicate LocationFits(places: byte, sites: seq<Site>, top: nat) {
    && |sites| == 8 && top == 0
    && (forall i :: 0 <= i < 8 ==> SiteFits(i, sites[i]) && SpareClear(i, sites[i]))
    && (forall i :: 0 <= i < 8 && !Bit(places, i) ==> IsZero(sites[i]))
  }

  /** Four bits of an ECGI and bits 4 to 6 of an extended eNodeB id are spare. */
  predicate SpareClear(i: nat, s: Site)
    requires i < 8 && SiteFits(i, s)
  {
    (i == 4 ==> s.extra[0] < 16) && (i == 7 ==> s.extra[0] % 128 < 16)
  }

  lemma MaskedIfClear(i: nat, s: Site)
    requires i < 8 && SiteFits(i, s)
    ensures Masked(i, s) == s <==> SpareClear(i, s)
  {
    if i == 4 {
      assert s.extra[0 := s.extra[0]] == s.extra;
    } else if i == 7 {
      assert s.extra[0 := s.extra[0]] == s.extra;
      SpareBits(s.extra[0]);
    }
  }

  lemma SpareBits(b: byte)
    ensures b / 128 * 128 + b % 16 == b <==> b % 128 < 16
  {
  }

  predicate AddressFits(t: byte, prefix: byte, p6: Octets16, p4: Octets4) {
    && 1 <= t <= 4
    && (t == 1 || t == 4 ==> prefix == 0 && AllZero(p6))
    && (t == 2 || t == 4 ==> AllZero(p4))
  }

  /** The core structures that come back as they were, by element type. */
  predicate Fits(kind: byte, core: Core) {
    match core
    case Identity(b, count) => IdentityFits(kind, b, count)
    case Location(places, sites, top) => kind == 86 && LocationFits(places, sites, top)
    case Network(_) => kind == 83
    case Small(v) =>
      // EPS bearer id, PDN type, selection mode, RAT type, APN restriction
      (kind == 73 && v < 16) || (kind == 99 && v < 8) || (kind == 128 && v < 4) || kind == 82 || kind == 127
    case Flags(f) => kind == 77 && |f| == 53
    case Tunnel(v4, v6, k, _, a4, a6) => kind == 87 && k < 64 && (!v4 ==> AllZero(a4)) && (!v6 ==> AllZero(a6))
    case Name(text) => kind == 71 && Labels.Encodable(text) && Labels.ShortLabels(Labels.Split(text))
    case Address(t, prefix, p6, p4) => kind == 79 && AddressFits(t, prefix, p6, p4)
    case Rates(_, _) => kind == 72
    case Options(_, protocol, cs) =>
      kind == 78 && protocol < 8 && |cs| <= 30 && forall i :: 0 <= i < |cs| ==> cs[i].declared == |cs[i].contents|
    case SetId(node, csids) =>
      && kind == 132 && |csids| <= 15
      && (node.Operator? ==> node.mnc < 1000 && node.id < 4096 && node.mcc * 1000 + node.mnc < 0x10_0000)
    case Zone(_, daylight) => kind == 114 && daylight < 4
    case Quality(_, pl, _, _, mu, md, gu, gd) =>
      && kind == 80 && pl < 16
      && mu < 0x100_0000_0000 && md < 0x100_0000_0000 && gu < 0x100_0000_0000 && gd < 0x100_0000_0000
    case Raw(_) => false
  }

  /** The constructor's element is well formed and means the structure it was made of. */
  predicate Survives(kind: byte, core: Core) {
    var m := Make(kind, core);
    m.Makes? && WellFormedLeaf(kind, m.length, m.body) && m.length < 0x1_0000 && CoreOf(kind, m.body) == core
  }

  /** The element as `dump_to` leaves it (`Prepared`: only an MSISDN changes) is well formed, declares
      the constructor's length, and means the structure it was made of. */
  predicate ComesBack(kind: byte, core: Core) {
    var m := Make(kind, core);
    && m.Makes? && m.length < 0x1_0000
    && var ie := Ie(kind, m.length, 0, m.body);
       && Dumpable(ie) && Prepared(ie).length == m.length
       && WellFormedLeaf(kind, m.length, Prepared(ie).body) && CoreOf(kind, Prepared(ie).body) == core
  }

  /** Where nothing is prepared the two say the same. */
  lemma SurvivesIsComesBack(kind: byte, core: Core)
    requires !core.Raw? && !(core.Identity? && kind == MSISDN)
    ensures ComesBack(kind, core) <==> Survives(kind, core)
  {
  }

  lemma ImsiComesBack(b: Octets8, count: nat)
    ensures ComesBack(IMSI, Identity(b, count)) <==> IdentityFits(IMSI, b, count)
  {
    if count <= 16 && count > 0 {
      assert DigitLength(count) >= 1;
    }
  }

  lemma MeiComesBack(b: Octets8, count: nat)
    ensures ComesBack(MEI, Identity(b, count)) <==> IdentityFits(MEI, b, count)
  {
    if count <= 16 && count % 2 == 1 {
      var f := b[count / 2 := FillHigh(b[count / 2])];
      assert f == b <==> High(b[count / 2]) == 15;
    }
  }

  lemma MsisdnComesBack(b: Octets8, count: nat)
    ensures ComesBack(MSISDN, Identity(b, count)) <==> IdentityFits(MSISDN, b, count)
  {
  }

  lemma BitsOfTunnel(v4: bool, v6: bool, k: nat)
    requires k < 64
    ensures var i := TunnelOctet(v4, v6, k); Bit(i, 7) == v4 && Bit(i, 6) == v6 && i % 64 == k
  {
  }

  lemma TunnelSurvives(core: Core)
    requires core.Tunnel? && Fits(F_TEID, core)
    ensures Survives(F_TEID, core)
  {
    BitsOfTunnel(core.v4, core.v6, core.kind);
  }

  lemma BitsOfPriority(pci: bool, pl: nat, pvi: bool)
    requires pl < 16
    ensures var a := PriorityOctet(pci, pl, pvi); Bit(a, 6) == pci && Bit(a, 0) == pvi && a / 4 % 16 == pl
  {
  }

  lemma QualitySurvives(core: Core)
    requires core.Quality? && Fits(BEARER_QOS, core)
    ensures Survives(BEARER_QOS, core)
  {
    BitsOfPriority(core.pci, core.pl, core.pvi);
    Capacities();
    BigRoundTrip(core.mbrUp, 5);
    BigRoundTrip(core.mbrDown, 5);
    BigRoundTrip(core.gbrUp, 5);
    BigRoundTrip(core.gbrDown, 5);
  }

  lemma FlagsSurvive(f: seq<bool>)
    requires |f| == INDICATION_FLAGS
    ensures Survives(INDICATION, Flags(f))
  {
    FlagsRoundTrip(f + [false, false, false]);
  }

  lemma {:induction false} ContainersSize(cs: seq<Container>)
    requires forall i :: 0 <= i < |cs| ==> cs[i].declared == |cs[i].contents|
    ensures |ContainersBytes(cs)| == ContainersLength(cs) <= 258 * |cs|
  {
    if cs != [] {
      ContainersSize(cs[1..]);
    }
  }

  lemma OptionsSurvive(ext: bool, protocol: nat, cs: seq<Container>)
    requires Fits(PCO, Options(ext, protocol, cs))
    ensures Survives(PCO, Options(ext, protocol, cs))
  {
    ContainersSize(cs);
    var head := (if ext then 128 else 0) + protocol % 8;
    assert Bit(head, 7) == ext && head % 8 == protocol;
  }

  lemma AddressSurvives(core: Core)
    requires core.Address? && Fits(PAA, core)
    ensures Survives(PAA, core)
  {
    if core.pdnType == 1 || core.pdnType == 4 {
      ZerosAre(core.p6);
    }
    if core.pdnType == 2 || core.pdnType == 4 {
      ZerosAre(core.p4);
    }
  }

  lemma SetIdSurvives(node: Node, csids: seq<u16>)
    requires Fits(FQ_CSID, SetId(node, csids))
    ensures Survives(FQ_CSID, SetId(node, csids))
  {
    CsidSize(csids);
    var tag, n := NodeTag(node), |csids|;
    assert (tag * 16 + n) % 16 == n && (tag * 16 + n) / 16 == tag;
  }

  // ---- locations ----

  /** Octets written for the locations from i on. */
  function EmittedFrom(places: byte, i: nat): nat
    requires i <= 8
    decreases 8 - i
  {
    if i == 8 then 0 else (if Bit(places, i) then PlaceSize(i) else 0) + EmittedFrom(places, i + 1)
  }

  lemma {:induction false} PlacesSize(places: byte, fields: seq<bytes>, i: nat)
    requires i <= 8 && |fields| == 8 && forall j :: 0 <= j < 8 ==> |fields[j]| == PlaceSize(j)
    ensures |PlacesBytes(places, fields, i)| == EmittedFrom(places, i)
    decreases 8 - i
  {
    if i < 8 {
      PlacesSize(places, fields, i + 1);
    }
  }

  /** What is written exceeds the declared length by two for an RAI and by one for an LAI, and falls
      short of it by one for a macro eNodeB id: it is exact if and only if there is no RAI, and an LAI
      just when there is a macro eNodeB id. (The locations come back all the same.) */
  lemma UliLength(places: byte)
    ensures EmittedFrom(places, 0) == DeclaredFrom(places, 0) + (if Bit(places, 2) then 2 else 0)
                                      + (if Bit(places, 5) then 1 else 0) - (if Bit(places, 6) then 1 else 0)
    ensures EmittedFrom(places, 0) == DeclaredFrom(places, 0) <==> !Bit(places, 2) && Bit(places, 5) == Bit(places, 6)
  {
    assert EmittedFrom(places, 7) == DeclaredFrom(places, 7);
    assert EmittedFrom(places, 6) == DeclaredFrom(places, 6) - (if Bit(places, 6) then 1 else 0);
    assert EmittedFrom(places, 5) == DeclaredFrom(places, 5) + (if Bit(places, 5) then 1 else 0) - (if Bit(places, 6) then 1 else 0);
    assert EmittedFrom(places, 3) - DeclaredFrom(places, 3) == EmittedFrom(places, 5) - DeclaredFrom(places, 5);
    assert EmittedFrom(places, 2) - DeclaredFrom(places, 2)
        == EmittedFrom(places, 3) - DeclaredFrom(places, 3) + (if Bit(places, 2) then 2 else 0);
  }

  /** The octets written for a ULI are as many as declared under that condition alone. */
  lemma UliExact(places: byte, sites: seq<Site>)
    requires LocationFits(places, sites, 0)
    ensures var m := Make(ULI, Location(places, sites, 0));
            && m.Makes? && Sound(m.body)
            && (m.length == |Payload(m.length, m.body)| <==> !Bit(places, 2) && Bit(places, 5) == Bit(places, 6))
  {
    AllSites(places, sites);
    UliLength(places);
    PlacesSize(places, MakeSites(places, sites), 0);
  }

  /** Present or not, a location that fits is stored as its octets and read back from them. */
  lemma OneSite(places: byte, s: Site, i: nat)
    requires i < 8 && SiteFits(i, s) && SpareClear(i, s) && (!Bit(places, i) ==> IsZero(s))
    ensures var f := FieldOf(places, i, s);
            |f| == PlaceSize(i) && SiteOf(i, f) == s && (!Bit(places, i) ==> AllZero(f))
  {
    MaskedIfClear(i, s);
    SiteRoundTrip(i, s);
    if !Bit(places, i) {
      ZeroSiteBytes(s);
      ZerosAre(SiteBytes(s));
    }
  }

  lemma AllSites(places: byte, sites: seq<Site>)
    requires LocationFits(places, sites, 0)
    ensures var fields := MakeSites(places, sites);
            && (forall j :: 0 <= j < 8 ==> |fields[j]| == PlaceSize(j))
            && ReadSites(fields) == sites
            && (forall j :: 0 <= j < 8 && !Bit(places, j) ==> AllZero(fields[j]))
  {
    var fields := MakeSites(places, sites);
    forall j | 0 <= j < 8
      ensures |fields[j]| == PlaceSize(j) && SiteOf(j, fields[j]) == sites[j] && (!Bit(places, j) ==> AllZero(fields[j]))
    {
      OneSite(places, sites[j], j);
    }
  }

  lemma {:induction false} DeclaredBound(places: byte, i: nat)
    requires i <= 8
    ensures DeclaredFrom(places, i) <= 7 * (8 - i)
    decreases 8 - i
  {
    if i < 8 {
      DeclaredBound(places, i + 1);
    }
  }

  lemma FieldsSurvive(places: byte, fields: seq<bytes>, n: nat)
    requires |fields| == 8 && forall j :: 0 <= j < 8 ==> |fields[j]| == PlaceSize(j)
    requires forall j :: 0 <= j < 8 && !Bit(places, j) ==> AllZero(fields[j])
    ensures Sound(Uli(places, fields, 0)) && WellFormedLeaf(ULI, 1 + n, Uli(places, fields, 0))
  {
  }

  lemma LocationSurvives(places: byte, sites: seq<Site>)
    requires LocationFits(places, sites, 0)
    ensures Survives(ULI, Location(places, sites, 0))
  {
    var fields := MakeSites(places, sites);
    AllSites(places, sites);
    FieldsSurvive(places, fields, DeclaredFrom(places, 0));
    DeclaredBound(places, 0);
    MeansLocation(places, fields, sites);
  }

  lemma MeansLocation(places: byte, fields: seq<bytes>, sites: seq<Site>)
    requires Sound(Uli(places, fields, 0)) && ReadSites(fields) == sites
    ensures CoreOf(ULI, Uli(places, fields, 0)) == Location(places, sites, 0)
  {
  }

  lemma OctetSurvives(kind: byte, v: byte)
    requires Fits(kind, Small(v))
    ensures Survives(kind, Small(v))
  {
  }

  lemma PlainSurvives(kind: byte, core: Core)
    requires Fits(kind, core) && (core.Network? || core.Name? || core.Rates? || core.Zone?)
    ensures Survives(kind, core)
  {
    if core.Network? {
      PlmnRoundTrip(core.plmn);
    }
  }

  /** Every structure that fits survives, identities apart. */
  lemma FittingSurvives(kind: byte, core: Core)
    requires Fits(kind, core) && !core.Identity?
    ensures Survives(kind, core)
  {
    match core
    case Location(places, sites, _) => LocationSurvives(places, sites);
    case Small(v) => OctetSurvives(kind, v);
    case Flags(f) => FlagsSurvive(f);
    case Tunnel(_, _, _, _, _, _) => TunnelSurvives(core);
    case Address(_, _, _, _) => AddressSurvives(core);
    case Options(ext, protocol, cs) => OptionsSurvive(ext, protocol, cs);
    case SetId(node, csids) => SetIdSurvives(node, csids);
    case Quality(_, _, _, _, _, _, _, _) => QualitySurvives(core);
    case _ => PlainSurvives(kind, core);
  }

  // ---- and no other ----

  lemma ZeroSiteOf(i: nat, s: Site)
    requires i < 8 && s == SiteOf(i, Zeros(PlaceSize(i)))
    ensures IsZero(s) && Masked(i, s) == s
  {
    var z := Zeros(PlaceSize(i));
    ZeroCodes(CodeCount(i), z[3 + ExtraSize(i)..]);
    assert z[..3] == [0, 0, 0];
    if s.extra != [] {
      assert s.extra[0 := 0] == s.extra;
    }
  }

  lemma {:induction false} ZeroCodes(n: nat, b: bytes)
    requires AllZero(b)
    ensures forall k :: 0 <= k < n ==> LoadCsids(n, b).0[k] == 0
    decreases n
  {
    if n > 0 {
      ZeroCodes(n - 1, Drop(b, 2));
    }
  }

  lemma MaskedFits(i: nat, s: Site)
    requires i < 8 && SiteFits(i, s)
    ensures SiteFits(i, Masked(i, s))
  {
  }

  lemma OneSiteFits(places: byte, i: nat, s: Site)
    requires i < 8 && |FieldOf(places, i, s)| == PlaceSize(i) && SiteOf(i, FieldOf(places, i, s)) == s
    ensures SiteFits(i, s) && SpareClear(i, s) && (!Bit(places, i) ==> IsZero(s))
  {
    if Bit(places, i) {
      MaskedFits(i, s);
      SiteRoundTrip(i, Masked(i, s));
    } else {
      ZeroSiteOf(i, s);
    }
    MaskedIfClear(i, s);
  }

  lemma SurvivingLocationFits(places: byte, sites: seq<Site>, top: nibble)
    requires Survives(ULI, Location(places, sites, top))
    ensures LocationFits(places, sites, top)
  {
    var fields := MakeSites(places, sites);
    forall i | 0 <= i < 8
      ensures SiteFits(i, sites[i]) && SpareClear(i, sites[i]) && (!Bit(places, i) ==> IsZero(sites[i]))
    {
      OneSiteFits(places, i, sites[i]);
    }
  }

  lemma SurvivingOptionsFit(kind: byte, ext: bool, protocol: nat, cs: seq<Container>)
    requires Survives(kind, Options(ext, protocol, cs))
    ensures Fits(kind, Options(ext, protocol, cs))
  {
  }

  lemma SurvivingTunnelFits(kind: byte, core: Core)
    requires core.Tunnel? && Survives(kind, core)
    ensures Fits(kind, core)
  {
    BitsOfTunnel(core.v4, core.v6, core.kind % 64);
  }

  lemma SurvivingQualityFits(kind: byte, core: Core)
    requires core.Quality? && Survives(kind, core)
    ensures Fits(kind, core)
  {
    Capacities();
  }

  lemma SurvivingAddressFits(kind: byte, core: Core)
    requires core.Address? && Survives(kind, core)
    ensures Fits(kind, core)
  {
  }

  lemma SurvivingSetIdFits(kind: byte, core: Core)
    requires core.SetId? && Survives(kind, core)
    ensures Fits(kind, core)
  {
  }

  lemma SurvivingSmallFits(kind: byte, core: Core)
    requires core.Small? || core.Zone? || core.Rates?
    requires Survives(kind, core)
    ensures Fits(kind, core)
  {
  }

  lemma SurvivingFits(kind: byte, core: Core)
    requires Survives(kind, core) && !core.Identity?
    ensures Fits(kind, core)
  {
    match core
    case Location(places, sites, top) => SurvivingLocationFits(places, sites, top);
    case Options(ext, protocol, cs) => SurvivingOptionsFit(kind, ext, protocol, cs);
    case Tunnel(_, _, _, _, _, _) => SurvivingTunnelFits(kind, core);
    case Quality(_, _, _, _, _, _, _, _) => SurvivingQualityFits(kind, core);
    case Address(_, _, _, _) => SurvivingAddressFits(kind, core);
    case SetId(_, _) => SurvivingSetIdFits(kind, core);
    case Small(_) => SurvivingSmallFits(kind, core);
    case Zone(_, _) => SurvivingSmallFits(kind, core);
    case Rates(_, _) => SurvivingSmallFits(kind, core);
    case _ =>
  }

  /** A structure comes back from the element its constructor makes if and only if it fits. */
  lemma FitsIffComesBack(kind: byte, core: Core)
    ensures Fits(kind, core) <==> ComesBack(kind, core)
  {
    if core.Identity? {
      if kind == IMSI {
        ImsiComesBack(core.b, core.count);
      } else if kind == MEI {
        MeiComesBack(core.b, core.count);
      } else if kind == MSISDN {
        MsisdnComesBack(core.b, core.count);
      }
    } else if !core.Raw? {
      SurvivesIsComesBack(kind, core);
      if Fits(kind, core) {
        FittingSurvives(kind, core);
      } else if Survives(kind, core) {
        SurvivingFits(kind, core);
      }
    }
  }

  /** How wide the one-octet fields are. */
  lemma SmallFieldsComeBack(v: byte)
    ensures ComesBack(EBI, Small(v)) <==> v < 16
    ensures ComesBack(PDN_TYPE, Small(v)) <==> v < 8
    ensures ComesBack(SELECTION_MODE, Small(v)) <==> v < 4
    ensures ComesBack(RAT_TYPE, Small(v)) && ComesBack(APN_RESTRICTION, Small(v))
  {
    FitsIffComesBack(EBI, Small(v));
    FitsIffComesBack(PDN_TYPE, Small(v));
    FitsIffComesBack(SELECTION_MODE, Small(v));
    FitsIffComesBack(RAT_TYPE, Small(v));
    FitsIffComesBack(APN_RESTRICTION, Small(v));
  }

  /** What is made of a received octet whose spare bits may be set. */
  lemma ReceivedOctets(v: byte, z: byte, cs: seq<Container>)
    ensures CoreOf(73, Octet(v)) == Small(v % 16) && CoreOf(99, Octet(v)) == Small(v % 8) && CoreOf(128, Octet(v)) == Small(v % 4)
    ensures CoreOf(82, Octet(v)) == Small(v) && CoreOf(127, Octet(v)) == Small(v) && CoreOf(3, Octet(v)) == Small(v)
    ensures CoreOf(114, TimeZone(z, v)) == Zone(z, v % 4)
    ensures CoreOf(78, Pco(v, cs)) == Options(v >= 128, v % 8, cs)
  {
    assert Bit(v, 7) <==> v >= 128;
  }

  // ---- digits ----

  /** A string of count digits is read back as it was written if and only if the octets past it are zero,
      the last half octet is the filler just when the count is odd, and there are at most fifteen digits.
      Only for an MSISDN are sixteen read, and only there does the filler matter in the eighth octet. */
  lemma DigitsComeBack(kind: byte, b: Octets8, count: nat, rest: bytes)
    requires 1 <= count <= 16
    ensures var n := DigitLength(count);
            LoadDigits(kind, n, Payload(n, Digits(b, count)) + rest) == Loaded(Digits(b, count), rest)
            <==> AllZero(b[n..]) && count <= (if kind == 76 then 16 else 15)
                 && ((kind != 76 && n == 8) || (High(b[n - 1]) == 15 <==> count % 2 == 1))
  {
    var n := DigitLength(count);
    ReadBack(b[..n], rest);
    assert b == b[..n] + b[n..];
    assert (b[..n] + Zeros(8 - n))[n..] == Zeros(8 - n);
    if AllZero(b[n..]) {
      ZerosAre(b[n..]);
    }
  }

  /** Sixteen digits of an equipment identity are written, and read back as fifteen. */
  lemma SixteenDigits(b: Octets8, rest: bytes)
    ensures Make(MEI, Identity(b, 16)) == Makes(8, Digits(b, 16))
    ensures LoadDigits(MEI, 8, Payload(8, Digits(b, 16)) + rest) == Loaded(Digits(b, 15), rest)
  {
    ReadBack(b, rest);
    assert b[..8] == b && b + [] == b;
  }
}
