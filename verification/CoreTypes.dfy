/** Core structures carried by a Create Session Request, the element each constructor makes of one,
    and `to_core_type` back. */
module CoreTypes {
  import opened Octets
  import opened Elements
  import opened ElementRoundTrip

  type nibble = n: int | 0 <= n < 16

  /** Mobile country and network code, digit by digit. */
  datatype Plmn = Plmn(mcc1: nibble, mcc2: nibble, mcc3: nibble, mnc1: nibble, mnc2: nibble, mnc3: nibble)

  /** One location of a ULI: its network, octets kept as they are (the eNodeB id tops and the cell
      identifier), and its 16-bit codes. */
  datatype Site = Site(plmn: Plmn, extra: bytes, codes: seq<u16>)

  datatype Core =
    | Identity(b: Octets8, count: nat)
    | Location(places: byte, sites: seq<Site>, macroTop: nibble)
    | Network(plmn: Plmn)
    | Small(v: byte)
    | Flags(f: seq<bool>)
    | Tunnel(v4: bool, v6: bool, kind: nat, key: u32, a4: Octets4, a6: Octets16)
    | Name(text: bytes)
    | Address(pdnType: byte, prefix: byte, p6: Octets16, p4: Octets4)
    | Rates(up: u32, down: u32)
    | Options(ext: bool, protocol: nat, containers: seq<Container>)
    | SetId(node: Node, csids: seq<u16>)
    | Zone(zone: byte, daylight: nat)
    | Quality(pci: bool, pl: nat, pvi: bool, qci: byte, mbrUp: nat, mbrDown: nat, gbrUp: nat, gbrDown: nat)
    | Raw(body: Body)

  // ---- packing ----

  function PlmnOctets(p: Plmn): Octets3 {
    [Pair(p.mcc2, p.mcc1), Pair(p.mnc3, p.mcc3), Pair(p.mnc2, p.mnc1)]
  }

  function Pair(high: nibble, low: nibble): (b: byte)
    ensures High(b) == high && Low(b) == low
  {
    high * 16 + low
  }

  function PlmnOf(b: Octets3): Plmn {
    Plmn(Low(b[0]), High(b[0]), Low(b[1]), Low(b[2]), High(b[2]), High(b[1]))
  }

  lemma PlmnRoundTrip(p: Plmn)
    ensures PlmnOf(PlmnOctets(p)) == p
  {
  }

  /** Octets a location keeps as they are, and its number of 16-bit codes. */
  function ExtraSize(i: nat): nat
    requires i < 8
  {
    if i == 4 then 4 else if i == 7 then 1 else 0
  }

  function CodeCount(i: nat): nat
    requires i < 8
  {
    if i <= 2 then 2 else if i == 4 then 0 else 1
  }

  function Words(codes: seq<u16>): bytes {
    CsidBytes(codes)
  }

  function SiteBytes(s: Site): bytes {
    PlmnOctets(s.plmn) + (s.extra + Words(s.codes))
  }

  function SiteOf(i: nat, b: bytes): Site
    requires i < 8 && |b| == PlaceSize(i)
  {
    Site(PlmnOf(b[..3]), b[3..3 + ExtraSize(i)], LoadCsids(CodeCount(i), b[3 + ExtraSize(i)..]).0)
  }

  predicate SiteFits(i: nat, s: Site)
    requires i < 8
  {
    |s.extra| == ExtraSize(i) && |s.codes| == CodeCount(i)
  }

  lemma SiteRoundTrip(i: nat, s: Site)
    requires i < 8 && SiteFits(i, s)
    ensures |SiteBytes(s)| == PlaceSize(i) && SiteOf(i, SiteBytes(s)) == s
  {
    var b, tail := SiteBytes(s), s.extra + Words(s.codes);
    CsidSize(s.codes);
    PlmnRoundTrip(s.plmn);
    assert b[..3] == PlmnOctets(s.plmn) && b[3..] == tail;
    assert b[3..3 + |s.extra|] == tail[..|s.extra|] == s.extra;
    assert b[3 + |s.extra|..] == tail[|s.extra|..] == Words(s.codes);
    CsidsBack(s.codes, []);
    assert Words(s.codes) + [] == Words(s.codes);
  }

  lemma {:induction false} ZeroWords(codes: seq<u16>)
    requires forall k :: 0 <= k < |codes| ==> codes[k] == 0
    ensures AllZero(Words(codes))
  {
    if codes != [] {
      ZeroWords(codes[1..]);
    }
  }

  predicate IsZero(s: Site) {
    s.plmn == Plmn(0, 0, 0, 0, 0, 0) && AllZero(s.extra) && forall k :: 0 <= k < |s.codes| ==> s.codes[k] == 0
  }

  lemma ZeroPlmn(p: Plmn)
    requires p == Plmn(0, 0, 0, 0, 0, 0)
    ensures PlmnOctets(p) == [0, 0, 0]
  {
  }

  lemma ThreeZeros(b: bytes)
    requires b == [0, 0, 0]
    ensures AllZero(b)
  {
    assert b[0] == 0 && b[1] == 0 && b[2] == 0;
  }

  lemma ZeroConcat(a: bytes, b: bytes, c: bytes)
    requires AllZero(a) && AllZero(b) && AllZero(c)
    ensures AllZero(a + (b + c))
  {
  }

  lemma ZeroParts(s: Site, p: bytes, w: bytes)
    requires AllZero(p) && AllZero(s.extra) && AllZero(w)
    requires p == PlmnOctets(s.plmn) && w == Words(s.codes)
    ensures AllZero(SiteBytes(s))
  {
    ZeroConcat(p, s.extra, w);
  }

  lemma ZeroNetwork(p: Plmn)
    requires p == Plmn(0, 0, 0, 0, 0, 0)
    ensures AllZero(PlmnOctets(p))
  {
    ZeroPlmn(p);
    ThreeZeros(PlmnOctets(p));
  }

  lemma ZeroSiteBytes(s: Site)
    requires IsZero(s)
    ensures AllZero(SiteBytes(s))
  {
    ZeroNetwork(s.plmn);
    ZeroWords(s.codes);
    ZeroParts(s, PlmnOctets(s.plmn), Words(s.codes));
  }

  /** Eight flags in one octet, the first in the lowest bit. */
  function Packed(f: seq<bool>): (n: nat)
  {
    if f == [] then 0 else (if f[0] then 1 else 0) + 2 * Packed(f[1..])
  }

  function Unpack(n: nat, k: nat): (f: seq<bool>)
    ensures |f| == k
  {
    if k == 0 then [] else [n % 2 == 1] + Unpack(n / 2, k - 1)
  }

  lemma {:induction false} UnpackPacked(f: seq<bool>)
    ensures Unpack(Packed(f), |f|) == f
  {
    if f != [] {
      UnpackPacked(f[1..]);
      assert f == [f[0]] + f[1..];
    }
  }

  function Power(k: nat): nat {
    if k == 0 then 1 else 2 * Power(k - 1)
  }

  lemma {:induction false} PackedBound(f: seq<bool>)
    ensures Packed(f) < Power(|f|)
  {
    if f != [] {
      PackedBound(f[1..]);
    }
  }

  function FlagOctet(f: seq<bool>): byte
    requires |f| == 8
  {
    PackedBound(f);
    assert Power(8) == 256 by {
      assert Power(2) == 4;
      assert Power(4) == 16;
      assert Power(6) == 64;
    }
    Packed(f)
  }

  /** The indication flags as octets, and back. */
  function FlagOctets(f: seq<bool>): (b: bytes)
    requires |f| % 8 == 0
    ensures |b| == |f| / 8
  {
    if f == [] then [] else [FlagOctet(f[..8])] + FlagOctets(f[8..])
  }

  function OctetFlags(b: bytes): (f: seq<bool>)
    ensures |f| == 8 * |b|
  {
    if b == [] then [] else Unpack(b[0], 8) + OctetFlags(b[1..])
  }

  lemma {:induction false} FlagsRoundTrip(f: seq<bool>)
    requires |f| % 8 == 0
    ensures OctetFlags(FlagOctets(f)) == f
  {
    if f != [] {
      UnpackPacked(f[..8]);
      FlagsRoundTrip(f[8..]);
      assert FlagOctets(f)[1..] == FlagOctets(f[8..]);
      assert f == f[..8] + f[8..];
    }
  }

  // ---- the five-octet bit rates ----

  /** The packing loop of the Bearer QoS constructor. */
  method PackRate(rate: nat) returns (octets: array<byte>)
    ensures octets.Length == 5 && octets[..] == Big(rate, 5)
  {
    octets := new byte[5](i => 0);
    var left: nat := rate % 0x100_0000_0000;
    var i := 4;
    SameLowOctets(rate);
    while i >= 0
      invariant -1 <= i <= 4
      invariant Big(left, i + 1) + octets[i + 1..] == Big(rate, 5)
    {
      ghost var done := octets[i + 1..];
      octets[i] := left % 256;
      assert octets[i + 1..] == done;
      assert octets[i..] == [left % 256] + done;
      left := left / 256;
      i := i - 1;
    }
    assert octets[..] == octets[0..];
  }

  /** The unpacking loop of `to_core_type`. */
  method UnpackRate(octets: Octets5) returns (rate: nat)
    ensures rate == Value(octets)
  {
    rate := 0;
    var i := 0;
    while i < 5
      invariant 0 <= i <= 5 && rate == Value(octets[..i])
    {
      assert octets[..i + 1][..i] == octets[..i];
      rate := rate * 256 + octets[i];
      i := i + 1;
    }
    assert octets[..5] == octets;
  }

  lemma SameLowOctets(rate: nat)
    ensures Big(rate % 0x100_0000_0000, 5) == Big(rate, 5)
  {
    LowOctets(rate, rate % 0x100_0000_0000, rate / 0x100_0000_0000, 5);
  }

  lemma {:induction false} LowOctets(n: nat, low: nat, high: nat, k: nat)
    requires Capacity(k) > 0 && n == high * Capacity(k) + low
    ensures Big(n, k) == Big(low, k)
    decreases k
  {
    if k > 0 {
      var c := Capacity(k - 1);
      assert high * (256 * c) == 256 * (high * c);
      assert n % 256 == low % 256 && n / 256 == high * c + low / 256;
      LowOctets(n / 256, low / 256, high, k - 1);
    }
  }

  /** Any 64-bit rate comes back modulo 2^40. */
  lemma RateRoundTrip(rate: nat)
    ensures Value(Big(rate, 5)) == rate % 0x100_0000_0000
  {
    ValueOfBig(rate, 5);
    Capacities();
    Residue(rate, Capacity(5), Shifted(rate, 5), Value(Big(rate, 5)));
  }

  lemma Residue(n: nat, c: nat, s: nat, v: nat)
    requires c == 0x100_0000_0000 && v < c && n == c * s + v
    ensures n % 0x100_0000_0000 == v
  {
    assert n == 0x100_0000_0000 * s + v;
  }
}
