/** Element trees and whole messages: `dump_to`, the factory `new_gtpv2c_ie_from_stream`, the group
    and message loops of `load_from` (sections 5.1 and 8.2 of 3GPP TS 29.274). */
module Messages {
  import opened Octets
  import opened Elements
  import Labels

  // ---- writing ----

  function Header(kind: byte, length: u16, tag: byte): (h: bytes)
    ensures |h| == 4
  {
    [kind] + Word(length) + [tag]
  }

  /** The representation invariant over a whole tree, with names that can be written. */
  predicate Dumpable(ie: Ie)
    decreases ie, 1
  {
    match ie.body
    case Group(ies) => DumpableAll(ies)
    case Apn(name) => Labels.Encodable(name)
    case body => Sound(body)
  }

  predicate DumpableAll(ies: seq<Ie>)
    decreases ies, 0
  {
    ies == [] || (Dumpable(ies[0]) && DumpableAll(ies[1..]))
  }

  /** Fields that some `dump_to` methods set before they write: the length of a cause and of a name,
      and the digit count, filler and length of an MSISDN. */
  function Prepared(ie: Ie): (r: Ie)
    requires Dumpable(ie)
    ensures r.body.Group? <==> ie.body.Group?
    ensures Dumpable(r)
  {
    match ie.body
    case Cause(value, _, _, _, _) => ie.(length := if value == MANDATORY_IE_INCORRECT then 6 else 2)
    case Apn(name) => ie.(length := |name| + 1)
    case Digits(b, count) => if ie.kind == MSISDN then PreparedMsisdn(ie, b, count) else ie
    case _ => ie
  }

  function PreparedMsisdn(ie: Ie, b: Octets8, count: nat): (r: Ie)
    ensures r.body.Digits? && r.kind == ie.kind && r.tag == ie.tag
  {
    var n := if count > 15 then 15 else count;
    if n % 2 == 1 then ie.(length := n / 2 + 1, body := Digits(b[n / 2 := FillHigh(b[n / 2])], n))
    else ie.(length := n / 2, body := Digits(b, n))
  }

  /** What `dump_to` writes for an element. */
  function Dump(ie: Ie): bytes
    requires Dumpable(ie)
    decreases ie, 1
  {
    if ie.body.Group? then Header(ie.kind, ie.length, ie.tag) + DumpAll(ie.body.ies)
    else
      var p := Prepared(ie);
      Header(p.kind, p.length, p.tag) + Payload(p.length, p.body)
  }

  function DumpAll(ies: seq<Ie>): bytes
    requires DumpableAll(ies)
    decreases ies, 0
  {
    if ies == [] then [] else Dump(ies[0]) + DumpAll(ies[1..])
  }

  // ---- reading ----

  /** The factory's answer: an element, none (zero length or unknown type), or an exception. */
  datatype Parsed = Made(ie: Ie, rest: bytes) | Nothing(rest: bytes) | Thrown(error: Error)

  datatype ParsedGroup = Children(ies: seq<Ie>, rest: bytes) | GroupThrown(error: Error)

  function Parse(s: bytes): (r: Parsed)
    ensures r.Made? ==> |r.rest| < |s|
    decreases |s|, 1
  {
    NoLengthAtEnd(s);
    var h, rest := Take(s, 4), Drop(s, 4);
    var kind, length, tag := h[0], Value16(h[1..3]), h[3];
    if length == 0 then Nothing(rest)
    else
      match ParseBody(kind, length, rest)
      case Contents(body, after) => Made(Ie(kind, length, tag, body), after)
      case Unknown => Nothing(rest)
      case Failed(e) => Thrown(e)
  }

  datatype ParsedBody = Contents(body: Body, rest: bytes) | Unknown | Failed(error: Error)

  /** The factory's switch over the element type. */
  function ParseBody(kind: byte, length: nat, s: bytes): (r: ParsedBody)
    requires length >= 1
    ensures r.Contents? ==> |r.rest| <= |s|
    decreases |s|, 3
  {
    if kind == BEARER_CONTEXT then
      match ParseGroup(length, s)
      case Children(ies, after) => Contents(Group(ies), after)
      case GroupThrown(e) => Failed(e)
    else if LeafKind(kind) then
      LoadLeafShrinks(kind, length, s);
      match LoadLeaf(kind, length, s)
      case Loaded(body, after) => Contents(body, after)
      case Refused(e) => Failed(e)
    else Unknown
  }

  /** Elements until the declared length is used up or overshot. */
  function ParseGroup(remaining: int, s: bytes): (r: ParsedGroup)
    ensures r.Children? ==> |r.rest| <= |s|
    decreases |s|, 2
  {
    if remaining <= 0 then Children([], s)
    else
      match Parse(s)
      case Nothing(_) => GroupThrown(BadLength)
      case Thrown(e) => GroupThrown(e)
      case Made(ie, after) =>
        match ParseGroup(remaining - (ie.length + 4), after)
        case Children(ies, rest) => Children([ie] + ies, rest)
        case GroupThrown(e) => GroupThrown(e)
  }

  /** A length other than zero can only come from a stream with at least two octets left. */
  lemma NoLengthAtEnd(s: bytes)
    ensures |s| < 2 ==> Value16(Take(s, 4)[1..3]) == 0
  {
    if |s| < 2 {
      assert Take(s, 4)[1..3] == [0, 0];
    }
  }

  lemma {:induction false} ContainersShrink(remaining: int, s: bytes)
    ensures var r := LoadContainers(remaining, s); r.Containers? ==> |r.rest| <= |s|
    decreases remaining
  {
    if remaining > 0 {
      var (c, after) := OneContainer(s);
      if c.declared + 3 <= remaining {
        ContainersShrink(remaining - (c.declared + 3), after);
      }
    }
  }

  lemma {:induction false} PlacesShrink(places: byte, s: bytes, i: nat)
    requires i <= 8
    ensures |LoadPlaces(places, s, i).rest| <= |s|
    decreases 8 - i
  {
    if i < 8 {
      PlacesShrink(places, if Bit(places, i) then Drop(s, PlaceSize(i)) else s, i + 1);
    }
  }

  lemma {:induction false} CsidsShrink(n: nat, s: bytes)
    ensures |LoadCsids(n, s).1| <= |s|
  {
    if n > 0 {
      CsidsShrink(n - 1, Drop(s, 2));
    }
  }

  /** No `load_from` gives octets back to the stream, and each builds a sound object. */
  lemma LoadLeafShrinks(kind: byte, length: nat, s: bytes)
    requires LeafKind(kind) && length >= 1
    ensures var r := LoadLeaf(kind, length, s);
            r.Loaded? ==> |r.rest| <= |s| && !r.body.Group? && Sound(r.body)
  {
    if kind == PCO {
      ContainersShrink(length - 1, Drop(s, 1));
    } else if kind == ULI {
      PlacesShrink(TakeOne(s, 0), Drop(s, 1), 0);
    } else if kind == FQ_CSID {
      var counts, r := TakeOne(s, 0), Drop(s, 1);
      CsidsShrink(counts % 16, Drop(r, if counts / 16 == 1 then 16 else 4));
    }
  }

  // ---- whole messages ----

  /** A message: the flag octets of its header, its fields, and its elements. */
  datatype Msg = Msg(flags: byte, messageType: byte, messageLength: u16, teid: u32,
                     sequenceNumber: nat, priority: byte, ies: seq<Ie>)

  const VERSION_2: byte := 64

  /** The TEID flag. */
  predicate HasTeid(flags: byte) {
    Bit(flags, 3)
  }

  /** The message priority flag. */
  predicate HasPriority(flags: byte) {
    Bit(flags, 2)
  }

  /** Spare bits are cleared on the way out, and so is a priority that is not announced. */
  function HeaderBytes(m: Msg): bytes {
    [m.flags - m.flags % 4, m.messageType] + Word(m.messageLength)
    + (if HasTeid(m.flags) then Big(m.teid, 4) else [])
    + Big(m.sequenceNumber, 3)
    + [if HasTeid(m.flags) && HasPriority(m.flags) then m.priority - m.priority % 16 else 0]
  }

  function DumpMsg(m: Msg): bytes
    requires DumpableAll(m.ies)
  {
    HeaderBytes(m) + DumpAll(m.ies)
  }

  function Value24(b: bytes): nat
    requires |b| == 3
  {
    Value(b)
  }

  /** The fixed part of a message read from a stream, without elements. */
  function LoadHeader(s: bytes): (r: (Msg, bytes)) {
    var flags := TakeOne(s, VERSION_2);
    var h, s4 := Take(s, 4), Drop(s, 4);
    var teid, s8 := if HasTeid(flags) then Value32(Take(s4, 4)) else 0, if HasTeid(flags) then Drop(s4, 4) else s4;
    var tail := Take(s8, 4);
    (Msg(flags, h[1], Value16(h[2..4]), teid, Value24(tail[..3]), tail[3], []), Drop(s8, 4))
  }

  /** The octets of elements a header announces, in the source's 16-bit arithmetic. */
  function Announced(m: Msg): u16 {
    (m.messageLength - 4 - (if HasTeid(m.flags) then 4 else 0)) % 0x1_0000
  }

  datatype ParsedAll = Elements(ies: seq<Ie>, total: u16, rest: bytes) | AllThrown(error: Error)

  /** The 16-bit length counter after one more element. */
  function Counted(total: u16, ie: Ie): (r: u16)
    ensures total + 4 + ie.length < 0x1_0000 ==> r == total + 4 + ie.length
  {
    (total + 4 + ie.length) % 0x1_0000
  }

  /** The do-while loop over elements. */
  function ParseAll(total: u16, announced: u16, s: bytes): ParsedAll
    decreases |s|, 1
  {
    AfterParse(total, announced, Parse(s), |s|)
  }

  function AfterParse(total: u16, announced: u16, p: Parsed, left: nat): ParsedAll
    requires p.Made? ==> |p.rest| < left
    decreases left, 0
  {
    match p
    case Thrown(e) => AllThrown(e)
    case Nothing(rest) => Elements([], total, rest)
    case Made(ie, rest) =>
      var more := Counted(total, ie);
      if more >= announced then Elements([ie], more, rest)
      else
        match ParseAll(more, announced, rest)
        case AllThrown(e) => AllThrown(e)
        case Elements(ies, t, r) => Elements([ie] + ies, t, r)
  }

  datatype Received = Accepted(msg: Msg, rest: bytes) | Rejected(error: Error)

  function LoadMsg(s: bytes): Received {
    var (m, after) := LoadHeader(s);
    LoadElements(m, after)
  }

  /** The elements after a header, and the check of the announced length. */
  function LoadElements(m: Msg, after: bytes): Received {
    match ParseAll(0, Announced(m), after)
    case AllThrown(e) => Rejected(e)
    case Elements(ies, total, rest) =>
      if total != Announced(m) then Rejected(BadMessageLength) else Accepted(m.(ies := ies), rest)
  }

  // ---- building ----

  function NewMsg(messageType: byte): Msg {
    Msg(VERSION_2, messageType, 4, 0, 0, 0, [])
  }

  function AddIe(m: Msg, ie: Ie): Msg {
    m.(ies := m.ies + [ie], messageLength := (m.messageLength + 4 + ie.length) % 0x1_0000)
  }

  function SetTeid(m: Msg, teid: u32): Msg {
    if HasTeid(m.flags) then m.(teid := teid)
    else m.(teid := teid, flags := WithTeid(m.flags), messageLength := (m.messageLength + 4) % 0x1_0000)
  }

  function WithTeid(flags: byte): (r: byte)
    requires !HasTeid(flags)
    ensures HasTeid(r) && HasPriority(r) == HasPriority(flags) && r % 4 == flags % 4
  {
    var q, r := flags / 16, flags % 8;
    assert flags == 16 * q + r;
    assert (flags + 8) / 8 == 2 * q + 1;
    assert (flags + 8) / 4 == 4 * q + 2 + r / 4 && flags / 4 == 4 * q + r / 4;
    flags + 8
  }

  function SetSequenceNumber(m: Msg, n: nat): (r: Msg)
    ensures r.sequenceNumber < 0x100_0000
  {
    m.(sequenceNumber := n % 0x100_0000)
  }

  /** 4 + length over the elements. */
  function Size(ies: seq<Ie>): nat {
    if ies == [] then 0 else 4 + ies[0].length + Size(ies[1..])
  }
}
