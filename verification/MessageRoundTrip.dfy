/** Whole messages survive the wire: `load_from` of what `dump_to` wrote is the message itself,
    nested bearer contexts included; and what any accepted octet string must satisfy. */
module MessageRoundTrip {
  import opened Octets
  import opened Elements
  import opened ElementRoundTrip
  import opened Messages

  /** An element as its constructors and `add_ie` leave it: canonical contents, and groups that hold
      at least one element and declare the sum of their elements. */
  predicate WellFormed(ie: Ie)
    decreases ie, 1
  {
    if ie.body.Group? then
      ie.kind == BEARER_CONTEXT && ie.body.ies != [] && ie.length == Size(ie.body.ies) && WellFormedAll(ie.body.ies)
    else
      && WellFormedLeaf(ie.kind, ie.length, ie.body)
      && (ie.body.Cause? ==> ie.body.value != MANDATORY_IE_INCORRECT)
      && (ie.kind == MSISDN && ie.body.Digits? ==> ie.body.count <= 15)
  }

  predicate WellFormedAll(ies: seq<Ie>)
    decreases ies, 0
  {
    ies == [] || (WellFormed(ies[0]) && WellFormedAll(ies[1..]))
  }

  lemma {:induction false} WellFormedDumpable(ie: Ie)
    requires WellFormed(ie)
    ensures Dumpable(ie)
    decreases ie, 1
  {
    if ie.body.Group? {
      WellFormedDumpableAll(ie.body.ies);
    }
  }

  lemma {:induction false} WellFormedDumpableAll(ies: seq<Ie>)
    requires WellFormedAll(ies)
    ensures DumpableAll(ies)
    decreases ies, 0
  {
    if ies != [] {
      WellFormedDumpable(ies[0]);
      WellFormedDumpableAll(ies[1..]);
    }
  }

  /** A well-formed element has nothing left to prepare. */
  lemma AlreadyPrepared(ie: Ie)
    requires WellFormed(ie) && !ie.body.Group?
    ensures Dumpable(ie) && Prepared(ie) == ie
  {
    if ie.body.Digits? && ie.kind == MSISDN {
      var b, n := ie.body.b, ie.body.count;
      if n % 2 == 1 {
        assert n / 2 == ie.length - 1;
        assert b[n / 2 := FillHigh(b[n / 2])] == b;
      }
    }
  }

  /** What is written for a well-formed element is its header followed by `length` octets. */
  lemma LeafDump(ie: Ie)
    requires WellFormed(ie) && !ie.body.Group?
    ensures Dumpable(ie) && Dump(ie) == Header(ie.kind, ie.length, ie.tag) + Payload(ie.length, ie.body)
  {
    AlreadyPrepared(ie);
  }

  /** Every ULI in the tree is as long as it declares. */
  predicate Exact(ie: Ie)
    decreases ie, 1
  {
    match ie.body
    case Group(ies) => ExactAll(ies)
    case Uli(_, _, _) => Sound(ie.body) && ie.length == |Payload(ie.length, ie.body)|
    case _ => true
  }

  predicate ExactAll(ies: seq<Ie>)
    decreases ies, 0
  {
    ies == [] || (Exact(ies[0]) && ExactAll(ies[1..]))
  }

  lemma {:induction false} DumpSize(ie: Ie)
    requires WellFormed(ie) && Exact(ie)
    ensures Dumpable(ie) && |Dump(ie)| == 4 + ie.length
    decreases ie, 1
  {
    if ie.body.Group? {
      DumpAllSize(ie.body.ies);
    } else {
      LeafDump(ie);
    }
  }

  lemma {:induction false} DumpAllSize(ies: seq<Ie>)
    requires WellFormedAll(ies) && ExactAll(ies)
    ensures DumpableAll(ies) && |DumpAll(ies)| == Size(ies)
    decreases ies, 0
  {
    if ies != [] {
      DumpSize(ies[0]);
      DumpAllSize(ies[1..]);
    }
  }

  lemma HeaderBack(kind: byte, length: u16, tag: byte, rest: bytes)
    ensures var s := Header(kind, length, tag) + rest;
            && Take(s, 4)[0] == kind && Value16(Take(s, 4)[1..3]) == length && Take(s, 4)[3] == tag
            && Drop(s, 4) == rest
  {
    var h := Header(kind, length, tag);
    ReadBack(h, rest);
    assert h[1..3] == Word(length);
  }

  lemma LeafBack(ie: Ie, rest: bytes)
    requires WellFormed(ie) && !ie.body.Group?
    ensures Dumpable(ie) && Parse(Dump(ie) + rest) == Made(ie, rest)
  {
    LeafDump(ie);
    var h, p := Header(ie.kind, ie.length, ie.tag), Payload(ie.length, ie.body);
    Assoc(h, p, rest);
    HeaderBack(ie.kind, ie.length, ie.tag, p + rest);
    LeafRoundTrip(ie.kind, ie.length, ie.body, rest);
  }

  lemma GroupBack(ie: Ie, rest: bytes)
    requires ie.body.Group? && ie.kind == BEARER_CONTEXT && ie.length > 0 && Dumpable(ie)
    requires ParseGroup(ie.length, DumpAll(ie.body.ies) + rest) == Children(ie.body.ies, rest)
    ensures Parse(Dump(ie) + rest) == Made(ie, rest)
  {
    var h, p := Header(ie.kind, ie.length, ie.tag), DumpAll(ie.body.ies);
    Assoc(h, p, rest);
    HeaderBack(ie.kind, ie.length, ie.tag, p + rest);
  }

  /** The factory reads back any well-formed element tree and leaves the rest of the stream alone. */
  lemma {:induction false} IeRoundTrip(ie: Ie, rest: bytes)
    requires WellFormed(ie)
    ensures Dumpable(ie) && Parse(Dump(ie) + rest) == Made(ie, rest)
    decreases ie, 1
  {
    if ie.body.Group? {
      WellFormedDumpableAll(ie.body.ies);
      GroupRoundTrip(ie.body.ies, rest);
      GroupBack(ie, rest);
    } else {
      LeafBack(ie, rest);
    }
  }

  lemma NextChild(ie: Ie, s: bytes, after: bytes, n: nat, ies: seq<Ie>, rest: bytes)
    requires Parse(s) == Made(ie, after)
    requires ParseGroup(n, after) == Children(ies, rest)
    ensures ParseGroup(4 + ie.length + n, s) == Children([ie] + ies, rest)
  {
    assert 4 + ie.length + n - (ie.length + 4) == n;
  }

  lemma {:induction false} GroupRoundTrip(ies: seq<Ie>, rest: bytes)
    requires WellFormedAll(ies)
    ensures DumpableAll(ies) && ParseGroup(Size(ies), DumpAll(ies) + rest) == Children(ies, rest)
    decreases ies, 0
  {
    WellFormedDumpableAll(ies);
    if ies == [] {
      assert DumpAll(ies) + rest == rest;
    } else {
      var more := DumpAll(ies[1..]) + rest;
      IeRoundTrip(ies[0], more);
      GroupRoundTrip(ies[1..], rest);
      FirstChild(ies, DumpAll(ies) + rest, more, rest);
    }
  }

  lemma FirstChild(ies: seq<Ie>, all: bytes, more: bytes, rest: bytes)
    requires ies != [] && DumpableAll(ies) && all == DumpAll(ies) + rest && more == DumpAll(ies[1..]) + rest
    requires Parse(Dump(ies[0]) + more) == Made(ies[0], more)
    requires ParseGroup(Size(ies[1..]), more) == Children(ies[1..], rest)
    ensures ParseGroup(Size(ies), all) == Children(ies, rest)
  {
    Assoc(Dump(ies[0]), DumpAll(ies[1..]), rest);
    NextChild(ies[0], all, more, Size(ies[1..]), ies[1..], rest);
    assert [ies[0]] + ies[1..] == ies;
  }

  // ---- messages ----

  /** A header as the builders leave it: no spare bits, no unannounced priority, no stray TEID. */
  predicate WellFormedHeader(m: Msg) {
    && m.flags % 4 == 0 && m.priority % 16 == 0 && m.sequenceNumber < 0x100_0000
    && (!HasTeid(m.flags) ==> m.teid == 0)
    && (!(HasTeid(m.flags) && HasPriority(m.flags)) ==> m.priority == 0)
  }

  function HeaderExtra(m: Msg): nat {
    if HasTeid(m.flags) then 4 else 0
  }

  predicate WellFormedMsg(m: Msg) {
    WellFormedHeader(m) && WellFormedAll(m.ies) && m.messageLength == 4 + HeaderExtra(m) + Size(m.ies)
  }

  lemma TeidPart(m: Msg, rest: bytes)
    requires WellFormedHeader(m)
    ensures var t := if HasTeid(m.flags) then Big(m.teid, 4) else [];
            && (if HasTeid(m.flags) then Drop(t + rest, 4) else t + rest) == rest
            && (if HasTeid(m.flags) then Value32(Take(t + rest, 4)) else 0) == m.teid
  {
    if HasTeid(m.flags) {
      Value32Back(m.teid);
      ReadBack(Big(m.teid, 4), rest);
    } else {
      assert [] + rest == rest;
    }
  }

  lemma TailPart(n: nat, p: byte, rest: bytes)
    requires n < 0x100_0000
    ensures var s := Big(n, 3) + [p] + rest;
            Value24(Take(s, 4)[..3]) == n && Take(s, 4)[3] == p && Drop(s, 4) == rest
  {
    Capacities();
    BigRoundTrip(n, 3);
    ReadBack(Big(n, 3) + [p], rest);
    assert (Big(n, 3) + [p])[..3] == Big(n, 3);
  }

  lemma HeaderRoundTrip(m: Msg, rest: bytes)
    requires WellFormedHeader(m)
    ensures LoadHeader(HeaderBytes(m) + rest) == (m.(ies := []), rest)
  {
    var a := [m.flags, m.messageType] + Word(m.messageLength);
    var t := if HasTeid(m.flags) then Big(m.teid, 4) else [];
    var z := Big(m.sequenceNumber, 3) + [m.priority];
    assert HeaderBytes(m) == a + t + Big(m.sequenceNumber, 3) + [m.priority];
    Assoc(a + t, Big(m.sequenceNumber, 3), [m.priority]);
    Assoc(a + t, z, rest);
    Assoc(a, t, z + rest);
    ReadBack(a, t + (z + rest));
    assert a[2..4] == Word(m.messageLength);
    TeidPart(m, z + rest);
    TailPart(m.sequenceNumber, m.priority, rest);
  }

  lemma NextElement(ie: Ie, s: bytes, after: bytes, total: u16, announced: u16, ies: seq<Ie>, rest: bytes)
    requires Parse(s) == Made(ie, after)
    requires total + 4 + ie.length < announced
    requires ParseAll(total + 4 + ie.length, announced, after) == Elements(ies, announced, rest)
    ensures ParseAll(total, announced, s) == Elements([ie] + ies, announced, rest)
  {
  }

  lemma LastElement(ie: Ie, s: bytes, total: u16, announced: u16, rest: bytes)
    requires Parse(s) == Made(ie, rest) && total + 4 + ie.length == announced
    ensures ParseAll(total, announced, s) == Elements([ie], announced, rest)
  {
  }

  /** The first element of a list is read back in front of the others. */
  lemma FirstOfAll(ies: seq<Ie>, all: bytes, rest: bytes)
    requires WellFormedAll(ies) && ies != []
    requires DumpableAll(ies) && all == DumpAll(ies) + rest
    ensures Parse(all) == Made(ies[0], DumpAll(ies[1..]) + rest)
  {
    IeRoundTrip(ies[0], DumpAll(ies[1..]) + rest);
    Assoc(Dump(ies[0]), DumpAll(ies[1..]), rest);
  }

  lemma {:induction false} ElementsRoundTrip(ies: seq<Ie>, all: bytes, total: u16, announced: u16, rest: bytes)
    requires WellFormedAll(ies) && ies != [] && total + Size(ies) == announced
    requires DumpableAll(ies) && all == DumpAll(ies) + rest
    ensures ParseAll(total, announced, all) == Elements(ies, announced, rest)
    decreases ies
  {
    FirstOfAll(ies, all, rest);
    var more := DumpAll(ies[1..]) + rest;
    if |ies| == 1 {
      assert more == rest && ies == [ies[0]];
      LastElement(ies[0], all, total, announced, rest);
    } else {
      assert Size(ies[1..]) >= 4;
      ElementsRoundTrip(ies[1..], more, total + 4 + ies[0].length, announced, rest);
      NextElement(ies[0], all, more, total, announced, ies[1..], rest);
      Together(ies);
    }
  }

  lemma Together(ies: seq<Ie>)
    requires ies != []
    ensures [ies[0]] + ies[1..] == ies
  {
  }

  lemma NothingAtEnd()
    ensures Parse([]) == Nothing([])
  {
    NoLengthAtEnd([]);
  }

  /** The wire round trip: any well-formed message, any number of elements, any nesting. */
  lemma MsgRoundTrip(m: Msg)
    requires WellFormedMsg(m)
    ensures DumpableAll(m.ies) && LoadMsg(DumpMsg(m)) == Accepted(m, [])
  {
    WellFormedDumpableAll(m.ies);
    HeaderRoundTrip(m, DumpAll(m.ies));
    assert Announced(m) == Size(m.ies);
    if m.ies == [] {
      NothingAtEnd();
    } else {
      assert DumpAll(m.ies) + [] == DumpAll(m.ies);
      ElementsRoundTrip(m.ies, DumpAll(m.ies), 0, Announced(m), []);
    }
  }

  /** `dump_to` writes four octets more than the length field says. */
  lemma MsgSize(m: Msg)
    requires WellFormedMsg(m) && ExactAll(m.ies)
    ensures DumpableAll(m.ies) && |DumpMsg(m)| == 4 + m.messageLength
  {
    DumpAllSize(m.ies);
  }

  // ---- length bookkeeping of the builders ----

  datatype Edit = Add(ie: Ie) | Teid(teid: u32)

  function Apply(m: Msg, e: Edit): Msg {
    match e case Add(ie) => AddIe(m, ie) case Teid(t) => SetTeid(m, t)
  }

  function ApplyAll(m: Msg, edits: seq<Edit>): Msg
    decreases |edits|
  {
    if edits == [] then m else ApplyAll(Apply(m, edits[0]), edits[1..])
  }

  lemma {:induction false} SizeAppend(ies: seq<Ie>, ie: Ie)
    ensures Size(ies + [ie]) == Size(ies) + 4 + ie.length
  {
    if ies == [] {
      assert ies + [ie] == [ie];
      assert [ie][1..] == [];
    } else {
      assert (ies + [ie])[1..] == ies[1..] + [ie];
      SizeAppend(ies[1..], ie);
    }
  }

  lemma Wrap(a: nat, b: nat)
    ensures (a % 0x1_0000 + b) % 0x1_0000 == (a + b) % 0x1_0000
  {
  }

  predicate LengthInvariant(m: Msg) {
    m.messageLength == (4 + HeaderExtra(m) + Size(m.ies)) % 0x1_0000
  }

  lemma EditKeepsLength(m: Msg, e: Edit)
    requires LengthInvariant(m)
    ensures LengthInvariant(Apply(m, e))
  {
    var n := 4 + HeaderExtra(m) + Size(m.ies);
    if e.Add? {
      SizeAppend(m.ies, e.ie);
      Wrap(n, 4 + e.ie.length);
    } else {
      Wrap(n, 4);
    }
  }

  /** After any interleaving of `add_ie` and `set_teid` the length field counts the sequence number,
      the TEID if there is one, and every element. */
  lemma {:induction false} LengthBookkeeping(m: Msg, edits: seq<Edit>)
    requires LengthInvariant(m)
    ensures LengthInvariant(ApplyAll(m, edits))
    decreases |edits|
  {
    if edits != [] {
      EditKeepsLength(m, edits[0]);
      LengthBookkeeping(Apply(m, edits[0]), edits[1..]);
    }
  }

  // ---- what acceptance means ----

  /** The 16-bit counter after a list of elements. */
  function Running(total: u16, ies: seq<Ie>): u16
    decreases |ies|
  {
    if ies == [] then total else Running(Counted(total, ies[0]), ies[1..])
  }

  lemma {:induction false} RunningIsSum(total: u16, ies: seq<Ie>)
    ensures Running(total, ies) == (total + Size(ies)) % 0x1_0000
    decreases |ies|
  {
    if ies != [] {
      RunningIsSum(Counted(total, ies[0]), ies[1..]);
      Wrap(total + 4 + ies[0].length, Size(ies[1..]));
    }
  }

  lemma RunningStep(total: u16, ie: Ie, ies: seq<Ie>)
    ensures Running(total, [ie] + ies) == Running(Counted(total, ie), ies)
  {
    assert ([ie] + ies)[1..] == ies;
  }

  lemma {:induction false} ParsedTotal(total: u16, announced: u16, p: Parsed, left: nat, r: ParsedAll)
    requires p.Made? ==> |p.rest| < left
    requires r == AfterParse(total, announced, p, left) && r.Elements?
    ensures r.total == Running(total, r.ies)
    decreases left
  {
    if p.Made? {
      var more := Counted(total, p.ie);
      if more < announced {
        var tail := ParseAll(more, announced, p.rest);
        ParsedTotal(more, announced, Parse(p.rest), |p.rest|, tail);
        RunningStep(total, p.ie, tail.ies);
      } else {
        RunningStep(total, p.ie, []);
        assert [p.ie] + [] == [p.ie];
      }
    }
  }

  lemma ElementsAddUp(m: Msg, after: bytes)
    requires LoadElements(m, after).Accepted?
    ensures var ies := LoadElements(m, after).msg.ies;
            (4 + HeaderExtra(m) + Size(ies)) % 0x1_0000 == m.messageLength
  {
    var r := ParseAll(0, Announced(m), after);
    ParsedTotal(0, Announced(m), Parse(after), |after|, r);
    RunningIsSum(0, r.ies);
    AnnouncedBack(m.messageLength, 4 + HeaderExtra(m), Size(r.ies));
  }

  /** Any accepted message has elements that add up to the announced length modulo 2^16. */
  lemma AcceptedAddsUp(s: bytes)
    requires LoadMsg(s).Accepted?
    ensures var m := LoadMsg(s).msg;
            (4 + HeaderExtra(m) + Size(m.ies)) % 0x1_0000 == m.messageLength
  {
    var (m, after) := LoadHeader(s);
    ElementsAddUp(m, after);
  }

  lemma AnnouncedBack(length: u16, fixed: nat, n: nat)
    requires n % 0x1_0000 == (length - fixed) % 0x1_0000
    ensures (fixed + n) % 0x1_0000 == length
  {
  }

  function ContainersLength(cs: seq<Container>): nat {
    if cs == [] then 0 else cs[0].declared + 3 + ContainersLength(cs[1..])
  }

  /** Accepted protocol options fill their declared length exactly. */
  lemma {:induction false} PcoExact(remaining: nat, s: bytes)
    ensures var r := LoadContainers(remaining, s); r.Containers? ==> ContainersLength(r.cs) == remaining
    decreases remaining
  {
    if remaining > 0 {
      var (c, after) := OneContainer(s);
      if c.declared + 3 <= remaining {
        PcoExact(remaining - (c.declared + 3), after);
        var r := LoadContainers(remaining - (c.declared + 3), after);
        if r.Containers? {
          assert ([c] + r.cs)[1..] == r.cs;
        }
      }
    }
  }

  // ---- the layout, by number ----

  /** The header: flags, type, length, the TEID if its flag (bit 3) is set, the sequence number, and the
      priority if both flags (bits 3 and 2) are set. */
  lemma HeaderLayout(m: Msg)
    ensures var h, t := HeaderBytes(m), m.flags / 8 % 2 == 1;
            var at := if t then 8 else 4;
            && |h| == at + 4 && h[0] == m.flags / 4 * 4 && h[1] == m.messageType && h[2] as int * 256 + h[3] == m.messageLength
            && (t ==> Value(h[4..8]) == m.teid)
            && (m.sequenceNumber < 0x100_0000 ==> Value(h[at..at + 3]) == m.sequenceNumber)
            && h[at + 3] == if t && m.flags / 4 % 2 == 1 then m.priority / 16 * 16 else 0
  {
    var a := [m.flags - m.flags % 4, m.messageType] + Word(m.messageLength);
    var t := if HasTeid(m.flags) then Big(m.teid, 4) else [];
    var n := Big(m.sequenceNumber, 3);
    var p: byte := if HasTeid(m.flags) && HasPriority(m.flags) then m.priority - m.priority % 16 else 0;
    assert HeaderBytes(m) == a + t + n + [p];
    Capacities();
    BigRoundTrip(m.teid, 4);
    if m.sequenceNumber < 0x100_0000 {
      BigRoundTrip(m.sequenceNumber, 3);
    }
    Middle(a, t, n + [p]);
    Assoc(a + t, n, [p]);
    Middle(a + t, n, [p]);
  }

  /** The factory's switch, by number: which types it knows, and what contents each has. */
  lemma FactoryByNumber(kind: byte, length: nat, s: bytes)
    requires length >= 1
    ensures ParseBody(kind, length, s).Unknown?
       <==> kind !in {1, 2, 3, 71, 72, 73, 74, 75, 76, 77, 78, 79, 80, 81, 82, 83, 84, 86, 87, 92, 93, 94, 97, 99, 114, 127,
                      128, 132, 135, 152, 194}
    ensures var r := ParseBody(kind, length, s);
            r.Contents? ==>
              && (r.body.Digits? <==> kind == 1 || kind == 75 || kind == 76) && (r.body.Cause? <==> kind == 2)
              && (r.body.Apn? <==> kind == 71) && (r.body.Ambr? <==> kind == 72) && (r.body.IpAddress? <==> kind == 74)
              && (r.body.Indication? <==> kind == 77) && (r.body.Pco? <==> kind == 78) && (r.body.Paa? <==> kind == 79)
              && (r.body.BearerQos? <==> kind == 80) && (r.body.FlowQos? <==> kind == 81)
              && (r.body.ServingNetwork? <==> kind == 83) && (r.body.Uli? <==> kind == 86) && (r.body.Fteid? <==> kind == 87)
              && (r.body.Group? <==> kind == 93) && (r.body.ChargingId? <==> kind == 94)
              && (r.body.TimeZone? <==> kind == 114) && (r.body.FqCsid? <==> kind == 132)
  {
    if LeafKind(kind) {
      LoadLeafShrinks(kind, length, s);
      LeafByNumber(kind, length, s);
    }
  }

  lemma LeafByNumber(kind: byte, length: nat, s: bytes)
    requires LeafKind(kind) && length >= 1
    ensures var r := LoadLeaf(kind, length, s);
            r.Loaded? ==>
              && (r.body.Digits? <==> kind == 1 || kind == 75 || kind == 76) && (r.body.Cause? <==> kind == 2)
              && (r.body.Apn? <==> kind == 71) && (r.body.Ambr? <==> kind == 72) && (r.body.IpAddress? <==> kind == 74)
              && (r.body.Indication? <==> kind == 77) && (r.body.Pco? <==> kind == 78) && (r.body.Paa? <==> kind == 79)
              && (r.body.BearerQos? <==> kind == 80) && (r.body.FlowQos? <==> kind == 81)
              && (r.body.ServingNetwork? <==> kind == 83) && (r.body.Uli? <==> kind == 86) && (r.body.Fteid? <==> kind == 87)
              && (r.body.ChargingId? <==> kind == 94) && (r.body.TimeZone? <==> kind == 114) && (r.body.FqCsid? <==> kind == 132)
  {
  }

  /** One-octet elements: their octet is read; nine kinds insist on a length of one, three do not look. */
  lemma OctetsByNumber(kind: byte, length: nat, v: byte, rest: bytes)
    requires length >= 1
    ensures kind in {82, 92, 97, 99, 127, 128, 135, 152, 194} ==>
              ParseBody(kind, length, [v] + rest) == if length == 1 then Contents(Octet(v), rest) else Failed(BadLength)
    ensures kind in {3, 73, 84} ==> ParseBody(kind, length, [v] + rest) == Contents(Octet(v), rest)
  {
    ReadBack([v], rest);
  }

  /** The lengths each kind insists on, by number; for addresses, F-TEIDs and FQ-CSIDs they depend on the
      first octet. Causes, bit rates, indications and locations are read whatever the length is. */
  lemma LengthsByNumber(kind: byte, length: nat, s: bytes)
    requires LeafKind(kind) && length >= 1
    ensures var refused := LoadLeaf(kind, length, s).Refused?;
            && (kind in {2, 72, 77, 86} ==> !refused)
            && (kind == 74 ==> (refused <==> length != 4 && length != 16))
            && (kind == 80 ==> (refused <==> length != 22)) && (kind == 81 ==> (refused <==> length != 21))
            && (kind == 83 ==> (refused <==> length != 3)) && (kind == 94 ==> (refused <==> length != 4))
            && (kind == 114 ==> (refused <==> length != 2)) && (kind in {1, 75, 76} ==> (refused <==> length > 8))
    ensures s != [] ==>
              var refused, c := LoadLeaf(kind, length, s).Refused?, s[0];
              && (kind == 79 ==> (refused <==> !(c % 8 == 1 && length == 5) && !(c % 8 == 2 && length == 18)
                                               && !(c % 8 == 3 && length == 22) && !(c % 8 == 4 && length == 1)))
              && (kind == 87 ==> (refused <==> length != 5 + c / 128 % 2 * 4 + c / 64 % 2 * 16))
              && (kind == 132 ==> (refused <==> c / 16 > 2 || length < (if c / 16 == 1 then 17 else 5) + 2 * (c % 16)))
  {
  }

  /** A cause that names an offending element has six octets: value, flags, type, length and instance. */
  lemma CauseOctets(length: nat, v: byte, b: byte, k: byte, hi: byte, lo: byte, i: byte, rest: bytes)
    ensures LoadCause(6, [v, b, k, hi, lo, i] + rest) == Loaded(Cause(v, b, k, hi * 256 + lo, i), rest)
    ensures length != 6 ==> LoadCause(length, [v, b] + rest) == Loaded(Cause(v, b, 0, 0, 0), rest)
  {
    ReadBack([v, b, k, hi, lo, i], rest);
    assert [v, b, k, hi, lo, i][3..5] == [hi, lo];
    if length != 6 {
      ReadBack([v, b], rest);
    }
  }

  // ---- kinds that miss the length or the round trip ----

  /** A cause declares one octet more than it writes exactly when it names an offending element. */
  lemma CauseExact(ie: Ie)
    requires ie.body.Cause? && Dumpable(ie)
    ensures var p := Prepared(ie); |Payload(p.length, p.body)| == p.length <==> ie.body.value != 69
    ensures var p := Prepared(ie); ie.body.value == 69 ==> |Payload(p.length, p.body)| == p.length - 1
  {
  }

  /** An address element comes back if and only if it is IPv4 (and the rest of its union is zero, as the
      constructor leaves it). */
  lemma AddressComesBack(raw: Octets16, isIpv4: bool, rest: bytes)
    ensures var n := if isIpv4 then 4 else 16;
            LoadIpAddress(n, Payload(n, IpAddress(raw, isIpv4)) + rest) == Loaded(IpAddress(raw, isIpv4), rest)
            <==> isIpv4 && AllZero(raw[4..])
  {
    if isIpv4 {
      ReadBack(raw[..4], rest);
      assert raw == raw[..4] + raw[4..];
      assert (raw[..4] + Zeros(12))[4..] == Zeros(12);
      if AllZero(raw[4..]) {
        ZerosAre(raw[4..]);
      }
    } else {
      AddressFamilyLost(raw, rest);
    }
  }

  /** An IPv6 address is read back as its octets with the mark of an IPv4 one. */
  lemma AddressFamilyLost(raw: Octets16, rest: bytes)
    ensures LoadIpAddress(16, Payload(16, IpAddress(raw, false)) + rest) == Loaded(IpAddress(raw, true), rest)
  {
    ReadBack(raw, rest);
  }
}
