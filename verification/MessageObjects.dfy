/** The message, group and stream objects: the loops of the codec, each proved to compute what the
    specification says. */
module MessageObjects {
  import opened Octets
  import opened Elements
  import opened Messages
  import opened MessageRoundTrip
  import opened Retransmission

  class InputStream {
    var octets: bytes

    constructor (octets: bytes)
      ensures this.octets == octets
    {
      this.octets := octets;
    }

    /** Octets come out in order and once; a read past the end leaves the missing octets of the zeroed
        buffer alone and the stream empty. */
    method Read(n: nat) returns (buffer: bytes)
      modifies this
      ensures |buffer| == n
      ensures n <= |old(octets)| ==> buffer + octets == old(octets)
      ensures n > |old(octets)| ==> octets == [] && buffer == old(octets) + Zeros(n - |old(octets)|)
    {
      buffer := Take(octets, n);
      octets := Drop(octets, n);
    }
  }

  // ---- loops over a stream ----

  function AfterContainers(done: seq<Container>, r: LoadedContainers): LoadedContainers {
    match r
    case TooLong => TooLong
    case Containers(cs, rest) => Containers(done + cs, rest)
  }

  /** The loop of the protocol options. */
  method ReadContainers(is_: InputStream, length: int) returns (r: LoadedContainers)
    modifies is_
    ensures r == LoadContainers(length, old(is_.octets))
    ensures r.Containers? ==> is_.octets == r.rest
  {
    var remaining := length;
    var done: seq<Container> := [];
    while remaining > 0
      invariant AfterContainers(done, LoadContainers(remaining, is_.octets)) == LoadContainers(length, old(is_.octets))
      decreases remaining
    {
      ghost var s := is_.octets;
      var head := is_.Read(3);
      var contents := is_.Read(head[2]);
      var c := Container(Value16(head[..2]), head[2], contents);
      assert OneContainer(s) == (c, is_.octets);
      if c.declared + 3 > remaining {
        return TooLong;
      }
      remaining := remaining - (c.declared + 3);
      AppendContainer(done, c, LoadContainers(remaining, is_.octets));
      done := done + [c];
    }
    assert done + [] == done;
    r := Containers(done, is_.octets);
  }

  lemma AppendContainer(done: seq<Container>, c: Container, r: LoadedContainers)
    ensures r.Containers? ==> done + ([c] + r.cs) == done + [c] + r.cs
  {
  }

  /** The loop that reads the identifiers of an FQ-CSID. */
  method ReadCsids(is_: InputStream, n: nat) returns (csids: seq<u16>)
    modifies is_
    ensures (csids, is_.octets) == LoadCsids(n, old(is_.octets))
  {
    csids := [];
    var i := 0;
    assert [] + LoadCsids(n, is_.octets).0 == LoadCsids(n, is_.octets).0;
    while i < n
      invariant 0 <= i <= n
      invariant var more := LoadCsids(n - i, is_.octets); (csids + more.0, more.1) == LoadCsids(n, old(is_.octets))
    {
      ghost var more := LoadCsids(n - i, is_.octets);
      var b := is_.Read(2);
      assert csids + more.0 == csids + [Value16(b)] + LoadCsids(n - i - 1, is_.octets).0;
      csids := csids + [Value16(b)];
      i := i + 1;
    }
    assert csids + [] == csids;
  }

  function AfterChildren(done: seq<Ie>, r: ParsedGroup): ParsedGroup {
    match r
    case GroupThrown(e) => GroupThrown(e)
    case Children(ies, rest) => Children(done + ies, rest)
  }

  /** The loop of `gtpv2c_grouped_ie::load_from`. */
  method ReadGroup(is_: InputStream, length: int) returns (r: ParsedGroup)
    modifies is_
    ensures r == ParseGroup(length, old(is_.octets))
    ensures r.Children? ==> is_.octets == r.rest
  {
    var remaining := length;
    var done: seq<Ie> := [];
    while remaining > 0
      invariant AfterChildren(done, ParseGroup(remaining, is_.octets)) == ParseGroup(length, old(is_.octets))
      decreases |is_.octets|
    {
      match Parse(is_.octets)
      case Thrown(e) => return GroupThrown(e);
      case Nothing(_) => return GroupThrown(BadLength);
      case Made(ie, rest) =>
        remaining := remaining - (ie.length + 4);
        AppendIe(done, ie, ParseGroup(remaining, rest));
        done := done + [ie];
        is_.octets := rest;
    }
    assert done + [] == done;
    r := Children(done, is_.octets);
  }

  lemma AppendIe(done: seq<Ie>, ie: Ie, r: ParsedGroup)
    ensures r.Children? ==> done + ([ie] + r.ies) == done + [ie] + r.ies
  {
  }

  // ---- the message ----

  function AfterElements(done: seq<Ie>, r: ParsedAll): ParsedAll {
    match r
    case AllThrown(e) => AllThrown(e)
    case Elements(ies, total, rest) => Elements(done + ies, total, rest)
  }

  lemma AppendElement(done: seq<Ie>, ie: Ie, r: ParsedAll)
    ensures r.Elements? ==> done + ([ie] + r.ies) == done + [ie] + r.ies
  {
  }

  /** The do-while loop of `gtpv2c_msg::load_from`. */
  method ReadElements(is_: InputStream, announced: u16) returns (r: ParsedAll)
    modifies is_
    ensures r == ParseAll(0, announced, old(is_.octets))
    ensures r.Elements? ==> is_.octets == r.rest
  {
    var total: u16 := 0;
    var done: seq<Ie> := [];
    var going := true;
    while going
      invariant going ==> AfterElements(done, ParseAll(total, announced, is_.octets)) == ParseAll(0, announced, old(is_.octets))
      invariant !going ==> Elements(done, total, is_.octets) == ParseAll(0, announced, old(is_.octets))
      decreases going, |is_.octets|
    {
      match Parse(is_.octets)
      case Thrown(e) => return AllThrown(e);
      case Nothing(rest) =>
        assert done + [] == done;
        is_.octets := rest;
        going := false;
      case Made(ie, rest) =>
        total := Counted(total, ie);
        AppendElement(done, ie, ParseAll(total, announced, rest));
        done := done + [ie];
        is_.octets := rest;
        going := total < announced;
    }
    r := Elements(done, total, is_.octets);
  }

  lemma NextDumped(octets: bytes, after: seq<Ie>, rest: seq<Ie>)
    requires rest != [] && DumpableAll(rest)
    ensures octets + DumpAll(rest) == octets + Dump(rest[0]) + DumpAll(rest[1..])
    ensures after + AfterAll(rest) == after + [After(rest[0])] + AfterAll(rest[1..])
  {
    Assoc(octets, Dump(rest[0]), DumpAll(rest[1..]));
    assert AfterAll(rest) == [After(rest[0])] + AfterAll(rest[1..]);
  }

  /** The loop of `dump_to`: what is written, and the elements as writing leaves them. */
  method DumpElements(ies: seq<Ie>) returns (octets: bytes, after: seq<Ie>)
    requires DumpableAll(ies)
    ensures octets == DumpAll(ies) && after == AfterAll(ies)
  {
    octets, after := [], [];
    var rest := ies;
    assert octets + DumpAll(rest) == DumpAll(ies) && after + AfterAll(rest) == AfterAll(ies);
    while rest != []
      invariant DumpableAll(rest)
      invariant octets + DumpAll(rest) == DumpAll(ies) && after + AfterAll(rest) == AfterAll(ies)
      decreases |rest|
    {
      NextDumped(octets, after, rest);
      octets := octets + Dump(rest[0]);
      after := after + [After(rest[0])];
      rest := rest[1..];
    }
    assert octets + [] == octets && after + [] == after;
  }

  /** A group of elements under construction. */
  class GroupObject {
    var length: u16
    var ies: seq<Ie>

    constructor ()
      ensures length == 0 && ies == []
    {
      length, ies := 0, [];
    }

    /** The 16-bit length counts 4 + length for every element added. */
    method AddIe(ie: Ie)
      requires length == Running(0, ies)
      modifies this
      ensures ies == old(ies) + [ie] && length == Running(0, ies) == Size(ies) % 0x1_0000
    {
      RunningIsSum(0, ies);
      SizeAppend(ies, ie);
      Wrap(Size(ies), 4 + ie.length);
      ies := ies + [ie];
      length := (length + 4 + ie.length) % 0x1_0000;
      RunningIsSum(0, ies);
    }
  }

  class MessageObject {
    var flags: byte
    var messageType: byte
    var messageLength: u16
    var teid: u32
    var sequenceNumber: nat
    var priority: byte
    var ies: seq<Ie>

    ghost function Value(): Msg
      reads this
    {
      Msg(flags, messageType, messageLength, teid, sequenceNumber, priority, ies)
    }

    constructor (messageType: byte)
      ensures Value() == NewMsg(messageType)
    {
      flags, this.messageType, messageLength, teid := VERSION_2, messageType, 4, 0;
      sequenceNumber, priority, ies := 0, 0, [];
    }

    method AddIe(ie: Ie)
      modifies this`ies, this`messageLength
      ensures Value() == Messages.AddIe(old(Value()), ie)
    {
      ies := ies + [ie];
      messageLength := (messageLength + 4 + ie.length) % 0x1_0000;
    }

    method SetTeid(teid: u32)
      modifies this`teid, this`flags, this`messageLength
      ensures Value() == Messages.SetTeid(old(Value()), teid)
    {
      this.teid := teid;
      if !HasTeid(flags) {
        flags := WithTeid(flags);
        messageLength := (messageLength + 4) % 0x1_0000;
      }
    }

    method SetSequenceNumber(n: nat)
      modifies this`sequenceNumber
      ensures Value() == Messages.SetSequenceNumber(old(Value()), n)
    {
      sequenceNumber := n % 0x100_0000;
    }

    /** Writes the message and leaves its elements as writing them does. */
    method DumpTo() returns (octets: bytes)
      requires DumpableAll(ies)
      modifies this`flags, this`priority, this`ies
      ensures octets == DumpMsg(old(Value()))
      ensures Value() == AfterMsg(old(Value()))
    {
      octets := HeaderBytes(Msg(flags, messageType, messageLength, teid, sequenceNumber, priority, []));
      var announced := HasTeid(flags) && HasPriority(flags);
      flags := FlagsAfter(flags);
      priority := if announced then priority - priority % 16 else 0;
      var elements, after := DumpElements(ies);
      octets := octets + elements;
      ies := after;
    }

    /** Reads a message into a new object; the stream is left after the last element. */
    method LoadFrom(is_: InputStream) returns (error: Option<Error>)
      requires ies == []
      modifies this, is_
      ensures match LoadMsg(old(is_.octets))
              case Accepted(m, rest) => error == None && Value() == m && is_.octets == rest
              case Rejected(e) => error == Some(e)
    {
      ghost var s := is_.octets;
      var h := LoadHeader(is_.octets);
      is_.octets := h.1;
      flags, messageType, messageLength := h.0.flags, h.0.messageType, h.0.messageLength;
      teid, sequenceNumber, priority := h.0.teid, h.0.sequenceNumber, h.0.priority;
      var announced := Announced(h.0);
      var r := ReadElements(is_, announced);
      if r.AllThrown? {
        return Some(r.error);
      }
      ies := r.ies;
      error := if r.total != announced then Some(BadMessageLength) else None;
      assert LoadMsg(s) == LoadElements(h.0, h.1);
    }
  }
}
