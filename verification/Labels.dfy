/** Access point names: text with dots on one side, length-prefixed labels on the wire on the
    other (section 8.6 of 3GPP TS 29.274, section 9.1 of 3GPP TS 23.003). */
module Labels {
  import opened Octets

  const DOT: byte := 46
  const LONGEST_NAME: nat := 255
  /** Beyond this the 16-bit cursor of the decoder wraps around inside the text. */
  const LONGEST_BODY: nat := 65409

  /** The labels of a name: the parts between its dots. */
  function Split(name: bytes): (labels: seq<bytes>)
    ensures |labels| >= 1
  {
    if name == [] then [[]]
    else if name[0] == DOT then [[]] + Split(name[1..])
    else Extend([name[0]], Split(name[1..]))
  }

  /** The characters c in front of the first label. */
  function Extend(c: bytes, labels: seq<bytes>): seq<bytes>
    requires labels != []
  {
    [c + labels[0]] + labels[1..]
  }

  /** Labels put back together with dots between them. */
  function Join(labels: seq<bytes>): bytes {
    if labels == [] then []
    else if |labels| == 1 then labels[0]
    else labels[0] + [DOT] + Join(labels[1..])
  }

  /** Every label preceded by its length. */
  function Prefixed(labels: seq<bytes>): bytes {
    if labels == [] then [] else Piece(labels[0]) + Prefixed(labels[1..])
  }

  function Piece(part: bytes): bytes {
    [Counter(|part|)] + part
  }

  /** An 8-bit counter after n increments. */
  function Counter(n: nat): (c: byte)
    ensures n < 256 ==> c == n
  {
    n % 256
  }

  /** The wire form of a name, one octet longer than the name. */
  function Dotted(name: bytes): (dotted: bytes)
    ensures |dotted| == |name| + 1
  {
    JoinSplit(name);
    PrefixedLength(Split(name));
    Prefixed(Split(name))
  }

  predicate Encodable(name: bytes) {
    |name| <= LONGEST_NAME && 0 !in name
  }

  predicate ShortLabels(labels: seq<bytes>) {
    forall k :: 0 <= k < |labels| ==> |labels[k]| <= 63
  }

  lemma ExtendNothing(labels: seq<bytes>)
    requires labels != []
    ensures Extend([], labels) == labels
  {
    assert [] + labels[0] == labels[0];
  }

  lemma JoinExtend(c: bytes, labels: seq<bytes>)
    requires labels != []
    ensures Join(Extend(c, labels)) == c + Join(labels)
  {
    assert Extend(c, labels)[1..] == labels[1..];
    if |labels| > 1 {
      Assoc4(c, labels[0], [DOT], Join(labels[1..]));
    }
  }

  lemma JoinEmptyFirst(more: seq<bytes>)
    requires more != []
    ensures Join([[]] + more) == [DOT] + Join(more)
  {
    var labels: seq<bytes> := [[]] + more;
    assert labels[1..] == more;
    assert labels[0] + [DOT] == [DOT];
  }

  lemma {:induction false} JoinSplit(name: bytes)
    ensures Join(Split(name)) == name
  {
    if name != [] {
      assert name == [name[0]] + name[1..];
      JoinSplit(name[1..]);
      if name[0] == DOT {
        JoinEmptyFirst(Split(name[1..]));
      } else {
        JoinExtend([name[0]], Split(name[1..]));
      }
    }
  }

  lemma {:induction false} PrefixedLength(labels: seq<bytes>)
    requires labels != []
    ensures |Prefixed(labels)| == |Join(labels)| + 1
  {
    if |labels| > 1 {
      PrefixedLength(labels[1..]);
    } else {
      assert labels[1..] == [];
    }
  }

  /** What the encoder still has to write: done holds the finished labels, current the one being read. */
  function Finish(done: bytes, current: bytes, rest: bytes): bytes
    decreases |rest|
  {
    if rest == [] then done + Piece(current)
    else if rest[0] == DOT then Finish(done + Piece(current), [], rest[1..])
    else Finish(done, current + [rest[0]], rest[1..])
  }

  lemma {:induction false} FinishIsPrefixed(done: bytes, current: bytes, rest: bytes)
    ensures Finish(done, current, rest) == done + Prefixed(Extend(current, Split(rest)))
    decreases |rest|
  {
    var labels := Extend(current, Split(rest));
    if rest == [] {
      assert current + [] == current;
      assert labels == [current];
      assert Prefixed(labels) == Piece(current) + Prefixed([]);
    } else if rest[0] == DOT {
      FinishIsPrefixed(done + Piece(current), [], rest[1..]);
      var more := Split(rest[1..]);
      ExtendNothing(more);
      assert current + [] == current;
      assert labels == [current] + more;
      Assoc(done, Piece(current), Prefixed(more));
    } else {
      FinishIsPrefixed(done, current + [rest[0]], rest[1..]);
      var more := Split(rest[1..]);
      Assoc(current, [rest[0]], more[0]);
      assert Extend([rest[0]], more)[1..] == more[1..];
      assert labels == Extend(current + [rest[0]], more);
    }
  }

  lemma FinishAll(name: bytes)
    ensures Finish([], [], name) == Dotted(name)
  {
    FinishIsPrefixed([], [], name);
    ExtendNothing(Split(name));
  }

  /** The encoder: one pass that leaves a hole for each length and fills it when the label ends. */
  method StringToDotted(name: bytes) returns (dotted: bytes)
    requires Encodable(name)
    ensures dotted == Dotted(name)
  {
    var value := new byte[|name| + 1](i => 0);
    var offset: nat, lastSize: nat, wordLength: byte := 0, 0, 0;
    FinishAll(name);
    assert name[0..] == name && value[..0] == [] && value[1..1] == [];
    while offset < |name|
      invariant lastSize <= offset <= |name|
      invariant wordLength == offset - lastSize
      invariant Finish(value[..lastSize], value[lastSize + 1..offset + 1], name[offset..]) == Dotted(name)
    {
      ghost var done, current := value[..lastSize], value[lastSize + 1..offset + 1];
      assert name[offset..] == [name[offset]] + name[offset + 1..];
      assert ([name[offset]] + name[offset + 1..])[1..] == name[offset + 1..];
      if name[offset] == 46 {
        value[lastSize] := wordLength;
        assert value[..offset + 1] == done + Piece(current);
        wordLength := 0;
        lastSize := offset + 1;
        assert value[offset + 2..offset + 2] == [];
      } else {
        wordLength := wordLength + 1;
        value[offset + 1] := name[offset];
        assert value[..lastSize] == done;
        assert value[lastSize + 1..offset + 2] == current + [name[offset]];
      }
      offset := offset + 1;
    }
    assert name[offset..] == [];
    ghost var done, current := value[..lastSize], value[lastSize + 1..offset + 1];
    value[lastSize] := wordLength;
    dotted := value[..];
    assert dotted == done + Piece(current);
  }

  /** What the decoder does with a body: text and a verdict, an exception from the string
      library (a label length read as a huge size), or a cursor that comes back to the start. */
  datatype Decoding = Text(text: bytes, ok: bool) | Throws | Loops

  /** The decoder from a given cursor. Octets are signed there: 128 and more are negative lengths. */
  function Walk(dot: bytes, offset: nat, text: bytes, ok: bool): Decoding
    requires |dot| <= LONGEST_BODY
    decreases |dot| - offset
  {
    if offset >= |dot| then Text(text, ok)
    else if dot[offset] < 128 then
      Walk(dot, Advance(dot, offset), Appended(dot, offset, text), ok && dot[offset] < 64)
    else if offset + dot[offset] >= 256 then Throws
    else if offset + dot[offset] == 255 then Loops
    else Text(text, ok)
  }

  /** Where one turn of the decoder's loop moves the cursor (16-bit arithmetic on a signed octet). */
  function Advance(dot: bytes, offset: nat): (next: nat)
    requires offset < |dot| <= LONGEST_BODY
    ensures dot[offset] < 128 ==> next > offset
  {
    var b := dot[offset];
    if b < 64 then offset + 1 + b
    else if b < 128 then offset + 1
    else if offset + b >= 255 then offset + b - 255
    else 65536 + offset + b - 255
  }

  /** The text after the turn: a label that overshoots the body is skipped, one that ends one octet
      past it picks up the terminator, and an octet that is no length is copied. */
  function Appended(dot: bytes, offset: nat, text: bytes): bytes
    requires offset < |dot| && dot[offset] < 128
  {
    if dot[offset] >= 64 then text + [dot[offset]]
    else if offset + dot[offset] <= |dot| then
      text + (if offset > 0 then [DOT] else []) + Take(dot[offset + 1..], dot[offset])
    else text
  }

  lemma LabelTurn(dot: bytes, offset: nat, text: bytes, ok: bool, c: nat, more: bytes)
    requires offset < |dot| <= LONGEST_BODY && dot[offset] == c < 64
    requires offset + c > |dot| ==> more == text
    requires offset + c <= |dot| && offset > 0 ==> more == text + [46] + Take(dot[offset + 1..], c)
    requires offset + c <= |dot| && offset == 0 ==> more == text + Take(dot[offset + 1..], c)
    ensures Walk(dot, offset, text, ok) == Walk(dot, offset + 1 + c, more, ok)
  {
    assert text + [] == text;
    assert more == Appended(dot, offset, text);
  }

  lemma OtherTurn(dot: bytes, offset: nat, text: bytes, ok: bool)
    requires offset < |dot| <= LONGEST_BODY && 64 <= dot[offset] < 128
    ensures Walk(dot, offset, text, ok) == Walk(dot, offset + 1, text + [dot[offset]], false)
  {
  }

  lemma NegativeTurn(dot: bytes, offset: nat, text: bytes, ok: bool, c: int, next: int)
    requires offset < |dot| <= LONGEST_BODY && c + 256 == dot[offset] && -128 <= c < 0
    requires next == offset + 1 + c
    ensures offset + c >= 0 ==> Walk(dot, offset, text, ok) == Throws
    ensures next == 0 ==> Walk(dot, offset, text, ok) == Loops
    ensures next < 0 ==> next + 0x1_0000 >= |dot|
    ensures next < 0 ==> Walk(dot, offset, text, ok) == Walk(dot, next + 0x1_0000, text, ok)
  {
  }

  function DottedToStringSpec(dot: bytes): Decoding
    requires |dot| <= LONGEST_BODY
  {
    Walk(dot, 0, [], true)
  }

  /** The label at the cursor, if it is not cut short, with a dot in front unless it is the first. */
  method AppendLabel(dot: bytes, offset: nat, text: bytes, ghost ok: bool) returns (more: bytes)
    requires offset < |dot| <= LONGEST_BODY && dot[offset] < 64
    ensures Walk(dot, offset, text, ok) == Walk(dot, offset + 1 + dot[offset], more, ok)
  {
    more := text;
    if offset + dot[offset] <= |dot| {
      if offset > 0 {
        more := more + [46];
      }
      more := more + Take(dot[offset + 1..], dot[offset]);
    }
    LabelTurn(dot, offset, text, ok, dot[offset], more);
  }

  /** One turn of the decoder's loop, over characters that are signed and a cursor of 16 bits. An appended
      length below zero makes the string library throw; a cursor back at the start makes the loop endless. */
  method TakeTurn(dot: bytes, offset: nat, text: bytes, ok: bool)
    returns (stop: Option<Decoding>, next: nat, more: bytes, good: bool)
    requires offset < |dot| <= LONGEST_BODY
    ensures stop.Some? ==> Walk(dot, offset, text, ok) == stop.value
    ensures stop.None? ==> next > offset && Walk(dot, offset, text, ok) == Walk(dot, next, more, good)
  {
    stop, next, more, good := None, offset + 1, text, ok;
    var c: int := dot[offset];
    if 64 <= c < 128 {
      OtherTurn(dot, offset, text, ok);
      more, good := text + [dot[offset]], false;
    } else if c < 64 {
      more := AppendLabel(dot, offset, text, ok);
      next := offset + 1 + c;
    } else {
      c := c - 256;
      NegativeTurn(dot, offset, text, ok, c, offset + 1 + c);
      if 0 <= offset + c <= |dot| {
        stop := Some(Throws);
      } else if offset + 1 + c == 0 {
        stop := Some(Loops);
      } else {
        next := offset + 1 + c + 0x1_0000;
      }
    }
  }

  /** The decoder: turn after turn until the cursor is past the body. */
  method DottedToString(dot: bytes) returns (r: Decoding)
    requires |dot| <= LONGEST_BODY
    ensures r == DottedToStringSpec(dot)
  {
    var offset: nat, text: bytes, ok, stop := 0, [], true, None;
    while offset < |dot|
      invariant Walk(dot, offset, text, ok) == DottedToStringSpec(dot)
      decreases |dot| - offset
    {
      stop, offset, text, ok := TakeTurn(dot, offset, text, ok);
      if stop.Some? {
        return stop.value;
      }
    }
    r := Text(text, ok);
  }

  /** On octets below 128 the loop ends. */
  lemma {:induction false} PlainOctetsEnd(dot: bytes, offset: nat, text: bytes, ok: bool)
    requires |dot| <= LONGEST_BODY && forall i :: 0 <= i < |dot| ==> dot[i] < 128
    ensures Walk(dot, offset, text, ok).Text?
    decreases |dot| - offset
  {
    if offset < |dot| {
      PlainOctetsEnd(dot, Advance(dot, offset), Appended(dot, offset, text), ok && dot[offset] < 64);
    }
  }

  ghost predicate Reaches(dot: bytes, from: nat, to: nat, turns: nat)
    requires |dot| <= LONGEST_BODY
    decreases turns
  {
    if turns == 0 then from == to
    else from < |dot| && Reaches(dot, Advance(dot, from), to, turns - 1)
  }

  /** `Loops` is meant literally: after one turn or more the cursor is at the start again. */
  lemma {:induction false} LoopsForever(dot: bytes, offset: nat, text: bytes, ok: bool)
    requires |dot| <= LONGEST_BODY
    requires Walk(dot, offset, text, ok).Loops?
    ensures exists turns: nat :: turns > 0 && Reaches(dot, offset, 0, turns)
    decreases |dot| - offset
  {
    var next := Advance(dot, offset);
    if dot[offset] < 128 {
      LoopsForever(dot, next, Appended(dot, offset, text), ok && dot[offset] < 64);
      var turns: nat :| turns > 0 && Reaches(dot, next, 0, turns);
      assert Reaches(dot, offset, 0, turns + 1);
    } else {
      assert Reaches(dot, 0, 0, 0);
      assert Reaches(dot, offset, 0, 1);
    }
  }

  function Separator(p: nat): bytes {
    if p > 0 then [DOT] else []
  }

  lemma PartAt(front: bytes, part: bytes, tail: bytes, dot: bytes)
    requires dot == front + Piece(part) + tail && |part| < 256
    ensures |front| + 1 + |part| <= |dot|
    ensures dot[|front|] == |part|
    ensures Take(dot[|front| + 1..], |part|) == part
  {
    assert dot[|front| + 1..] == part + tail;
  }

  /** One turn over a short label. */
  lemma Turn(front: bytes, part: bytes, tail: bytes, dot: bytes, text: bytes)
    requires dot == front + Piece(part) + tail && |part| <= 63 && |dot| <= LONGEST_BODY
    ensures Walk(dot, |front|, text, true)
         == Walk(dot, |front + Piece(part)|, text + Separator(|front|) + part, true)
  {
    PartAt(front, part, tail, dot);
    assert Advance(dot, |front|) == |front + Piece(part)|;
    assert Appended(dot, |front|, text) == text + Separator(|front|) + part;
  }

  /** One turn, seen on the list of labels. */
  lemma TurnOver(front: bytes, labels: seq<bytes>, dot: bytes, text: bytes)
    requires labels != [] && dot == front + Prefixed(labels) && |dot| <= LONGEST_BODY
    requires |labels[0]| <= 63
    ensures dot == front + Piece(labels[0]) + Prefixed(labels[1..])
    ensures Walk(dot, |front|, text, true)
         == Walk(dot, |front + Piece(labels[0])|, text + Separator(|front|) + labels[0], true)
  {
    Assoc(front, Piece(labels[0]), Prefixed(labels[1..]));
    Turn(front, labels[0], Prefixed(labels[1..]), dot, text);
  }

  lemma JoinCons(base: bytes, labels: seq<bytes>)
    requires |labels| > 1
    ensures base + Join(labels) == base + labels[0] + [DOT] + Join(labels[1..])
  {
    Assoc4(base, labels[0], [DOT], Join(labels[1..]));
  }

  /** Over short labels the decoder joins them with dots. */
  lemma {:induction false} WalkShort(front: bytes, labels: seq<bytes>, dot: bytes, text: bytes)
    requires labels != [] && dot == front + Prefixed(labels) && |dot| <= LONGEST_BODY
    requires ShortLabels(labels)
    ensures Walk(dot, |front|, text, true) == Text(text + Separator(|front|) + Join(labels), true)
    decreases |labels|
  {
    var base, next := text + Separator(|front|), front + Piece(labels[0]);
    TurnOver(front, labels, dot, text);
    if |labels| == 1 {
      assert Prefixed(labels[1..]) == [];
    } else {
      WalkShort(next, labels[1..], dot, base + labels[0]);
      JoinCons(base, labels);
    }
  }

  /** Once the verdict is negative it stays so. */
  lemma {:induction false} NeverRecovers(dot: bytes, offset: nat, text: bytes)
    requires |dot| <= LONGEST_BODY
    ensures var r := Walk(dot, offset, text, false); r.Text? ==> !r.ok
    decreases |dot| - offset
  {
    if offset < |dot| && dot[offset] < 128 {
      NeverRecovers(dot, Advance(dot, offset), Appended(dot, offset, text));
    }
  }

  /** A long label spoils the result: the verdict turns negative, or text is lost. */
  lemma LongTurn(dot: bytes, p: nat, text: bytes, wanted: bytes)
    requires p < |dot| <= LONGEST_BODY && dot[p] > 63
    requires |text| < |wanted|
    ensures Walk(dot, p, text, true) != Text(wanted, true)
  {
    if dot[p] < 128 {
      NeverRecovers(dot, Advance(dot, p), Appended(dot, p, text));
    }
  }

  lemma {:induction false} WalkLong(front: bytes, labels: seq<bytes>, dot: bytes, text: bytes)
    requires labels != [] && dot == front + Prefixed(labels) && |dot| <= 256
    requires !ShortLabels(labels)
    ensures Walk(dot, |front|, text, true) != Text(text + Separator(|front|) + Join(labels), true)
    decreases |labels|
  {
    var base, next := text + Separator(|front|), front + Piece(labels[0]);
    if |labels[0]| > 63 {
      Assoc(front, Piece(labels[0]), Prefixed(labels[1..]));
      PartAt(front, labels[0], Prefixed(labels[1..]), dot);
      LongTurn(dot, |front|, text, base + Join(labels));
    } else {
      var k :| 0 <= k < |labels| && |labels[k]| > 63;
      assert labels[1..][k - 1] == labels[k];
      TurnOver(front, labels, dot, text);
      WalkLong(next, labels[1..], dot, base + labels[0]);
      JoinCons(base, labels);
    }
  }

  /** The decoder undoes the encoder exactly on names whose labels have at most 63 characters. */
  lemma ApnRoundTrip(name: bytes)
    requires Encodable(name)
    ensures DottedToStringSpec(Dotted(name)) == Text(name, true) <==> ShortLabels(Split(name))
  {
    var labels := Split(name);
    JoinSplit(name);
    assert [] + Dotted(name) == Dotted(name) && [] + Separator(0) + name == name;
    if ShortLabels(labels) {
      WalkShort([], labels, Dotted(name), []);
    } else {
      WalkLong([], labels, Dotted(name), []);
    }
  }
}
