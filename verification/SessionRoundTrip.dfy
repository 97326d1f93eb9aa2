/** A Create Session Request survives building, writing, reading and decoding. */
module SessionRoundTrip {
  import opened Octets
  import opened Elements
  import opened ElementRoundTrip
  import opened Messages
  import opened MessageRoundTrip
  import opened Retransmission
  import opened CoreTypes
  import opened Conversions
  import opened SessionRequest

  /** The instance numbers of the builder invert the switches of the decoder. */
  predicate Inverts(top: bool, slot: Slot) {
    slot.index < 16 && TargetOf(top, slot.kind, slot.index) == Field(slot)
  }

  lemma BuilderInverts(slot: Slot)
    ensures slot in FIRST || slot in LAST ==> Inverts(true, slot)
    ensures slot in CREATED || slot in REMOVED ==> Inverts(false, slot)
  {
  }

  predicate FittingTable(order: seq<Slot>, t: Table) {
    forall s :: s in order && s in t ==> Fits(s.kind, t[s])
  }

  /** An element as `dump_to` leaves it is well formed and declares what it declared before. */
  predicate Ready(ie: Ie) {
    Dumpable(ie) && WellFormed(Settled(ie)) && Settled(ie).length == ie.length
  }

  predicate AllReady(ies: seq<Ie>) {
    DumpableAll(ies) && WellFormedAll(SettledAll(ies)) && Size(SettledAll(ies)) == Size(ies)
  }

  /** What decoding makes of elements as they are written. */
  function Read(top: bool, r: Request, ies: seq<Ie>): Decoding
    requires DumpableAll(ies)
  {
    Decode(top, r, SettledAll(ies))
  }

  function ReadIe(top: bool, r: Request, ie: Ie): Decoding
    requires Dumpable(ie)
  {
    DecodeIe(top, r, Settled(ie))
  }

  lemma DecodesBack(top: bool, r: Request, slot: Slot, ie: Ie, core: Core)
    requires Inverts(top, slot) && ie.kind == slot.kind && ie.tag == slot.index
    requires !ie.body.Group? && CoreOf(ie.kind, ie.body) == core
    ensures DecodeIe(top, r, ie) == Done(r.(fields := r.fields[slot := core]))
  {
  }

  /** The element of a fitting structure, under any instance. */
  lemma Survivor(kind: byte, tag: byte, core: Core) returns (length: u16, body: Body, written: Body)
    requires Fits(kind, core)
    ensures Make(kind, core) == Makes(length, body)
    ensures !body.Group? && Dumpable(Ie(kind, length, tag, body))
    ensures Prepared(Ie(kind, length, tag, body)) == Ie(kind, length, tag, written)
    ensures WellFormedLeaf(kind, length, written) && CoreOf(kind, written) == core
  {
    FitsIffComesBack(kind, core);
    var m := Make(kind, core);
    length, body, written := m.length, m.body, Prepared(Ie(kind, m.length, 0, m.body)).body;
  }

  lemma WrittenIsWell(kind: byte, length: u16, tag: byte, body: Body, core: Core)
    requires WellFormedLeaf(kind, length, body) && CoreOf(kind, body) == core && Fits(kind, core)
    ensures WellFormed(Ie(kind, length, tag, body)) && !body.Group?
  {
  }

  lemma MadeIe(slot: Slot, core: Core, length: u16, body: Body)
    requires Make(slot.kind, core) == Makes(length, body) && slot.index < 16
    ensures MakeIe(slot, core) == Some(Ie(slot.kind, length, slot.index, body))
  {
  }

  /** One field: its element is well formed when written, and decoding that sets the field again. */
  lemma FieldBack(top: bool, r: Request, slot: Slot, core: Core)
    requires Fits(slot.kind, core) && Inverts(top, slot)
    ensures var ie := MakeIe(slot, core);
            && ie.Some? && Ready(ie.value)
            && ReadIe(top, r, ie.value) == Done(r.(fields := r.fields[slot := core]))
  {
    var length, body, written := Survivor(slot.kind, slot.index, core);
    MadeIe(slot, core, length, body);
    WrittenIsWell(slot.kind, length, slot.index, written, core);
    DecodesBack(top, r, slot, Ie(slot.kind, length, slot.index, written), core);
  }

  lemma {:induction false} WellFormedAppend(a: seq<Ie>, b: seq<Ie>)
    requires WellFormedAll(a) && WellFormedAll(b)
    ensures WellFormedAll(a + b) && Size(a + b) == Size(a) + Size(b)
  {
    if a == [] {
      assert a + b == b;
    } else {
      WellFormedAppend(a[1..], b);
      assert (a + b)[1..] == a[1..] + b;
    }
  }

  lemma {:induction false} SettledAppend(a: seq<Ie>, b: seq<Ie>)
    requires DumpableAll(a) && DumpableAll(b)
    ensures DumpableAll(a + b) && SettledAll(a + b) == SettledAll(a) + SettledAll(b)
    decreases |a|
  {
    if a == [] {
      assert a + b == b && [] + SettledAll(b) == SettledAll(b);
    } else {
      SettledAppend(a[1..], b);
      RestOf(a, b);
      SettledFirst(a + b, a[0], a[1..] + b);
      Reassociated([Settled(a[0])], SettledAll(a[1..]), SettledAll(b));
    }
  }

  lemma RestOf(a: seq<Ie>, b: seq<Ie>)
    requires a != []
    ensures (a + b)[0] == a[0] && (a + b)[1..] == a[1..] + b
  {
  }

  lemma SettledFirst(all: seq<Ie>, first: Ie, more: seq<Ie>)
    requires all != [] && all[0] == first && all[1..] == more && Dumpable(first) && DumpableAll(more)
    ensures DumpableAll(all) && SettledAll(all) == [Settled(first)] + SettledAll(more)
  {
  }

  lemma Reassociated(a: seq<Ie>, b: seq<Ie>, c: seq<Ie>)
    ensures a + b + c == a + (b + c)
  {
  }

  lemma {:induction false} SizeConcat(a: seq<Ie>, b: seq<Ie>)
    ensures Size(a + b) == Size(a) + Size(b)
  {
    if a == [] {
      assert a + b == b;
    } else {
      SizeConcat(a[1..], b);
      RestOf(a, b);
    }
  }

  lemma {:induction false} DecodeAppend(top: bool, r: Request, a: seq<Ie>, b: seq<Ie>)
    ensures Decode(top, r, a + b)
         == match Decode(top, r, a) { case Raised(why) => Raised(why) case Done(next) => Decode(top, next, b) }
    decreases |a|
  {
    if a == [] {
      assert a + b == b;
    } else {
      assert (a + b)[1..] == a[1..] + b;
      var one := DecodeIe(top, r, a[0]);
      if one.Done? {
        DecodeAppend(top, one.r, a[1..], b);
      }
    }
  }

  /** Two lists of elements one after the other. */
  lemma ReadAppend(top: bool, r: Request, a: seq<Ie>, b: seq<Ie>)
    requires AllReady(a) && AllReady(b)
    ensures AllReady(a + b)
    ensures Read(top, r, a + b)
         == match Read(top, r, a) { case Raised(why) => Raised(why) case Done(next) => Read(top, next, b) }
  {
    SettledAppend(a, b);
    SizeConcat(a, b);
    WellFormedAppend(SettledAll(a), SettledAll(b));
    DecodeAppend(top, r, SettledAll(a), SettledAll(b));
  }

  lemma SelectedCons(order: seq<Slot>, t: Table, fields: Table)
    requires order != []
    ensures fields + Selected(order, t)
         == (if order[0] in t then fields[order[0] := t[order[0]]] else fields) + Selected(order[1..], t)
  {
    assert order == [order[0]] + order[1..];
  }

  /** A whole table of fields. */
  lemma {:induction false} TableBack(top: bool, r: Request, order: seq<Slot>, t: Table)
    requires FittingTable(order, t) && forall s :: s in order ==> Inverts(top, s)
    ensures var ies := MakeAll(order, t);
            && ies.Some? && AllReady(ies.value)
            && Read(top, r, ies.value) == Done(r.(fields := r.fields + Selected(order, t)))
    decreases |order|
  {
    if order == [] {
      assert r.fields + Selected(order, t) == r.fields;
    } else {
      var s := order[0];
      assert forall x :: x in order[1..] ==> x in order;
      SelectedCons(order, t, r.fields);
      if s in t {
        var r' := r.(fields := r.fields[s := t[s]]);
        FieldBack(top, r, s, t[s]);
        TableBack(top, r', order[1..], t);
        Consed(top, r, MakeIe(s, t[s]).value, MakeAll(order[1..], t).value, r');
      } else {
        TableBack(top, r, order[1..], t);
      }
    }
  }

  lemma Consed(top: bool, r: Request, ie: Ie, more: seq<Ie>, next: Request)
    requires Ready(ie) && AllReady(more) && ReadIe(top, r, ie) == Done(next)
    ensures AllReady([ie] + more) && Read(top, r, [ie] + more) == Read(top, next, more)
  {
    assert ([ie] + more)[1..] == more;
    assert ([Settled(ie)] + SettledAll(more))[1..] == SettledAll(more);
  }

  // ---- bearer contexts ----

  function SelectedAll(order: seq<Slot>, ts: seq<Table>): seq<Table> {
    if ts == [] then [] else [Selected(order, ts[0])] + SelectedAll(order, ts[1..])
  }

  /** A context that fits, says something and is not too long. */
  predicate FittingContext(order: seq<Slot>, t: Table) {
    && FittingTable(order, t)
    && var ies := MakeAll(order, t); ies.Some? ==> ies.value != [] && Size(ies.value) < 0x1_0000
  }

  predicate FittingContexts(order: seq<Slot>, ts: seq<Table>) {
    forall i :: 0 <= i < |ts| ==> FittingContext(order, ts[i])
  }

  /** What decoding a context to be created (instance 0) or removed (instance 1) adds. */
  function WithContext(r: Request, instance: byte, t: Table): Request {
    if instance == 0 then r.(hasCreated := true, created := r.created + [t])
    else r.(hasRemoved := true, removed := r.removed + [t])
  }

  function ContextOrder(instance: byte): seq<Slot> {
    if instance == 0 then CREATED else REMOVED
  }

  lemma SelectedTwice(order: seq<Slot>, wider: seq<Slot>, t: Table)
    requires forall s :: s in order ==> s in wider
    ensures Selected(wider, map[] + Selected(order, t)) == Selected(order, t)
  {
  }

  lemma ContextAdded(r: Request, instance: byte, t: Table)
    requires instance <= 1
    ensures AddContext(r, TargetOf(true, BEARER_CONTEXT, instance), map[] + Selected(ContextOrder(instance), t))
         == Done(WithContext(r, instance, Selected(ContextOrder(instance), t)))
  {
    SelectedTwice(ContextOrder(instance), if instance == 0 then CREATED_FIELDS else REMOVED, t);
  }

  lemma GroupDecodes(r: Request, ies: seq<Ie>, instance: byte, f: Table)
    requires AllReady(ies) && ies != [] && Size(ies) < 0x1_0000 && instance <= 1
    requires Read(false, Empty(), ies) == Done(Empty().(fields := f))
    ensures var ie := Ie(BEARER_CONTEXT, Size(ies), instance, Group(ies));
            Ready(ie) && ReadIe(true, r, ie) == AddContext(r, TargetOf(true, BEARER_CONTEXT, instance), f)
  {
  }

  lemma ContextInverts(instance: byte)
    requires instance <= 1
    ensures forall s :: s in ContextOrder(instance) ==> Inverts(false, s)
  {
    forall s | s in ContextOrder(instance) ensures Inverts(false, s) {
      BuilderInverts(s);
    }
  }

  lemma ContextBack(r: Request, instance: byte, t: Table)
    requires instance <= 1 && FittingContext(ContextOrder(instance), t)
    ensures var ie := MakeGroup(ContextOrder(instance), instance, t);
            && ie.Some? && Ready(ie.value)
            && ReadIe(true, r, ie.value) == Done(WithContext(r, instance, Selected(ContextOrder(instance), t)))
  {
    ContextInverts(instance);
    TableGroup(r, ContextOrder(instance), instance, t);
    ContextAdded(r, instance, t);
  }

  lemma TableGroup(r: Request, order: seq<Slot>, instance: byte, t: Table)
    requires instance <= 1 && FittingContext(order, t) && forall s :: s in order ==> Inverts(false, s)
    ensures var ie := MakeGroup(order, instance, t);
            && ie.Some? && Ready(ie.value)
            && ReadIe(true, r, ie.value) == AddContext(r, TargetOf(true, BEARER_CONTEXT, instance), map[] + Selected(order, t))
  {
    TableBack(false, Empty(), order, t);
    RunningIsSum(0, MakeAll(order, t).value);
    GroupDecodes(r, MakeAll(order, t).value, instance, map[] + Selected(order, t));
  }

  function WithContexts(r: Request, instance: byte, ts: seq<Table>): Request
    decreases |ts|
  {
    if ts == [] then r else WithContexts(WithContext(r, instance, ts[0]), instance, ts[1..])
  }

  lemma {:induction false} ContextsBack(r: Request, instance: byte, ts: seq<Table>)
    requires instance <= 1 && FittingContexts(ContextOrder(instance), ts)
    ensures var ies, order := MakeGroups(ContextOrder(instance), instance, ts), ContextOrder(instance);
            && ies.Some? && AllReady(ies.value)
            && Read(true, r, ies.value) == Done(WithContexts(r, instance, SelectedAll(order, ts)))
    decreases |ts|
  {
    if ts != [] {
      var order := ContextOrder(instance);
      var r' := WithContext(r, instance, Selected(order, ts[0]));
      ContextBack(r, instance, ts[0]);
      ContextsBack(r', instance, ts[1..]);
      Consed(true, r, MakeGroup(order, instance, ts[0]).value, MakeGroups(order, instance, ts[1..]).value, r');
      assert SelectedAll(order, ts)[1..] == SelectedAll(order, ts[1..]);
    }
  }

  lemma {:induction false} AllCreated(r: Request, ts: seq<Table>)
    ensures WithContexts(r, 0, ts) == r.(hasCreated := r.hasCreated || ts != [], created := r.created + ts)
    decreases |ts|
  {
    if ts == [] {
      assert r.created + ts == r.created;
    } else {
      AllCreated(WithContext(r, 0, ts[0]), ts[1..]);
      assert r.created + [ts[0]] + ts[1..] == r.created + ts;
    }
  }

  lemma {:induction false} AllRemoved(r: Request, ts: seq<Table>)
    ensures WithContexts(r, 1, ts) == r.(hasRemoved := r.hasRemoved || ts != [], removed := r.removed + ts)
    decreases |ts|
  {
    if ts == [] {
      assert r.removed + ts == r.removed;
    } else {
      AllRemoved(WithContext(r, 1, ts[0]), ts[1..]);
      assert r.removed + [ts[0]] + ts[1..] == r.removed + ts;
    }
  }

  // ---- the whole request ----

  /** What the builder's lists select of a request. */
  function Listed(r: Request): Request {
    var created := if r.hasCreated then SelectedAll(CREATED, r.created) else [];
    var removed := if r.hasRemoved then SelectedAll(REMOVED, r.removed) else [];
    Request(Selected(FIRST, r.fields) + Selected(LAST, r.fields), created != [], created, removed != [], removed)
  }

  /** Every field written fits, every context written says something, and the message is not too long. */
  predicate ListFits(r: Request) {
    && FittingTable(FIRST, r.fields) && FittingTable(LAST, r.fields)
    && (r.hasCreated ==> FittingContexts(CREATED, r.created))
    && (r.hasRemoved ==> FittingContexts(REMOVED, r.removed))
    && var ies := ElementsOf(r); ies.Some? ==> Size(ies.value) + 8 < 0x1_0000
  }

  lemma FieldsBack(r: Request, order: seq<Slot>, t: Table)
    requires FittingTable(order, t) && (order == FIRST || order == LAST)
    ensures var ies := MakeAll(order, t);
            && ies.Some? && AllReady(ies.value)
            && Read(true, r, ies.value) == Done(r.(fields := r.fields + Selected(order, t)))
  {
    forall s | s in order ensures Inverts(true, s) {
      BuilderInverts(s);
    }
    TableBack(true, r, order, t);
  }

  lemma CreatedBack(r: Request, has: bool, ts: seq<Table>)
    requires has ==> FittingContexts(CREATED, ts)
    ensures var ies := if has then MakeGroups(CREATED, 0, ts) else Some([]);
            var kept := if has then SelectedAll(CREATED, ts) else [];
            && ies.Some? && AllReady(ies.value)
            && Read(true, r, ies.value) == Done(r.(hasCreated := r.hasCreated || kept != [], created := r.created + kept))
  {
    if has {
      ContextsBack(r, 0, ts);
      AllCreated(r, SelectedAll(CREATED, ts));
    } else {
      assert r.created + [] == r.created;
    }
  }

  lemma RemovedBack(r: Request, has: bool, ts: seq<Table>)
    requires has ==> FittingContexts(REMOVED, ts)
    ensures var ies := if has then MakeGroups(REMOVED, 1, ts) else Some([]);
            var kept := if has then SelectedAll(REMOVED, ts) else [];
            && ies.Some? && AllReady(ies.value)
            && Read(true, r, ies.value) == Done(r.(hasRemoved := r.hasRemoved || kept != [], removed := r.removed + kept))
  {
    if has {
      ContextsBack(r, 1, ts);
      AllRemoved(r, SelectedAll(REMOVED, ts));
    } else {
      assert r.removed + [] == r.removed;
    }
  }

  lemma GroupsBack(r: Request, q: Request)
    requires q.hasCreated ==> FittingContexts(CREATED, q.created)
    requires q.hasRemoved ==> FittingContexts(REMOVED, q.removed)
    requires r.created == [] && r.removed == [] && !r.hasCreated && !r.hasRemoved
    ensures Groups(q).Some? && AllReady(Groups(q).value)
    ensures var t := Listed(q);
            Read(true, r, Groups(q).value)
            == Done(r.(hasCreated := t.hasCreated, created := t.created, hasRemoved := t.hasRemoved, removed := t.removed))
  {
    var t := Listed(q);
    CreatedBack(r, q.hasCreated, q.created);
    var r' := r.(hasCreated := t.hasCreated, created := t.created);
    assert [] + t.created == t.created && [] + t.removed == t.removed;
    RemovedBack(r', q.hasRemoved, q.removed);
    var a := if q.hasCreated then MakeGroups(CREATED, 0, q.created) else Some([]);
    var b := if q.hasRemoved then MakeGroups(REMOVED, 1, q.removed) else Some([]);
    ReadAppend(true, r, a.value, b.value);
  }

  /** The three parts of a message, one after the other. */
  lemma InSequence(r: Request, a: seq<Ie>, b: seq<Ie>, c: seq<Ie>, r1: Request, r2: Request, r3: Request)
    requires AllReady(a) && AllReady(b) && AllReady(c)
    requires Read(true, r, a) == Done(r1) && Read(true, r1, b) == Done(r2) && Read(true, r2, c) == Done(r3)
    ensures AllReady(a + (b + c)) && Read(true, r, a + (b + c)) == Done(r3)
  {
    ReadAppend(true, r1, b, c);
    ReadAppend(true, r, a, b + c);
  }

  lemma Assembled(q: Request, a: Option<seq<Ie>>, g: Option<seq<Ie>>, b: Option<seq<Ie>>)
    requires a == MakeAll(FIRST, q.fields) && g == Groups(q) && b == MakeAll(LAST, q.fields)
    requires a.Some? && g.Some? && b.Some?
    ensures ElementsOf(q) == Some(a.value + (g.value + b.value))
  {
  }

  /** The request after its first fields, after its contexts, and whole. */
  function AfterFirst(q: Request): Request {
    Empty().(fields := map[] + Selected(FIRST, q.fields))
  }

  function AfterGroups(q: Request): Request {
    var t := Listed(q);
    AfterFirst(q).(hasCreated := t.hasCreated, created := t.created, hasRemoved := t.hasRemoved, removed := t.removed)
  }

  lemma AfterAll(q: Request)
    ensures AfterGroups(q).(fields := AfterGroups(q).fields + Selected(LAST, q.fields)) == Listed(q)
  {
    assert map[] + Selected(FIRST, q.fields) == Selected(FIRST, q.fields);
  }

  lemma FirstBack(q: Request, a: Option<seq<Ie>>)
    requires FittingTable(FIRST, q.fields) && a == MakeAll(FIRST, q.fields)
    ensures a.Some? && AllReady(a.value) && Read(true, Empty(), a.value) == Done(AfterFirst(q))
  {
    FieldsBack(Empty(), FIRST, q.fields);
  }

  lemma LastBack(q: Request, b: Option<seq<Ie>>)
    requires FittingTable(LAST, q.fields) && b == MakeAll(LAST, q.fields)
    ensures b.Some? && AllReady(b.value) && Read(true, AfterGroups(q), b.value) == Done(Listed(q))
  {
    FieldsBack(AfterGroups(q), LAST, q.fields);
    AfterAll(q);
  }

  lemma ElementsRead(q: Request)
    requires ListFits(q)
    ensures ElementsOf(q).Some? && AllReady(ElementsOf(q).value)
    ensures Read(true, Empty(), ElementsOf(q).value) == Done(Listed(q))
  {
    var a, g, b := MakeAll(FIRST, q.fields), Groups(q), MakeAll(LAST, q.fields);
    FirstBack(q, a);
    GroupsBack(AfterFirst(q), q);
    LastBack(q, b);
    InSequence(Empty(), a.value, g.value, b.value, AfterFirst(q), AfterGroups(q), Listed(q));
    Assembled(q, a, g, b);
  }

  lemma {:induction false} Added(m: Msg, ies: seq<Ie>)
    ensures AddAll(m, ies) == m.(ies := m.ies + ies, messageLength := (m.messageLength + Size(ies)) % 0x1_0000)
    decreases |ies|
  {
    if ies == [] {
      assert m.ies + ies == m.ies;
    } else {
      Added(AddIe(m, ies[0]), ies[1..]);
      assert m.ies + [ies[0]] + ies[1..] == m.ies + ies;
      Wrap(m.messageLength + 4 + ies[0].length, Size(ies[1..]));
    }
  }

  /** The message as `send_initial_message` sends it. */
  function Addressed(m: Msg, teid: u32, n: nat): Msg {
    SetSequenceNumber(SetTeid(m, teid), n)
  }

  lemma FlagsOfRequest()
    ensures !HasTeid(VERSION_2) && WithTeid(VERSION_2) == 72
    ensures HasTeid(72) && !HasPriority(72)
  {
  }

  lemma AddressedIs(ies: seq<Ie>, size: nat, teid: u32, n: nat)
    requires size + 8 < 0x1_0000
    ensures Addressed(Msg(VERSION_2, CREATE_SESSION_REQUEST, 4 + size, 0, 0, 0, ies), teid, n)
         == Msg(72, CREATE_SESSION_REQUEST, 8 + size, teid, n % 0x100_0000, 0, ies)
  {
    FlagsOfRequest();
  }

  lemma HeaderWell(ies: seq<Ie>, size: nat, teid: u32, n: nat)
    requires WellFormedAll(ies) && Size(ies) == size && size + 8 < 0x1_0000 && n < 0x100_0000
    ensures WellFormedMsg(Msg(72, CREATE_SESSION_REQUEST, 8 + size, teid, n, 0, ies))
  {
    FlagsOfRequest();
  }

  lemma AddedShort(ies: seq<Ie>, size: nat)
    requires Size(ies) == size && size + 8 < 0x1_0000
    ensures AddAll(NewMsg(CREATE_SESSION_REQUEST), ies) == Msg(VERSION_2, CREATE_SESSION_REQUEST, 4 + size, 0, 0, 0, ies)
  {
    Added(NewMsg(CREATE_SESSION_REQUEST), ies);
    assert [] + ies == ies;
  }

  lemma BuiltAs(ies: seq<Ie>, teid: u32, n: nat)
    requires Size(ies) + 8 < 0x1_0000
    ensures Addressed(AddAll(NewMsg(CREATE_SESSION_REQUEST), ies), teid, n)
         == Msg(72, CREATE_SESSION_REQUEST, 8 + Size(ies), teid, n % 0x100_0000, 0, ies)
  {
    AddedShort(ies, Size(ies));
    AddressedIs(ies, Size(ies), teid, n);
  }

  /** The message as its first dump leaves it: what is written is the same, and it is well formed. */
  function AsWritten(m: Msg): Msg
    requires DumpableAll(m.ies)
  {
    m.(ies := SettledAll(m.ies))
  }

  lemma WrittenWell(m: Msg, ies: seq<Ie>, teid: u32, n: nat)
    requires AllReady(ies) && Size(ies) + 8 < 0x1_0000
    requires m == Msg(72, CREATE_SESSION_REQUEST, 8 + Size(ies), teid, n % 0x100_0000, 0, ies)
    ensures WellFormedMsg(AsWritten(m))
  {
    HeaderWell(SettledAll(ies), Size(ies), teid, n % 0x100_0000);
  }

  lemma WrittenSame(m: Msg)
    requires DumpableAll(m.ies)
    ensures DumpMsg(AsWritten(m)) == DumpMsg(m)
  {
    DumpSettledAll(m.ies);
  }

  /** Build, address, write, read, decode: what comes back is what the builder writes of the request. */
  lemma ListedRoundTrip(q: Request, teid: u32, n: nat)
    requires ListFits(q)
    ensures Build(q).Some?
    ensures var m := Addressed(Build(q).value, teid, n);
            && m.messageType == 32 && m.teid == teid && m.sequenceNumber == n % 0x100_0000
            && DumpableAll(m.ies) && LoadMsg(DumpMsg(m)) == Accepted(AsWritten(m), [])
            && Decode(true, Empty(), AsWritten(m).ies) == Done(Listed(q))
  {
    ElementsRead(q);
    var ies := ElementsOf(q).value;
    var m := Addressed(Build(q).value, teid, n);
    BuiltAs(ies, teid, n);
    WrittenWell(m, ies, teid, n);
    WrittenSame(m);
    MsgRoundTrip(AsWritten(m));
  }
}
