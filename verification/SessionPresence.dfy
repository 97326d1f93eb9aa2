/** The presence masks of a Create Session Request and of its bearer contexts, bit by bit: which fields
    the builder writes, in which order, and what comes back of a request. */
module SessionPresence {
  import opened Octets
  import opened Elements
  import opened Messages
  import opened MessageRoundTrip
  import opened CoreTypes
  import opened Conversions
  import opened SessionRequest
  import opened SessionRoundTrip

  /** The bit of the request's mask that stands for a field, by element type and instance. */
  function BitOf(s: Slot): Option<nat> {
    if s == Slot(1, 0) then Some(0)         // IMSI
    else if s == Slot(76, 0) then Some(1)   // MSISDN
    else if s == Slot(75, 0) then Some(2)   // MEI
    else if s == Slot(86, 0) then Some(3)   // ULI
    else if s == Slot(83, 0) then Some(4)   // serving network
    else if s == Slot(82, 0) then Some(5)   // RAT type
    else if s == Slot(77, 0) then Some(6)   // indication flags
    else if s == Slot(87, 0) then Some(7)   // sender F-TEID for control plane
    else if s == Slot(87, 1) then Some(8)   // PGW S5/S8 address for control plane
    else if s == Slot(71, 0) then Some(9)   // APN
    else if s == Slot(128, 0) then Some(10) // selection mode
    else if s == Slot(99, 0) then Some(11)  // PDN type
    else if s == Slot(79, 0) then Some(12)  // PAA
    else if s == Slot(127, 0) then Some(13) // APN restriction
    else if s == Slot(72, 0) then Some(14)  // APN-AMBR
    else if s == Slot(73, 0) then Some(15)  // linked EPS bearer id
    else if s == Slot(78, 0) then Some(17)  // PCO
    else if s == Slot(3, 0) then Some(21)   // recovery
    else if s == Slot(132, 0) then Some(22) // MME FQ-CSID
    else if s == Slot(132, 1) then Some(23) // SGW FQ-CSID
    else if s == Slot(132, 2) then Some(24) // ePDG FQ-CSID
    else if s == Slot(132, 3) then Some(25) // TWAN FQ-CSID
    else if s == Slot(114, 0) then Some(26) // UE time zone
    else None
  }

  /** The builder tests the bits of all fields but those of recovery and of the ePDG's and TWAN's FQ-CSID. */
  predicate Written(s: Slot) {
    BitOf(s).Some? && BitOf(s).value != 21 && BitOf(s).value != 24 && BitOf(s).value != 25
  }

  /** The same for a bearer context to be created. */
  function CreatedBit(s: Slot): Option<nat> {
    if s == Slot(73, 0) then Some(0)        // EPS bearer id
    else if s == Slot(84, 0) then Some(1)   // TFT
    else if s.kind == 87 && s.index <= 6 then Some(2 + s.index) // F-TEIDs from S1-U eNodeB to S2a-U TWAN
    else if s == Slot(80, 0) then Some(9)   // bearer level QoS
    else if s == Slot(87, 7) then Some(10)  // S11-U MME F-TEID
    else None
  }

  /** Its TFT is not written. */
  predicate WrittenCreated(s: Slot) {
    CreatedBit(s).Some? && CreatedBit(s).value != 1
  }

  /** And for one to be removed. */
  function RemovedBit(s: Slot): Option<nat> {
    if s == Slot(73, 0) then Some(0)      // EPS bearer id
    else if s == Slot(87, 0) then Some(1) // S4-U SGSN F-TEID
    else None
  }

  // ---- the builder's lists are the masks ----

  lemma ListsAreMasks(s: Slot)
    ensures s in FIRST || s in LAST <==> Written(s)
    ensures s in CREATED <==> WrittenCreated(s)
    ensures s in CREATED_FIELDS <==> CreatedBit(s).Some?
    ensures s in REMOVED <==> RemovedBit(s).Some?
  {
  }

  function WrittenOf(t: Table): Table {
    map s | s in t && Written(s) :: t[s]
  }

  function WrittenOfCreated(t: Table): Table {
    map s | s in t && WrittenCreated(s) :: t[s]
  }

  function WrittenOfRemoved(t: Table): Table {
    map s | s in t && RemovedBit(s).Some? :: t[s]
  }

  /** What the builder writes of a request: the fields whose bits it tests, and the contexts in order. */
  function Transmitted(q: Request): Request {
    var created := if q.hasCreated then seq(|q.created|, i requires 0 <= i < |q.created| => WrittenOfCreated(q.created[i])) else [];
    var removed := if q.hasRemoved then seq(|q.removed|, i requires 0 <= i < |q.removed| => WrittenOfRemoved(q.removed[i])) else [];
    Request(WrittenOf(q.fields), created != [], created, removed != [], removed)
  }

  lemma SelectedFields(t: Table)
    ensures Selected(FIRST, t) + Selected(LAST, t) == WrittenOf(t)
  {
    forall s | s in t ensures s in FIRST || s in LAST <==> Written(s) {
      ListsAreMasks(s);
    }
  }

  lemma SelectedCreated(t: Table)
    ensures Selected(CREATED, t) == WrittenOfCreated(t)
  {
    forall s | s in t ensures s in CREATED <==> WrittenCreated(s) {
      ListsAreMasks(s);
    }
  }

  lemma SelectedRemoved(t: Table)
    ensures Selected(REMOVED, t) == WrittenOfRemoved(t)
  {
    forall s | s in t ensures s in REMOVED <==> RemovedBit(s).Some? {
      ListsAreMasks(s);
    }
  }

  lemma {:induction false} SelectedEach(order: seq<Slot>, ts: seq<Table>)
    ensures |SelectedAll(order, ts)| == |ts|
    ensures forall i :: 0 <= i < |ts| ==> SelectedAll(order, ts)[i] == Selected(order, ts[i])
  {
    if ts != [] {
      SelectedEach(order, ts[1..]);
    }
  }

  lemma ListedIsTransmitted(q: Request)
    ensures Listed(q) == Transmitted(q)
  {
    SelectedFields(q.fields);
    SelectedEach(CREATED, q.created);
    SelectedEach(REMOVED, q.removed);
    forall i | 0 <= i < |q.created| ensures SelectedAll(CREATED, q.created)[i] == WrittenOfCreated(q.created[i]) {
      SelectedCreated(q.created[i]);
    }
    forall i | 0 <= i < |q.removed| ensures SelectedAll(REMOVED, q.removed)[i] == WrittenOfRemoved(q.removed[i]) {
      SelectedRemoved(q.removed[i]);
    }
    assert q.hasCreated ==> Transmitted(q).created == SelectedAll(CREATED, q.created);
    assert q.hasRemoved ==> Transmitted(q).removed == SelectedAll(REMOVED, q.removed);
  }

  // ---- what comes back ----

  /** Every field that is written fits. */
  predicate FittingFields(t: Table) {
    forall s :: s in t && Written(s) ==> Fits(s.kind, t[s])
  }

  /** So do those of a context, and there is one. */
  predicate FittingCreated(t: Table) {
    && (forall s :: s in t && WrittenCreated(s) ==> Fits(s.kind, t[s]))
    && exists s :: s in t && WrittenCreated(s)
  }

  predicate FittingRemoved(t: Table) {
    && (forall s :: s in t && RemovedBit(s).Some? ==> Fits(s.kind, t[s]))
    && exists s :: s in t && RemovedBit(s).Some?
  }

  /** What is written fits, and all of it fits the 16-bit length of a message. */
  predicate Fitting(q: Request) {
    && FittingFields(q.fields)
    && (q.hasCreated ==> forall i :: 0 <= i < |q.created| ==> FittingCreated(q.created[i]))
    && (q.hasRemoved ==> forall i :: 0 <= i < |q.removed| ==> FittingRemoved(q.removed[i]))
    && var ies := ElementsOf(q); ies.Some? ==> Size(ies.value) + 8 < 0x1_0000
  }

  /** The elements of a context are short. */
  lemma ShortElement(slot: Slot, core: Core)
    requires Fits(slot.kind, core) && slot.index < 16 && (slot.kind == 73 || slot.kind == 87 || slot.kind == 80)
    ensures MakeIe(slot, core).Some? && MakeIe(slot, core).value.length <= 25
  {
  }

  predicate ShortOrder(order: seq<Slot>) {
    forall s :: s in order ==> s.index < 16 && (s.kind == 73 || s.kind == 87 || s.kind == 80)
  }

  lemma {:induction false} ShortGroup(order: seq<Slot>, t: Table)
    requires ShortOrder(order) && forall s :: s in order && s in t ==> Fits(s.kind, t[s])
    ensures var ies := MakeAll(order, t);
            && ies.Some? && Size(ies.value) <= 29 * |order|
            && ((exists s :: s in order && s in t) ==> ies.value != [])
    decreases |order|
  {
    if order != [] {
      var more := order[1..];
      assert forall s :: s in more ==> s in order;
      ShortGroup(more, t);
      if order[0] in t {
        ShortElement(order[0], t[order[0]]);
        ConsSize(MakeIe(order[0], t[order[0]]).value, MakeAll(more, t).value);
      } else {
        assert forall s :: s in order && s in t ==> s in more;
      }
    }
  }

  lemma ConsSize(ie: Ie, more: seq<Ie>)
    ensures Size([ie] + more) == 4 + ie.length + Size(more)
  {
    assert ([ie] + more)[1..] == more;
  }

  lemma OrderFits(order: seq<Slot>, t: Table)
    requires ShortOrder(order) && |order| < 1000 && FittingTable(order, t)
    requires exists s :: s in order && s in t
    ensures FittingContext(order, t)
  {
    ShortGroup(order, t);
  }

  lemma ShortOrders()
    ensures ShortOrder(CREATED) && ShortOrder(REMOVED)
  {
  }

  lemma CreatedFits(t: Table)
    requires FittingCreated(t)
    ensures FittingContext(CREATED, t)
  {
    forall s ensures s in CREATED <==> WrittenCreated(s) {
      ListsAreMasks(s);
    }
    ShortOrders();
    OrderFits(CREATED, t);
  }

  lemma RemovedFits(t: Table)
    requires FittingRemoved(t)
    ensures FittingContext(REMOVED, t)
  {
    forall s ensures s in REMOVED <==> RemovedBit(s).Some? {
      ListsAreMasks(s);
    }
    ShortOrders();
    OrderFits(REMOVED, t);
  }

  lemma FieldsFit(t: Table)
    requires FittingFields(t)
    ensures FittingTable(FIRST, t) && FittingTable(LAST, t)
  {
    forall s ensures s in FIRST || s in LAST <==> Written(s) {
      ListsAreMasks(s);
    }
  }

  lemma FittingLists(q: Request)
    requires Fitting(q)
    ensures ListFits(q)
  {
    FieldsFit(q.fields);
    if q.hasCreated {
      forall i | 0 <= i < |q.created| ensures FittingContext(CREATED, q.created[i]) {
        CreatedFits(q.created[i]);
      }
    }
    if q.hasRemoved {
      forall i | 0 <= i < |q.removed| ensures FittingContext(REMOVED, q.removed[i]) {
        RemovedFits(q.removed[i]);
      }
    }
  }

  /** Build, address, write, read, decode: what comes back are the fields whose bits the builder tests, with
      their values, and the contexts in order, each with the fields whose bits it tests. */
  lemma RequestRoundTrip(q: Request, teid: u32, n: nat)
    requires Fitting(q)
    ensures Build(q).Some?
    ensures var m := Addressed(Build(q).value, teid, n);
            && m.messageType == 32 && m.teid == teid && m.sequenceNumber == n % 0x100_0000
            && DumpableAll(m.ies) && LoadMsg(DumpMsg(m)) == Accepted(AsWritten(m), [])
            && Decode(true, Empty(), AsWritten(m).ies) == Done(Transmitted(q))
  {
    FittingLists(q);
    ListedRoundTrip(q, teid, n);
    ListedIsTransmitted(q);
  }

  // ---- when nothing is left out ----

  /** The presence masks name only what the builder writes. */
  predicate Encodable(q: Request) {
    && (forall s :: s in q.fields ==> Written(s))
    && (q.hasCreated <==> q.created != []) && (q.hasRemoved <==> q.removed != [])
    && (forall i :: 0 <= i < |q.created| ==> forall s :: s in q.created[i] ==> WrittenCreated(s))
    && (forall i :: 0 <= i < |q.removed| ==> forall s :: s in q.removed[i] ==> RemovedBit(s).Some?)
  }

  lemma AllWritten(t: Table)
    ensures WrittenOf(t) == t <==> forall s :: s in t ==> Written(s)
    ensures WrittenOfCreated(t) == t <==> forall s :: s in t ==> WrittenCreated(s)
    ensures WrittenOfRemoved(t) == t <==> forall s :: s in t ==> RemovedBit(s).Some?
  {
    if WrittenOf(t) == t {
      assert forall s :: s in t ==> s in WrittenOf(t);
    }
    if WrittenOfCreated(t) == t {
      assert forall s :: s in t ==> s in WrittenOfCreated(t);
    }
    if WrittenOfRemoved(t) == t {
      assert forall s :: s in t ==> s in WrittenOfRemoved(t);
    }
  }

  lemma ContextsWritten(q: Request)
    ensures q.hasCreated ==> (Transmitted(q).created == q.created
                              <==> forall i :: 0 <= i < |q.created| ==> WrittenOfCreated(q.created[i]) == q.created[i])
    ensures q.hasRemoved ==> (Transmitted(q).removed == q.removed
                              <==> forall i :: 0 <= i < |q.removed| ==> WrittenOfRemoved(q.removed[i]) == q.removed[i])
  {
    var t := Transmitted(q);
    if q.hasCreated && t.created == q.created {
      forall i | 0 <= i < |q.created| ensures WrittenOfCreated(q.created[i]) == q.created[i] {
        assert t.created[i] == q.created[i];
      }
    }
    if q.hasRemoved && t.removed == q.removed {
      forall i | 0 <= i < |q.removed| ensures WrittenOfRemoved(q.removed[i]) == q.removed[i] {
        assert t.removed[i] == q.removed[i];
      }
    }
  }

  /** The request comes back unchanged if and only if its presence masks name only what is written. */
  lemma NothingLeftOut(q: Request)
    ensures Transmitted(q) == q <==> Encodable(q)
  {
    AllWritten(q.fields);
    ContextsWritten(q);
    forall i | 0 <= i < |q.created|
      ensures WrittenOfCreated(q.created[i]) == q.created[i] <==> forall s :: s in q.created[i] ==> WrittenCreated(s)
    {
      AllWritten(q.created[i]);
    }
    forall i | 0 <= i < |q.removed|
      ensures WrittenOfRemoved(q.removed[i]) == q.removed[i] <==> forall s :: s in q.removed[i] ==> RemovedBit(s).Some?
    {
      AllWritten(q.removed[i]);
    }
  }

  // ---- the order on the wire ----

  function SlotOf(ie: Ie): Slot {
    Slot(ie.kind, Instance(ie))
  }

  /** Elements in ascending order of a rank between lo and hi; only bearer contexts share one. */
  ghost predicate InOrder(rank: Slot -> nat, ies: seq<Ie>, lo: nat, hi: nat) {
    && (forall i :: 0 <= i < |ies| ==> lo <= rank(SlotOf(ies[i])) <= hi)
    && (forall i, j :: 0 <= i < j < |ies| ==>
          rank(SlotOf(ies[i])) < rank(SlotOf(ies[j])) || (rank(SlotOf(ies[i])) == rank(SlotOf(ies[j])) && ies[i].kind == 93))
  }

  /** Slots in strictly ascending order. */
  ghost predicate Ascending(rank: Slot -> nat, order: seq<Slot>, lo: nat, hi: nat) {
    && (forall i :: 0 <= i < |order| ==> order[i].index < 16 && lo <= rank(order[i]) <= hi)
    && (forall i, j :: 0 <= i < j < |order| ==> rank(order[i]) < rank(order[j]))
  }

  lemma OrderAppend(rank: Slot -> nat, a: seq<Ie>, b: seq<Ie>, lo: nat, mid: nat, next: nat, hi: nat)
    requires InOrder(rank, a, lo, mid) && InOrder(rank, b, next, hi) && lo <= mid < next <= hi
    ensures InOrder(rank, a + b, lo, hi)
  {
  }

  lemma MadeSlot(slot: Slot, core: Core)
    requires slot.index < 16 && MakeIe(slot, core).Some?
    ensures SlotOf(MakeIe(slot, core).value) == slot
  {
  }

  lemma {:induction false} MadeInOrder(rank: Slot -> nat, order: seq<Slot>, t: Table, lo: nat, hi: nat)
    requires Ascending(rank, order, lo, hi) && MakeAll(order, t).Some?
    ensures InOrder(rank, MakeAll(order, t).value, lo, hi)
    decreases |order|
  {
    if order != [] {
      var more := order[1..];
      if order[0] in t {
        var ie, r := MakeIe(order[0], t[order[0]]).value, rank(order[0]);
        MadeSlot(order[0], t[order[0]]);
        assert Ascending(rank, more, r + 1, hi);
        MadeInOrder(rank, more, t, r + 1, hi);
        FirstInOrder(rank, ie, MakeAll(more, t).value, lo, hi);
      } else {
        assert Ascending(rank, more, lo, hi);
        MadeInOrder(rank, more, t, lo, hi);
      }
    }
  }

  lemma FirstInOrder(rank: Slot -> nat, ie: Ie, more: seq<Ie>, lo: nat, hi: nat)
    requires lo <= rank(SlotOf(ie)) <= hi && InOrder(rank, more, rank(SlotOf(ie)) + 1, hi)
    ensures InOrder(rank, [ie] + more, lo, hi)
  {
  }

  lemma {:induction false} GroupsInOrder(rank: Slot -> nat, order: seq<Slot>, instance: byte, ts: seq<Table>, r: nat)
    requires instance < 16 && MakeGroups(order, instance, ts).Some? && rank(Slot(93, instance)) == r
    ensures InOrder(rank, MakeGroups(order, instance, ts).value, r, r)
    ensures forall i :: 0 <= i < |MakeGroups(order, instance, ts).value| ==>
              var ie := MakeGroups(order, instance, ts).value[i];
              |MakeGroups(order, instance, ts).value| == |ts| && ie.body.Group? && MakeAll(order, ts[i]) == Some(ie.body.ies)
    decreases |ts|
  {
    if ts != [] {
      GroupsInOrder(rank, order, instance, ts[1..], r);
      var first, more := MakeGroup(order, instance, ts[0]).value, MakeGroups(order, instance, ts[1..]).value;
      assert SlotOf(first) == Slot(93, instance);
      assert MakeGroups(order, instance, ts).value == [first] + more;
    }
  }

  /** Where an element of a request stands: at the bit of its field, or of the list its context is in. */
  function Place(s: Slot): nat {
    if s.kind == 93 then 18 + s.index else if BitOf(s).Some? then BitOf(s).value else 100
  }

  function CreatedPlace(s: Slot): nat {
    if CreatedBit(s).Some? then CreatedBit(s).value else 100
  }

  function RemovedPlace(s: Slot): nat {
    if RemovedBit(s).Some? then RemovedBit(s).value else 100
  }

  lemma FirstPlaces(i: nat)
    requires i < |FIRST|
    ensures |FIRST| == 17 && FIRST[i].index < 16 && Place(FIRST[i]) == if i < 16 then i else 17
  {
  }

  lemma LastPlaces(i: nat)
    requires i < |LAST|
    ensures |LAST| == 3 && LAST[i].index < 16 && Place(LAST[i]) == if i < 2 then 22 + i else 26
  {
  }

  lemma CreatedPlaces(i: nat)
    requires i < |CREATED|
    ensures |CREATED| == 10 && CREATED[i].index < 16 && CreatedPlace(CREATED[i]) == if i == 0 then 0 else i + 1
  {
  }

  lemma ListsAscend()
    ensures Ascending(Place, FIRST, 0, 17) && Ascending(Place, LAST, 22, 26)
    ensures Ascending(CreatedPlace, CREATED, 0, 10) && Ascending(RemovedPlace, REMOVED, 0, 1)
  {
    forall i | 0 <= i < |FIRST| ensures FIRST[i].index < 16 && Place(FIRST[i]) == if i < 16 then i else 17 {
      FirstPlaces(i);
    }
    forall i | 0 <= i < |LAST| ensures LAST[i].index < 16 && Place(LAST[i]) == if i < 2 then 22 + i else 26 {
      LastPlaces(i);
    }
    forall i | 0 <= i < |CREATED| ensures CREATED[i].index < 16 && CreatedPlace(CREATED[i]) == if i == 0 then 0 else i + 1 {
      CreatedPlaces(i);
    }
    FirstPlaces(0);
  }

  lemma FourInOrder(rank: Slot -> nat, f: seq<Ie>, a: seq<Ie>, b: seq<Ie>, l: seq<Ie>)
    requires InOrder(rank, f, 0, 17) && InOrder(rank, a, 18, 18) && InOrder(rank, b, 19, 19) && InOrder(rank, l, 22, 26)
    ensures InOrder(rank, f + (a + b + l), 0, 26)
  {
    OrderAppend(rank, a, b, 18, 18, 19, 19);
    OrderAppend(rank, a + b, l, 18, 19, 22, 26);
    OrderAppend(rank, f, a + b + l, 0, 17, 18, 26);
  }

  /** The elements of a built request stand in the order of the bits of its mask, the contexts where the bits
      of their lists are. */
  lemma WrittenInOrder(q: Request)
    requires ElementsOf(q).Some?
    ensures InOrder(Place, ElementsOf(q).value, 0, 26)
  {
    var a := if q.hasCreated then MakeGroups(CREATED, 0, q.created) else Some([]);
    var b := if q.hasRemoved then MakeGroups(REMOVED, 1, q.removed) else Some([]);
    PartsInOrder(q, a, b);
    FourInOrder(Place, MakeAll(FIRST, q.fields).value, a.value, b.value, MakeAll(LAST, q.fields).value);
  }

  lemma PartsInOrder(q: Request, a: Option<seq<Ie>>, b: Option<seq<Ie>>)
    requires MakeAll(FIRST, q.fields).Some? && MakeAll(LAST, q.fields).Some? && a.Some? && b.Some?
    requires a == if q.hasCreated then MakeGroups(CREATED, 0, q.created) else Some([])
    requires b == if q.hasRemoved then MakeGroups(REMOVED, 1, q.removed) else Some([])
    ensures InOrder(Place, MakeAll(FIRST, q.fields).value, 0, 17) && InOrder(Place, MakeAll(LAST, q.fields).value, 22, 26)
    ensures InOrder(Place, a.value, 18, 18) && InOrder(Place, b.value, 19, 19)
  {
    ListsAscend();
    MadeInOrder(Place, FIRST, q.fields, 0, 17);
    MadeInOrder(Place, LAST, q.fields, 22, 26);
    if q.hasCreated {
      GroupsInOrder(Place, CREATED, 0, q.created, 18);
    }
    if q.hasRemoved {
      GroupsInOrder(Place, REMOVED, 1, q.removed, 19);
    }
  }

  /** So do the elements of every context. */
  lemma ContextInOrder(t: Table)
    ensures MakeAll(CREATED, t).Some? ==> InOrder(CreatedPlace, MakeAll(CREATED, t).value, 0, 10)
    ensures MakeAll(REMOVED, t).Some? ==> InOrder(RemovedPlace, MakeAll(REMOVED, t).value, 0, 1)
  {
    ListsAscend();
    if MakeAll(CREATED, t).Some? {
      MadeInOrder(CreatedPlace, CREATED, t, 0, 10);
    }
    if MakeAll(REMOVED, t).Some? {
      MadeInOrder(RemovedPlace, REMOVED, t, 0, 1);
    }
  }

  // ---- the decoder, by number ----

  /** F-TEIDs and FQ-CSIDs are stored by instance, every other field whatever its instance is; what has no
      bit in the mask raises an exception. */
  lemma StoredByMask(r: Request, ie: Ie)
    requires !ie.body.Group? && ie.kind != 93
    ensures var indexed := ie.kind == 87 || ie.kind == 132;
            var s := Slot(ie.kind, if indexed then Instance(ie) else 0);
            DecodeIe(true, r, ie)
            == if BitOf(s).Some? then Done(r.(fields := r.fields[s := CoreOf(ie.kind, ie.body)]))
               else Raised(if indexed then BadInstance else IllegalIe)
  {
  }

  /** In a bearer context: twelve F-TEIDs by instance, and seven other kinds. */
  lemma StoredInContext(r: Request, ie: Ie)
    requires !ie.body.Group? && ie.kind != 93
    ensures DecodeIe(false, r, ie)
         == if ie.kind == 87 then
              (if Instance(ie) < 12 then Done(r.(fields := r.fields[Slot(87, Instance(ie)) := CoreOf(87, ie.body)]))
               else Raised(BadInstance))
            else if ie.kind in {2, 73, 78, 80, 84, 94, 97} then
              Done(r.(fields := r.fields[Slot(ie.kind, 0) := CoreOf(ie.kind, ie.body)]))
            else Raised(IllegalIe)
  {
  }

  /** A decoded context goes to the list of its instance, with the fields that have a bit there. */
  lemma ContextByMask(r: Request, ie: Ie, c: Request)
    requires ie.kind == 93 && ie.body.Group? && Decode(false, Empty(), ie.body.ies) == Done(c)
    ensures DecodeIe(true, r, ie)
         == if Instance(ie) == 0 then
              Done(r.(hasCreated := true, created := r.created + [map s | s in c.fields && CreatedBit(s).Some? :: c.fields[s]]))
            else if Instance(ie) == 1 then
              Done(r.(hasRemoved := true, removed := r.removed + [map s | s in c.fields && RemovedBit(s).Some? :: c.fields[s]]))
            else Raised(BadInstance)
  {
    forall s ensures (s in CREATED_FIELDS <==> CreatedBit(s).Some?) && (s in REMOVED <==> RemovedBit(s).Some?) {
      ListsAreMasks(s);
    }
    assert Selected(CREATED_FIELDS, c.fields) == map s | s in c.fields && CreatedBit(s).Some? :: c.fields[s];
    assert Selected(REMOVED, c.fields) == map s | s in c.fields && RemovedBit(s).Some? :: c.fields[s];
  }
}
