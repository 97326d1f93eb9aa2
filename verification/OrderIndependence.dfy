/** When the order of a message's elements does not matter to the decoded Create Session Request. */
module OrderIndependence {
  import opened Octets
  import opened Elements
  import opened CoreTypes
  import opened Conversions
  import opened SessionRequest
  import opened SessionRoundTrip

  /** Elements of one type and instance. */
  datatype Class = Class(kind: byte, instance: nat)

  function ClassOf(ie: Ie): Class {
    Class(ie.kind, Instance(ie))
  }

  function Front(a: seq<Ie>): seq<Ie>
    requires a != []
  {
    a[..|a| - 1]
  }

  function Final(a: seq<Ie>): Ie
    requires a != []
  {
    a[|a| - 1]
  }

  /** The elements of a class, in order. */
  function Of(a: seq<Ie>, c: Class): seq<Ie> {
    if a == [] then []
    else if ClassOf(Final(a)) == c then Of(Front(a), c) + [Final(a)]
    else Of(Front(a), c)
  }

  /** b is a with its elements permuted, those of equal type and instance keeping their order. */
  ghost predicate Rearranged(a: seq<Ie>, b: seq<Ie>) {
    forall c :: Of(a, c) == Of(b, c)
  }

  /** The field a class sets, if it sets one. */
  function FieldOfClass(c: Class): Option<Slot> {
    match TargetOf(true, c.kind, c.instance)
    case Field(slot) => Some(slot)
    case _ => None
  }

  function Means(ie: Ie): Core {
    CoreOf(ie.kind, ie.body)
  }

  // ---- what decoding a list comes to ----

  /** Whether decoding the element raises an exception does not depend on what was decoded before. */
  predicate Accepted(ie: Ie) {
    DecodeIe(true, Empty(), ie).Done?
  }

  predicate AllAccepted(a: seq<Ie>) {
    forall x :: x in a ==> Accepted(x)
  }

  /** The value the last element for a slot gives it. */
  function LastValue(a: seq<Ie>, slot: Slot): Option<Core> {
    if a == [] then None
    else if FieldOfClass(ClassOf(Final(a))) == Some(slot) then Some(Means(Final(a)))
    else LastValue(Front(a), slot)
  }

  function ContextOf(ie: Ie): Table {
    if !ie.body.Group? then map[]
    else
      match Decode(false, Empty(), ie.body.ies)
      case Raised(_) => map[]
      case Done(c) => Selected(if Instance(ie) == 0 then CREATED_FIELDS else REMOVED, c.fields)
  }

  function Contexts(group: seq<Ie>): seq<Table> {
    if group == [] then [] else Contexts(Front(group)) + [ContextOf(Final(group))]
  }

  ghost predicate Comes(a: seq<Ie>, r: Request) {
    && (forall slot :: slot in r.fields <==> LastValue(a, slot).Some?)
    && (forall slot :: slot in r.fields ==> LastValue(a, slot) == Some(r.fields[slot]))
    && r.created == Contexts(Of(a, Class(BEARER_CONTEXT, 0))) && r.hasCreated == (r.created != [])
    && r.removed == Contexts(Of(a, Class(BEARER_CONTEXT, 1))) && r.hasRemoved == (r.removed != [])
  }

  lemma AcceptedAnywhere(r: Request, ie: Ie)
    ensures DecodeIe(true, r, ie).Done? <==> Accepted(ie)
    ensures DecodeIe(true, r, ie).Raised? ==> DecodeIe(true, r, ie) == DecodeIe(true, Empty(), ie)
  {
  }

  lemma StepComes(a: seq<Ie>, x: Ie, r: Request)
    requires Comes(a, r) && Accepted(x)
    ensures DecodeIe(true, r, x).Done? && Comes(a + [x], DecodeIe(true, r, x).r)
  {
    AcceptedAnywhere(r, x);
    assert Front(a + [x]) == a && Final(a + [x]) == x;
  }

  lemma {:induction false} DecodeComes(a: seq<Ie>)
    requires AllAccepted(a)
    ensures Decode(true, Empty(), a).Done? && Comes(a, Decode(true, Empty(), a).r)
    decreases |a|
  {
    if a != [] {
      assert a == Front(a) + [Final(a)];
      DecodeComes(Front(a));
      var r := Decode(true, Empty(), Front(a)).r;
      StepComes(Front(a), Final(a), r);
      DecodeAppend(true, Empty(), Front(a), [Final(a)]);
      assert Decode(true, r, [Final(a)]) == DecodeIe(true, r, Final(a));
    }
  }

  lemma {:induction false} DoneMeansAccepted(r: Request, a: seq<Ie>)
    requires Decode(true, r, a).Done?
    ensures AllAccepted(a)
    decreases |a|
  {
    if a != [] {
      AcceptedAnywhere(r, a[0]);
      DoneMeansAccepted(DecodeIe(true, r, a[0]).r, a[1..]);
      assert a == [a[0]] + a[1..];
    }
  }

  // ---- classes ----

  lemma {:induction false} MemberOfClass(a: seq<Ie>, x: Ie)
    ensures x in a <==> x in Of(a, ClassOf(x))
    decreases |a|
  {
    if a != [] {
      assert a == Front(a) + [Final(a)];
      MemberOfClass(Front(a), x);
    }
  }

  lemma SameMembers(a: seq<Ie>, b: seq<Ie>, x: Ie)
    requires Rearranged(a, b) && x in b
    ensures x in a
  {
    MemberOfClass(a, x);
    MemberOfClass(b, x);
  }

  /** Rearranging never turns a request that decodes into one that raises an exception, or back. */
  lemma StillAccepted(a: seq<Ie>, b: seq<Ie>)
    requires Rearranged(a, b) && Decode(true, Empty(), a).Done?
    ensures AllAccepted(a) && AllAccepted(b) && Decode(true, Empty(), b).Done?
  {
    DoneMeansAccepted(Empty(), a);
    forall x | x in b ensures Accepted(x) {
      SameMembers(a, b, x);
    }
    DecodeComes(b);
  }

  /** The value of a slot is that of the last element of some class that sets it. */
  lemma {:induction false} LastValueOfClass(a: seq<Ie>, slot: Slot) returns (c: Class)
    requires LastValue(a, slot).Some?
    ensures FieldOfClass(c) == Some(slot) && Of(a, c) != [] && LastValue(a, slot) == Some(Means(Final(Of(a, c))))
    decreases |a|
  {
    c := ClassOf(Final(a));
    if FieldOfClass(c) != Some(slot) {
      c := LastValueOfClass(Front(a), slot);
    }
  }

  lemma {:induction false} ClassGivesValue(a: seq<Ie>, c: Class, slot: Slot)
    requires FieldOfClass(c) == Some(slot) && Of(a, c) != []
    ensures LastValue(a, slot).Some?
    decreases |a|
  {
    if FieldOfClass(ClassOf(Final(a))) != Some(slot) {
      ClassGivesValue(Front(a), c, slot);
    }
  }

  /** Classes that set the same field end with the same value. */
  ghost predicate Agree(a: seq<Ie>) {
    forall c, d :: Of(a, c) != [] && Of(a, d) != [] && FieldOfClass(c).Some? && FieldOfClass(c) == FieldOfClass(d)
                   ==> Means(Final(Of(a, c))) == Means(Final(Of(a, d)))
  }

  lemma SameValue(a: seq<Ie>, b: seq<Ie>, slot: Slot)
    requires Rearranged(a, b) && Agree(a)
    ensures LastValue(a, slot) == LastValue(b, slot)
  {
    if LastValue(a, slot).Some? {
      var c := LastValueOfClass(a, slot);
      ClassGivesValue(b, c, slot);
      var d := LastValueOfClass(b, slot);
      assert Of(a, d) == Of(b, d);
    } else if LastValue(b, slot).Some? {
      var d := LastValueOfClass(b, slot);
      ClassGivesValue(a, d, slot);
    }
  }

  lemma SameRequest(a: seq<Ie>, b: seq<Ie>)
    requires Rearranged(a, b) && Agree(a) && Decode(true, Empty(), a).Done?
    ensures Decode(true, Empty(), b) == Decode(true, Empty(), a)
  {
    StillAccepted(a, b);
    DecodeComes(a);
    DecodeComes(b);
    var q, r := Decode(true, Empty(), a).r, Decode(true, Empty(), b).r;
    forall slot ensures LastValue(a, slot) == LastValue(b, slot) {
      SameValue(a, b, slot);
    }
    SameFields(a, b, q, r);
  }

  lemma SameFields(a: seq<Ie>, b: seq<Ie>, q: Request, r: Request)
    requires Comes(a, q) && Comes(b, r) && Rearranged(a, b)
    requires forall slot :: LastValue(a, slot) == LastValue(b, slot)
    ensures q == r
  {
    assert Of(a, Class(BEARER_CONTEXT, 0)) == Of(b, Class(BEARER_CONTEXT, 0));
    assert Of(a, Class(BEARER_CONTEXT, 1)) == Of(b, Class(BEARER_CONTEXT, 1));
    assert forall slot :: slot in q.fields <==> slot in r.fields;
    assert q.fields == r.fields;
  }

  // ---- moving the last element of a class to the end ----

  function WithoutLast(a: seq<Ie>, c: Class): seq<Ie> {
    if a == [] then [] else if ClassOf(Final(a)) == c then Front(a) else WithoutLast(Front(a), c) + [Final(a)]
  }

  lemma OfSnoc(a: seq<Ie>, x: Ie, c: Class)
    ensures Of(a + [x], c) == if ClassOf(x) == c then Of(a, c) + [x] else Of(a, c)
  {
    assert Front(a + [x]) == a && Final(a + [x]) == x;
  }

  lemma {:induction false} WithoutLastOf(a: seq<Ie>, c: Class, d: Class)
    requires Of(a, c) != []
    ensures Of(WithoutLast(a, c), d) == if d == c then Front(Of(a, c)) else Of(a, d)
    decreases |a|
  {
    if ClassOf(Final(a)) != c {
      WithoutLastOf(Front(a), c, d);
      OfSnoc(WithoutLast(Front(a), c), Final(a), d);
    }
  }

  lemma {:induction false} OfClass(a: seq<Ie>, c: Class)
    requires Of(a, c) != []
    ensures ClassOf(Final(Of(a, c))) == c
    decreases |a|
  {
    if ClassOf(Final(a)) != c {
      OfClass(Front(a), c);
    }
  }

  function Moved(a: seq<Ie>, c: Class): seq<Ie>
    requires Of(a, c) != []
  {
    WithoutLast(a, c) + [Final(Of(a, c))]
  }

  lemma MovedRearranges(a: seq<Ie>, c: Class)
    requires Of(a, c) != []
    ensures Rearranged(a, Moved(a, c))
  {
    OfClass(a, c);
    forall d ensures Of(a, d) == Of(Moved(a, c), d) {
      WithoutLastOf(a, c, d);
      OfSnoc(WithoutLast(a, c), Final(Of(a, c)), d);
    }
  }

  /** After the move the class decides the field. */
  lemma MovedDecides(a: seq<Ie>, c: Class, slot: Slot)
    requires Of(a, c) != [] && FieldOfClass(c) == Some(slot) && Decode(true, Empty(), a).Done?
    ensures var r := Decode(true, Empty(), Moved(a, c));
            r.Done? && slot in r.r.fields && r.r.fields[slot] == Means(Final(Of(a, c)))
  {
    var b := Moved(a, c);
    MovedRearranges(a, c);
    StillAccepted(a, b);
    DecodeComes(b);
    OfClass(a, c);
    assert Final(b) == Final(Of(a, c));
    assert LastValue(b, slot) == Some(Means(Final(b)));
  }

  lemma MustAgree(a: seq<Ie>, c: Class, d: Class)
    requires Decode(true, Empty(), a).Done?
    requires Of(a, c) != [] && Of(a, d) != [] && FieldOfClass(c).Some? && FieldOfClass(c) == FieldOfClass(d)
    requires forall b :: Rearranged(a, b) ==> Decode(true, Empty(), b) == Decode(true, Empty(), a)
    ensures Means(Final(Of(a, c))) == Means(Final(Of(a, d)))
  {
    var slot := FieldOfClass(c).value;
    MovedRearranges(a, c);
    MovedRearranges(a, d);
    MovedDecides(a, c, slot);
    MovedDecides(a, d, slot);
  }

  /** Every rearrangement that keeps the order of elements of equal type and instance decodes to the
      same request if and only if the instances of each any-instance field end with the same value. */
  lemma OrderDoesNotMatter(a: seq<Ie>)
    requires Decode(true, Empty(), a).Done?
    ensures (forall b :: Rearranged(a, b) ==> Decode(true, Empty(), b) == Decode(true, Empty(), a)) <==> Agree(a)
  {
    if Agree(a) {
      forall b | Rearranged(a, b) ensures Decode(true, Empty(), b) == Decode(true, Empty(), a) {
        SameRequest(a, b);
      }
    }
    if forall b :: Rearranged(a, b) ==> Decode(true, Empty(), b) == Decode(true, Empty(), a) {
      forall c, d | Of(a, c) != [] && Of(a, d) != [] && FieldOfClass(c).Some? && FieldOfClass(c) == FieldOfClass(d)
        ensures Means(Final(Of(a, c))) == Means(Final(Of(a, d)))
      {
        MustAgree(a, c, d);
      }
    }
  }

  /** With no instance but 0 on the any-instance elements, order never matters. */
  lemma PlainInstances(a: seq<Ie>)
    requires Decode(true, Empty(), a).Done?
    requires forall x :: x in a && AnyInstance(x.kind) ==> Instance(x) == 0
    ensures forall b :: Rearranged(a, b) ==> Decode(true, Empty(), b) == Decode(true, Empty(), a)
  {
    forall c, d | Of(a, c) != [] && Of(a, d) != [] && FieldOfClass(c).Some? && FieldOfClass(c) == FieldOfClass(d)
      ensures c == d
    {
      var x, y := Final(Of(a, c)), Final(Of(a, d));
      OfClass(a, c);
      OfClass(a, d);
      MemberOfClass(a, x);
      MemberOfClass(a, y);
    }
    assert Agree(a);
    OrderDoesNotMatter(a);
  }

  lemma SwapRearranges(x: Ie, y: Ie)
    requires ClassOf(x) != ClassOf(y)
    ensures Rearranged([x] + [y], [y] + [x])
  {
    forall c ensures Of([x] + [y], c) == Of([y] + [x], c) {
      OfSnoc([], x, c);
      OfSnoc([], y, c);
      OfSnoc([x], y, c);
      OfSnoc([y], x, c);
      assert [] + [x] == [x] && [] + [y] == [y];
    }
  }

  lemma LastWins(x: Ie, y: Ie, slot: Slot)
    requires Accepted(x) && Accepted(y) && FieldOfClass(ClassOf(y)) == Some(slot)
    ensures var r := Decode(true, Empty(), [x] + [y]);
            r.Done? && slot in r.r.fields && r.r.fields[slot] == Means(y)
  {
    DecodeComes([x] + [y]);
    assert Final([x] + [y]) == y;
    assert LastValue([x] + [y], slot) == Some(Means(y));
  }

  /** Two recovery counters, one under instance 0 and one under instance 1: the setter takes both. */
  lemma OrderCanMatter()
    ensures var x, y := Ie(RECOVERY, 1, 0, Octet(7)), Ie(RECOVERY, 1, 1, Octet(9));
            && Rearranged([x] + [y], [y] + [x])
            && Decode(true, Empty(), [x] + [y]) != Decode(true, Empty(), [y] + [x])
  {
    var x, y := Ie(RECOVERY, 1, 0, Octet(7)), Ie(RECOVERY, 1, 1, Octet(9));
    SwapRearranges(x, y);
    LastWins(x, y, Slot(RECOVERY, 0));
    LastWins(y, x, Slot(RECOVERY, 0));
  }
}
