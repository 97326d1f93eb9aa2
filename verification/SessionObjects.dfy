/** The request object with its setters, the builder's loops over fields and contexts, and the loop of
    `to_core_type`. */
module SessionObjects {
  import opened Octets
  import opened Elements
  import opened Messages
  import opened MessageRoundTrip
  import opened CoreTypes
  import opened Conversions
  import opened SessionRequest
  import opened MessageObjects

  class RequestObject {
    var fields: Table
    var hasCreated: bool
    var created: seq<Table>
    var hasRemoved: bool
    var removed: seq<Table>

    ghost function Value(): Request
      reads this
    {
      Request(fields, hasCreated, created, hasRemoved, removed)
    }

    constructor ()
      ensures Value() == Empty()
    {
      fields, hasCreated, created, hasRemoved, removed := map[], false, [], false, [];
    }

    /** The setters, by type and instance. */
    method Set(kind: byte, instance: nat, core: Core) returns (why: Option<Reason>)
      modifies this`fields
      ensures match SetField(old(Value()), TargetOf(true, kind, instance), core)
              case Done(r) => why == None && Value() == r
              case Raised(reason) => why == Some(reason) && Value() == old(Value())
    {
      match TargetOf(true, kind, instance)
      case Field(slot) =>
        fields := fields[slot := core];
        why := None;
      case NoTarget(reason) => why := Some(reason);
      case _ => why := Some(IllegalIe);
    }

    method SetContext(kind: byte, instance: nat, t: Table) returns (why: Option<Reason>)
      modifies this`hasCreated, this`created, this`hasRemoved, this`removed
      ensures match AddContext(old(Value()), TargetOf(true, kind, instance), t)
              case Done(r) => why == None && Value() == r
              case Raised(reason) => why == Some(reason) && Value() == old(Value())
    {
      why := None;
      match TargetOf(true, kind, instance)
      case Created =>
        created := created + [Selected(CREATED_FIELDS, t)];
        hasCreated := true;
      case Removed =>
        removed := removed + [Selected(REMOVED, t)];
        hasRemoved := true;
      case NoTarget(reason) => why := Some(reason);
      case Field(_) => why := Some(IllegalIe);
    }
  }

  /** The loop of `to_core_type` over a message's elements. */
  method ToCoreType(ies: seq<Ie>, s: RequestObject) returns (why: Option<Reason>)
    modifies s
    ensures match Decode(true, old(s.Value()), ies)
            case Done(r) => why == None && s.Value() == r
            case Raised(reason) => why == Some(reason)
  {
    var rest := ies;
    why := None;
    while rest != []
      invariant why == None && Decode(true, s.Value(), rest) == Decode(true, old(s.Value()), ies)
      decreases |rest|
    {
      var ie := rest[0];
      if !ie.body.Group? {
        why := s.Set(ie.kind, Instance(ie), CoreOf(ie.kind, ie.body));
      } else {
        match Decode(false, Empty(), ie.body.ies)
        case Raised(reason) => why := Some(reason);
        case Done(context) => why := s.SetContext(ie.kind, Instance(ie), context.fields);
      }
      if why.Some? {
        return;
      }
      rest := rest[1..];
    }
  }

  // ---- the builder ----

  lemma JoinedStep(done: seq<Ie>, ie: Ie, more: Option<seq<Ie>>)
    ensures Joined(Some(done), Prepend(Some(ie), more)) == Joined(Some(done + [ie]), more)
  {
    if more.Some? {
      assert done + ([ie] + more.value) == done + [ie] + more.value;
    }
  }

  lemma JoinedEnds(done: seq<Ie>, all: Option<seq<Ie>>)
    ensures Joined(Some(done), Some([])) == Some(done) && Joined(Some([]), all) == all
  {
    assert done + [] == done;
    if all.Some? {
      assert [] + all.value == all.value;
    }
  }

  /** The presence tests of the builder, one slot after the other. */
  method MakeFields(order: seq<Slot>, t: Table) returns (ies: Option<seq<Ie>>)
    ensures ies == MakeAll(order, t)
  {
    var done: seq<Ie> := [];
    var rest := order;
    JoinedEnds(done, MakeAll(order, t));
    while rest != []
      invariant Joined(Some(done), MakeAll(rest, t)) == MakeAll(order, t)
      decreases |rest|
    {
      if rest[0] in t {
        var ie := MakeIe(rest[0], t[rest[0]]);
        if ie.None? {
          return None;
        }
        JoinedStep(done, ie.value, MakeAll(rest[1..], t));
        done := done + [ie.value];
      }
      rest := rest[1..];
    }
    JoinedEnds(done, None);
    ies := Some(done);
  }

  /** `add_ie` of a group for each of its children. */
  method AddChildren(group: GroupObject, children: seq<Ie>)
    requires group.ies == [] && group.length == 0
    modifies group
    ensures group.ies == children && group.length == Running(0, children) == Size(children) % 0x1_0000
  {
    var i := 0;
    while i < |children|
      invariant 0 <= i <= |children|
      invariant group.ies == children[..i] && group.length == Running(0, group.ies)
    {
      group.AddIe(children[i]);
      assert children[..i] + [children[i]] == children[..i + 1];
      i := i + 1;
    }
    assert children[..i] == children;
    RunningIsSum(0, children);
  }

  /** The builder's loop over a list of bearer contexts. */
  method MakeContexts(order: seq<Slot>, instance: byte, ts: seq<Table>) returns (ies: Option<seq<Ie>>)
    ensures ies == MakeGroups(order, instance, ts)
  {
    var done: seq<Ie> := [];
    var rest := ts;
    JoinedEnds(done, MakeGroups(order, instance, ts));
    while rest != []
      invariant Joined(Some(done), MakeGroups(order, instance, rest)) == MakeGroups(order, instance, ts)
      decreases |rest|
    {
      var children := MakeFields(order, rest[0]);
      if children.None? {
        return None;
      }
      var group := new GroupObject();
      AddChildren(group, children.value);
      var ie := Ie(BEARER_CONTEXT, group.length, instance, Group(group.ies));
      JoinedStep(done, ie, MakeGroups(order, instance, rest[1..]));
      done := done + [ie];
      rest := rest[1..];
    }
    JoinedEnds(done, None);
    ies := Some(done);
  }

  /** `add_ie` for each element made. */
  method AddElements(m: MessageObject, ies: seq<Ie>)
    modifies m
    ensures m.Value() == AddAll(old(m.Value()), ies)
  {
    var rest := ies;
    while rest != []
      invariant AddAll(m.Value(), rest) == AddAll(old(m.Value()), ies)
      decreases |rest|
    {
      m.AddIe(rest[0]);
      rest := rest[1..];
    }
  }

  /** `gtpv2c_msg(const gtpv2c_create_session_request&)`; false stands for an exception. */
  method BuildRequest(r: Request) returns (ok: bool, m: MessageObject)
    ensures ok == Build(r).Some? && (ok ==> m.Value() == Build(r).value)
  {
    ok := false;
    m := new MessageObject(CREATE_SESSION_REQUEST);
    var first := MakeFields(FIRST, r.fields);
    var created: Option<seq<Ie>> := Some([]);
    if r.hasCreated {
      created := MakeContexts(CREATED, 0, r.created);
    }
    var removed: Option<seq<Ie>> := Some([]);
    if r.hasRemoved {
      removed := MakeContexts(REMOVED, 1, r.removed);
    }
    var last := MakeFields(LAST, r.fields);
    if first.Some? && created.Some? && removed.Some? && last.Some? {
      AddElements(m, first.value + (created.value + removed.value + last.value));
      ok := true;
    }
  }
}
