/** Create Session Requests: from the core structure to a message and back. A slot is a field of the
    structure, named by the element type and the instance number that carry it. */
module SessionRequest {
  import opened Octets
  import opened Elements
  import opened Messages
  import opened MessageRoundTrip
  import opened CoreTypes
  import opened Conversions

  datatype Slot = Slot(kind: byte, index: nat)

  /** The fields that are present, with their values. */
  type Table = map<Slot, Core>

  /** The request: its fields, and its bearer contexts to be created and to be removed. The two flags
      are the presence bits of the lists. */
  datatype Request = Request(fields: Table, hasCreated: bool, created: seq<Table>, hasRemoved: bool, removed: seq<Table>)

  const CREATE_SESSION_REQUEST: byte := 32

  function Empty(): Request {
    Request(map[], false, [], false, [])
  }

  // ---- the builder ----

  const FIRST: seq<Slot> := [
    Slot(IMSI, 0), Slot(MSISDN, 0), Slot(MEI, 0), Slot(ULI, 0), Slot(SERVING_NETWORK, 0), Slot(RAT_TYPE, 0),
    Slot(INDICATION, 0), Slot(F_TEID, 0), Slot(F_TEID, 1), Slot(APN, 0), Slot(SELECTION_MODE, 0), Slot(PDN_TYPE, 0),
    Slot(PAA, 0), Slot(APN_RESTRICTION, 0), Slot(AMBR, 0), Slot(EBI, 0), Slot(PCO, 0)]

  const LAST: seq<Slot> := [Slot(FQ_CSID, 0), Slot(FQ_CSID, 1), Slot(UE_TIME_ZONE, 0)]

  /** A traffic flow template is not written. */
  const CREATED: seq<Slot> := [
    Slot(EBI, 0), Slot(F_TEID, 0), Slot(F_TEID, 1), Slot(F_TEID, 2), Slot(F_TEID, 3), Slot(F_TEID, 4), Slot(F_TEID, 5),
    Slot(F_TEID, 6), Slot(BEARER_QOS, 0), Slot(F_TEID, 7)]

  const REMOVED: seq<Slot> := [Slot(EBI, 0), Slot(F_TEID, 0)]

  function MakeIe(slot: Slot, core: Core): Option<Ie> {
    match Make(slot.kind, core)
    case Throws => None
    case Makes(length, body) => Some(Ie(slot.kind, length % 0x1_0000, slot.index % 16, body))
  }

  /** The elements of the slots that are present, in the builder's order; None if a constructor throws. */
  function MakeAll(order: seq<Slot>, t: Table): Option<seq<Ie>> {
    if order == [] then Some([])
    else if order[0] !in t then MakeAll(order[1..], t)
    else Prepend(MakeIe(order[0], t[order[0]]), MakeAll(order[1..], t))
  }

  function Prepend(ie: Option<Ie>, more: Option<seq<Ie>>): Option<seq<Ie>> {
    if ie.Some? && more.Some? then Some([ie.value] + more.value) else None
  }

  /** A group whose length `add_ie` counts up in 16 bits, child by child. */
  function MakeGroup(order: seq<Slot>, instance: byte, t: Table): Option<Ie> {
    match MakeAll(order, t)
    case None => None
    case Some(ies) => Some(Ie(BEARER_CONTEXT, Running(0, ies), instance, Group(ies)))
  }

  function MakeGroups(order: seq<Slot>, instance: byte, ts: seq<Table>): Option<seq<Ie>> {
    if ts == [] then Some([]) else Prepend(MakeGroup(order, instance, ts[0]), MakeGroups(order, instance, ts[1..]))
  }

  function Joined(a: Option<seq<Ie>>, b: Option<seq<Ie>>): Option<seq<Ie>> {
    if a.Some? && b.Some? then Some(a.value + b.value) else None
  }

  function Groups(r: Request): Option<seq<Ie>> {
    Joined(if r.hasCreated then MakeGroups(CREATED, 0, r.created) else Some([]),
           if r.hasRemoved then MakeGroups(REMOVED, 1, r.removed) else Some([]))
  }

  function ElementsOf(r: Request): Option<seq<Ie>> {
    Joined(MakeAll(FIRST, r.fields), Joined(Groups(r), MakeAll(LAST, r.fields)))
  }

  function AddAll(m: Msg, ies: seq<Ie>): Msg
    decreases |ies|
  {
    if ies == [] then m else AddAll(AddIe(m, ies[0]), ies[1..])
  }

  function Build(r: Request): Option<Msg> {
    match ElementsOf(r)
    case None => None
    case Some(ies) => Some(AddAll(NewMsg(CREATE_SESSION_REQUEST), ies))
  }

  // ---- the decoder ----

  datatype Reason = IllegalIe | BadInstance

  datatype Target = Field(slot: Slot) | Created | Removed | NoTarget(why: Reason)

  /** Setters of the request that take any instance. */
  predicate AnyInstance(kind: byte) {
    kind in {IMSI, MSISDN, MEI, ULI, SERVING_NETWORK, RAT_TYPE, INDICATION, APN, SELECTION_MODE, PDN_TYPE, PAA,
             APN_RESTRICTION, AMBR, EBI, PCO, RECOVERY, UE_TIME_ZONE}
  }

  /** Setters of a bearer context that take any instance. */
  predicate AnyInstanceInContext(kind: byte) {
    kind in {EBI, BEARER_TFT, BEARER_QOS, CAUSE, CHARGING_ID, BEARER_FLAGS, PCO}
  }

  /** The setters' switches over type and instance: the request's own, and a bearer context's. */
  function TargetOf(top: bool, kind: byte, instance: nat): Target {
    if (if top then AnyInstance(kind) else AnyInstanceInContext(kind)) then Field(Slot(kind, 0))
    else if kind == F_TEID then
      if instance < (if top then 2 else 12) then Field(Slot(F_TEID, instance)) else NoTarget(BadInstance)
    else if kind == FQ_CSID && top then
      if instance < 4 then Field(Slot(FQ_CSID, instance)) else NoTarget(BadInstance)
    else if kind == BEARER_CONTEXT && top then
      if instance == 0 then Created else if instance == 1 then Removed else NoTarget(BadInstance)
    else NoTarget(IllegalIe)
  }

  /** The part of a table that lies in the given slots. */
  function Selected(order: seq<Slot>, t: Table): Table {
    map s | s in t && s in order :: t[s]
  }

  const CREATED_FIELDS: seq<Slot> := CREATED + [Slot(BEARER_TFT, 0)]

  datatype Decoding = Done(r: Request) | Raised(why: Reason)

  /** What a decoded bearer context (its fields) does to the request. */
  function AddContext(r: Request, target: Target, t: Table): Decoding {
    match target
    case Created => Done(r.(hasCreated := true, created := r.created + [Selected(CREATED_FIELDS, t)]))
    case Removed => Done(r.(hasRemoved := true, removed := r.removed + [Selected(REMOVED, t)]))
    case NoTarget(why) => Raised(why)
    case Field(_) => Raised(IllegalIe)
  }

  function SetField(r: Request, target: Target, core: Core): Decoding {
    match target
    case Field(slot) => Done(r.(fields := r.fields[slot := core]))
    case NoTarget(why) => Raised(why)
    case _ => Raised(IllegalIe)
  }

  /** `to_core_type` of one element into the request or, below the top, into a bearer context. */
  function DecodeIe(top: bool, r: Request, ie: Ie): Decoding
    decreases ie
  {
    var target := TargetOf(top, ie.kind, Instance(ie));
    if !ie.body.Group? then SetField(r, target, CoreOf(ie.kind, ie.body))
    else
      match Decode(false, Empty(), ie.body.ies)
      case Raised(why) => Raised(why)
      case Done(context) => AddContext(r, target, context.fields)
  }

  function Decode(top: bool, r: Request, ies: seq<Ie>): Decoding
    decreases ies
  {
    if ies == [] then Done(r)
    else
      match DecodeIe(top, r, ies[0])
      case Raised(why) => Raised(why)
      case Done(next) => Decode(top, next, ies[1..])
  }
}
