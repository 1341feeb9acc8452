/** The pin helpers (frontend/utils/mapUtils.js): read-only queries over a
    bundled pin data file, and the construction of a new pin record with
    default fields. */
module MapUtils {
  import opened Common
  import opened Text
  import opened Json

  /** The bundled data: its `pins` array and its `problem_types` object. */
  datatype PinsData = PinsData(pins: seq<Json>, problemTypes: map<string, Json>)

  /** The outcome of a JavaScript property read: it throws (reading a
      property of `null` or `undefined`), yields `undefined`, yields a
      value, or yields the member of that name every plain object inherits
      from `Object.prototype`. */
  datatype Access = Throws | Undefined | Found(value: Json) | Inherited(name: string)

  /** The names of the members every plain object inherits from
      `Object.prototype`. */
  const ObjectPrototypeMembers: set<string> := {
    "constructor", "hasOwnProperty", "isPrototypeOf", "propertyIsEnumerable",
    "toLocaleString", "toString", "valueOf", "__proto__",
    "__defineGetter__", "__defineSetter__", "__lookupGetter__", "__lookupSetter__"
  }

  /** `x.key` for the outcome `x` of an earlier read: an own key of an object
      first, then an inherited member; other values answer `undefined`. */
  function Prop(x: Access, key: string): (r: Access)
    ensures r.Throws? <==> x.Throws? || x.Undefined? || x == Found(JNull)
    ensures x.Found? && x.value.JObj? && key in x.value.fields ==> r == Found(x.value.fields[key])
    ensures x.Found? && x.value.JObj? && key !in x.value.fields ==>
      if key in ObjectPrototypeMembers then r == Inherited(key) else r.Undefined?
  {
    match x
    case Throws => Throws
    case Undefined => Throws
    case Found(JNull) => Throws
    case Found(JObj(fields)) =>
      if key in fields then Found(fields[key])
      else if key in ObjectPrototypeMembers then Inherited(key)
      else Undefined
    case Found(_) => Undefined
    case Inherited(_) => Undefined
  }

  /** `pin.problem_type`. */
  function TypeOf(pin: Json): Access
  {
    Prop(Found(pin), "problem_type")
  }

  /** `pin.user.id`. */
  function UserIdOf(pin: Json): Access
  {
    Prop(Prop(Found(pin), "user"), "id")
  }

  /** `pin.problem_type === problemType` for a string argument. */
  function TypeIs(problemType: string): Json -> bool
  {
    pin => TypeOf(pin) == Found(JStr(problemType))
  }

  /** `pin.user.id === userId` for a string argument. */
  function UserIs(userId: string): Json -> bool
  {
    pin => UserIdOf(pin) == Found(JStr(userId))
  }

  /** `getAllPins`: the bundled array itself, not a copy. */
  function AllPins(data: PinsData): seq<Json>
  {
    data.pins
  }

  /** `getPinsByType`: the pins whose type is the argument, in order. The
      filter reads every pin's type, so a `null` pin makes it throw. */
  function PinsByType(data: PinsData, problemType: string): (r: Option<seq<Json>>)
    ensures r.None? <==> exists i :: 0 <= i < |data.pins| && data.pins[i] == JNull
    ensures r.Some? ==>
      && (forall i :: 0 <= i < |r.value| ==> r.value[i] in data.pins && TypeOf(r.value[i]) == Found(JStr(problemType)))
      && (forall i :: 0 <= i < |data.pins| && TypeOf(data.pins[i]) == Found(JStr(problemType)) ==> data.pins[i] in r.value)
    ensures r.Some? ==>
      forall pin :: multiset(r.value)[pin] == if TypeOf(pin) == Found(JStr(problemType)) then multiset(data.pins)[pin] else 0
  {
    if exists i :: 0 <= i < |data.pins| && TypeOf(data.pins[i]).Throws? then None
    else
      KeepCounts(data.pins, TypeIs(problemType));
      Some(Keep(data.pins, TypeIs(problemType)))
  }

  /** A pin whose `user` is missing or `null`, or which is itself `null`. */
  predicate UserReadThrows(pin: Json)
  {
    UserIdOf(pin).Throws?
  }

  /** `getPinsByUser`: the pins whose user id is the argument, in order; it
      throws as soon as some pin has no user object. */
  function PinsByUser(data: PinsData, userId: string): (r: Option<seq<Json>>)
    ensures r.None? <==> exists i :: 0 <= i < |data.pins| && UserReadThrows(data.pins[i])
    ensures r.Some? ==>
      && (forall i :: 0 <= i < |r.value| ==> r.value[i] in data.pins && UserIdOf(r.value[i]) == Found(JStr(userId)))
      && (forall i :: 0 <= i < |data.pins| && UserIdOf(data.pins[i]) == Found(JStr(userId)) ==> data.pins[i] in r.value)
    ensures r.Some? ==>
      forall pin :: multiset(r.value)[pin] == if UserIdOf(pin) == Found(JStr(userId)) then multiset(data.pins)[pin] else 0
  {
    if exists i :: 0 <= i < |data.pins| && UserReadThrows(data.pins[i]) then None
    else
      KeepCounts(data.pins, UserIs(userId));
      Some(Keep(data.pins, UserIs(userId)))
  }

  /** A pin without a `user` object makes the user query throw. */
  lemma UserlessPinThrows(data: PinsData, userId: string, k: nat)
    requires k < |data.pins| && data.pins[k].JObj? && "user" !in data.pins[k].fields
    ensures PinsByUser(data, userId).None?
  {
    assert Prop(Found(data.pins[k]), "user") == Undefined;
    assert UserReadThrows(data.pins[k]);
  }

  /** Both queries are views of `getAllPins`: order kept, nothing added. */
  lemma QueriesAreSubsequences(data: PinsData, problemType: string, userId: string)
    ensures PinsByType(data, problemType).Some? ==> Subseq(PinsByType(data, problemType).value, AllPins(data))
    ensures PinsByUser(data, userId).Some? ==> Subseq(PinsByUser(data, userId).value, AllPins(data))
  {
    KeepIsSubseq(data.pins, TypeIs(problemType));
    KeepIsSubseq(data.pins, UserIs(userId));
  }

  /** Queries for two different types never return the same pin. */
  lemma DistinctTypesDisjoint(data: PinsData, t1: string, t2: string, pin: Json)
    requires t1 != t2
    ensures PinsByType(data, t1).Some? && PinsByType(data, t2).Some? ==>
      !(pin in PinsByType(data, t1).value && pin in PinsByType(data, t2).value)
  {
  }

  /** `getProblemTypeConfig`: the entry under the key; for a key the data
      does not hold, the member of that name the object inherits, if any,
      and otherwise `undefined`. It never throws. */
  function ProblemTypeConfig(data: PinsData, problemType: string): (r: Access)
    ensures r.Found? <==> problemType in data.problemTypes
    ensures r.Found? ==> r.value == data.problemTypes[problemType]
    ensures r.Inherited? <==> problemType !in data.problemTypes && problemType in ObjectPrototypeMembers
    ensures r.Inherited? ==> r.name == problemType
    ensures !r.Throws?
  {
    Prop(Found(JObj(data.problemTypes)), problemType)
  }

  /** `addNewPin(pinData)` at time `now`: an id one past the number of pins,
      written in decimal, the creation time and the status "pending", each
      overridden by a field of the same name in `pinData`; every field of
      `pinData` is kept as given. The pin data itself is not touched. */
  function NewPin(data: PinsData, pinData: map<string, Json>, now: string): (pin: map<string, Json>)
    ensures pin.Keys == {"id", "created_at", "status"} + pinData.Keys
    ensures forall k :: k in pinData ==> pin[k] == pinData[k]
    ensures "id" !in pinData ==>
      && pin["id"].JStr? && AllDigits(pin["id"].s) && Value(pin["id"].s) == |data.pins| + 1
      && |pin["id"].s| >= 1 && pin["id"].s[0] != '0'
    ensures "created_at" !in pinData ==> pin["created_at"] == JStr(now)
    ensures "status" !in pinData ==> pin["status"] == JStr("pending")
  {
    DecimalValue(|data.pins| + 1);
    map["id" := JStr(Decimal(|data.pins| + 1)), "created_at" := JStr(now), "status" := JStr("pending")] + pinData
  }

  /** Default ids name the next position, so pins added to pin lists of
      different lengths get different ids. */
  lemma DefaultIdsDiffer(d1: PinsData, d2: PinsData, p1: map<string, Json>, p2: map<string, Json>, now: string)
    requires "id" !in p1 && "id" !in p2 && |d1.pins| != |d2.pins|
    ensures NewPin(d1, p1, now)["id"] != NewPin(d2, p2, now)["id"]
  {
  }
}
