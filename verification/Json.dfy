/** Node results and payloads, and their coercion to JSON (athanore/graph/json.py). */
module Json {

  // What a column of the store can hold.
  datatype Json =
    | JNull
    | JBool(b: bool)
    | JInt(n: int)
    | JFloat(x: real)
    | JStr(s: string)
    | JList(items: seq<Json>)
    | JDict(entries: seq<(string, Json)>)

  // What a body can return. `Model` is a pydantic model with its JSON dump,
  // `Record` a dataclass other than `Transition`, `Opaque` anything else with
  // its `str()`.
  datatype Value =
    | Null
    | Bool(b: bool)
    | Int(n: int)
    | Float(x: real)
    | Str(s: string)
    | List(items: seq<Value>)
    | Tuple(items: seq<Value>)
    | Dict(entries: seq<(string, Value)>)
    | Model(dump: Json)
    | EdgeRef(name: string)
    | Transition(target: string, payload: Value)
    | Record(fields: seq<(string, Value)>)
    | Opaque(text: string)

  predicate HasRecord(v: Value) {
    match v
    case List(items) => exists i | 0 <= i < |items| :: HasRecord(items[i])
    case Tuple(items) => exists i | 0 <= i < |items| :: HasRecord(items[i])
    case Dict(entries) => exists i | 0 <= i < |entries| :: HasRecord(entries[i].1)
    case Transition(_, payload) => HasRecord(payload)
    case Record(_) => true
    case _ => false
  }

  // `dataclasses.asdict`: every dataclass, however deep, becomes a dict.
  function AsDict(v: Value): (d: Value)
    ensures !HasRecord(d)
  {
    match v
    case List(items) => List(seq(|items|, i requires 0 <= i < |items| => AsDict(items[i])))
    case Tuple(items) => Tuple(seq(|items|, i requires 0 <= i < |items| => AsDict(items[i])))
    case Dict(entries) =>
      Dict(seq(|entries|, i requires 0 <= i < |entries| => (entries[i].0, AsDict(entries[i].1))))
    case Transition(target, payload) => Dict([("target", Str(target)), ("payload", AsDict(payload))])
    case Record(fields) =>
      Dict(seq(|fields|, i requires 0 <= i < |fields| => (fields[i].0, AsDict(fields[i].1))))
    case _ => v
  }

  function Jsonable(v: Value): Json
    decreases HasRecord(v), v
  {
    match v
    case Null => JNull
    case Bool(b) => JBool(b)
    case Int(n) => JInt(n)
    case Float(x) => JFloat(x)
    case Str(s) => JStr(s)
    case List(items) => JList(seq(|items|, i requires 0 <= i < |items| => Jsonable(items[i])))
    case Tuple(items) => JList(seq(|items|, i requires 0 <= i < |items| => Jsonable(items[i])))
    case Dict(entries) =>
      JDict(seq(|entries|, i requires 0 <= i < |entries| => (entries[i].0, Jsonable(entries[i].1))))
    case Model(dump) => dump
    case Transition(target, payload) => JDict([("target", JStr(target)), ("payload", Jsonable(payload))])
    case Record(_) => Jsonable(AsDict(v))
    case EdgeRef(name) => JStr("<edge " + name + ">")
    case Opaque(text) => JStr(text)
  }

  // A stored value read back as a body sees it.
  function Plain(j: Json): Value {
    match j
    case JNull => Null
    case JBool(b) => Bool(b)
    case JInt(n) => Int(n)
    case JFloat(x) => Float(x)
    case JStr(s) => Str(s)
    case JList(items) => List(seq(|items|, i requires 0 <= i < |items| => Plain(items[i])))
    case JDict(entries) =>
      Dict(seq(|entries|, i requires 0 <= i < |entries| => (entries[i].0, Plain(entries[i].1))))
  }

  // Coercing a value that is already JSON changes nothing.
  lemma {:induction false} JsonableOfPlain(j: Json)
    ensures Jsonable(Plain(j)) == j
  {
    match j
    case JList(items) =>
      forall i | 0 <= i < |items| ensures Jsonable(Plain(items[i])) == items[i] {
        JsonableOfPlain(items[i]);
      }
    case JDict(entries) =>
      forall i | 0 <= i < |entries| ensures Jsonable(Plain(entries[i].1)) == entries[i].1 {
        JsonableOfPlain(entries[i].1);
      }
    case _ =>
  }

  lemma JsonableIdempotent(v: Value)
    ensures Jsonable(Plain(Jsonable(v))) == Jsonable(v)
  {
    JsonableOfPlain(Jsonable(v));
  }

  // A dataclass coerces field by field, however deep: `asdict` first makes no difference.
  lemma {:induction false} JsonableOfAsDict(v: Value)
    ensures Jsonable(AsDict(v)) == Jsonable(v)
  {
    match v
    case List(items) =>
      forall i | 0 <= i < |items| ensures Jsonable(AsDict(items[i])) == Jsonable(items[i]) {
        JsonableOfAsDict(items[i]);
      }
    case Tuple(items) =>
      forall i | 0 <= i < |items| ensures Jsonable(AsDict(items[i])) == Jsonable(items[i]) {
        JsonableOfAsDict(items[i]);
      }
    case Dict(entries) =>
      forall i | 0 <= i < |entries| ensures Jsonable(AsDict(entries[i].1)) == Jsonable(entries[i].1) {
        JsonableOfAsDict(entries[i].1);
      }
    case Transition(_, payload) => JsonableOfAsDict(payload);
    case _ =>
  }

  // What JSON can say, a body gets back as it returned it.
  predicate JsonLike(v: Value) {
    match v
    case Null => true
    case Bool(_) => true
    case Int(_) => true
    case Float(_) => true
    case Str(_) => true
    case List(items) => forall i | 0 <= i < |items| :: JsonLike(items[i])
    case Dict(entries) => forall i | 0 <= i < |entries| :: JsonLike(entries[i].1)
    case _ => false
  }

  lemma {:induction false} JsonLikeSurvives(v: Value)
    requires JsonLike(v)
    ensures Plain(Jsonable(v)) == v
  {
    match v
    case List(items) =>
      forall i | 0 <= i < |items| ensures Plain(Jsonable(items[i])) == items[i] {
        JsonLikeSurvives(items[i]);
      }
    case Dict(entries) =>
      forall i | 0 <= i < |entries| ensures Plain(Jsonable(entries[i].1)) == entries[i].1 {
        JsonLikeSurvives(entries[i].1);
      }
    case _ =>
  }

  // And the rest has the nearest thing JSON has: a tuple is its list, a model its dump, a
  // transition a dict; anything else is its text.
  lemma RestIsNearest(items: seq<Value>, target: string, payload: Value, dump: Json, text: string)
    ensures Jsonable(Tuple(items)) == Jsonable(List(items))
    ensures Jsonable(Model(dump)) == dump
    ensures Jsonable(Transition(target, payload)) == Jsonable(Dict([("target", Str(target)), ("payload", payload)]))
    ensures Jsonable(Opaque(text)) == JStr(text)
    ensures Jsonable(EdgeRef(text)) == JStr("<edge " + text + ">")
  {
    var entries := [("target", Str(target)), ("payload", payload)];
    assert Jsonable(Dict(entries)) ==
           JDict([(entries[0].0, Jsonable(entries[0].1)), (entries[1].0, Jsonable(entries[1].1))]);
  }

  // A dataclass is the dict of its fields.
  lemma RecordIsDict(fields: seq<(string, Value)>)
    ensures Jsonable(Record(fields)) == Jsonable(Dict(fields))
  {
    assert AsDict(Record(fields)) == AsDict(Dict(fields));
    JsonableOfAsDict(Dict(fields));
  }
}
