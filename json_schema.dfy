// JSON values and the part of JSON Schema (draft-07 keywords `type`,
// `properties`, `required`, `additionalProperties`, `items`, `enum`, plus
// Ajv's `nullable`) that the store schema uses.
module Json {
  /** A JSON value; numbers are the integers. */
  datatype Json =
    | JNull
    | JBool(b: bool)
    | JNumber(n: int)
    | JString(s: string)
    | JArray(items: seq<Json>)
    | JObject(fields: map<string, Json>)
}

module JsonSchema {
  import opened Common
  import opened Json

  datatype JsonType = ObjectType | ArrayType | StringType | NumberType | BooleanType

  /**
   * One schema node. `additionalProperties` false means an object may only
   * hold the names listed in `properties`; `nullable` admits `null` besides
   * the node's type (it does not extend `enum`).
   */
  datatype Schema = Schema(
    kind: JsonType,
    nullable: bool,
    enumValues: Option<seq<string>>,
    properties: map<string, Schema>,
    required: seq<string>,
    additionalProperties: bool,
    items: Option<Schema>)

  predicate HasType(j: Json, t: JsonType) {
    match t
    case ObjectType => j.JObject?
    case ArrayType => j.JArray?
    case StringType => j.JString?
    case NumberType => j.JNumber?
    case BooleanType => j.JBool?
  }

  /** The instance `j` satisfies schema `s`. */
  predicate Valid(s: Schema, j: Json)
    decreases s
  {
    (if j.JNull? then s.nullable else HasType(j, s.kind))
    && (s.enumValues.Some? ==> j.JString? && j.s in s.enumValues.value)
    && (j.JObject? ==>
          (forall r | r in s.required :: r in j.fields)
          && (!s.additionalProperties ==> forall k | k in j.fields :: k in s.properties)
          && (forall k | k in j.fields && k in s.properties :: Valid(s.properties[k], j.fields[k])))
    && (j.JArray? && s.items.Some? ==>
          forall i | 0 <= i < |j.items| :: Valid(s.items.value, j.items[i]))
  }

  // Schema builders for the shapes the store uses.

  function Leaf(t: JsonType, nullable: bool): Schema {
    Schema(t, nullable, None, map[], [], true, None)
  }

  function Enum(values: seq<string>, nullable: bool): Schema {
    Schema(StringType, nullable, Some(values), map[], [], true, None)
  }

  function ArrayOf(items: Schema): Schema {
    Schema(ArrayType, false, None, map[], [], true, Some(items))
  }

  /** An object with the given properties and required names that admits no other names. */
  function ClosedObject(properties: map<string, Schema>, required: seq<string>): Schema {
    Schema(ObjectType, false, None, properties, required, false, None)
  }

  /** What a closed object schema demands, written out. */
  lemma ValidClosedObject(properties: map<string, Schema>, required: seq<string>, j: Json)
    ensures Valid(ClosedObject(properties, required), j) <==>
      j.JObject?
      && (forall r | r in required :: r in j.fields)
      && (forall k | k in j.fields :: k in properties && Valid(properties[k], j.fields[k]))
  {
  }

  /** A closed object schema, given the set of its names and the set of its required names. */
  lemma ValidClosedObjectByNames(properties: map<string, Schema>, required: seq<string>,
                                 names: set<string>, requiredNames: set<string>, j: Json)
    requires properties.Keys == names
    requires forall r :: r in required <==> r in requiredNames
    ensures Valid(ClosedObject(properties, required), j) <==>
      j.JObject? && requiredNames <= j.fields.Keys <= names
      && forall k | k in j.fields && k in properties :: Valid(properties[k], j.fields[k])
  {
    ValidClosedObject(properties, required, j);
  }

  /** A closed object schema of three named properties of which the second is required. */
  lemma ValidClosedObjectOfThree(a: string, sa: Schema, b: string, sb: Schema, c: string, sc: Schema, j: Json)
    requires a != b && b != c && a != c
    ensures Valid(ClosedObject(map[a := sa, b := sb, c := sc], [b]), j) <==>
      j.JObject? && b in j.fields && j.fields.Keys <= {a, b, c}
      && Valid(sb, j.fields[b])
      && (a in j.fields ==> Valid(sa, j.fields[a]))
      && (c in j.fields ==> Valid(sc, j.fields[c]))
  {
    var props := map[a := sa, b := sb, c := sc];
    ValidClosedObject(props, [b], j);
    assert props.Keys == {a, b, c};
  }

  /** A closed object schema of three properties, all required. */
  lemma ValidClosedObjectOfThreeRequired(a: string, sa: Schema, b: string, sb: Schema, c: string, sc: Schema, j: Json)
    requires a != b && b != c && a != c
    ensures Valid(ClosedObject(map[a := sa, b := sb, c := sc], [a, b, c]), j) <==>
      j.JObject? && j.fields.Keys == {a, b, c}
      && Valid(sa, j.fields[a]) && Valid(sb, j.fields[b]) && Valid(sc, j.fields[c])
  {
    var props := map[a := sa, b := sb, c := sc];
    ValidClosedObject(props, [a, b, c], j);
    assert props.Keys == {a, b, c};
  }

  /** A closed object schema of four properties of one schema, all required. */
  lemma ValidClosedObjectOfFourRequired(a: string, b: string, c: string, d: string, s: Schema, j: Json)
    requires a != b && a != c && a != d && b != c && b != d && c != d
    ensures Valid(ClosedObject(map[a := s, b := s, c := s, d := s], [a, b, c, d]), j) <==>
      j.JObject? && j.fields.Keys == {a, b, c, d}
      && Valid(s, j.fields[a]) && Valid(s, j.fields[b]) && Valid(s, j.fields[c]) && Valid(s, j.fields[d])
  {
    var props := map[a := s, b := s, c := s, d := s];
    ValidClosedObject(props, [a, b, c, d], j);
    assert props.Keys == {a, b, c, d};
  }

  /** A closed object schema refuses an object holding a name it does not declare. */
  lemma ClosedObjectRefusesName(properties: map<string, Schema>, required: seq<string>, fields: map<string, Json>, n: string)
    requires n in fields && n !in properties
    ensures !Valid(ClosedObject(properties, required), JObject(fields))
  {
    ValidClosedObject(properties, required, JObject(fields));
  }

  /** A closed object schema with nothing required, on an object of one name. */
  lemma ClosedObjectOfOneName(properties: map<string, Schema>, n: string, v: Json)
    ensures Valid(ClosedObject(properties, []), JObject(map[n := v])) <==> n in properties && Valid(properties[n], v)
  {
    ValidClosedObject(properties, [], JObject(map[n := v]));
    assert n in map[n := v];
  }

  lemma ValidLeaf(t: JsonType, nullable: bool, j: Json)
    ensures Valid(Leaf(t, nullable), j) <==> HasType(j, t) || (nullable && j.JNull?)
  {
  }

  lemma ValidEnum(values: seq<string>, nullable: bool, j: Json)
    ensures Valid(Enum(values, nullable), j) <==> j.JString? && j.s in values
  {
  }

  lemma ValidArrayOf(items: Schema, j: Json)
    ensures Valid(ArrayOf(items), j) <==> j.JArray? && forall i | 0 <= i < |j.items| :: Valid(items, j.items[i])
  {
  }
}
