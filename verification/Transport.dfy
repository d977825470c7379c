/**
 The copy of a JSON Schema that a provider receives (fair/providers/schema_dialects.py) and
 what it means for the answers: JSON Schema 2020-12, Core section 10 and Validation
 section 6.

 Keywords that never travel have any meaning at all: `other` decides them for a whole node,
 and all that is asked of it is that it says nothing about nodes without such keywords.
 */
module Transport {
  import opened Options
  import opened JsonValues

  datatype Dialect = OpenAiStrict | Gemini | JsonSchema

  const SHAPE: set<string> :=
    {"type", "properties", "required", "items", "enum", "description", "anyOf", "$ref", "$defs"}

  /** None for a dialect that takes a schema as it is. */
  function Keeps(d: Dialect): Option<set<string>> {
    match d
    case OpenAiStrict => Some(SHAPE + {"additionalProperties"})
    case Gemini => Some(SHAPE)
    case JsonSchema => None
  }

  function ConstType(v: Json): Option<string> {
    match v
    case Bool(_) => Some("boolean")
    case Int(_) => Some("integer")
    case Float(_) => Some("number")
    case Str(_) => Some("string")
    case _ => None
  }

  /** A `const` travels as an `enum` of one value, with its type where that is known. */
  function FromConst(f: map<string, Json>): map<string, Json> {
    if "const" !in f || "enum" in f then map[]
    else
      var base := map["enum" := Arr([f["const"]])];
      var t := ConstType(f["const"]);
      if "type" in f || t.None? then base else base["type" := Str(t.value)]
  }

  function Convert(n: Json, keeps: set<string>): Json
    decreases n
  {
    match n
    case Arr(items) => Arr(seq(|items|, k requires 0 <= k < |items| => Convert(items[k], keeps)))
    case Obj(f) =>
      Obj(FromConst(f) + map key | key in f && key != "const" && key in keeps :: Carried(n, key, keeps))
    case _ => n
  }

  /** The value a kept keyword of the node `n` travels with. */
  function Carried(n: Json, key: string, keeps: set<string>): Json
    requires n.Obj? && key in n.fields
    decreases n, 0
  {
    var value := n.fields[key];
    if key in {"properties", "$defs"} && value.Obj? then
      Obj(map name | name in value.fields :: Convert(value.fields[name], keeps))
    else if key in {"items", "anyOf"} then Convert(value, keeps)
    else value
  }

  function TransportSchema(schema: Json, d: Dialect): Json {
    if Keeps(d).None? || !schema.Obj? then schema else Convert(schema, Keeps(d).value)
  }

  // ---------- validity ----------

  /** Equality of JSON values: numbers by value, a boolean never equals a number. */
  ghost predicate Same(a: Json, b: Json)
    decreases a
  {
    match a
    case Int(i) => (b.Int? && b.i == i) || (b.Float? && b.r == i as real)
    case Float(r) => (b.Float? && b.r == r) || (b.Int? && b.i as real == r)
    case Arr(items) => b.Arr? && |b.items| == |items| && forall k | 0 <= k < |items| :: Same(items[k], b.items[k])
    case Obj(f) => b.Obj? && b.fields.Keys == f.Keys && forall name | name in f :: Same(f[name], b.fields[name])
    case _ => a == b
  }

  /** Section 6.1.1 of JSON Schema Validation: a number with a zero fraction is an integer. */
  predicate HasType(v: Json, t: string) {
    match v
    case Null => t == "null"
    case Bool(_) => t == "boolean"
    case Int(_) => t == "integer" || t == "number"
    case Float(r) => t == "number" || (t == "integer" && r.Floor as real == r)
    case Str(_) => t == "string"
    case Arr(_) => t == "array"
    case Obj(_) => t == "object"
  }

  type Others = (map<string, Json>, Json) -> bool

  ghost predicate TypeOk(f: map<string, Json>, v: Json) {
    "type" in f ==>
      match f["type"]
      case Str(t) => HasType(v, t)
      case Arr(ts) => exists k | 0 <= k < |ts| :: ts[k].Str? && HasType(v, ts[k].s)
      case _ => true
  }

  ghost predicate EnumOk(f: map<string, Json>, v: Json) {
    "enum" in f && f["enum"].Arr? ==> exists k | 0 <= k < |f["enum"].items| :: Same(f["enum"].items[k], v)
  }

  ghost predicate ConstOk(f: map<string, Json>, v: Json) {
    "const" in f ==> Same(f["const"], v)
  }

  ghost predicate RequiredOk(f: map<string, Json>, v: Json) {
    "required" in f && f["required"].Arr? && v.Obj? ==>
      forall k | 0 <= k < |f["required"].items| && f["required"].items[k].Str? :: f["required"].items[k].s in v.fields
  }

  /** The names `properties` describes. */
  function Declared(f: map<string, Json>): set<string> {
    if "properties" in f && f["properties"].Obj? then f["properties"].fields.Keys else {}
  }

  /** How many leading items `prefixItems` describes; `items` is about the others. */
  function PrefixLength(f: map<string, Json>): nat {
    if "prefixItems" in f && f["prefixItems"].Arr? then |f["prefixItems"].items| else 0
  }

  /** `v` is valid under the schema `n`. */
  ghost predicate Valid(n: Json, v: Json, other: Others)
    decreases n, 1
  {
    match n
    case Bool(b) => b
    case Obj(f) =>
      && TypeOk(f, v) && EnumOk(f, v) && ConstOk(f, v) && RequiredOk(f, v)
      && PropertiesOk(n, v, other) && ItemsOk(n, v, other) && AnyOfOk(n, v, other) && AdditionalOk(n, v, other)
      && other(f, v)
    case _ => true
  }

  ghost predicate PropertiesOk(n: Json, v: Json, other: Others)
    requires n.Obj?
    decreases n, 0
  {
    "properties" in n.fields && n.fields["properties"].Obj? && v.Obj? ==>
      var ps := n.fields["properties"].fields;
      forall name | name in ps && name in v.fields :: Valid(ps[name], v.fields[name], other)
  }

  ghost predicate ItemsOk(n: Json, v: Json, other: Others)
    requires n.Obj?
    decreases n, 0
  {
    "items" in n.fields && v.Arr? ==>
      forall k | PrefixLength(n.fields) <= k < |v.items| :: Valid(n.fields["items"], v.items[k], other)
  }

  ghost predicate AnyOfOk(n: Json, v: Json, other: Others)
    requires n.Obj?
    decreases n, 0
  {
    "anyOf" in n.fields && n.fields["anyOf"].Arr? ==>
      var ss := n.fields["anyOf"].items;
      exists k | 0 <= k < |ss| :: Valid(ss[k], v, other)
  }

  ghost predicate AdditionalOk(n: Json, v: Json, other: Others)
    requires n.Obj?
    decreases n, 0
  {
    "additionalProperties" in n.fields && v.Obj? ==>
      forall name | name in v.fields && name !in Declared(n.fields) ::
        Valid(n.fields["additionalProperties"], v.fields[name], other)
  }

  /** Without a keyword of its own, `other` asks nothing. */
  ghost predicate Silent(other: Others) {
    forall f: map<string, Json>, v: Json :: f.Keys <= SHAPE + {"additionalProperties"} - {"$ref"} ==> other(f, v)
  }

  /**
   The admitted fragment: no `$ref` (refused at fair/schemas/api.py:96), and no node that
   splits its items between a `prefixItems` that describes some and an `items` that asks
   for anything.
   */
  ghost predicate Fragment(n: Json)
    decreases n
  {
    match n
    case Arr(items) => forall k | 0 <= k < |items| :: Fragment(items[k])
    case Obj(f) =>
      && "$ref" !in f && !("items" in f && PrefixLength(f) > 0 && f["items"] != Bool(true))
      && ("properties" in f && f["properties"].Obj? ==>
            var ps := f["properties"].fields; forall name | name in ps :: Fragment(ps[name]))
      && ("items" in f ==> Fragment(f["items"]))
      && ("anyOf" in f ==> Fragment(f["anyOf"]))
    case _ => true
  }

  // ---------- relaxation ----------

  lemma {:induction false} ConvertedFields(n: Json, keeps: set<string>)
    requires n.Obj?
    ensures Convert(n, keeps).Obj?
    ensures var f, g := n.fields, Convert(n, keeps).fields;
            && (forall key | key in f && key != "const" && key in keeps :: key in g && g[key] == Carried(n, key, keeps))
            && (forall key | key in g && !(key in f && key != "const" && key in keeps) ::
                  key in FromConst(f) && g[key] == FromConst(f)[key])
            && FromConst(f).Keys <= g.Keys
  {
  }

  lemma {:induction false} Relaxes(n: Json, keeps: set<string>, v: Json, other: Others)
    requires SHAPE <= keeps <= SHAPE + {"additionalProperties"} && Silent(other)
    requires Fragment(n) && Valid(n, v, other)
    ensures Valid(Convert(n, keeps), v, other)
    decreases n
  {
    if n.Obj? {
      hide Convert, Carried;
      ConvertedFields(n, keeps);
      var f := n.fields;
      var m := Convert(n, keeps);
      assert m.fields.Keys <= SHAPE + {"additionalProperties"} - {"$ref"};
      TypeRelaxes(n, keeps, v);
      EnumRelaxes(n, keeps, v);
      RequiredRelaxes(n, keeps, v);
      PropertiesRelax(n, keeps, v, other);
      ItemsRelax(n, keeps, v, other);
      AnyOfRelax(n, keeps, v, other);
      AdditionalRelax(n, keeps, v, other);
    }
  }

  /** Keywords whose value is plain data travel as they are. */
  lemma {:induction false} DataCarried(n: Json, key: string, keeps: set<string>)
    requires n.Obj? && key in n.fields && key !in {"properties", "$defs", "items", "anyOf"}
    ensures Carried(n, key, keeps) == n.fields[key]
  {
  }

  lemma {:induction false} TypeRelaxes(n: Json, keeps: set<string>, v: Json)
    requires n.Obj? && SHAPE <= keeps && TypeOk(n.fields, v) && ConstOk(n.fields, v)
    ensures TypeOk(Convert(n, keeps).fields, v)
  {
    hide Convert, Carried;
    ConvertedFields(n, keeps);
    var f := n.fields;
    if "type" in f {
      DataCarried(n, "type", keeps);
    } else if "type" in Convert(n, keeps).fields {
      assert HasType(v, ConstType(f["const"]).value);
    }
  }

  lemma {:induction false} EnumRelaxes(n: Json, keeps: set<string>, v: Json)
    requires n.Obj? && SHAPE <= keeps && EnumOk(n.fields, v) && ConstOk(n.fields, v)
    ensures EnumOk(Convert(n, keeps).fields, v)
  {
    hide Convert, Carried, ConstType;
    ConvertedFields(n, keeps);
    var f, g := n.fields, Convert(n, keeps).fields;
    if "enum" in f {
      DataCarried(n, "enum", keeps);
    } else if "const" in f {
      assert g["enum"] == Arr([f["const"]]);
      assert g["enum"].items[0] == f["const"];
    }
  }

  lemma {:induction false} RequiredRelaxes(n: Json, keeps: set<string>, v: Json)
    requires n.Obj? && SHAPE <= keeps && RequiredOk(n.fields, v)
    ensures RequiredOk(Convert(n, keeps).fields, v) && ConstOk(Convert(n, keeps).fields, v)
  {
    hide Convert, Carried, ConstType;
    ConvertedFields(n, keeps);
    if "required" in n.fields {
      DataCarried(n, "required", keeps);
    }
  }

  lemma {:induction false} PropertiesRelax(n: Json, keeps: set<string>, v: Json, other: Others)
    requires SHAPE <= keeps <= SHAPE + {"additionalProperties"} && Silent(other)
    requires n.Obj? && Fragment(n) && PropertiesOk(n, v, other)
    ensures PropertiesOk(Convert(n, keeps), v, other)
    decreases n, 0
  {
    ConvertedFields(n, keeps);
    var f, g := n.fields, Convert(n, keeps).fields;
    if "properties" in f && f["properties"].Obj? && v.Obj? {
      var ps := f["properties"].fields;
      forall name | name in ps && name in v.fields ensures Valid(Convert(ps[name], keeps), v.fields[name], other) {
        Relaxes(ps[name], keeps, v.fields[name], other);
      }
    }
  }

  lemma {:induction false} ItemsRelax(n: Json, keeps: set<string>, v: Json, other: Others)
    requires SHAPE <= keeps <= SHAPE + {"additionalProperties"} && Silent(other)
    requires n.Obj? && Fragment(n) && ItemsOk(n, v, other)
    ensures ItemsOk(Convert(n, keeps), v, other)
    decreases n, 0
  {
    ConvertedFields(n, keeps);
    var f := n.fields;
    if "items" in f && v.Arr? {
      forall k | 0 <= k < |v.items| ensures Valid(Convert(f["items"], keeps), v.items[k], other) {
        Relaxes(f["items"], keeps, v.items[k], other);
      }
    }
  }

  lemma {:induction false} AnyOfRelax(n: Json, keeps: set<string>, v: Json, other: Others)
    requires SHAPE <= keeps <= SHAPE + {"additionalProperties"} && Silent(other)
    requires n.Obj? && Fragment(n) && AnyOfOk(n, v, other)
    ensures AnyOfOk(Convert(n, keeps), v, other)
    decreases n, 0
  {
    hide Valid;
    ConvertedFields(n, keeps);
    var f, g := n.fields, Convert(n, keeps).fields;
    if "anyOf" in f {
      assert g["anyOf"] == Convert(f["anyOf"], keeps);
      if f["anyOf"].Arr? {
        var ss, ts := f["anyOf"].items, g["anyOf"].items;
        var k :| 0 <= k < |ss| && Valid(ss[k], v, other);
        Relaxes(ss[k], keeps, v, other);
        assert ts[k] == Convert(ss[k], keeps);
      }
    }
  }

  lemma {:induction false} AdditionalRelax(n: Json, keeps: set<string>, v: Json, other: Others)
    requires SHAPE <= keeps && n.Obj? && AdditionalOk(n, v, other)
    ensures AdditionalOk(Convert(n, keeps), v, other)
  {
    ConvertedFields(n, keeps);
    assert Declared(Convert(n, keeps).fields) == Declared(n.fields);
  }

  /** Whatever the caller's schema accepts, the transported schema accepts, in every dialect. */
  lemma {:induction false} TransportRelaxes(schema: Json, d: Dialect, v: Json, other: Others)
    requires Silent(other) && Fragment(schema) && Valid(schema, v, other)
    ensures Valid(TransportSchema(schema, d), v, other)
  {
    if Keeps(d).Some? && schema.Obj? {
      Relaxes(schema, Keeps(d).value, v, other);
    }
  }

  const OF_STRINGS := Obj(map["type" := Str("string")])
  const OF_INTEGERS := Obj(map["type" := Str("integer")])
  const HEADED := Obj(map["prefixItems" := Arr([OF_STRINGS]), "items" := OF_INTEGERS])

  /**
   Outside the fragment it can fail: `HEADED` accepts a string followed by integers, as its
   `prefixItems` (part of `other`) does too, and dropping that keyword gives `items` the string.
   */
  lemma {:induction false} PrefixItemsBreakIt(d: Dialect, other: Others)
    requires d != JsonSchema && Silent(other) && other(HEADED.fields, HEADED_LIST)
    ensures !Fragment(HEADED) && Valid(HEADED, HEADED_LIST, other)
    ensures !Valid(TransportSchema(HEADED, d), HEADED_LIST, other)
  {
    hide Convert, Carried;
    HeadedAccepts(other);
    var keeps := Keeps(d).value;
    StringsRefused(keeps, other);
    ConvertedFields(HEADED, keeps);
    var g := Convert(HEADED, keeps).fields;
    assert "prefixItems" !in g;
    assert g["items"] == Convert(OF_INTEGERS, keeps) by { ItemsCarried(keeps); }
    assert !Valid(g["items"], HEADED_LIST.items[0], other);
    assert !ItemsOk(Convert(HEADED, keeps), HEADED_LIST, other);
  }

  lemma {:induction false} ItemsCarried(keeps: set<string>)
    ensures Carried(HEADED, "items", keeps) == Convert(OF_INTEGERS, keeps)
  {
    hide Convert;
  }

  const HEADED_LIST := Arr([Str("head"), Int(1)])

  lemma {:induction false} HeadedAccepts(other: Others)
    requires Silent(other) && other(HEADED.fields, HEADED_LIST)
    ensures Valid(HEADED, HEADED_LIST, other)
  {
    assert OF_INTEGERS.fields.Keys == {"type"};
    assert Valid(OF_INTEGERS, HEADED_LIST.items[1], other);
    assert ItemsOk(HEADED, HEADED_LIST, other);
  }

  lemma {:induction false} StringsRefused(keeps: set<string>, other: Others)
    requires SHAPE <= keeps
    ensures !Valid(Convert(OF_INTEGERS, keeps), Str("head"), other)
  {
    hide Convert, Carried;
    ConvertedFields(OF_INTEGERS, keeps);
    DataCarried(OF_INTEGERS, "type", keeps);
    assert Convert(OF_INTEGERS, keeps).fields["type"] == Str("integer");
  }

  // ---------- idempotence ----------

  lemma {:induction false} ConvertTwice(n: Json, keeps: set<string>)
    requires SHAPE <= keeps
    ensures Convert(Convert(n, keeps), keeps) == Convert(n, keeps)
    decreases n
  {
    match n
    case Arr(items) =>
      forall k | 0 <= k < |items| ensures Convert(Convert(items[k], keeps), keeps) == Convert(items[k], keeps) {
        ConvertTwice(items[k], keeps);
      }
    case Obj(f) => NodeTwice(n, keeps);
    case _ =>
  }

  lemma {:induction false} NodeTwice(n: Json, keeps: set<string>)
    requires SHAPE <= keeps && n.Obj?
    ensures Convert(Convert(n, keeps), keeps) == Convert(n, keeps)
    decreases n, 1
  {
    hide Convert, Carried, ConstType;
    ConvertedFields(n, keeps);
    var m := Convert(n, keeps);
    ConvertedFields(m, keeps);
    assert FromConst(m.fields) == map[];
    assert m.fields.Keys <= keeps by { ConvertedKeys(n, keeps); }
    assert Convert(m, keeps).fields.Keys == m.fields.Keys;
    forall key | key in m.fields ensures Convert(m, keeps).fields[key] == m.fields[key] {
      CarriedTwice(n, key, keeps);
    }
    assert Convert(m, keeps).fields == m.fields;
  }

  lemma {:induction false} ConvertedKeys(n: Json, keeps: set<string>)
    requires SHAPE <= keeps && n.Obj?
    ensures Convert(n, keeps).fields.Keys <= keeps && "const" !in Convert(n, keeps).fields
  {
    hide Convert, Carried, ConstType;
    ConvertedFields(n, keeps);
  }

  lemma {:induction false} CarriedTwice(n: Json, key: string, keeps: set<string>)
    requires SHAPE <= keeps && n.Obj? && key in Convert(n, keeps).fields
    ensures Carried(Convert(n, keeps), key, keeps) == Convert(n, keeps).fields[key]
    decreases n, 0
  {
    ConvertedFields(n, keeps);
    var f := n.fields;
    if key in f && key != "const" && key in keeps {
      var value := f[key];
      if key in {"properties", "$defs"} && value.Obj? {
        forall name | name in value.fields
          ensures Convert(Convert(value.fields[name], keeps), keeps) == Convert(value.fields[name], keeps)
        {
          ConvertTwice(value.fields[name], keeps);
        }
      } else if key in {"items", "anyOf"} {
        ConvertTwice(value, keeps);
      }
    }
  }

  lemma {:induction false} TransportTwice(schema: Json, d: Dialect)
    ensures TransportSchema(TransportSchema(schema, d), d) == TransportSchema(schema, d)
  {
    if Keeps(d).Some? && schema.Obj? {
      ConvertTwice(schema, Keeps(d).value);
    }
  }

  // ---------- every node of the copy ----------

  /** A step from a schema to one inside it. */
  datatype Inward = Property(name: string) | Definition(name: string) | Item | Choice(k: nat)

  function Inside(n: Json, step: Inward): Option<Json> {
    if !n.Obj? then None
    else
      match step
      case Property(name) =>
        if "properties" in n.fields && n.fields["properties"].Obj? && name in n.fields["properties"].fields
        then Some(n.fields["properties"].fields[name]) else None
      case Definition(name) =>
        if "$defs" in n.fields && n.fields["$defs"].Obj? && name in n.fields["$defs"].fields
        then Some(n.fields["$defs"].fields[name]) else None
      case Item => if "items" in n.fields then Some(n.fields["items"]) else None
      case Choice(k) =>
        if "anyOf" in n.fields && n.fields["anyOf"].Arr? && k < |n.fields["anyOf"].items|
        then Some(n.fields["anyOf"].items[k]) else None
  }

  function Node(n: Json, path: seq<Inward>): Option<Json>
    decreases |path|
  {
    if path == [] then Some(n)
    else
      var next := Inside(n, path[0]);
      if next.None? then None else Node(next.value, path[1..])
  }

  lemma {:induction false} ConvertInside(n: Json, step: Inward, keeps: set<string>)
    requires SHAPE <= keeps
    ensures Inside(Convert(n, keeps), step) ==
            if Inside(n, step).None? then None else Some(Convert(Inside(n, step).value, keeps))
  {
    if n.Obj? {
      hide Convert, ConstType;
      ConvertedFields(n, keeps);
      match step
      case Choice(k) =>
        if "anyOf" in n.fields {
          ConvertItems(n.fields["anyOf"], keeps);
        }
      case Item =>
      case Property(_) => DefinitionsCarried(n, "properties", keeps);
      case Definition(_) => DefinitionsCarried(n, "$defs", keeps);
    } else {
      NoFields(n, keeps);
    }
  }

  lemma {:induction false} NoFields(n: Json, keeps: set<string>)
    requires !n.Obj?
    ensures !Convert(n, keeps).Obj?
  {
  }

  lemma {:induction false} DefinitionsCarried(n: Json, key: string, keeps: set<string>)
    requires n.Obj? && key in {"properties", "$defs"}
    ensures key in n.fields ==>
              var value, carried := n.fields[key], Carried(n, key, keeps);
              && (carried.Obj? <==> value.Obj?)
              && (value.Obj? ==> carried.fields.Keys == value.fields.Keys
                                 && forall name <- value.fields :: carried.fields[name] == Convert(value.fields[name], keeps))
  {
    hide Convert;
  }

  lemma {:induction false} ConvertItems(n: Json, keeps: set<string>)
    ensures Convert(n, keeps).Arr? <==> n.Arr?
    ensures n.Arr? ==> |Convert(n, keeps).items| == |n.items|
                       && forall k | 0 <= k < |n.items| :: Convert(n, keeps).items[k] == Convert(n.items[k], keeps)
  {
  }

  lemma {:induction false} ConvertNode(n: Json, path: seq<Inward>, keeps: set<string>)
    requires SHAPE <= keeps
    ensures Node(Convert(n, keeps), path) == if Node(n, path).None? then None else Some(Convert(Node(n, path).value, keeps))
    decreases |path|
  {
    hide Convert, Inside;
    if path != [] {
      ConvertInside(n, path[0], keeps);
      if Inside(n, path[0]).Some? {
        ConvertNode(Inside(n, path[0]).value, path[1..], keeps);
      }
    }
  }

  /** The type a `const` is known to have. */
  function KnownType(v: Json): set<string> {
    if v.Bool? then {"boolean"} else if v.Int? then {"integer"} else if v.Float? then {"number"} else if v.Str? then {"string"} else {}
  }

  /** A node of the copy beside the node it was made from. */
  ghost predicate Copied(f: map<string, Json>, g: map<string, Json>, travels: set<string>) {
    && (forall key | key in travels && key in f :: key in g)
    && (forall key | key in g :: (key in travels && key in f) || ("const" in f && "enum" !in f && key in {"enum", "type"}))
    && (forall key | key in f && key in g && key in {"type", "enum", "required", "description", "$ref", "additionalProperties"} :: g[key] == f[key])
    && ("const" in f && "enum" !in f ==>
          "enum" in g && g["enum"] == Arr([f["const"]])
          && ("type" !in f ==> if "type" in g then g["type"].Str? && KnownType(f["const"]) == {g["type"].s} else KnownType(f["const"]) == {}))
  }

  /** What travels in a dialect; `const` travels as an `enum`. */
  function Travels(d: Dialect): set<string>
    requires d != JsonSchema
  {
    {"type", "properties", "required", "items", "enum", "description", "anyOf", "$ref", "$defs"}
    + if d == OpenAiStrict then {"additionalProperties"} else {}
  }

  /**
   At every place of a schema: the copy has a node there exactly if the schema has, with exactly
   the keywords the dialect keeps, plain values unchanged, and an `enum` of one where only
   a `const` stood.
   */
  lemma {:induction false} NodesAreCopied(schema: Json, d: Dialect, path: seq<Inward>)
    requires d != JsonSchema && schema.Obj?
    ensures var node, copied := Node(schema, path), Node(TransportSchema(schema, d), path);
            && (node.Some? <==> copied.Some?)
            && (node.Some? && node.value.Obj? ==> copied.value.Obj? && Copied(node.value.fields, copied.value.fields, Travels(d)))
            && (node.Some? && !node.value.Obj? && !node.value.Arr? ==> copied == node)
  {
    var keeps := Keeps(d).value;
    ConvertNode(schema, path, keeps);
    assert keeps == Travels(d);
    if Node(schema, path).Some? && Node(schema, path).value.Obj? {
      NodeCopied(Node(schema, path).value, keeps);
    }
  }

  lemma {:induction false} NodeCopied(n: Json, keeps: set<string>)
    requires n.Obj? && SHAPE <= keeps && "const" !in keeps
    ensures Convert(n, keeps).Obj? && Copied(n.fields, Convert(n, keeps).fields, keeps)
  {
    hide Convert, Carried, ConstType;
    ConvertedFields(n, keeps);
    var f, g := n.fields, Convert(n, keeps).fields;
    forall key | key in f && key in g && key in {"type", "enum", "required", "description", "$ref", "additionalProperties"}
      ensures g[key] == f[key]
    {
      DataCarried(n, key, keeps);
      assert key != "const";
    }
    if "const" in f {
      TypeIsKnown(f["const"]);
    }
  }

  lemma {:induction false} TypeIsKnown(v: Json)
    ensures KnownType(v) == if ConstType(v).Some? then {ConstType(v).value} else {}
  {
  }

  // ---------- where nothing is dropped ----------

  /** `other` says nothing about nodes whose keywords all have their meaning above. */
  ghost predicate Quiet(other: Others) {
    forall f: map<string, Json>, v: Json :: f.Keys <= SHAPE + {"additionalProperties", "const"} - {"$ref"} ==> other(f, v)
  }

  /** A `const` beside an `enum` says nothing the `enum` does not. */
  ghost predicate ConstTravels(f: map<string, Json>) {
    "const" in f && "enum" in f ==>
      f["enum"].Arr? && forall k | 0 <= k < |f["enum"].items| :: Same(f["const"], f["enum"].items[k])
  }

  /** Every node uses only what travels, and `const`. */
  ghost predicate Expressible(n: Json, travels: set<string>)
    decreases n
  {
    match n
    case Arr(items) => forall k | 0 <= k < |items| :: Expressible(items[k], travels)
    case Obj(f) =>
      && f.Keys <= travels + {"const"} - {"$ref"} && ConstTravels(f)
      && ("properties" in f && f["properties"].Obj? ==>
            var ps := f["properties"].fields; forall name | name in ps :: Expressible(ps[name], travels))
      && ("items" in f ==> Expressible(f["items"], travels))
      && ("anyOf" in f ==> Expressible(f["anyOf"], travels))
    case _ => true
  }

  lemma {:induction false} ExpressibleIsFragment(n: Json, travels: set<string>)
    requires Expressible(n, travels) && travels <= SHAPE + {"additionalProperties"}
    ensures Fragment(n)
    decreases n
  {
    match n
    case Arr(items) =>
      forall k | 0 <= k < |items| ensures Fragment(items[k]) {
        ExpressibleIsFragment(items[k], travels);
      }
    case Obj(f) =>
      assert PrefixLength(f) == 0;
      if "properties" in f && f["properties"].Obj? {
        var ps := f["properties"].fields;
        forall name | name in ps ensures Fragment(ps[name]) {
          ExpressibleIsFragment(ps[name], travels);
        }
      }
      if "items" in f {
        ExpressibleIsFragment(f["items"], travels);
      }
      if "anyOf" in f {
        ExpressibleIsFragment(f["anyOf"], travels);
      }
    case _ =>
  }

  lemma {:induction false} SameTransitive(a: Json, b: Json, c: Json)
    requires Same(a, b) && Same(b, c)
    ensures Same(a, c)
    decreases a
  {
    match a
    case Arr(items) =>
      forall k | 0 <= k < |items| ensures Same(items[k], c.items[k]) {
        SameTransitive(items[k], b.items[k], c.items[k]);
      }
    case Obj(f) =>
      forall name | name in f ensures Same(f[name], c.fields[name]) {
        SameTransitive(f[name], b.fields[name], c.fields[name]);
      }
    case _ =>
  }

  lemma {:induction false} Tightens(n: Json, keeps: set<string>, v: Json, other: Others)
    requires SHAPE <= keeps <= SHAPE + {"additionalProperties"} && Quiet(other)
    requires Expressible(n, keeps) && Valid(Convert(n, keeps), v, other)
    ensures Valid(n, v, other)
    decreases n
  {
    if n.Obj? {
      hide Convert, Carried;
      ConvertedFields(n, keeps);
      DataTightens(n, keeps, v);
      PropertiesTighten(n, keeps, v, other);
      ItemsTighten(n, keeps, v, other);
      AnyOfTightens(n, keeps, v, other);
      AdditionalTightens(n, keeps, v, other);
    } else {
      Unchanged(n, keeps);
    }
  }

  lemma {:induction false} Unchanged(n: Json, keeps: set<string>)
    requires !n.Obj?
    ensures Convert(n, keeps).Bool? || n.Bool? ==> Convert(n, keeps) == n
    ensures !Convert(n, keeps).Obj?
  {
  }

  lemma {:induction false} DataTightens(n: Json, keeps: set<string>, v: Json)
    requires n.Obj? && SHAPE <= keeps && n.fields.Keys <= keeps + {"const"} && ConstTravels(n.fields)
    requires var g := Convert(n, keeps).fields; TypeOk(g, v) && EnumOk(g, v) && RequiredOk(g, v)
    ensures var f := n.fields; TypeOk(f, v) && EnumOk(f, v) && ConstOk(f, v) && RequiredOk(f, v)
  {
    hide Convert, Carried, ConstType, Same, HasType;
    ConvertedFields(n, keeps);
    var f, g := n.fields, Convert(n, keeps).fields;
    forall key | key in f && key in {"type", "enum", "required"} ensures key in g && g[key] == f[key] {
      DataCarried(n, key, keeps);
    }
    if "const" in f {
      assert "enum" in g && g["enum"].Arr?;
      var k :| 0 <= k < |g["enum"].items| && Same(g["enum"].items[k], v);
      if "enum" in f {
        SameTransitive(f["const"], f["enum"].items[k], v);
      }
    }
  }

  lemma {:induction false} PropertiesTighten(n: Json, keeps: set<string>, v: Json, other: Others)
    requires SHAPE <= keeps <= SHAPE + {"additionalProperties"} && Quiet(other)
    requires n.Obj? && Expressible(n, keeps) && PropertiesOk(Convert(n, keeps), v, other)
    ensures PropertiesOk(n, v, other)
    decreases n, 0
  {
    hide Convert;
    ConvertedFields(n, keeps);
    DefinitionsCarried(n, "properties", keeps);
    var f, g := n.fields, Convert(n, keeps).fields;
    if "properties" in f && f["properties"].Obj? && v.Obj? {
      var ps := f["properties"].fields;
      forall name | name in ps && name in v.fields ensures Valid(ps[name], v.fields[name], other) {
        assert name in g["properties"].fields;
        Tightens(ps[name], keeps, v.fields[name], other);
      }
    }
  }

  lemma {:induction false} ItemsTighten(n: Json, keeps: set<string>, v: Json, other: Others)
    requires SHAPE <= keeps <= SHAPE + {"additionalProperties"} && Quiet(other)
    requires n.Obj? && Expressible(n, keeps) && ItemsOk(Convert(n, keeps), v, other)
    ensures ItemsOk(n, v, other)
    decreases n, 0
  {
    hide Convert;
    ConvertedFields(n, keeps);
    var f := n.fields;
    assert PrefixLength(Convert(n, keeps).fields) == 0;
    if "items" in f && v.Arr? {
      forall k | 0 <= k < |v.items| ensures Valid(f["items"], v.items[k], other) {
        Tightens(f["items"], keeps, v.items[k], other);
      }
    }
  }

  lemma {:induction false} AnyOfTightens(n: Json, keeps: set<string>, v: Json, other: Others)
    requires SHAPE <= keeps <= SHAPE + {"additionalProperties"} && Quiet(other)
    requires n.Obj? && Expressible(n, keeps) && AnyOfOk(Convert(n, keeps), v, other)
    ensures AnyOfOk(n, v, other)
    decreases n, 0
  {
    hide Valid, Convert;
    ConvertedFields(n, keeps);
    var f, g := n.fields, Convert(n, keeps).fields;
    if "anyOf" in f && f["anyOf"].Arr? {
      ConvertItems(f["anyOf"], keeps);
      var ss, ts := f["anyOf"].items, g["anyOf"].items;
      var k :| 0 <= k < |ts| && Valid(ts[k], v, other);
      Tightens(ss[k], keeps, v, other);
    }
  }

  lemma {:induction false} AdditionalTightens(n: Json, keeps: set<string>, v: Json, other: Others)
    requires SHAPE <= keeps && n.Obj? && n.fields.Keys <= keeps + {"const"} && AdditionalOk(Convert(n, keeps), v, other)
    ensures AdditionalOk(n, v, other)
  {
    ConvertedFields(n, keeps);
    assert Declared(Convert(n, keeps).fields) == Declared(n.fields);
  }

  /**
   Where a schema uses only what the dialect keeps, `const` included, the copy asks exactly
   what the schema asks: every answer is valid under the one if and only if it is valid under the other.
   */
  lemma {:induction false} CopyMeansTheSame(schema: Json, d: Dialect, v: Json, other: Others)
    requires d != JsonSchema && Quiet(other) && Expressible(schema, Travels(d))
    ensures Valid(TransportSchema(schema, d), v, other) <==> Valid(schema, v, other)
  {
    var keeps := Keeps(d).value;
    assert keeps == Travels(d);
    assert Silent(other);
    ExpressibleIsFragment(schema, keeps);
    if Valid(schema, v, other) {
      TransportRelaxes(schema, d, v, other);
    }
    if schema.Obj? && Valid(TransportSchema(schema, d), v, other) {
      Tightens(schema, keeps, v, other);
    }
  }

  /** A dialect that takes a schema as it is gets it as it is. */
  lemma {:induction false} SentAsItIs(schema: Json, d: Dialect)
    requires d == JsonSchema || !schema.Obj?
    ensures TransportSchema(schema, d) == schema
  {
  }

  lemma {:induction false} SameItself(a: Json)
    ensures Same(a, a)
    decreases a
  {
    match a
    case Arr(items) =>
      forall k | 0 <= k < |items| ensures Same(items[k], items[k]) {
        SameItself(items[k]);
      }
    case Obj(f) =>
      forall name | name in f ensures Same(f[name], f[name]) {
        SameItself(f[name]);
      }
    case _ =>
  }

  function Both(c: Json, items: seq<Json>): Json { Obj(map["const" := c, "enum" := Arr(items)]) }

  /** A schema and its copy accept the same answers. */
  ghost predicate SameAnswers(schema: Json, d: Dialect, other: Others) {
    forall v :: Valid(TransportSchema(schema, d), v, other) <==> Valid(schema, v, other)
  }

  /** Dropping a `const` beside an `enum` loses nothing exactly if every value of the `enum` is the `const`. */
  lemma {:induction false} ConstBesideEnum(c: Json, items: seq<Json>, d: Dialect, other: Others)
    requires d != JsonSchema && Quiet(other)
    ensures SameAnswers(Both(c, items), d, other) <==> forall k | 0 <= k < |items| :: Same(c, items[k])
  {
    hide Same, Convert;
    var n := Both(c, items);
    var keeps := Keeps(d).value;
    if forall k | 0 <= k < |items| :: Same(c, items[k]) {
      assert Expressible(n, Travels(d));
      forall v ensures Valid(TransportSchema(n, d), v, other) <==> Valid(n, v, other) {
        CopyMeansTheSame(n, d, v, other);
      }
    } else {
      var k :| 0 <= k < |items| && !Same(c, items[k]);
      SameItself(items[k]);
      OnlyEnum(c, items, keeps);
      assert Valid(TransportSchema(n, d), items[k], other);
      assert !Valid(n, items[k], other);
    }
  }

  lemma {:induction false} OnlyEnum(c: Json, items: seq<Json>, keeps: set<string>)
    requires SHAPE <= keeps
    ensures Convert(Both(c, items), keeps) == Obj(map["enum" := Arr(items)])
  {
    hide Convert;
    var n := Both(c, items);
    ConvertedFields(n, keeps);
    ConvertedKeys(n, keeps);
    DataCarried(n, "enum", keeps);
    assert FromConst(n.fields) == map[];
    assert Convert(n, keeps).fields.Keys == {"enum"};
  }
}
