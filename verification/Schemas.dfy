/** JSON Schema generation over a graph of types, which may be cyclic. */
module Schemas {
  import opened Options
  import opened SchemaTags
  import opened Text

  type Id = nat

  datatype Field = Field(name: string, typ: Id, anonymous: bool, exported: bool, json: string, tag: string)

  datatype Type =
    | Str | Boolean | Integer(byte: bool) | Number | Interface | Unsupported
    | Pointer(elem: Id) | Slice(elem: Id) | Array(elem: Id) | Map(key: Id, elem: Id)
    | Struct(fields: seq<Field>)

  /** The types of a program, by identity. */
  type Graph = map<Id, Type>

  datatype Schema = Schema(
    typ: string, notes: Notes, properties: map<string, Schema>, required: seq<string>,
    items: Option<Schema>, additional: Option<Schema>)

  datatype Error = KeyNotString(key: Id) | NotSupported(typ: Id) | InField(name: string, error: Error)

  datatype Result = Ok(schema: Schema) | Err(error: Error)

  const ANY := Schema("", NONE, map[], [], None, None)

  function Plain(typ: string): Schema { ANY.(typ := typ) }

  // ----- the type graph ------------------------------------------------------------------

  predicate HasElem(t: Type) { t.Pointer? || t.Slice? || t.Array? || t.Map? }

  ghost predicate WellFormed(g: Graph) {
    forall t :: t in g ==>
      && (HasElem(g[t]) ==> g[t].elem in g)
      && (g[t].Map? ==> g[t].key in g)
      && (g[t].Struct? ==> forall i :: 0 <= i < |g[t].fields| ==> g[t].fields[i].typ in g)
  }

  /** The builder goes on to the element of t: not for bytes, which are a string, nor for a map
    * whose keys are not strings, which is an error. */
  predicate Descends(g: Graph, t: Id) {
    t in g && match g[t]
              case Pointer(_) => true
              case Array(_) => true
              case Slice(e) => !(e in g && g[e] == Integer(true))
              case Map(k, _) => !(k in g && g[k] != Str)
              case _ => false
  }

  /** Going on to elements from t, the builder is at a last type after n steps. */
  ghost predicate Ends(g: Graph, t: Id, n: nat)
    decreases n
  {
    t in g && if Descends(g, t) then n > 0 && Ends(g, g[t].elem, n - 1) else n == 0
  }

  /** Every chain of elements ends: cycles pass through a struct, or a type with no more to build. */
  ghost predicate Grounded(g: Graph) {
    WellFormed(g) && forall t :: t in g ==> exists n: nat :: Ends(g, t, n)
  }

  ghost function Depth(g: Graph, t: Id): (n: nat)
    requires Grounded(g) && t in g
    ensures Ends(g, t, n)
  {
    var n: nat :| Ends(g, t, n);
    n
  }

  lemma {:induction false} EndsOnce(g: Graph, t: Id, m: nat, n: nat)
    requires Ends(g, t, m) && Ends(g, t, n)
    ensures m == n
    decreases m
  {
    if m > 0 { EndsOnce(g, g[t].elem, m - 1, n - 1); }
  }

  lemma DepthDrops(g: Graph, t: Id)
    requires Grounded(g) && Descends(g, t)
    ensures g[t].elem in g && Depth(g, g[t].elem) < Depth(g, t)
  {
    EndsNext(g, t, Depth(g, t));
    hide Ends;
    EndsOnce(g, g[t].elem, Depth(g, g[t].elem), Depth(g, t) - 1);
  }

  lemma EndsNext(g: Graph, t: Id, n: nat)
    requires Ends(g, t, n) && Descends(g, t)
    ensures n > 0 && g[t].elem in g && Ends(g, g[t].elem, n - 1)
  {
  }

  function Structs(g: Graph): set<Id> { set t | t in g && g[t].Struct? }

  // ----- field names ---------------------------------------------------------------------

  datatype JsonName = Skip | Named(name: string, omitempty: bool)

  function NameOf(f: Field): JsonName {
    if f.json == "-" then Skip
    else
      var parts := Split(f.json, ',');
      Named(if parts[0] != "" then parts[0] else f.name, "omitempty" in parts[1..])
  }

  /** A field's name on the wire: a dash alone skips it; otherwise it is the tag up to its first comma, or the
    * field's own if that is empty. It may be omitted if "omitempty" is among the options after it. */
  lemma NameExact(f: Field)
    ensures NameOf(f) == Skip <==> f.json == "-"
    ensures f.json != "-" ==>
      var n, first := NameOf(f), Split(f.json, ',')[0];
      && ',' !in first && first <= f.json && (first == f.json || f.json[|first|] == ',')
      && n.name == (if first == "" then f.name else first)
      && (n.omitempty <==> exists a, b :: Between(f.json, ',', "omitempty", a, b))
  {
    FirstPart(f.json, ',');
    PartAfter(f.json, ',', "omitempty");
    hide Split, Between;
  }

  predicate Embedded(g: Graph, f: Field)
    requires f.typ in g
  {
    f.anonymous && g[f.typ].Struct? && f.json == ""
  }

  // ----- schemas by the structs on the path ----------------------------------------------

  const OPEN_OBJECT := Plain("object")
  const BYTES := Plain("string").(notes := NONE.(format := "byte"))

  function WithEmbedded(out: Schema, embedded: Schema): Schema {
    out.(properties := out.properties + embedded.properties, required := out.required + embedded.required)
  }

  function WithField(out: Schema, name: JsonName, prop: Schema, f: Field, pointer: bool): Schema
    requires name.Named?
  {
    out.(properties := out.properties[name.name := prop.(notes := Tagged(prop.notes, f.tag))],
         required := if name.omitempty || pointer then out.required else out.required + [name.name])
  }

  /** The schema of a type within the structs on the path to it. Recursion ends because each
    * struct entered leaves fewer to enter, and between structs the chain of elements ends. */
  function SchemaOf(g: Graph, t: Id, path: set<Id>): Result
    requires Grounded(g) && t in g
    decreases Structs(g) - path, 1, Depth(g, t)
  {
    match g[t]
    case Str => Ok(Plain("string"))
    case Boolean => Ok(Plain("boolean"))
    case Integer(_) => Ok(Plain("integer"))
    case Number => Ok(Plain("number"))
    case Interface => Ok(ANY)
    case Unsupported => Err(NotSupported(t))
    case Pointer(e) => DepthDrops(g, t); SchemaOf(g, e, path)
    case Struct(_) => StructSchema(g, t, path)
    case Array(e) => DepthDrops(g, t); ArrayOf(SchemaOf(g, e, path))
    case Slice(e) =>
      if g[e] == Integer(true) then Ok(BYTES) else DepthDrops(g, t); ArrayOf(SchemaOf(g, e, path))
    case Map(k, e) =>
      if g[k] != Str then Err(KeyNotString(k)) else DepthDrops(g, t); MapOf(SchemaOf(g, e, path))
  }

  function ArrayOf(r: Result): Result {
    match r
    case Err(_) => r
    case Ok(s) => Ok(Plain("array").(items := Some(s)))
  }

  function MapOf(r: Result): Result {
    match r
    case Err(_) => r
    case Ok(s) => Ok(Plain("object").(additional := Some(s)))
  }

  function StructSchema(g: Graph, t: Id, path: set<Id>): Result
    requires Grounded(g) && t in g && g[t].Struct?
    decreases Structs(g) - path, 0
  {
    if t in path then Ok(OPEN_OBJECT)
    else
      assert t in Structs(g) - path && t !in Structs(g) - (path + {t});
      FieldsSchema(g, g[t].fields, path + {t})
  }

  function FieldsSchema(g: Graph, fields: seq<Field>, path: set<Id>): Result
    requires Grounded(g) && forall i :: 0 <= i < |fields| ==> fields[i].typ in g
    decreases Structs(g) - path, 2, |fields|
  {
    if fields == [] then Ok(OPEN_OBJECT)
    else
      match FieldsSchema(g, fields[..|fields| - 1], path)
      case Err(e) => Err(e)
      case Ok(out) => FieldSchema(g, fields[|fields| - 1], path, out)
  }

  function FieldSchema(g: Graph, f: Field, path: set<Id>, out: Schema): Result
    requires Grounded(g) && f.typ in g
    decreases Structs(g) - path, 2, 0
  {
    if Embedded(g, f) then
      match StructSchema(g, f.typ, path)
      case Err(e) => Err(e)
      case Ok(embedded) => Ok(WithEmbedded(out, embedded))
    else if !f.exported || NameOf(f).Skip? then Ok(out)
    else
      match SchemaOf(g, f.typ, path)
      case Err(e) => Err(InField(f.name, e))
      case Ok(prop) => Ok(WithField(out, NameOf(f), prop, f, g[f.typ].Pointer?))
  }

  // ----- the builder ---------------------------------------------------------------------

  /** The structs being built, shared by the whole recursion. */
  class Seen {
    var types: set<Id>

    constructor ()
      ensures types == {}
    {
      types := {};
    }
  }

  method JsonNameOf(f: Field) returns (r: JsonName)
    ensures r == NameOf(f)
  {
    if f.json == "-" { return Skip; }
    var name, omitempty := f.name, false;
    var parts := Split(f.json, ',');
    if parts[0] != "" { name := parts[0]; }
    for i := 1 to |parts|
      invariant omitempty <==> "omitempty" in parts[1..i]
    {
      assert parts[1..i + 1] == parts[1..i] + [parts[i]];
      if parts[i] == "omitempty" { omitempty := true; }
    }
    assert parts[1..|parts|] == parts[1..];
    r := Named(name, omitempty);
  }

  method Dereference(g: Graph, root: Id, ghost path: set<Id>) returns (t: Id)
    requires Grounded(g) && root in g
    ensures t in g && !g[t].Pointer? && Depth(g, t) <= Depth(g, root)
    ensures SchemaOf(g, t, path) == SchemaOf(g, root, path)
  {
    hide Grounded;
    t := root;
    while g[t].Pointer?
      invariant t in g && Depth(g, t) <= Depth(g, root)
      invariant SchemaOf(g, t, path) == SchemaOf(g, root, path)
      decreases Depth(g, t)
    {
      DepthDrops(g, t);
      t := g[t].elem;
    }
  }

  /** The shared set is as it was on every return, also after an error, so building depends on
    * nothing but the structs on the path. */
  method Build(g: Graph, root: Id, seen: Seen) returns (r: Result)
    requires Grounded(g) && root in g
    modifies seen
    ensures seen.types == old(seen.types)
    ensures r == SchemaOf(g, root, old(seen.types))
    decreases Structs(g) - seen.types, 1, Depth(g, root)
  {
    hide Grounded, StructSchema;
    var t := Dereference(g, root, seen.types);
    match g[t] {
      case Str => return Ok(Plain("string"));
      case Boolean => return Ok(Plain("boolean"));
      case Integer(_) => return Ok(Plain("integer"));
      case Number => return Ok(Plain("number"));
      case Interface => return Ok(ANY);
      case Unsupported => return Err(NotSupported(t));
      case Struct(_) => r := BuildStruct(g, t, seen);
      case Slice(e) => r := BuildArray(g, t, seen);
      case Array(_) => r := BuildArray(g, t, seen);
      case Map(_, _) => r := BuildMap(g, t, seen);
    }
  }

  method BuildMap(g: Graph, t: Id, seen: Seen) returns (r: Result)
    requires Grounded(g) && t in g && g[t].Map?
    modifies seen
    ensures seen.types == old(seen.types)
    ensures r == SchemaOf(g, t, old(seen.types))
    decreases Structs(g) - seen.types, 1, Depth(g, t), 0
  {
    hide StructSchema;
    if g[g[t].key] != Str { return Err(KeyNotString(g[t].key)); }
    DepthDrops(g, t);
    r := Build(g, g[t].elem, seen);
    if r.Ok? { r := Ok(Plain("object").(additional := Some(r.schema))); }
  }

  method BuildArray(g: Graph, t: Id, seen: Seen) returns (r: Result)
    requires Grounded(g) && t in g && (g[t].Slice? || g[t].Array?)
    modifies seen
    ensures seen.types == old(seen.types)
    ensures r == SchemaOf(g, t, old(seen.types))
    decreases Structs(g) - seen.types, 1, Depth(g, t), 0
  {
    hide StructSchema;
    if g[t].Slice? && g[g[t].elem] == Integer(true) { return Ok(BYTES); }
    DepthDrops(g, t);
    r := Build(g, g[t].elem, seen);
    if r.Ok? { r := Ok(Plain("array").(items := Some(r.schema))); }
  }

  method BuildStruct(g: Graph, t: Id, seen: Seen) returns (r: Result)
    requires Grounded(g) && t in g && g[t].Struct?
    modifies seen
    ensures seen.types == old(seen.types)
    ensures r == StructSchema(g, t, old(seen.types))
    decreases Structs(g) - seen.types, 0
  {
    if t in seen.types { return Ok(OPEN_OBJECT); }
    assert t in Structs(g) - seen.types && t !in Structs(g) - (seen.types + {t});
    ghost var path := seen.types + {t};
    seen.types := seen.types + {t};
    var out, i, fields := OPEN_OBJECT, 0, g[t].fields;
    r := Ok(out);
    while i < |fields| && r.Ok?
      invariant i <= |fields| && seen.types == path
      invariant r == FieldsSchema(g, fields[..i], path)
      invariant r.Ok? ==> r.schema == out
    {
      assert fields[..i + 1][..i] == fields[..i];
      r := BuildField(g, fields[i], seen, out);
      if r.Ok? { out := r.schema; }
      i := i + 1;
    }
    FirstError(g, fields, i, path);
    seen.types := seen.types - {t};
  }

  // An error in a field is the struct's error, whatever the fields after it.
  lemma {:induction false} FirstError(g: Graph, fields: seq<Field>, n: nat, path: set<Id>)
    requires Grounded(g) && (forall i :: 0 <= i < |fields| ==> fields[i].typ in g) && n <= |fields|
    requires n == |fields| || FieldsSchema(g, fields[..n], path).Err?
    ensures FieldsSchema(g, fields[..n], path) == FieldsSchema(g, fields, path)
    decreases |fields|
  {
    if n == |fields| {
      assert fields[..n] == fields;
    } else {
      var before := fields[..|fields| - 1];
      assert before[..n] == fields[..n];
      FirstError(g, before, n, path);
    }
  }

  /** Copies an embedded struct's properties, in whatever order its map is walked. */
  method Merge(out: Schema, embedded: Schema) returns (r: Schema)
    ensures r == WithEmbedded(out, embedded)
  {
    var merged, left := out.properties, embedded.properties.Keys;
    while left != {}
      invariant left <= embedded.properties.Keys
      invariant merged == out.properties + (embedded.properties - left)
    {
      var name :| name in left;
      merged, left := merged[name := embedded.properties[name]], left - {name};
    }
    assert embedded.properties - {} == embedded.properties;
    r := out.(properties := merged, required := out.required + embedded.required);
  }

  method BuildField(g: Graph, f: Field, seen: Seen, out: Schema) returns (r: Result)
    requires Grounded(g) && f.typ in g
    modifies seen
    ensures seen.types == old(seen.types)
    ensures r == FieldSchema(g, f, old(seen.types), out)
    decreases Structs(g) - seen.types, 2
  {
    hide Grounded, SchemaOf, StructSchema, WithEmbedded, NameOf, Tagged;
    if f.anonymous && g[f.typ].Struct? && f.json == "" {
      r := BuildStruct(g, f.typ, seen);
      if r.Err? { return Err(r.error); }
      var merged := Merge(out, r.schema);
      return Ok(merged);
    }
    if !f.exported { return Ok(out); }
    var name := JsonNameOf(f);
    if name.Skip? { return Ok(out); }
    r := Build(g, f.typ, seen);
    if r.Err? { return Err(InField(f.name, r.error)); }
    var prop, properties, required := r.schema, out.properties, out.required;
    var notes := ApplyTag(prop.notes, f.tag);
    properties := properties[name.name := prop.(notes := notes)];
    if !name.omitempty && !g[f.typ].Pointer? { required := required + [name.name]; }
    r := Ok(out.(properties := properties, required := required));
  }

  /** The schema of a program's type; no type at all gives an empty object. */
  method BuildRoot(g: Graph, t: Option<Id>) returns (r: Result)
    requires Grounded(g) && (t.Some? ==> t.value in g)
    ensures t.None? ==> r == Ok(Schema("object", Notes("", [], ""), map[], [], None, None))
    ensures t.Some? ==> r == SchemaOf(g, t.value, {})
  {
    if t.None? { return Ok(OPEN_OBJECT); }
    var seen := new Seen();
    r := Build(g, t.value, seen);
  }

  // ----- required properties exist -------------------------------------------------------

  /** At every level, what is required is among the properties. */
  ghost predicate RequiredKnown(s: Schema) {
    && (forall name :: name in s.required ==> name in s.properties)
    && (forall name :: name in s.properties ==> RequiredKnown(s.properties[name]))
    && (s.items.Some? ==> RequiredKnown(s.items.value))
    && (s.additional.Some? ==> RequiredKnown(s.additional.value))
  }

  lemma EmbeddedRequired(out: Schema, embedded: Schema)
    requires RequiredKnown(out) && RequiredKnown(embedded)
    ensures RequiredKnown(WithEmbedded(out, embedded))
  {
  }

  lemma FieldRequired(out: Schema, name: JsonName, prop: Schema, f: Field, pointer: bool)
    requires RequiredKnown(out) && RequiredKnown(prop) && name.Named?
    ensures RequiredKnown(WithField(out, name, prop, f, pointer))
  {
    hide Tagged;
    var noted := prop.(notes := Tagged(prop.notes, f.tag));
    assert RequiredKnown(noted);
  }

  /** In a generated schema every required name is a property, at every level. */
  lemma {:induction false} SchemaRequired(g: Graph, t: Id, path: set<Id>)
    requires Grounded(g) && t in g && SchemaOf(g, t, path).Ok?
    ensures RequiredKnown(SchemaOf(g, t, path).schema)
    decreases Structs(g) - path, 1, Depth(g, t)
  {
    hide Grounded, StructSchema;
    if Descends(g, t) {
      DepthDrops(g, t);
      if SchemaOf(g, g[t].elem, path).Ok? { SchemaRequired(g, g[t].elem, path); }
    } else if g[t].Struct? {
      StructRequired(g, t, path);
    }
  }

  lemma {:induction false} StructRequired(g: Graph, t: Id, path: set<Id>)
    requires Grounded(g) && t in g && g[t].Struct? && StructSchema(g, t, path).Ok?
    ensures RequiredKnown(StructSchema(g, t, path).schema)
    decreases Structs(g) - path, 0
  {
    if t !in path {
      assert t in Structs(g) - path && t !in Structs(g) - (path + {t});
      FieldsRequired(g, g[t].fields, path + {t});
    }
  }

  lemma {:induction false} FieldsRequired(g: Graph, fields: seq<Field>, path: set<Id>)
    requires Grounded(g) && forall i :: 0 <= i < |fields| ==> fields[i].typ in g
    requires FieldsSchema(g, fields, path).Ok?
    ensures RequiredKnown(FieldsSchema(g, fields, path).schema)
    decreases Structs(g) - path, 2, |fields|
  {
    hide Grounded, SchemaOf, StructSchema, WithField, WithEmbedded, NameOf;
    if fields != [] {
      var n := |fields| - 1;
      var f := fields[n];
      FieldsRequired(g, fields[..n], path);
      var out := FieldsSchema(g, fields[..n], path).schema;
      if Embedded(g, f) {
        StructRequired(g, f.typ, path);
        EmbeddedRequired(out, StructSchema(g, f.typ, path).schema);
      } else if f.exported && NameOf(f).Named? {
        SchemaRequired(g, f.typ, path);
        FieldRequired(out, NameOf(f), SchemaOf(g, f.typ, path).schema, f, g[f.typ].Pointer?);
      }
    }
  }

  // ----- what a struct's schema has ------------------------------------------------------

  /** A field gives a property: under its own name, or one that the struct embedded by it has. */
  predicate Gives(g: Graph, f: Field, path: set<Id>, name: string)
    requires Grounded(g) && f.typ in g
  {
    if Embedded(g, f) then
      StructSchema(g, f.typ, path).Ok? && name in StructSchema(g, f.typ, path).schema.properties
    else f.exported && NameOf(f).Named? && NameOf(f).name == name
  }

  /** A field requires a property: absence has to mean something for it not to. */
  predicate Demands(g: Graph, f: Field, path: set<Id>, name: string)
    requires Grounded(g) && f.typ in g
  {
    if Embedded(g, f) then
      StructSchema(g, f.typ, path).Ok? && name in StructSchema(g, f.typ, path).schema.required
    else f.exported && NameOf(f).Named? && NameOf(f).name == name && !NameOf(f).omitempty && !g[f.typ].Pointer?
  }

  lemma FieldExact(g: Graph, f: Field, path: set<Id>, out: Schema, name: string)
    requires Grounded(g) && f.typ in g && FieldSchema(g, f, path, out).Ok?
    ensures var next := FieldSchema(g, f, path, out).schema;
      && (name in next.properties <==> name in out.properties || Gives(g, f, path, name))
      && (name in next.required <==> name in out.required || Demands(g, f, path, name))
  {
    hide Grounded, SchemaOf, StructSchema, NameOf, Tagged;
  }

  /** A struct's schema has exactly the properties its fields give, and requires exactly those
    * they demand. */
  lemma {:induction false} FieldsExact(g: Graph, fields: seq<Field>, path: set<Id>, name: string)
    requires Grounded(g) && (forall i :: 0 <= i < |fields| ==> fields[i].typ in g) && FieldsSchema(g, fields, path).Ok?
    ensures name in FieldsSchema(g, fields, path).schema.properties <==>
      exists i :: 0 <= i < |fields| && Gives(g, fields[i], path, name)
    ensures name in FieldsSchema(g, fields, path).schema.required <==>
      exists i :: 0 <= i < |fields| && Demands(g, fields[i], path, name)
    decreases |fields|
  {
    hide Grounded, FieldSchema, Gives, Demands;
    if fields != [] {
      var n := |fields| - 1;
      FieldsExact(g, fields[..n], path, name);
      FieldExact(g, fields[n], path, FieldsSchema(g, fields[..n], path).schema, name);
    }
  }

  // ----- only structs within reach matter ------------------------------------------------

  /** A set of types that contains whatever its members refer to. */
  ghost predicate ClosedUnder(g: Graph, reach: set<Id>) {
    forall t :: t in reach && t in g ==>
      && (HasElem(g[t]) ==> g[t].elem in reach)
      && (g[t].Struct? ==> forall i :: 0 <= i < |g[t].fields| ==> g[t].fields[i].typ in reach)
  }

  /** The schema of a type depends only on those structs of the path that the type can reach. So
    * a struct met twice side by side is written out both times; only one within itself is cut. */
  lemma {:induction false} OnlyReachableMatters(g: Graph, t: Id, p: set<Id>, q: set<Id>, reach: set<Id>)
    requires Grounded(g) && t in g && t in reach && ClosedUnder(g, reach) && p * reach == q * reach
    ensures SchemaOf(g, t, p) == SchemaOf(g, t, q)
    decreases Structs(g) - p, 1, Depth(g, t)
  {
    hide Grounded, StructSchema;
    if Descends(g, t) {
      DepthDrops(g, t);
      OnlyReachableMatters(g, g[t].elem, p, q, reach);
    } else if g[t].Struct? {
      StructReaches(g, t, p, q, reach);
    }
  }

  lemma {:induction false} StructReaches(g: Graph, t: Id, p: set<Id>, q: set<Id>, reach: set<Id>)
    requires Grounded(g) && t in g && g[t].Struct? && t in reach && ClosedUnder(g, reach) && p * reach == q * reach
    ensures StructSchema(g, t, p) == StructSchema(g, t, q)
    decreases Structs(g) - p, 0
  {
    assert t in p <==> t in p * reach;
    assert t in q <==> t in q * reach;
    if t !in p {
      assert t in Structs(g) - p && t !in Structs(g) - (p + {t});
      assert (p + {t}) * reach == p * reach + {t} && (q + {t}) * reach == q * reach + {t};
      FieldsReach(g, g[t].fields, p + {t}, q + {t}, reach);
    }
  }

  lemma {:induction false} FieldsReach(g: Graph, fields: seq<Field>, p: set<Id>, q: set<Id>, reach: set<Id>)
    requires Grounded(g) && ClosedUnder(g, reach) && p * reach == q * reach
    requires forall i :: 0 <= i < |fields| ==> fields[i].typ in g && fields[i].typ in reach
    ensures FieldsSchema(g, fields, p) == FieldsSchema(g, fields, q)
    decreases Structs(g) - p, 2, |fields|
  {
    hide Grounded, SchemaOf, StructSchema, WithField, WithEmbedded, NameOf, ClosedUnder;
    if fields != [] {
      var n := |fields| - 1;
      var f := fields[n];
      FieldsReach(g, fields[..n], p, q, reach);
      if Embedded(g, f) {
        StructReaches(g, f.typ, p, q, reach);
      } else {
        OnlyReachableMatters(g, f.typ, p, q, reach);
      }
    }
  }

  /** A type that reaches none of the structs being built has the schema it has on its own. */
  lemma OwnSchema(g: Graph, t: Id, path: set<Id>, reach: set<Id>)
    requires Grounded(g) && t in g && t in reach && ClosedUnder(g, reach) && path * reach == {}
    ensures SchemaOf(g, t, path) == SchemaOf(g, t, {})
  {
    OnlyReachableMatters(g, t, path, {}, reach);
  }

  // ----- when there is a schema ----------------------------------------------------------

  /** Types a schema can be made for: all but the unsupported, and maps with string keys only. */
  ghost predicate Supported(g: Graph, reach: set<Id>) {
    forall t :: t in reach && t in g ==> !g[t].Unsupported? && (g[t].Map? ==> g[t].key in g && g[g[t].key] == Str)
  }

  /** A type that reaches supported types only has a schema, however its structs recur. */
  lemma {:induction false} SupportedBuilds(g: Graph, t: Id, path: set<Id>, reach: set<Id>)
    requires Grounded(g) && t in g && t in reach && ClosedUnder(g, reach) && Supported(g, reach)
    ensures SchemaOf(g, t, path).Ok?
    decreases Structs(g) - path, 1, Depth(g, t)
  {
    hide Grounded, StructSchema;
    if Descends(g, t) {
      DepthDrops(g, t);
      SupportedBuilds(g, g[t].elem, path, reach);
    } else if g[t].Struct? {
      SupportedStruct(g, t, path, reach);
    }
  }

  lemma {:induction false} SupportedStruct(g: Graph, t: Id, path: set<Id>, reach: set<Id>)
    requires Grounded(g) && t in g && g[t].Struct? && t in reach && ClosedUnder(g, reach) && Supported(g, reach)
    ensures StructSchema(g, t, path).Ok?
    decreases Structs(g) - path, 0
  {
    if t !in path {
      assert t in Structs(g) - path && t !in Structs(g) - (path + {t});
      SupportedFields(g, g[t].fields, path + {t}, reach);
    }
  }

  lemma {:induction false} SupportedFields(g: Graph, fields: seq<Field>, path: set<Id>, reach: set<Id>)
    requires Grounded(g) && ClosedUnder(g, reach) && Supported(g, reach)
    requires forall i :: 0 <= i < |fields| ==> fields[i].typ in g && fields[i].typ in reach
    ensures FieldsSchema(g, fields, path).Ok?
    decreases Structs(g) - path, 2, |fields|
  {
    hide Grounded, SchemaOf, StructSchema, WithField, WithEmbedded, NameOf, ClosedUnder, Supported;
    if fields != [] {
      var n := |fields| - 1;
      var f := fields[n];
      SupportedFields(g, fields[..n], path, reach);
      if Embedded(g, f) {
        SupportedStruct(g, f.typ, path, reach);
      } else {
        SupportedBuilds(g, f.typ, path, reach);
      }
    }
  }

  // ----- which graphs the builder returns on ---------------------------------------------

  /** The builder with at most n calls inside one another; None when they do not suffice. It asks
    * nothing of the graph's cycles. */
  function SchemaWithin(g: Graph, t: Id, path: set<Id>, n: nat): Option<Result>
    requires WellFormed(g) && t in g
    decreases n, 0
  {
    if n == 0 then None
    else
      match g[t]
      case Str => Some(Ok(Plain("string")))
      case Boolean => Some(Ok(Plain("boolean")))
      case Integer(_) => Some(Ok(Plain("integer")))
      case Number => Some(Ok(Plain("number")))
      case Interface => Some(Ok(ANY))
      case Unsupported => Some(Err(NotSupported(t)))
      case Pointer(e) => SchemaWithin(g, e, path, n - 1)
      case Struct(_) => StructWithin(g, t, path, n - 1)
      case Array(e) => Wrapped(SchemaWithin(g, e, path, n - 1), false)
      case Slice(e) =>
        if g[e] == Integer(true) then Some(Ok(BYTES)) else Wrapped(SchemaWithin(g, e, path, n - 1), false)
      case Map(k, e) =>
        if g[k] != Str then Some(Err(KeyNotString(k))) else Wrapped(SchemaWithin(g, e, path, n - 1), true)
  }

  function Wrapped(r: Option<Result>, isMap: bool): Option<Result> {
    match r
    case None => None
    case Some(s) => Some(if isMap then MapOf(s) else ArrayOf(s))
  }

  function StructWithin(g: Graph, t: Id, path: set<Id>, n: nat): Option<Result>
    requires WellFormed(g) && t in g && g[t].Struct?
    decreases n, 0
  {
    if n == 0 then None
    else if t in path then Some(Ok(OPEN_OBJECT))
    else FieldsWithin(g, g[t].fields, path + {t}, n - 1)
  }

  function FieldsWithin(g: Graph, fields: seq<Field>, path: set<Id>, n: nat): Option<Result>
    requires WellFormed(g) && forall i :: 0 <= i < |fields| ==> fields[i].typ in g
    decreases n, 2, |fields|
  {
    if fields == [] then Some(Ok(OPEN_OBJECT))
    else
      match FieldsWithin(g, fields[..|fields| - 1], path, n)
      case None => None
      case Some(Err(e)) => Some(Err(e))
      case Some(Ok(out)) => FieldWithin(g, fields[|fields| - 1], path, out, n)
  }

  function FieldWithin(g: Graph, f: Field, path: set<Id>, out: Schema, n: nat): Option<Result>
    requires WellFormed(g) && f.typ in g
    decreases n, 1
  {
    if Embedded(g, f) then
      match StructWithin(g, f.typ, path, n)
      case None => None
      case Some(Err(e)) => Some(Err(e))
      case Some(Ok(embedded)) => Some(Ok(WithEmbedded(out, embedded)))
    else if !f.exported || NameOf(f).Skip? then Some(Ok(out))
    else
      match SchemaWithin(g, f.typ, path, n)
      case None => None
      case Some(Err(e)) => Some(Err(InField(f.name, e)))
      case Some(Ok(prop)) => Some(Ok(WithField(out, NameOf(f), prop, f, g[f.typ].Pointer?)))
  }

  /** What is built of an element's schema. */
  function Built(t: Type, r: Result): Result {
    match t
    case Map(_, _) => MapOf(r)
    case Pointer(_) => r
    case _ => ArrayOf(r)
  }

  lemma WithinNext(g: Graph, t: Id, path: set<Id>, n: nat)
    requires WellFormed(g) && Descends(g, t)
    ensures SchemaWithin(g, t, path, n + 1) ==
      match SchemaWithin(g, g[t].elem, path, n) case None => None case Some(r) => Some(Built(g[t], r))
  {
    hide ArrayOf, MapOf;
  }

  lemma SchemaNext(g: Graph, t: Id, path: set<Id>)
    requires Grounded(g) && Descends(g, t)
    ensures SchemaOf(g, t, path) == Built(g[t], SchemaOf(g, g[t].elem, path))
  {
    DepthDrops(g, t);
    hide ArrayOf, MapOf, StructSchema;
  }

  lemma WithinLast(g: Graph, t: Id, path: set<Id>, n: nat, m: nat)
    requires WellFormed(g) && t in g && !Descends(g, t) && !g[t].Struct? && n > 0 && m > 0
    ensures SchemaWithin(g, t, path, n).Some? && SchemaWithin(g, t, path, m) == SchemaWithin(g, t, path, n)
  {
  }

  lemma LastReturns(g: Graph, t: Id, path: set<Id>)
    requires Grounded(g) && t in g && !Descends(g, t) && !g[t].Struct?
    ensures SchemaWithin(g, t, path, 1) == Some(SchemaOf(g, t, path))
  {
  }

  lemma WithinStruct(g: Graph, t: Id, path: set<Id>, n: nat)
    requires WellFormed(g) && t in g && g[t].Struct?
    ensures SchemaWithin(g, t, path, n + 1) == StructWithin(g, t, path, n)
  {
  }

  lemma NeedsCall(g: Graph, t: Id, path: set<Id>, n: nat)
    requires WellFormed(g) && t in g && SchemaWithin(g, t, path, n).Some?
    ensures n > 0
  {
  }

  lemma ElemIn(g: Graph, t: Id)
    requires WellFormed(g) && Descends(g, t)
    ensures g[t].elem in g
  {
  }

  // More calls change no answer.
  lemma {:induction false} SchemaMore(g: Graph, t: Id, path: set<Id>, n: nat, m: nat)
    requires WellFormed(g) && t in g && n <= m && SchemaWithin(g, t, path, n).Some?
    ensures SchemaWithin(g, t, path, m) == SchemaWithin(g, t, path, n)
    decreases n, 0
  {
    hide SchemaWithin, StructWithin, WellFormed, Built;
    NeedsCall(g, t, path, n);
    if Descends(g, t) {
      ElemIn(g, t);
      WithinNext(g, t, path, n - 1);
      WithinNext(g, t, path, m - 1);
      SchemaMore(g, g[t].elem, path, n - 1, m - 1);
    } else if g[t].Struct? {
      WithinStruct(g, t, path, n - 1);
      WithinStruct(g, t, path, m - 1);
      StructMore(g, t, path, n - 1, m - 1);
    } else {
      WithinLast(g, t, path, n, m);
    }
  }

  lemma {:induction false} StructMore(g: Graph, t: Id, path: set<Id>, n: nat, m: nat)
    requires WellFormed(g) && t in g && g[t].Struct? && n <= m && StructWithin(g, t, path, n).Some?
    ensures StructWithin(g, t, path, m) == StructWithin(g, t, path, n)
    decreases n, 0
  {
    if t !in path { FieldsMore(g, g[t].fields, path + {t}, n - 1, m - 1); }
  }

  lemma {:induction false} FieldsMore(g: Graph, fields: seq<Field>, path: set<Id>, n: nat, m: nat)
    requires WellFormed(g) && forall i :: 0 <= i < |fields| ==> fields[i].typ in g
    requires n <= m && FieldsWithin(g, fields, path, n).Some?
    ensures FieldsWithin(g, fields, path, m) == FieldsWithin(g, fields, path, n)
    decreases n, 2, |fields|
  {
    hide WellFormed, FieldWithin;
    if fields != [] {
      var k := |fields| - 1;
      FieldsMore(g, fields[..k], path, n, m);
      var before := FieldsWithin(g, fields[..k], path, n);
      if before.value.Ok? { FieldMore(g, fields[k], path, before.value.schema, n, m); }
    }
  }

  lemma {:induction false} FieldMore(g: Graph, f: Field, path: set<Id>, out: Schema, n: nat, m: nat)
    requires WellFormed(g) && f.typ in g && n <= m && FieldWithin(g, f, path, out, n).Some?
    ensures FieldWithin(g, f, path, out, m) == FieldWithin(g, f, path, out, n)
    decreases n, 1
  {
    hide WellFormed, SchemaWithin, StructWithin, WithField, WithEmbedded, NameOf;
    if Embedded(g, f) {
      StructMore(g, f.typ, path, n, m);
    } else if f.exported && NameOf(f).Named? {
      SchemaMore(g, f.typ, path, n, m);
    }
  }

  /** On a grounded graph the builder returns, and the schema it returns is SchemaOf. */
  lemma {:induction false} SchemaReturns(g: Graph, t: Id, path: set<Id>) returns (n: nat)
    requires Grounded(g) && t in g
    ensures SchemaWithin(g, t, path, n) == Some(SchemaOf(g, t, path))
    decreases Structs(g) - path, 1, Depth(g, t)
  {
    hide SchemaWithin, StructWithin, SchemaOf, StructSchema, Built;
    if Descends(g, t) {
      DepthDrops(g, t);
      n := SchemaReturns(g, g[t].elem, path);
      WithinNext(g, t, path, n);
      SchemaNext(g, t, path);
      n := n + 1;
    } else if g[t].Struct? {
      n := StructReturns(g, t, path);
      WithinStruct(g, t, path, n);
      SchemaOfStruct(g, t, path);
      n := n + 1;
    } else {
      LastReturns(g, t, path);
      n := 1;
    }
  }

  lemma SchemaOfStruct(g: Graph, t: Id, path: set<Id>)
    requires Grounded(g) && t in g && g[t].Struct?
    ensures SchemaOf(g, t, path) == StructSchema(g, t, path)
  {
  }

  lemma {:induction false} StructReturns(g: Graph, t: Id, path: set<Id>) returns (n: nat)
    requires Grounded(g) && t in g && g[t].Struct?
    ensures StructWithin(g, t, path, n) == Some(StructSchema(g, t, path))
    decreases Structs(g) - path, 0
  {
    if t in path {
      n := 1;
    } else {
      assert t in Structs(g) - path && t !in Structs(g) - (path + {t});
      n := FieldsReturn(g, g[t].fields, path + {t});
      n := n + 1;
    }
  }

  lemma {:induction false} FieldsReturn(g: Graph, fields: seq<Field>, path: set<Id>) returns (n: nat)
    requires Grounded(g) && forall i :: 0 <= i < |fields| ==> fields[i].typ in g
    ensures FieldsWithin(g, fields, path, n) == Some(FieldsSchema(g, fields, path))
    decreases Structs(g) - path, 2, |fields|
  {
    if fields == [] {
      n := 0;
    } else {
      var k := |fields| - 1;
      var a := FieldsReturn(g, fields[..k], path);
      var before := FieldsSchema(g, fields[..k], path);
      if before.Err? {
        n := a;
      } else {
        var b := FieldReturns(g, fields[k], path, before.schema);
        n := if a < b then b else a;
        FieldsMore(g, fields[..k], path, a, n);
        FieldMore(g, fields[k], path, before.schema, b, n);
        hide Grounded, FieldWithin, FieldSchema;
      }
    }
  }

  lemma {:induction false} FieldReturns(g: Graph, f: Field, path: set<Id>, out: Schema) returns (n: nat)
    requires Grounded(g) && f.typ in g
    ensures FieldWithin(g, f, path, out, n) == Some(FieldSchema(g, f, path, out))
    decreases Structs(g) - path, 2, 0
  {
    hide SchemaWithin, StructWithin, SchemaOf, StructSchema, WithField, WithEmbedded, NameOf;
    if Embedded(g, f) {
      n := StructReturns(g, f.typ, path);
    } else if f.exported && NameOf(f).Named? {
      n := SchemaReturns(g, f.typ, path);
    } else {
      n := 0;
    }
  }

  ghost predicate Endless(g: Graph, t: Id) { forall m: nat :: !Ends(g, t, m) }

  lemma EndlessNext(g: Graph, t: Id)
    requires WellFormed(g) && t in g && Endless(g, t)
    ensures Descends(g, t) && g[t].elem in g && Endless(g, g[t].elem)
  {
    assert !Ends(g, t, 0);
    ElemIn(g, t);
    forall m: nat ensures !Ends(g, g[t].elem, m) { assert !Ends(g, t, m + 1); }
  }

  /** On a chain of elements without an end no number of calls suffices. */
  lemma {:induction false} EndlessNeverReturns(g: Graph, t: Id, path: set<Id>, n: nat)
    requires WellFormed(g) && t in g && Endless(g, t)
    ensures SchemaWithin(g, t, path, n).None?
    decreases n
  {
    hide SchemaWithin, Endless, Ends, WellFormed, Built;
    if n > 0 {
      EndlessNext(g, t);
      WithinNext(g, t, path, n - 1);
      EndlessNeverReturns(g, g[t].elem, path, n - 1);
    } else {
      NoCalls(g, t, path);
    }
  }

  lemma NoCalls(g: Graph, t: Id, path: set<Id>)
    requires WellFormed(g) && t in g
    ensures SchemaWithin(g, t, path, 0).None?
  {
  }

  /** The builder returns on t, some number of calls being enough. */
  ghost predicate Returns(g: Graph, t: Id, path: set<Id>)
    requires WellFormed(g) && t in g
  {
    exists n: nat :: SchemaWithin(g, t, path, n).Some?
  }

  lemma ReturnsEnds(g: Graph, t: Id)
    requires WellFormed(g) && t in g && Returns(g, t, {})
    ensures exists m: nat :: Ends(g, t, m)
  {
    var n: nat :| SchemaWithin(g, t, {}, n).Some?;
    if Endless(g, t) { EndlessNeverReturns(g, t, {}, n); }
  }

  /** The exact condition for the builder to return: it does for every type of a graph, whatever the
    * structs being built, if and only if every chain of elements ends. */
  lemma ReturnsIffGrounded(g: Graph)
    requires WellFormed(g)
    ensures Grounded(g) <==> forall t, path | t in g :: Returns(g, t, path)
  {
    hide SchemaWithin, Ends;
    if Grounded(g) {
      forall t: Id, path: set<Id> | t in g ensures Returns(g, t, path) { var n := SchemaReturns(g, t, path); }
    }
    if forall t, path | t in g :: Returns(g, t, path) {
      forall t | t in g ensures exists m: nat :: Ends(g, t, m) {
        assert Returns(g, t, {});
        ReturnsEnds(g, t);
      }
    }
  }

  // ----- for which types it returns ------------------------------------------------------

  /** Where a chain of n elements leads. */
  function Last(g: Graph, t: Id, n: nat): (e: Id)
    requires Ends(g, t, n)
    ensures e in g && !Descends(g, e)
    decreases n
  {
    if n == 0 then t else Last(g, g[t].elem, n - 1)
  }

  /** The builder gets stuck: on a chain of elements without an end, or at the end of the chain in a
    * struct that is not being built yet, at a field that it gets to. */
  ghost predicate Sticks(g: Graph, t: Id, path: set<Id>)
    requires WellFormed(g) && t in g
    decreases Structs(g) - path, 1
  {
    Endless(g, t) ||
    exists n: nat :: Ends(g, t, n) && g[Last(g, t, n)].Struct? && StructSticks(g, Last(g, t, n), path)
  }

  ghost predicate StructSticks(g: Graph, t: Id, path: set<Id>)
    requires WellFormed(g) && t in g && g[t].Struct?
    decreases Structs(g) - path, 0
  {
    t !in path &&
    assert t in Structs(g) - path && t !in Structs(g) - (path + {t});
    FieldsStick(g, g[t].fields, path + {t})
  }

  /** The builder gets to a field only if those before it are built without an error. */
  ghost predicate FieldsStick(g: Graph, fields: seq<Field>, path: set<Id>)
    requires WellFormed(g) && forall i :: 0 <= i < |fields| ==> fields[i].typ in g
    decreases Structs(g) - path, 2, |fields|
  {
    fields != [] &&
    var n := |fields| - 1;
    FieldsStick(g, fields[..n], path) || (Pass(g, fields[..n], path) && FieldSticks(g, fields[n], path))
  }

  ghost predicate FieldSticks(g: Graph, f: Field, path: set<Id>)
    requires WellFormed(g) && f.typ in g
    decreases Structs(g) - path, 2, 0
  {
    if Embedded(g, f) then StructSticks(g, f.typ, path)
    else f.exported && NameOf(f).Named? && Sticks(g, f.typ, path)
  }

  /** The fields are built, without an error. */
  ghost predicate Pass(g: Graph, fields: seq<Field>, path: set<Id>)
    requires WellFormed(g) && forall i :: 0 <= i < |fields| ==> fields[i].typ in g
  {
    exists n: nat :: FieldsWithin(g, fields, path, n).Some? && FieldsWithin(g, fields, path, n).value.Ok?
  }

  ghost predicate StructReturnsAt(g: Graph, t: Id, path: set<Id>)
    requires WellFormed(g) && t in g && g[t].Struct?
  {
    exists n: nat :: StructWithin(g, t, path, n).Some?
  }

  ghost predicate FieldsReturnAt(g: Graph, fields: seq<Field>, path: set<Id>)
    requires WellFormed(g) && forall i :: 0 <= i < |fields| ==> fields[i].typ in g
  {
    exists n: nat :: FieldsWithin(g, fields, path, n).Some?
  }

  ghost predicate FieldReturnsAt(g: Graph, f: Field, path: set<Id>, out: Schema)
    requires WellFormed(g) && f.typ in g
  {
    exists n: nat :: FieldWithin(g, f, path, out, n).Some?
  }

  // The builder returns on a type if and only if it does on the last of its chain.
  lemma {:induction false} ChainReturns(g: Graph, t: Id, path: set<Id>, n: nat)
    requires WellFormed(g) && t in g && Ends(g, t, n)
    ensures Returns(g, t, path) <==> Returns(g, Last(g, t, n), path)
    decreases n
  {
    if n > 0 {
      EndsNext(g, t, n);
      ChainReturns(g, g[t].elem, path, n - 1);
      NextReturns(g, t, path);
      hide Returns, WellFormed, Descends;
    }
  }

  lemma NextReturns(g: Graph, t: Id, path: set<Id>)
    requires WellFormed(g) && Descends(g, t)
    ensures g[t].elem in g && (Returns(g, t, path) <==> Returns(g, g[t].elem, path))
  {
    ElemIn(g, t);
    hide SchemaWithin, WellFormed, Descends, Built;
    if Returns(g, t, path) {
      var n: nat :| SchemaWithin(g, t, path, n).Some?;
      NeedsCall(g, t, path, n);
      WithinNext(g, t, path, n - 1);
      assert SchemaWithin(g, g[t].elem, path, n - 1).Some?;
    }
    if Returns(g, g[t].elem, path) {
      var n: nat :| SchemaWithin(g, g[t].elem, path, n).Some?;
      WithinNext(g, t, path, n);
      assert SchemaWithin(g, t, path, n + 1).Some?;
    }
  }

  lemma LastReturnsIff(g: Graph, t: Id, path: set<Id>)
    requires WellFormed(g) && t in g && !Descends(g, t)
    ensures Returns(g, t, path) <==> (g[t].Struct? ==> StructReturnsAt(g, t, path))
  {
    hide SchemaWithin, StructWithin, WellFormed, Descends;
    if g[t].Struct? {
      if Returns(g, t, path) {
        var n: nat :| SchemaWithin(g, t, path, n).Some?;
        NeedsCall(g, t, path, n);
        WithinStruct(g, t, path, n - 1);
        assert StructWithin(g, t, path, n - 1).Some?;
      }
      if StructReturnsAt(g, t, path) {
        var n: nat :| StructWithin(g, t, path, n).Some?;
        WithinStruct(g, t, path, n);
        assert SchemaWithin(g, t, path, n + 1).Some?;
      }
    } else {
      WithinLast(g, t, path, 1, 1);
    }
  }

  /** The builder returns on a type if and only if it does not get stuck on it: what it does not reach,
    * or does not get to for an error met first, is of no account. */
  lemma {:induction false} ReturnsIff(g: Graph, t: Id, path: set<Id>)
    requires WellFormed(g) && t in g
    ensures Returns(g, t, path) <==> !Sticks(g, t, path)
    decreases Structs(g) - path, 1
  {
    hide Ends, WellFormed, Returns, StructSticks, StructReturnsAt;
    if Endless(g, t) {
      EndlessReturnsNot(g, t, path);
    } else {
      var n: nat :| Ends(g, t, n);
      var e := Last(g, t, n);
      ChainReturns(g, t, path, n);
      LastReturnsIff(g, e, path);
      if g[e].Struct? { StructReturnsIff(g, e, path); }
      forall m: nat | Ends(g, t, m) ensures m == n { EndsOnce(g, t, m, n); }
    }
  }

  lemma EndlessReturnsNot(g: Graph, t: Id, path: set<Id>)
    requires WellFormed(g) && t in g && Endless(g, t)
    ensures !Returns(g, t, path)
  {
    forall n: nat ensures SchemaWithin(g, t, path, n).None? { EndlessNeverReturns(g, t, path, n); }
  }

  lemma {:induction false} StructReturnsIff(g: Graph, t: Id, path: set<Id>)
    requires WellFormed(g) && t in g && g[t].Struct?
    ensures StructReturnsAt(g, t, path) <==> !StructSticks(g, t, path)
    decreases Structs(g) - path, 0
  {
    if t in path {
      assert StructWithin(g, t, path, 1).Some?;
    } else {
      assert t in Structs(g) - path && t !in Structs(g) - (path + {t});
      FieldsReturnIff(g, g[t].fields, path + {t});
      EntersFields(g, t, path);
      hide *;
    }
  }

  lemma EntersFields(g: Graph, t: Id, path: set<Id>)
    requires WellFormed(g) && t in g && g[t].Struct? && t !in path
    ensures StructReturnsAt(g, t, path) <==> FieldsReturnAt(g, g[t].fields, path + {t})
  {
    if StructReturnsAt(g, t, path) {
      var n: nat :| StructWithin(g, t, path, n).Some?;
      assert n > 0 && FieldsWithin(g, g[t].fields, path + {t}, n - 1).Some?;
    }
    if FieldsReturnAt(g, g[t].fields, path + {t}) {
      var n: nat :| FieldsWithin(g, g[t].fields, path + {t}, n).Some?;
      assert StructWithin(g, t, path, n + 1).Some?;
    }
  }

  lemma {:induction false} FieldsReturnIff(g: Graph, fields: seq<Field>, path: set<Id>)
    requires WellFormed(g) && forall i :: 0 <= i < |fields| ==> fields[i].typ in g
    ensures FieldsReturnAt(g, fields, path) <==> !FieldsStick(g, fields, path)
    decreases Structs(g) - path, 2, |fields|
  {
    if fields == [] {
      assert FieldsWithin(g, fields, path, 0).Some?;
    } else {
      var n := |fields| - 1;
      FieldsReturnIff(g, fields[..n], path);
      FieldReturnsIff(g, fields[n], path);
      FieldsStep(g, fields, path);
      hide WellFormed, FieldsReturnAt, FieldReturnsAt, Pass, FieldSticks;
    }
  }

  // The fields are done when those before the last are, with an error, or the last is too.
  lemma FieldsStep(g: Graph, fields: seq<Field>, path: set<Id>)
    requires WellFormed(g) && (forall i :: 0 <= i < |fields| ==> fields[i].typ in g) && fields != []
    ensures var n := |fields| - 1;
      FieldsReturnAt(g, fields, path) <==>
      && FieldsReturnAt(g, fields[..n], path)
      && (Pass(g, fields[..n], path) ==> FieldReturnsAt(g, fields[n], path, ANY))
  {
    var n := |fields| - 1;
    var front := fields[..n];
    hide WellFormed, FieldWithin;
    if FieldsReturnAt(g, fields, path) {
      var k: nat :| FieldsWithin(g, fields, path, k).Some?;
      assert FieldsWithin(g, front, path, k).Some?;
      if Pass(g, front, path) {
        var m: nat :| FieldsWithin(g, front, path, m).Some? && FieldsWithin(g, front, path, m).value.Ok?;
        SameFields(g, front, path, k, m);
        var out := FieldsWithin(g, front, path, k).value.schema;
        assert FieldWithin(g, fields[n], path, out, k).Some?;
        OutDoesNotMatter(g, fields[n], path, out, ANY, k);
      }
    }
    if FieldsReturnAt(g, front, path) && (Pass(g, front, path) ==> FieldReturnsAt(g, fields[n], path, ANY)) {
      var k: nat :| FieldsWithin(g, front, path, k).Some?;
      if FieldsWithin(g, front, path, k).value.Err? {
        assert FieldsWithin(g, fields, path, k).Some?;
      } else {
        assert Pass(g, front, path);
        var j: nat :| FieldWithin(g, fields[n], path, ANY, j).Some?;
        BothReturn(g, fields, path, k, j);
      }
    }
  }

  lemma SameFields(g: Graph, fields: seq<Field>, path: set<Id>, k: nat, m: nat)
    requires WellFormed(g) && forall i :: 0 <= i < |fields| ==> fields[i].typ in g
    requires FieldsWithin(g, fields, path, k).Some? && FieldsWithin(g, fields, path, m).Some?
    ensures FieldsWithin(g, fields, path, k) == FieldsWithin(g, fields, path, m)
  {
    if k <= m { FieldsMore(g, fields, path, k, m); } else { FieldsMore(g, fields, path, m, k); }
  }

  lemma OutDoesNotMatter(g: Graph, f: Field, path: set<Id>, a: Schema, b: Schema, n: nat)
    requires WellFormed(g) && f.typ in g
    ensures FieldWithin(g, f, path, a, n).Some? <==> FieldWithin(g, f, path, b, n).Some?
  {
    hide SchemaWithin, StructWithin, NameOf, WithField, WithEmbedded;
  }

  lemma BothReturn(g: Graph, fields: seq<Field>, path: set<Id>, k: nat, j: nat)
    requires WellFormed(g) && (forall i :: 0 <= i < |fields| ==> fields[i].typ in g) && fields != []
    requires FieldsWithin(g, fields[..|fields| - 1], path, k).Some?
    requires FieldsWithin(g, fields[..|fields| - 1], path, k).value.Ok?
    requires FieldWithin(g, fields[|fields| - 1], path, ANY, j).Some?
    ensures FieldsReturnAt(g, fields, path)
  {
    var n, most := |fields| - 1, if k < j then j else k;
    var out := FieldsWithin(g, fields[..n], path, k).value.schema;
    FieldsMore(g, fields[..n], path, k, most);
    OutDoesNotMatter(g, fields[n], path, out, ANY, j);
    FieldMore(g, fields[n], path, out, j, most);
    hide WellFormed, FieldWithin;
    assert FieldsWithin(g, fields, path, most).Some?;
  }

  lemma {:induction false} FieldReturnsIff(g: Graph, f: Field, path: set<Id>)
    requires WellFormed(g) && f.typ in g
    ensures FieldReturnsAt(g, f, path, ANY) <==> !FieldSticks(g, f, path)
    decreases Structs(g) - path, 2, 0
  {
    if Embedded(g, f) { StructReturnsIff(g, f.typ, path); } else { ReturnsIff(g, f.typ, path); }
    hide SchemaWithin, StructWithin, NameOf, WithField, WithEmbedded, Sticks, StructSticks, WellFormed;
    FieldReturnsBy(g, f, path);
  }

  lemma FieldReturnsBy(g: Graph, f: Field, path: set<Id>)
    requires WellFormed(g) && f.typ in g
    ensures FieldReturnsAt(g, f, path, ANY) <==>
      if Embedded(g, f) then StructReturnsAt(g, f.typ, path)
      else f.exported && NameOf(f).Named? ==> Returns(g, f.typ, path)
  {
    hide SchemaWithin, StructWithin, NameOf, WithField, WithEmbedded, WellFormed, Tagged;
    if Embedded(g, f) {
      forall n: nat ensures FieldWithin(g, f, path, ANY, n).Some? <==> StructWithin(g, f.typ, path, n).Some? {}
    } else if f.exported && NameOf(f).Named? {
      forall n: nat ensures FieldWithin(g, f, path, ANY, n).Some? <==> SchemaWithin(g, f.typ, path, n).Some? {}
    } else {
      assert FieldWithin(g, f, path, ANY, 0).Some?;
    }
  }

  /** So it returns on a type from which no chain without an end is reached, whatever else there is. */
  lemma {:induction false} ReachedReturns(g: Graph, t: Id, path: set<Id>, reach: set<Id>)
    requires WellFormed(g) && t in g && t in reach && ClosedUnder(g, reach)
    requires forall e :: e in reach && e in g ==> !Endless(g, e)
    ensures Returns(g, t, path)
    decreases Structs(g) - path, 1
  {
    ReturnsIff(g, t, path);
    if Sticks(g, t, path) {
      var n: nat :| Ends(g, t, n) && g[Last(g, t, n)].Struct? && StructSticks(g, Last(g, t, n), path);
      LastReached(g, t, n, reach);
      StructUnstuck(g, Last(g, t, n), path, reach);
    }
  }

  lemma {:induction false} LastReached(g: Graph, t: Id, n: nat, reach: set<Id>)
    requires Ends(g, t, n) && t in reach && ClosedUnder(g, reach)
    ensures Last(g, t, n) in reach
    decreases n
  {
    if n > 0 { LastReached(g, g[t].elem, n - 1, reach); }
  }

  lemma {:induction false} StructUnstuck(g: Graph, t: Id, path: set<Id>, reach: set<Id>)
    requires WellFormed(g) && t in g && g[t].Struct? && t in reach && ClosedUnder(g, reach)
    requires forall e :: e in reach && e in g ==> !Endless(g, e)
    ensures !StructSticks(g, t, path)
    decreases Structs(g) - path, 0
  {
    if t !in path {
      assert t in Structs(g) - path && t !in Structs(g) - (path + {t});
      FieldsUnstuck(g, g[t].fields, path + {t}, reach);
    }
  }

  lemma {:induction false} FieldsUnstuck(g: Graph, fields: seq<Field>, path: set<Id>, reach: set<Id>)
    requires WellFormed(g) && ClosedUnder(g, reach)
    requires forall i :: 0 <= i < |fields| ==> fields[i].typ in g && fields[i].typ in reach
    requires forall e :: e in reach && e in g ==> !Endless(g, e)
    ensures !FieldsStick(g, fields, path)
    decreases Structs(g) - path, 2, |fields|
  {
    hide WellFormed, ClosedUnder, Endless, Pass, NameOf;
    if fields != [] {
      var n := |fields| - 1;
      var f := fields[n];
      FieldsUnstuck(g, fields[..n], path, reach);
      if Embedded(g, f) {
        StructUnstuck(g, f.typ, path, reach);
      } else {
        ReachedReturns(g, f.typ, path, reach);
        ReturnsIff(g, f.typ, path);
      }
    }
  }
}
