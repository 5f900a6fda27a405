/** What a generated schema says, and which JSON values it accepts: those that encode a value of the
  * type, and of other kinds none. */
module SchemaMeaning {
  import opened JsonFields
  import opened Options
  import opened Schemas
  import opened SchemaTags
  import Text

  // ----- the schema of each type ---------------------------------------------------------

  /** A schema of the given kind with no properties, as a field's tag annotates it. */
  function Bare(typ: string, format: string, tag: string): Schema {
    Schema(typ, Tagged(Notes("", [], format), tag), map[], [], None, None)
  }

  predicate LastNamed(cs: seq<Candidate>, k: int) {
    0 <= k < |cs| && forall j :: k < j < |cs| ==> cs[j].name != cs[k].name
  }

  /** The property of a name is that of the last such field. */
  ghost predicate DescribesName(g: Graph, cs: seq<Candidate>, name: string, prop: Schema)
    requires Grounded(g)
    decreases prop, 2
  {
    exists k :: LastNamed(cs, k) && cs[k].name == name && cs[k].field.typ in g &&
                Describes(g, cs[k].field.typ, cs[k].within, cs[k].field.tag, prop)
  }

  /** The properties are those of the fields, the last of each name, each described in its turn. */
  ghost predicate DescribesFields(g: Graph, cs: seq<Candidate>, s: Schema)
    requires Grounded(g)
    decreases s, 0
  {
    && s.required == Demanded(cs)
    && (forall k :: 0 <= k < |cs| ==> cs[k].name in s.properties)
    && (forall name :: name in s.properties ==> DescribesName(g, cs, name, s.properties[name]))
  }

  /** What the schema of a type is, within the structs on the path to it and with a field's tag applied. A
    * pointer is described as what it points to, a struct within itself as any object. */
  ghost predicate Describes(g: Graph, t: Id, path: set<Id>, tag: string, s: Schema)
    requires Grounded(g) && t in g
    decreases s, 1, Depth(g, t)
  {
    match g[t]
    case Str => s == Bare("string", "", tag)
    case Boolean => s == Bare("boolean", "", tag)
    case Integer(_) => s == Bare("integer", "", tag)
    case Number => s == Bare("number", "", tag)
    case Interface => s == Bare("", "", tag)
    case Unsupported => false
    case Pointer(e) => DepthDrops(g, t); Describes(g, e, path, tag, s)
    case Slice(e) =>
      if g[e] == Integer(true) then s == Bare("string", "byte", tag)
      else s == Bare("array", "", tag).(items := s.items) && s.items.Some? && Describes(g, e, path, "", s.items.value)
    case Array(e) =>
      s == Bare("array", "", tag).(items := s.items) && s.items.Some? && Describes(g, e, path, "", s.items.value)
    case Map(k, e) =>
      && g[k] == Str && s == Bare("object", "", tag).(additional := s.additional)
      && s.additional.Some? && Describes(g, e, path, "", s.additional.value)
    case Struct(fields) =>
      if t in path then s == Bare("object", "", tag)
      else
        && s == Bare("object", "", tag).(properties := s.properties, required := s.required)
        && DescribesFields(g, BuilderFields(g, fields, path + {t}), s)
  }

  lemma EmptyTag(n: Notes)
    ensures Tagged(n, "") == n
  {
  }

  /** A tag changes the notes and nothing else. */
  lemma {:induction false} Retagged(g: Graph, t: Id, path: set<Id>, tag: string, s: Schema)
    requires Grounded(g) && t in g && Describes(g, t, path, "", s)
    ensures Describes(g, t, path, tag, s.(notes := Tagged(s.notes, tag)))
    decreases Depth(g, t)
  {
    assert WellFormed(g);
    hide Tagged, Grounded;
    EmptyTag(Notes("", [], ""));
    EmptyTag(Notes("", [], "byte"));
    if g[t].Pointer? {
      DepthDrops(g, t);
      Retagged(g, g[t].elem, path, tag, s);
    } else if g[t].Struct? && t !in path {
      var cs, u := BuilderFields(g, g[t].fields, path + {t}), s.(notes := Tagged(s.notes, tag));
      hide BuilderFields, LastNamed, Demanded;
      assert DescribesFields(g, cs, s);
      SameFields(g, cs, s, u);
    }
  }

  lemma SameFields(g: Graph, cs: seq<Candidate>, s: Schema, u: Schema)
    requires Grounded(g) && DescribesFields(g, cs, s) && u.properties == s.properties && u.required == s.required
    ensures DescribesFields(g, cs, u)
  {
    hide Grounded, Describes, Demanded, LastNamed;
  }

  // ----- the builder's schemas -----------------------------------------------------------

  ghost predicate CandidateSound(g: Graph, path: set<Id>, c: Candidate)
    requires Grounded(g)
  {
    c.field.typ in g && path <= c.within && c.prop == Noted(SchemaOf(g, c.field.typ, c.within), c.field.tag)
  }

  lemma {:induction false} CandidatesSound(g: Graph, fields: seq<Field>, path: set<Id>, cut: set<Id>, depth: nat,
                                           rule: Rule)
    requires Grounded(g) && forall i :: 0 <= i < |fields| ==> fields[i].typ in g
    ensures forall c :: c in Candidates(g, fields, path, cut, depth, rule) ==> CandidateSound(g, path, c)
    decreases Structs(g) - cut, 2, |fields|
  {
    hide CandidateSound, FieldCandidates;
    if fields != [] {
      CandidatesSound(g, fields[..|fields| - 1], path, cut, depth, rule);
      FieldCandidatesSound(g, fields[|fields| - 1], path, cut, depth, rule);
    }
  }

  lemma {:induction false} FieldCandidatesSound(g: Graph, f: Field, path: set<Id>, cut: set<Id>, depth: nat, rule: Rule)
    requires Grounded(g) && f.typ in g
    ensures forall c :: c in FieldCandidates(g, f, path, cut, depth, rule) ==> CandidateSound(g, path, c)
    decreases Structs(g) - cut, 1
  {
    hide StructCandidates, SchemaOf;
    match Treats(g, f, rule)
    case Flattened(t) => StructCandidatesSound(g, t, path, cut, depth + 1, rule);
    case _ =>
  }

  lemma {:induction false} StructCandidatesSound(g: Graph, t: Id, path: set<Id>, cut: set<Id>, depth: nat, rule: Rule)
    requires Grounded(g) && t in g && g[t].Struct?
    ensures forall c :: c in StructCandidates(g, t, path, cut, depth, rule) ==> CandidateSound(g, path, c)
    decreases Structs(g) - cut, 0
  {
    if t !in cut {
      assert t in Structs(g) - cut && t !in Structs(g) - (cut + {t});
      CandidatesSound(g, g[t].fields, path + {t}, cut + {t}, depth, rule);
      hide SchemaOf, Candidates;
    }
  }

  lemma {:induction false} LastOfAt(cs: seq<Candidate>, name: string) returns (k: nat)
    requires LastOf(cs, name).Some?
    ensures LastNamed(cs, k) && cs[k].name == name && LastOf(cs, name) == Some(cs[k].prop)
  {
    var n := |cs| - 1;
    if cs[n].name == name {
      k := n;
    } else {
      k := LastOfAt(cs[..n], name);
    }
  }

  lemma {:induction false} HasLast(cs: seq<Candidate>, k: nat)
    requires k < |cs|
    ensures LastOf(cs, cs[k].name).Some?
  {
    if k < |cs| - 1 && cs[|cs| - 1].name != cs[k].name { HasLast(cs[..|cs| - 1], k); }
  }

  lemma {:induction false} FieldsShape(g: Graph, fields: seq<Field>, path: set<Id>)
    requires Grounded(g) && (forall i :: 0 <= i < |fields| ==> fields[i].typ in g) && FieldsSchema(g, fields, path).Ok?
    ensures var s := FieldsSchema(g, fields, path).schema;
      s == Schema("object", Notes("", [], ""), s.properties, s.required, None, None)
    decreases |fields|
  {
    hide Grounded, SchemaOf, StructSchema, NameOf, Tagged;
    if fields != [] { FieldsShape(g, fields[..|fields| - 1], path); }
  }

  /** The schema built for a type says what it should, at every level. */
  lemma {:induction false} SchemaDescribed(g: Graph, t: Id, path: set<Id>)
    requires Grounded(g) && t in g && SchemaOf(g, t, path).Ok?
    ensures Describes(g, t, path, "", SchemaOf(g, t, path).schema)
    decreases Structs(g) - path, 1, Depth(g, t)
  {
    EmptyTag(Notes("", [], ""));
    EmptyTag(Notes("", [], "byte"));
    hide Tagged;
    if Descends(g, t) {
      DepthDrops(g, t);
      SchemaNext(g, t, path);
      SchemaDescribed(g, g[t].elem, path);
      hide SchemaOf, Grounded, Depth;
    } else if g[t].Struct? {
      SchemaOfStruct(g, t, path);
      hide SchemaOf;
      if t !in path {
        assert t in Structs(g) - path && t !in Structs(g) - (path + {t});
        FieldsShape(g, g[t].fields, path + {t});
        FieldsDescribed(g, g[t].fields, path + {t});
      }
    }
  }

  lemma {:induction false} FieldsDescribed(g: Graph, fields: seq<Field>, path: set<Id>)
    requires Grounded(g) && (forall i :: 0 <= i < |fields| ==> fields[i].typ in g) && FieldsSchema(g, fields, path).Ok?
    ensures DescribesFields(g, BuilderFields(g, fields, path), FieldsSchema(g, fields, path).schema)
    decreases Structs(g) - path, 2
  {
    var cs, s := BuilderFields(g, fields, path), FieldsSchema(g, fields, path).schema;
    FieldsAdd(g, fields, path, 0);
    CandidatesSound(g, fields, path, path, 0, OfBuilder);
    assert Adds(OPEN_OBJECT, s, cs);
    hide FieldsSchema, Candidates, BuilderFields, SchemaOf, Grounded;
    assert [] + Demanded(cs) == Demanded(cs);
    forall k | 0 <= k < |cs| ensures cs[k].name in s.properties { HasLast(cs, k); }
    forall name | name in s.properties ensures DescribesName(g, cs, name, s.properties[name]) {
      var k := LastOfAt(cs, name);
      assert cs[k] in cs;
      PropertyDescribed(g, path, cs[k], s.properties[name]);
    }
  }

  lemma {:induction false} PropertyDescribed(g: Graph, path: set<Id>, c: Candidate, prop: Schema)
    requires Grounded(g) && CandidateSound(g, path, c) && c.prop == Ok(prop)
    ensures Describes(g, c.field.typ, c.within, c.field.tag, prop)
    decreases Structs(g) - path, 1, Depth(g, c.field.typ) + 1
  {
    SchemaDescribed(g, c.field.typ, c.within);
    Retagged(g, c.field.typ, c.within, c.field.tag, SchemaOf(g, c.field.typ, c.within).schema);
  }

  // ----- types without a schema ----------------------------------------------------------

  /** Why a type has no schema, within the structs on the path: it cannot have one, or has keys that are not
    * strings, or so for its element, or for a field that it embeds or names, the first that has none. */
  ghost predicate FailsWith(g: Graph, t: Id, path: set<Id>, e: Error)
    requires Grounded(g) && t in g
    decreases Structs(g) - path, 1, Depth(g, t)
  {
    match g[t]
    case Unsupported => e == NotSupported(t)
    case Map(k, v) => if g[k] != Str then e == KeyNotString(k) else DepthDrops(g, t); FailsWith(g, v, path, e)
    case Pointer(v) => DepthDrops(g, t); FailsWith(g, v, path, e)
    case Array(v) => DepthDrops(g, t); FailsWith(g, v, path, e)
    case Slice(v) => g[v] != Integer(true) && (DepthDrops(g, t); FailsWith(g, v, path, e))
    case Struct(_) => StructFails(g, t, path, e)
    case _ => false
  }

  ghost predicate StructFails(g: Graph, t: Id, path: set<Id>, e: Error)
    requires Grounded(g) && t in g && g[t].Struct?
    decreases Structs(g) - path, 0
  {
    t !in path &&
    assert t in Structs(g) - path && t !in Structs(g) - (path + {t});
    exists i :: 0 <= i < |g[t].fields| && FieldsSchema(g, g[t].fields[..i], path + {t}).Ok? &&
                FieldFails(g, g[t].fields[i], path + {t}, e)
  }

  ghost predicate FieldFails(g: Graph, f: Field, path: set<Id>, e: Error)
    requires Grounded(g) && f.typ in g
    decreases Structs(g) - path, 2
  {
    if Embedded(g, f) then StructFails(g, f.typ, path, e)
    else f.exported && NameOf(f).Named? && e.InField? && e.name == f.name && FailsWith(g, f.typ, path, e.error)
  }

  /** A type that has no schema has none for the reason given. */
  lemma {:induction false} SchemaFails(g: Graph, t: Id, path: set<Id>)
    requires Grounded(g) && t in g && SchemaOf(g, t, path).Err?
    ensures FailsWith(g, t, path, SchemaOf(g, t, path).error)
    decreases Structs(g) - path, 1, Depth(g, t)
  {
    if Descends(g, t) {
      DepthDrops(g, t);
      SchemaNext(g, t, path);
      SchemaFails(g, g[t].elem, path);
      hide SchemaOf, Grounded;
    } else if g[t].Struct? {
      SchemaOfStruct(g, t, path);
      hide SchemaOf;
      StructFailsSo(g, t, path);
    }
  }

  lemma {:induction false} StructFailsSo(g: Graph, t: Id, path: set<Id>)
    requires Grounded(g) && t in g && g[t].Struct? && StructSchema(g, t, path).Err?
    ensures StructFails(g, t, path, StructSchema(g, t, path).error)
    decreases Structs(g) - path, 0
  {
    assert t in Structs(g) - path && t !in Structs(g) - (path + {t});
    var i := FieldsFail(g, g[t].fields, path + {t});
    hide FieldsSchema, FieldFails, Grounded;
  }

  lemma {:induction false} FieldsFail(g: Graph, fields: seq<Field>, path: set<Id>) returns (i: nat)
    requires Grounded(g) && (forall k :: 0 <= k < |fields| ==> fields[k].typ in g) && FieldsSchema(g, fields, path).Err?
    ensures i < |fields| && FieldsSchema(g, fields[..i], path).Ok?
    ensures FieldFails(g, fields[i], path, FieldsSchema(g, fields, path).error)
    decreases Structs(g) - path, 3, |fields|
  {
    var n := |fields| - 1;
    var front := fields[..n];
    if FieldsSchema(g, front, path).Err? {
      i := FieldsFail(g, front, path);
      assert front[..i] == fields[..i];
      hide FieldFails, FieldSchema;
    } else {
      i := n;
      FieldFailsSo(g, fields[n], path, FieldsSchema(g, front, path).schema);
      hide FieldFails, FieldSchema;
    }
  }

  lemma {:induction false} FieldFailsSo(g: Graph, f: Field, path: set<Id>, out: Schema)
    requires Grounded(g) && f.typ in g && FieldSchema(g, f, path, out).Err?
    ensures FieldFails(g, f, path, FieldSchema(g, f, path, out).error)
    decreases Structs(g) - path, 2
  {
    hide SchemaOf, StructSchema, NameOf, StructFails, FailsWith;
    if Embedded(g, f) { StructFailsSo(g, f.typ, path); } else { SchemaFails(g, f.typ, path); }
  }

  // ----- which values a schema accepts ---------------------------------------------------

  datatype Json =
    | JNull
    | JBool(value: bool)
    | JNumber(integral: bool)
    | JString(text: string)
    | JArray(items: seq<Json>)
    | JObject(members: map<string, Json>)

  predicate KindFits(typ: string, j: Json) {
    match j
    case JNull => typ == "null"
    case JBool(_) => typ == "boolean"
    case JNumber(integral) => typ == "number" || (typ == "integer" && integral)
    case JString(_) => typ == "string"
    case JArray(_) => typ == "array"
    case JObject(_) => typ == "object"
  }

  predicate Listed(enum: seq<string>, j: Json) { enum == [] || (j.JString? && j.text in enum) }

  /** JSON Schema: a value fits if it is of the schema's kind and one of those listed, an object has what is
    * required, and its members and an array's items fit in their turn. */
  predicate Fits(s: Schema, j: Json)
    decreases j
  {
    && (s.typ == "" || KindFits(s.typ, j))
    && Listed(s.notes.enum, j)
    && match j
       case JObject(members) =>
         && (forall name :: name in s.required ==> name in members)
         && (forall name :: name in members ==>
               if name in s.properties then Fits(s.properties[name], members[name])
               else s.additional.Some? ==> Fits(s.additional.value, members[name]))
       case JArray(items) => s.items.Some? ==> forall i :: 0 <= i < |items| ==> Fits(s.items.value, items[i])
       case _ => true
  }

  /** The strings that a field's tag lists. */
  function Enum(tag: string): seq<string> { Tagged(Notes("", [], ""), tag).enum }

  /** encoding/json: the JSON values that encode a value of a type with no nil in it. An object has a member
    * only for a field that is taken, and one for each that is not left out when empty. */
  ghost predicate Encodes(g: Graph, t: Id, usable: string -> bool, j: Json)
    requires Grounded(g) && t in g
    decreases j, 1, Depth(g, t)
  {
    match g[t]
    case Str => j.JString?
    case Boolean => j.JBool?
    case Integer(_) => j.JNumber? && j.integral
    case Number => j.JNumber?
    case Interface => true
    case Unsupported => false
    case Pointer(e) => DepthDrops(g, t); Encodes(g, e, usable, j)
    case Slice(e) =>
      if g[e] == Integer(true) then j.JString?
      else j.JArray? && forall i :: 0 <= i < |j.items| ==> Encodes(g, e, usable, j.items[i])
    case Array(e) => j.JArray? && forall i :: 0 <= i < |j.items| ==> Encodes(g, e, usable, j.items[i])
    case Map(k, e) =>
      g[k] == Str && j.JObject? && forall name :: name in j.members ==> Encodes(g, e, usable, j.members[name])
    case Struct(fields) =>
      var cs := EncodingFields(g, fields, {}, usable);
      && j.JObject?
      && (forall k :: Dominates(cs, k) && cs[k].demanded ==> cs[k].name in j.members)
      && (forall name :: name in j.members ==> EncodesName(g, cs, name, usable, j.members[name]))
  }

  /** A field whose tag has the option "string" is encoded as text, if it is of a basic type or points to
    * one. */
  predicate Quoted(g: Graph, f: Field)
    requires WellFormed(g) && f.typ in g
  {
    var t := if g[f.typ].Pointer? then g[g[f.typ].elem] else g[f.typ];
    "string" in Text.Split(f.json, ',')[1..] && (t.Str? || t.Boolean? || t.Integer? || t.Number?)
  }

  predicate IsText(g: Graph, t: Id)
    requires WellFormed(g) && t in g
  {
    g[t].Str? || (g[t].Pointer? && g[g[t].elem].Str?)
  }

  /** The member of a name encodes the field taken under it, and is one of those its tag lists. */
  ghost predicate EncodesName(g: Graph, cs: seq<Candidate>, name: string, usable: string -> bool, j: Json)
    requires Grounded(g)
    decreases j, 2
  {
    exists k :: Dominates(cs, k) && cs[k].name == name && cs[k].field.typ in g &&
                Listed(Enum(cs[k].field.tag), j) &&
                if Quoted(g, cs[k].field) then j.JString? else Encodes(g, cs[k].field.typ, usable, j)
  }

  /** Every property is of the field that encoding/json takes under its name, not a number or boolean as
    * text, and one that is required is always encoded. */
  ghost predicate PropertiesTaken(g: Graph, cs: seq<Candidate>, jcs: seq<Candidate>)
    requires WellFormed(g)
  {
    && (forall k :: LastNamed(cs, k) ==>
          && TakenAs(jcs, cs[k].name, cs[k].field)
          && (cs[k].field.typ in g && Quoted(g, cs[k].field) ==> IsText(g, cs[k].field.typ)))
    && (forall k :: 0 <= k < |cs| && cs[k].demanded ==>
          exists i :: Dominates(jcs, i) && jcs[i].name == cs[k].name && jcs[i].demanded)
  }

  /** The field taken under the name is f. */
  ghost predicate TakenAs(jcs: seq<Candidate>, name: string, f: Field) {
    exists i :: Dominates(jcs, i) && jcs[i].name == name && jcs[i].field == f
  }

  /** This holds of every struct, wherever it is met. */
  ghost predicate AllTaken(g: Graph, usable: string -> bool)
    requires Grounded(g)
  {
    forall t, path: set<Id> | t in g && g[t].Struct? && t !in path ::
      PropertiesTaken(g, BuilderFields(g, g[t].fields, path + {t}), EncodingFields(g, g[t].fields, {}, usable))
  }

  lemma {:induction false} EnumAfter(p: Progress, q: Progress, parts: seq<string>)
    requires p.notes.enum == q.notes.enum
    ensures After(p, parts).notes.enum == After(q, parts).notes.enum
  {
    hide Read;
    if parts != [] { EnumAfter(p, q, parts[..|parts| - 1]); }
  }

  lemma BareEnum(typ: string, format: string, tag: string)
    ensures Bare(typ, format, tag).notes.enum == Enum(tag)
  {
    if tag != "" {
      EnumAfter(Progress(Notes("", [], format), false), Progress(Notes("", [], ""), false), Text.Split(tag, ','));
    }
  }

  /** What a schema accepts of a type's own kind. */
  lemma {:induction false} DescribedFits(g: Graph, t: Id, path: set<Id>, tag: string, s: Schema,
                                         usable: string -> bool, j: Json)
    requires Grounded(g) && t in g && Describes(g, t, path, tag, s) && AllTaken(g, usable)
    requires Encodes(g, t, usable, j) && Listed(Enum(tag), j)
    ensures Fits(s, j)
    decreases j, 1, Depth(g, t)
  {
    BareEnum("", "", tag);
    BareEnum("", "byte", tag);
    assert Enum("") == [];
    hide Tagged, AllTaken;
    match g[t]
    case Pointer(e) =>
      DepthDrops(g, t);
      DescribedFits(g, e, path, tag, s, usable, j);
    case Slice(e) => if g[e] != Integer(true) { ItemsFit(g, e, path, s, usable, j); }
    case Array(e) => ItemsFit(g, e, path, s, usable, j);
    case Map(_, e) =>
      forall name | name in j.members ensures Fits(s.additional.value, j.members[name]) {
        DescribedFits(g, e, path, "", s.additional.value, usable, j.members[name]);
      }
    case Struct(fields) => if t !in path { MembersFit(g, t, path, tag, s, usable, j); }
    case _ =>
  }

  lemma {:induction false} ItemsFit(g: Graph, e: Id, path: set<Id>, s: Schema, usable: string -> bool, j: Json)
    requires Grounded(g) && e in g && AllTaken(g, usable) && j.JArray? && s.items.Some?
    requires Describes(g, e, path, "", s.items.value)
    requires forall i :: 0 <= i < |j.items| ==> Encodes(g, e, usable, j.items[i])
    ensures forall i :: 0 <= i < |j.items| ==> Fits(s.items.value, j.items[i])
    decreases j, 0
  {
    assert Enum("") == [];
    hide AllTaken, Describes, Encodes, Fits, Enum;
    forall i | 0 <= i < |j.items| ensures Fits(s.items.value, j.items[i]) {
      DescribedFits(g, e, path, "", s.items.value, usable, j.items[i]);
    }
  }

  lemma {:induction false} MembersFit(g: Graph, t: Id, path: set<Id>, tag: string, s: Schema,
                                      usable: string -> bool, j: Json)
    requires Grounded(g) && t in g && g[t].Struct? && t !in path && AllTaken(g, usable)
    requires Describes(g, t, path, tag, s) && Encodes(g, t, usable, j) && Listed(Enum(tag), j)
    ensures Fits(s, j)
    decreases j, 0
  {
    var cs, jcs := BuilderFields(g, g[t].fields, path + {t}), EncodingFields(g, g[t].fields, {}, usable);
    StructSays(g, t, path, tag, s, usable, j);
    hide *;
    forall name | name in s.required ensures name in j.members {
      RequiredTaken(g, cs, jcs, name);
      var i :| Dominates(jcs, i) && jcs[i].name == name && jcs[i].demanded;
    }
    forall name | name in j.members && name in s.properties ensures Fits(s.properties[name], j.members[name]) {
      NameFits(g, cs, jcs, name, s.properties[name], usable, j.members[name]);
    }
    ObjectFits(s, j);
  }

  lemma StructSays(g: Graph, t: Id, path: set<Id>, tag: string, s: Schema, usable: string -> bool, j: Json)
    requires Grounded(g) && t in g && g[t].Struct? && t !in path && AllTaken(g, usable)
    requires Describes(g, t, path, tag, s) && Encodes(g, t, usable, j)
    ensures var cs, jcs := BuilderFields(g, g[t].fields, path + {t}), EncodingFields(g, g[t].fields, {}, usable);
      && PropertiesTaken(g, cs, jcs) && s.required == Demanded(cs)
      && (forall name :: name in s.properties ==> DescribesName(g, cs, name, s.properties[name]))
      && j.JObject?
      && (forall k :: Dominates(jcs, k) && jcs[k].demanded ==> jcs[k].name in j.members)
      && (forall name :: name in j.members ==> EncodesName(g, jcs, name, usable, j.members[name]))
    ensures s.typ == "object" && s.notes.enum == Enum(tag) && s.additional.None?
  {
    BareEnum("object", "", tag);
    hide Tagged, DescribesName, EncodesName, PropertiesTaken, BuilderFields, EncodingFields, Demanded;
  }

  lemma ObjectFits(s: Schema, j: Json)
    requires j.JObject? && s.typ == "object" && Listed(s.notes.enum, j) && s.additional.None?
    requires forall name :: name in s.required ==> name in j.members
    requires forall name :: name in j.members && name in s.properties ==> Fits(s.properties[name], j.members[name])
    ensures Fits(s, j)
  {
  }

  lemma RequiredTaken(g: Graph, cs: seq<Candidate>, jcs: seq<Candidate>, name: string)
    requires WellFormed(g) && PropertiesTaken(g, cs, jcs) && name in Demanded(cs)
    ensures exists i :: Dominates(jcs, i) && jcs[i].name == name && jcs[i].demanded
  {
    DemandedMeans(cs, name);
  }

  lemma {:induction false} NameFits(g: Graph, cs: seq<Candidate>, jcs: seq<Candidate>, name: string, prop: Schema,
                                    usable: string -> bool, j: Json)
    requires Grounded(g) && PropertiesTaken(g, cs, jcs) && AllTaken(g, usable)
    requires DescribesName(g, cs, name, prop) && EncodesName(g, jcs, name, usable, j)
    ensures Fits(prop, j)
    decreases j, 2
  {
    var k :| LastNamed(cs, k) && cs[k].name == name && cs[k].field.typ in g &&
      Describes(g, cs[k].field.typ, cs[k].within, cs[k].field.tag, prop);
    var i :| Dominates(jcs, i) && jcs[i].name == name && jcs[i].field.typ in g &&
      Listed(Enum(jcs[i].field.tag), j) &&
      if Quoted(g, jcs[i].field) then j.JString? else Encodes(g, jcs[i].field.typ, usable, j);
    assert TakenAs(jcs, name, cs[k].field);
    var h :| Dominates(jcs, h) && jcs[h].name == name && jcs[h].field == cs[k].field;
    assert h == i by { hide *; OneDominates(jcs, h, i); }
    if Quoted(g, cs[k].field) { TextEncodes(g, cs[k].field.typ, usable, j); }
    hide *;
    DescribedFits(g, cs[k].field.typ, cs[k].within, cs[k].field.tag, prop, usable, j);
  }

  lemma TextEncodes(g: Graph, t: Id, usable: string -> bool, j: Json)
    requires Grounded(g) && t in g && IsText(g, t) && j.JString?
    ensures Encodes(g, t, usable, j)
  {
  }

  lemma OneDominates(cs: seq<Candidate>, i: int, j: int)
    requires Dominates(cs, i) && Dominates(cs, j) && cs[i].name == cs[j].name
    ensures i == j
  {
  }

  /** Every encoding of a value of a type fits the type's schema, if the properties are of the fields that
    * encoding/json takes. */
  lemma EncodingsFit(g: Graph, t: Id, usable: string -> bool, j: Json)
    requires Grounded(g) && t in g && SchemaOf(g, t, {}).Ok? && AllTaken(g, usable) && Encodes(g, t, usable, j)
    ensures Fits(SchemaOf(g, t, {}).schema, j)
  {
    SchemaDescribed(g, t, {});
    assert Enum("") == [];
    hide *;
    DescribedFits(g, t, {}, "", SchemaOf(g, t, {}).schema, usable, j);
  }

  /** The kind of JSON value that a type is. */
  predicate OfKind(g: Graph, t: Id, j: Json)
    requires Grounded(g) && t in g
    decreases Depth(g, t)
  {
    match g[t]
    case Str => j.JString?
    case Boolean => j.JBool?
    case Integer(_) => j.JNumber? && j.integral
    case Number => j.JNumber?
    case Interface => true
    case Unsupported => false
    case Pointer(e) => DepthDrops(g, t); OfKind(g, e, j)
    case Slice(e) => if g[e] == Integer(true) then j.JString? else j.JArray?
    case Array(_) => j.JArray?
    case Map(_, _) => j.JObject?
    case Struct(_) => j.JObject?
  }

  /** Values of another kind fit no schema of the type. */
  lemma {:induction false} DescribedKind(g: Graph, t: Id, path: set<Id>, tag: string, s: Schema, j: Json)
    requires Grounded(g) && t in g && Describes(g, t, path, tag, s) && Fits(s, j)
    ensures OfKind(g, t, j)
    decreases Depth(g, t)
  {
    hide Tagged, BuilderFields;
    if g[t].Pointer? {
      DepthDrops(g, t);
      DescribedKind(g, g[t].elem, path, tag, s, j);
    }
  }

  /** A value of another kind than a type's does not fit its schema; null, as which encoding/json encodes
    * nil pointers, slices and maps, only that of a type that can be anything. */
  lemma OtherKindsDoNotFit(g: Graph, t: Id, path: set<Id>, j: Json)
    requires Grounded(g) && t in g && SchemaOf(g, t, path).Ok?
    ensures Fits(SchemaOf(g, t, path).schema, j) ==> OfKind(g, t, j)
    ensures Fits(SchemaOf(g, t, path).schema, JNull) <==> OfKind(g, t, JNull)
  {
    SchemaDescribed(g, t, path);
    var s := SchemaOf(g, t, path).schema;
    assert Enum("") == [];
    hide SchemaOf, Describes;
    if Fits(s, j) { DescribedKind(g, t, path, "", s, j); }
    if Fits(s, JNull) { DescribedKind(g, t, path, "", s, JNull); }
    if OfKind(g, t, JNull) { AnythingFits(g, t, path, s); }
  }

  lemma {:induction false} AnythingFits(g: Graph, t: Id, path: set<Id>, s: Schema)
    requires Grounded(g) && t in g && Describes(g, t, path, "", s) && OfKind(g, t, JNull)
    ensures Fits(s, JNull)
    decreases Depth(g, t)
  {
    if g[t].Pointer? {
      DepthDrops(g, t);
      AnythingFits(g, g[t].elem, path, s);
    } else {
      BareEnum("", "", "");
    }
  }

  // ----- when the properties are of the fields taken -------------------------------------

  /** Two lists of the same fields, whatever their schemas are built within. */
  ghost predicate SamePlaces(a: seq<Candidate>, b: seq<Candidate>) {
    |a| == |b| && forall k :: 0 <= k < |a| ==>
      && a[k].name == b[k].name && a[k].depth == b[k].depth && a[k].tagged == b[k].tagged
      && a[k].demanded == b[k].demanded && a[k].field == b[k].field
  }

  lemma {:induction false} PathFree(g: Graph, fields: seq<Field>, p: set<Id>, q: set<Id>, cut: set<Id>, depth: nat,
                                    rule: Rule)
    requires Grounded(g) && forall i :: 0 <= i < |fields| ==> fields[i].typ in g
    ensures SamePlaces(Candidates(g, fields, p, cut, depth, rule), Candidates(g, fields, q, cut, depth, rule))
    decreases Structs(g) - cut, 2, |fields|
  {
    hide FieldCandidates;
    if fields != [] {
      PathFree(g, fields[..|fields| - 1], p, q, cut, depth, rule);
      FieldPathFree(g, fields[|fields| - 1], p, q, cut, depth, rule);
    }
  }

  lemma {:induction false} FieldPathFree(g: Graph, f: Field, p: set<Id>, q: set<Id>, cut: set<Id>, depth: nat,
                                         rule: Rule)
    requires Grounded(g) && f.typ in g
    ensures SamePlaces(FieldCandidates(g, f, p, cut, depth, rule), FieldCandidates(g, f, q, cut, depth, rule))
    decreases Structs(g) - cut, 1
  {
    hide StructCandidates, SchemaOf;
    match Treats(g, f, rule)
    case Flattened(t) => StructPathFree(g, t, p, q, cut, depth + 1, rule);
    case _ =>
  }

  lemma {:induction false} StructPathFree(g: Graph, t: Id, p: set<Id>, q: set<Id>, cut: set<Id>, depth: nat, rule: Rule)
    requires Grounded(g) && t in g && g[t].Struct?
    ensures SamePlaces(StructCandidates(g, t, p, cut, depth, rule), StructCandidates(g, t, q, cut, depth, rule))
    decreases Structs(g) - cut, 0
  {
    if t !in cut {
      assert t in Structs(g) - cut && t !in Structs(g) - (cut + {t});
      PathFree(g, g[t].fields, p + {t}, q + {t}, cut + {t}, depth, rule);
      hide Candidates, SamePlaces;
    }
  }

  ghost predicate NoneQuoted(g: Graph, cs: seq<Candidate>)
    requires WellFormed(g)
  {
    forall k :: 0 <= k < |cs| && cs[k].field.typ in g && Quoted(g, cs[k].field) ==> IsText(g, cs[k].field.typ)
  }

  /** They are when the builder and encoding/json treat all fields alike, no two give one name, and none
    * has a number or boolean as text. */
  lemma AllTakenWhen(g: Graph, usable: string -> bool)
    requires Grounded(g)
    requires forall t, path: set<Id> | t in g && g[t].Struct? && t !in path ::
      && AllAlike(g, g[t].fields, path + {t}, usable)
      && DistinctNames(BuilderFields(g, g[t].fields, path + {t}))
      && NoneQuoted(g, BuilderFields(g, g[t].fields, path + {t}))
    ensures AllTaken(g, usable)
  {
    hide AllAlike, DistinctNames, NoneQuoted, BuilderFields, EncodingFields, PropertiesTaken, Depth;
    forall t, path: set<Id> | t in g && g[t].Struct? && t !in path
      ensures PropertiesTaken(g, BuilderFields(g, g[t].fields, path + {t}), EncodingFields(g, g[t].fields, {}, usable))
    {
      StructTaken(g, g[t].fields, path + {t}, usable);
    }
  }

  ghost predicate DistinctNames(cs: seq<Candidate>) {
    forall i, j :: 0 <= i < |cs| && 0 <= j < |cs| && i != j ==> cs[i].name != cs[j].name
  }

  lemma StructTaken(g: Graph, fields: seq<Field>, path: set<Id>, usable: string -> bool)
    requires Grounded(g) && (forall i :: 0 <= i < |fields| ==> fields[i].typ in g)
    requires AllAlike(g, fields, path, usable) && DistinctNames(BuilderFields(g, fields, path))
    requires NoneQuoted(g, BuilderFields(g, fields, path))
    ensures PropertiesTaken(g, BuilderFields(g, fields, path), EncodingFields(g, fields, {}, usable))
  {
    AlikeSame(g, fields, path, {}, 0, usable);
    PathFree(g, fields, path, {}, {}, 0, OfJson(usable));
    var cs, jcs := BuilderFields(g, fields, path), EncodingFields(g, fields, {}, usable);
    assert SamePlaces(cs, jcs);
    hide AllAlike, Candidates, BuilderFields, EncodingFields, Grounded, Quoted, IsText;
    forall k | 0 <= k < |cs| ensures Dominates(jcs, k) {}
  }
}
