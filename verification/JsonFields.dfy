/** How a struct's fields become properties, and which of them encoding/json reads and writes.
  *
  * The builder flattens an embedded struct without a json tag. encoding/json, as it documents its
  * rule, flattens an embedded struct, or a pointer to one, whose tag gives no name it can use; of
  * several fields with one name it takes the least nested, of those one named by its tag, and none
  * if that leaves more than one.
  */
module JsonFields {
  import opened Options
  import opened Schemas
  import opened SchemaTags
  import opened Text

  /** What becomes of a field: nothing, a property of its own, or the properties of a struct. */
  datatype Treatment = Dropped | Own(name: string, tagged: bool) | Flattened(typ: Id)

  /** Whose rule is followed. Which names encoding/json can use from a tag is a parameter. */
  datatype Rule = OfBuilder | OfJson(usable: string -> bool)

  function TagName(f: Field): string { Split(f.json, ',')[0] }

  function BuilderTreats(g: Graph, f: Field): Treatment
    requires WellFormed(g) && f.typ in g
  {
    if Embedded(g, f) then Flattened(f.typ)
    else if !f.exported || NameOf(f).Skip? then Dropped
    else Own(NameOf(f).name, TagName(f) != "")
  }

  /** The struct that a field embeds, by value or through a pointer. */
  function EmbeddedStruct(g: Graph, f: Field): (r: Option<Id>)
    requires WellFormed(g) && f.typ in g
    ensures r.Some? ==> r.value in g && g[r.value].Struct?
  {
    if !f.anonymous then None
    else if g[f.typ].Struct? then Some(f.typ)
    else if g[f.typ].Pointer? && g[g[f.typ].elem].Struct? then Some(g[f.typ].elem)
    else None
  }

  function UsableName(f: Field, usable: string -> bool): string {
    if TagName(f) != "" && usable(TagName(f)) then TagName(f) else ""
  }

  function JsonTreats(g: Graph, f: Field, usable: string -> bool): Treatment
    requires WellFormed(g) && f.typ in g
  {
    var target, name := EmbeddedStruct(g, f), UsableName(f, usable);
    if !f.exported && target.None? then Dropped
    else if f.json == "-" then Dropped
    else if name != "" then Own(name, true)
    else if target.Some? then Flattened(target.value)
    else Own(f.name, false)
  }

  function Treats(g: Graph, f: Field, rule: Rule): (r: Treatment)
    requires WellFormed(g) && f.typ in g
    ensures r.Flattened? ==> r.typ in g && g[r.typ].Struct?
  {
    if rule.OfBuilder? then BuilderTreats(g, f) else JsonTreats(g, f, rule.usable)
  }

  /** The fields that both treat alike. */
  predicate TreatedAlike(g: Graph, f: Field, usable: string -> bool)
    requires WellFormed(g) && f.typ in g
  {
    || f.json == "-"
    || (if EmbeddedStruct(g, f).Some?
        then (f.json == "" && g[f.typ].Struct?) || (f.exported && UsableName(f, usable) != "")
        else !f.exported || UsableName(f, usable) == TagName(f))
  }

  lemma NothingSplits()
    ensures Split("", ',') == [""]
  {
    SplitNone("", ',');
  }

  /** The exact condition for a single field. It fails for an embedded pointer to a struct, an embedded
    * struct whose tag has options only, a tag name encoding/json cannot use, and an unexported
    * embedded struct that its tag names. */
  lemma TreatedAlikeIff(g: Graph, f: Field, usable: string -> bool)
    requires WellFormed(g) && f.typ in g
    ensures BuilderTreats(g, f) == JsonTreats(g, f, usable) <==> TreatedAlike(g, f, usable)
  {
    NothingSplits();
    hide Split;
  }

  // ----- the fields flattened ------------------------------------------------------------

  /** A property that a field would give: how deep in embedded structs the field is, whether its tag
    * names it, whether it is required, and the field with the structs its schema is built within. */
  datatype Candidate = Candidate(name: string, depth: nat, tagged: bool, demanded: bool, prop: Result,
                                 field: Field, within: set<Id>)

  function Noted(r: Result, tag: string): Result {
    match r
    case Err(_) => r
    case Ok(s) => Ok(s.(notes := Tagged(s.notes, tag)))
  }

  predicate Demanding(g: Graph, f: Field)
    requires f.typ in g
  {
    NameOf(f).Named? && !NameOf(f).omitempty && !g[f.typ].Pointer?
  }

  /** All that the fields would give by a rule, in the order declared, with the schemas they have within
    * the structs of the path. Structs in `cut` are left out. */
  function Candidates(g: Graph, fields: seq<Field>, path: set<Id>, cut: set<Id>, depth: nat, rule: Rule)
    : seq<Candidate>
    requires Grounded(g) && forall i :: 0 <= i < |fields| ==> fields[i].typ in g
    decreases Structs(g) - cut, 2, |fields|
  {
    if fields == [] then []
    else
      Candidates(g, fields[..|fields| - 1], path, cut, depth, rule) +
      FieldCandidates(g, fields[|fields| - 1], path, cut, depth, rule)
  }

  function FieldCandidates(g: Graph, f: Field, path: set<Id>, cut: set<Id>, depth: nat, rule: Rule): seq<Candidate>
    requires Grounded(g) && f.typ in g
    decreases Structs(g) - cut, 1
  {
    match Treats(g, f, rule)
    case Dropped => []
    case Own(name, tagged) =>
      [Candidate(name, depth, tagged, Demanding(g, f), Noted(SchemaOf(g, f.typ, path), f.tag), f, path)]
    case Flattened(t) => StructCandidates(g, t, path, cut, depth + 1, rule)
  }

  function StructCandidates(g: Graph, t: Id, path: set<Id>, cut: set<Id>, depth: nat, rule: Rule): seq<Candidate>
    requires Grounded(g) && t in g && g[t].Struct?
    decreases Structs(g) - cut, 0
  {
    if t in cut then []
    else
      assert t in Structs(g) - cut && t !in Structs(g) - (cut + {t});
      Candidates(g, g[t].fields, path + {t}, cut + {t}, depth, rule)
  }

  /** What the builder makes of the fields: it leaves out the structs being built. */
  function BuilderFields(g: Graph, fields: seq<Field>, path: set<Id>): seq<Candidate>
    requires Grounded(g) && forall i :: 0 <= i < |fields| ==> fields[i].typ in g
  {
    Candidates(g, fields, path, path, 0, OfBuilder)
  }

  /** What encoding/json makes of them. It is the same whatever is being built; of a struct embedded
    * within itself only the outer one counts, whose fields are less nested. */
  function EncodingFields(g: Graph, fields: seq<Field>, path: set<Id>, usable: string -> bool): seq<Candidate>
    requires Grounded(g) && forall i :: 0 <= i < |fields| ==> fields[i].typ in g
  {
    Candidates(g, fields, path, {}, 0, OfJson(usable))
  }

  // ----- the builder's properties --------------------------------------------------------

  function LastOf(cs: seq<Candidate>, name: string): Option<Result> {
    if cs == [] then None
    else if cs[|cs| - 1].name == name then Some(cs[|cs| - 1].prop)
    else LastOf(cs[..|cs| - 1], name)
  }

  function Lookup(s: Schema, name: string): Option<Result> {
    if name in s.properties then Some(Ok(s.properties[name])) else None
  }

  function Demanded(cs: seq<Candidate>): seq<string> {
    if cs == [] then []
    else Demanded(cs[..|cs| - 1]) + if cs[|cs| - 1].demanded then [cs[|cs| - 1].name] else []
  }

  lemma {:induction false} LastOfJoin(a: seq<Candidate>, b: seq<Candidate>, name: string)
    ensures LastOf(a + b, name) == if LastOf(b, name).Some? then LastOf(b, name) else LastOf(a, name)
    decreases |b|
  {
    if b == [] {
      assert a + b == a;
    } else {
      assert (a + b)[..|a + b| - 1] == a + b[..|b| - 1];
      LastOfJoin(a, b[..|b| - 1], name);
    }
  }

  lemma {:induction false} DemandedJoin(a: seq<Candidate>, b: seq<Candidate>)
    ensures Demanded(a + b) == Demanded(a) + Demanded(b)
    decreases |b|
  {
    if b == [] {
      assert a + b == a;
    } else {
      assert (a + b)[..|a + b| - 1] == a + b[..|b| - 1];
      DemandedJoin(a, b[..|b| - 1]);
    }
  }

  /** What one field adds to a schema, by what it would give. */
  ghost predicate Adds(before: Schema, after: Schema, cs: seq<Candidate>) {
    && after.required == before.required + Demanded(cs)
    && forall name :: Lookup(after, name) == if LastOf(cs, name).Some? then LastOf(cs, name) else Lookup(before, name)
  }

  lemma AddsJoin(start: Schema, before: Schema, after: Schema, a: seq<Candidate>, b: seq<Candidate>)
    requires Adds(start, before, a) && Adds(before, after, b)
    ensures Adds(start, after, a + b)
  {
    DemandedJoin(a, b);
    forall name ensures LastOf(a + b, name) == if LastOf(b, name).Some? then LastOf(b, name) else LastOf(a, name) {
      LastOfJoin(a, b, name);
    }
    hide LastOf, Demanded, Lookup;
  }

  lemma EmbeddedAdds(g: Graph, f: Field, path: set<Id>, out: Schema, cs: seq<Candidate>)
    requires Grounded(g) && f.typ in g && Embedded(g, f) && FieldSchema(g, f, path, out).Ok?
    requires StructSchema(g, f.typ, path).Ok? ==> Adds(OPEN_OBJECT, StructSchema(g, f.typ, path).schema, cs)
    ensures Adds(out, FieldSchema(g, f, path, out).schema, cs)
  {
    hide Grounded, SchemaOf, StructSchema, NameOf, WithField, LastOf, Demanded;
    var embedded := StructSchema(g, f.typ, path).schema;
    assert forall name :: Lookup(OPEN_OBJECT, name).None?;
    assert forall name :: Lookup(embedded, name) == LastOf(cs, name);
    assert [] + Demanded(cs) == Demanded(cs);
  }

  lemma OwnAdds(g: Graph, f: Field, path: set<Id>, out: Schema, depth: nat)
    requires Grounded(g) && f.typ in g && !Embedded(g, f) && FieldSchema(g, f, path, out).Ok?
    ensures Adds(out, FieldSchema(g, f, path, out).schema, FieldCandidates(g, f, path, path, depth, OfBuilder))
  {
    hide Grounded, SchemaOf, StructSchema, NameOf, Tagged, Split;
    if !f.exported || NameOf(f).Skip? {
      NothingAdds(out);
    } else {
      var prop := SchemaOf(g, f.typ, path).schema;
      assert FieldSchema(g, f, path, out).schema == WithField(out, NameOf(f), prop, f, g[f.typ].Pointer?);
      PropertyAdds(out, f, prop, g[f.typ].Pointer?,
                   Candidate(NameOf(f).name, depth, TagName(f) != "", Demanding(g, f), Noted(Ok(prop), f.tag), f,
                             path));
    }
  }

  lemma PropertyAdds(out: Schema, f: Field, prop: Schema, pointer: bool, c: Candidate)
    requires NameOf(f).Named? && c.name == NameOf(f).name && c.prop == Noted(Ok(prop), f.tag)
    requires c.demanded <==> !NameOf(f).omitempty && !pointer
    ensures Adds(out, WithField(out, NameOf(f), prop, f, pointer), [c])
  {
    hide NameOf, Tagged;
    var next := WithField(out, NameOf(f), prop, f, pointer);
    OneCandidate(c);
    assert out.required + [] == out.required;
    forall name
      ensures Lookup(next, name) == if LastOf([c], name).Some? then LastOf([c], name) else Lookup(out, name)
    {
    }
  }

  lemma OneCandidate(c: Candidate)
    ensures Demanded([c]) == if c.demanded then [c.name] else []
    ensures forall name :: LastOf([c], name) == if name == c.name then Some(c.prop) else None
  {
    assert [c][..0] == [] && Demanded([]) == [];
    forall name ensures LastOf([], name).None? {}
  }

  lemma {:induction false} FieldsAdd(g: Graph, fields: seq<Field>, path: set<Id>, depth: nat)
    requires Grounded(g) && (forall i :: 0 <= i < |fields| ==> fields[i].typ in g) && FieldsSchema(g, fields, path).Ok?
    ensures Adds(OPEN_OBJECT, FieldsSchema(g, fields, path).schema, Candidates(g, fields, path, path, depth, OfBuilder))
    decreases Structs(g) - path, 2, |fields|
  {
    hide Grounded, StructSchema, StructCandidates, FieldSchema, FieldCandidates, Adds;
    if fields == [] {
      assert Adds(OPEN_OBJECT, OPEN_OBJECT, []) by { NothingAdds(OPEN_OBJECT); }
    } else {
      var n := |fields| - 1;
      var f, out := fields[n], FieldsSchema(g, fields[..n], path).schema;
      FieldsAdd(g, fields[..n], path, depth);
      FieldAdds(g, f, path, out, depth);
      AddsJoin(OPEN_OBJECT, out, FieldSchema(g, f, path, out).schema,
               Candidates(g, fields[..n], path, path, depth, OfBuilder),
               FieldCandidates(g, f, path, path, depth, OfBuilder));
    }
  }

  lemma NothingAdds(s: Schema)
    ensures Adds(s, s, [])
  {
  }

  lemma {:induction false} FieldAdds(g: Graph, f: Field, path: set<Id>, out: Schema, depth: nat)
    requires Grounded(g) && f.typ in g && FieldSchema(g, f, path, out).Ok?
    ensures Adds(out, FieldSchema(g, f, path, out).schema, FieldCandidates(g, f, path, path, depth, OfBuilder))
    decreases Structs(g) - path, 1
  {
    hide Grounded, StructSchema, StructCandidates, FieldSchema, Adds;
    if Embedded(g, f) {
      if StructSchema(g, f.typ, path).Ok? { StructAdds(g, f.typ, path, depth + 1); }
      EmbeddedAdds(g, f, path, out, StructCandidates(g, f.typ, path, path, depth + 1, OfBuilder));
    } else {
      OwnAdds(g, f, path, out, depth);
    }
  }

  lemma {:induction false} StructAdds(g: Graph, t: Id, path: set<Id>, depth: nat)
    requires Grounded(g) && t in g && g[t].Struct? && StructSchema(g, t, path).Ok?
    ensures Adds(OPEN_OBJECT, StructSchema(g, t, path).schema, StructCandidates(g, t, path, path, depth, OfBuilder))
    decreases Structs(g) - path, 0
  {
    hide Adds;
    if t in path {
      NothingAdds(OPEN_OBJECT);
    } else {
      assert t in Structs(g) - path && t !in Structs(g) - (path + {t});
      FieldsAdd(g, g[t].fields, path + {t}, depth);
    }
  }

  /** Of fields with one name the last declared gives the property, however deep it is embedded. */
  lemma LastFieldWins(g: Graph, fields: seq<Field>, path: set<Id>, name: string)
    requires Grounded(g) && (forall i :: 0 <= i < |fields| ==> fields[i].typ in g) && FieldsSchema(g, fields, path).Ok?
    ensures Lookup(FieldsSchema(g, fields, path).schema, name) ==
      LastOf(BuilderFields(g, fields, path), name)
  {
    FieldsAdd(g, fields, path, 0);
    hide LastOf, BuilderFields, EncodingFields, FieldsSchema;
  }

  ghost predicate Distinct(names: seq<string>) { forall i, j :: 0 <= i < j < |names| ==> names[i] != names[j] }

  /** No two fields demand the same property. */
  ghost predicate DemandOnce(cs: seq<Candidate>) {
    forall i, j :: 0 <= i < j < |cs| && cs[i].demanded && cs[j].demanded ==> cs[i].name != cs[j].name
  }

  lemma {:induction false} DemandedMeans(cs: seq<Candidate>, name: string)
    ensures name in Demanded(cs) <==> exists i :: 0 <= i < |cs| && cs[i].demanded && cs[i].name == name
  {
    if cs != [] { DemandedMeans(cs[..|cs| - 1], name); }
  }

  lemma {:induction false} DistinctIff(cs: seq<Candidate>)
    ensures Distinct(Demanded(cs)) <==> DemandOnce(cs)
  {
    if cs != [] {
      var n := |cs| - 1;
      var before, c := Demanded(cs[..n]), cs[n];
      assert before + [] == before;
      DistinctIff(cs[..n]);
      DemandedMeans(cs[..n], c.name);
      DemandLast(cs);
      DistinctLast(before, c.name);
      hide Distinct, DemandOnce;
    }
  }

  lemma DemandLast(cs: seq<Candidate>)
    requires cs != []
    ensures var n := |cs| - 1;
      DemandOnce(cs) <==>
      && DemandOnce(cs[..n])
      && (cs[n].demanded ==> !exists i :: 0 <= i < n && cs[..n][i].demanded && cs[..n][i].name == cs[n].name)
  {
    var n := |cs| - 1;
    if DemandOnce(cs) {
      forall i | 0 <= i < n && cs[..n][i].demanded && cs[n].demanded ensures cs[..n][i].name != cs[n].name {
        assert cs[..n][i] == cs[i];
      }
    }
  }

  lemma DistinctLast(names: seq<string>, name: string)
    ensures Distinct(names + [name]) <==> Distinct(names) && name !in names
  {
    var all := names + [name];
    if Distinct(all) {
      forall i | 0 <= i < |names| ensures names[i] != name { assert all[i] == names[i] && all[|names|] == name; }
      forall i, j | 0 <= i < j < |names| ensures names[i] != names[j] {
        assert all[i] == names[i] && all[j] == names[j];
      }
    }
  }

  /** What is required is what the fields demand, one by one, in order; so nothing is listed twice if and
    * only if no two fields, embedded ones included, demand one name. */
  lemma RequiredOnceIff(g: Graph, fields: seq<Field>, path: set<Id>)
    requires Grounded(g) && (forall i :: 0 <= i < |fields| ==> fields[i].typ in g) && FieldsSchema(g, fields, path).Ok?
    ensures var cs := BuilderFields(g, fields, path);
      var required := FieldsSchema(g, fields, path).schema.required;
      required == Demanded(cs) && (Distinct(required) <==> DemandOnce(cs))
  {
    var cs := BuilderFields(g, fields, path);
    FieldsAdd(g, fields, path, 0);
    DistinctIff(cs);
    assert [] + Demanded(cs) == Demanded(cs);
    hide LastOf, Demanded, BuilderFields, FieldsSchema, Distinct, DemandOnce;
  }

  // ----- the fields of encoding/json -----------------------------------------------------

  /** Of fields with one name the least nested wins, and of those the one named by its tag. */
  predicate Beats(c: Candidate, d: Candidate) { c.depth < d.depth || (c.depth == d.depth && c.tagged && !d.tagged) }

  ghost predicate Dominates(cs: seq<Candidate>, k: int) {
    0 <= k < |cs| && forall j :: 0 <= j < |cs| && j != k && cs[j].name == cs[k].name ==> Beats(cs[k], cs[j])
  }

  /** Some field of the name beats all others. */
  ghost predicate Taken(cs: seq<Candidate>, name: string) { exists k :: Dominates(cs, k) && cs[k].name == name }

  /** The field read and written under a name, by its schema; none if no field beats all others. */
  ghost predicate JsonField(cs: seq<Candidate>, name: string, prop: Option<Result>) {
    if Taken(cs, name)
    then exists k :: Dominates(cs, k) && cs[k].name == name && prop == Some(cs[k].prop)
    else prop.None?
  }

  /** There is one answer for each name. */
  lemma OneJsonField(cs: seq<Candidate>, name: string, p: Option<Result>, q: Option<Result>)
    requires JsonField(cs, name, p) && JsonField(cs, name, q)
    ensures p == q
  {
  }

  /** The schema has for a name what encoding/json has, a property or none. */
  ghost predicate Matches(g: Graph, fields: seq<Field>, path: set<Id>, usable: string -> bool, name: string)
    requires Grounded(g) && (forall i :: 0 <= i < |fields| ==> fields[i].typ in g) && FieldsSchema(g, fields, path).Ok?
  {
    JsonField(EncodingFields(g, fields, path, usable), name, Lookup(FieldsSchema(g, fields, path).schema, name))
  }

  /** The last of the builder's fields of a name is the one that encoding/json takes, or has its schema;
    * where the builder has no field of the name, encoding/json takes none. */
  ghost predicate LastIsTaken(cs: seq<Candidate>, jcs: seq<Candidate>, name: string) {
    match LastOf(cs, name)
    case None => !Taken(jcs, name)
    case Some(prop) => exists k :: Dominates(jcs, k) && jcs[k].name == name && jcs[k].prop == prop
  }

  /** The exact condition for a name, between what the two rules make of the fields. */
  lemma FlattensAsJsonIff(g: Graph, fields: seq<Field>, path: set<Id>, usable: string -> bool, name: string)
    requires Grounded(g) && (forall i :: 0 <= i < |fields| ==> fields[i].typ in g) && FieldsSchema(g, fields, path).Ok?
    ensures Matches(g, fields, path, usable, name) <==>
      LastIsTaken(BuilderFields(g, fields, path), EncodingFields(g, fields, path, usable), name)
  {
    LastFieldWins(g, fields, path, name);
    hide LastOf, BuilderFields, EncodingFields, FieldsSchema;
  }

  // ----- fields that both treat alike ----------------------------------------------------

  /** Both treat alike every field they come to, and no struct that is being built is embedded. */
  predicate AllAlike(g: Graph, fields: seq<Field>, path: set<Id>, usable: string -> bool)
    requires Grounded(g) && forall i :: 0 <= i < |fields| ==> fields[i].typ in g
    decreases Structs(g) - path, 2, |fields|
  {
    fields == [] ||
    var f := fields[|fields| - 1];
    && AllAlike(g, fields[..|fields| - 1], path, usable)
    && TreatedAlike(g, f, usable)
    && (Embedded(g, f) ==> StructAlike(g, f.typ, path, usable))
  }

  predicate StructAlike(g: Graph, t: Id, path: set<Id>, usable: string -> bool)
    requires Grounded(g) && t in g && g[t].Struct?
    decreases Structs(g) - path, 0
  {
    t !in path &&
    assert t in Structs(g) - path && t !in Structs(g) - (path + {t});
    AllAlike(g, g[t].fields, path + {t}, usable)
  }

  lemma {:induction false} AlikeSame(g: Graph, fields: seq<Field>, path: set<Id>, cut: set<Id>, depth: nat,
                                     usable: string -> bool)
    requires Grounded(g) && (forall i :: 0 <= i < |fields| ==> fields[i].typ in g)
    requires AllAlike(g, fields, path, usable) && cut <= path
    ensures Candidates(g, fields, path, path, depth, OfBuilder) ==
      Candidates(g, fields, path, cut, depth, OfJson(usable))
    decreases Structs(g) - path, 2, |fields|
  {
    assert WellFormed(g);
    hide Grounded, Embedded, StructCandidates, StructAlike, TreatedAlike, BuilderTreats, JsonTreats, SchemaOf;
    if fields != [] {
      var n := |fields| - 1;
      var f := fields[n];
      AlikeSame(g, fields[..n], path, cut, depth, usable);
      TreatedAlikeIff(g, f, usable);
      EmbeddedFlattened(g, f);
      assert Embedded(g, f) ==> StructAlike(g, f.typ, path, usable);
      if Embedded(g, f) { StructSame(g, f.typ, path, cut, depth + 1, usable); }
    }
  }

  lemma EmbeddedFlattened(g: Graph, f: Field)
    requires WellFormed(g) && f.typ in g
    ensures if Embedded(g, f) then BuilderTreats(g, f) == Flattened(f.typ) else !BuilderTreats(g, f).Flattened?
  {
  }

  lemma {:induction false} StructSame(g: Graph, t: Id, path: set<Id>, cut: set<Id>, depth: nat, usable: string -> bool)
    requires Grounded(g) && t in g && g[t].Struct? && StructAlike(g, t, path, usable) && cut <= path
    ensures StructCandidates(g, t, path, path, depth, OfBuilder) ==
      StructCandidates(g, t, path, cut, depth, OfJson(usable))
    decreases Structs(g) - path, 0
  {
    assert t in Structs(g) - path && t !in Structs(g) - (path + {t});
    AlikeSame(g, g[t].fields, path + {t}, cut + {t}, depth, usable);
  }

  /** When all fields are treated alike the promise is kept if and only if the last field of the name is
    * the one that encoding/json takes of the same fields. */
  lemma AlikeMatchesIff(g: Graph, fields: seq<Field>, path: set<Id>, usable: string -> bool, name: string)
    requires Grounded(g) && (forall i :: 0 <= i < |fields| ==> fields[i].typ in g) && FieldsSchema(g, fields, path).Ok?
    requires AllAlike(g, fields, path, usable)
    ensures var cs := BuilderFields(g, fields, path);
      Matches(g, fields, path, usable, name) <==>
      LastOf(cs, name).Some? ==>
        exists k :: Dominates(cs, k) && cs[k].name == name && LastOf(cs, name) == Some(cs[k].prop)
  {
    var cs := BuilderFields(g, fields, path);
    FlattensAsJsonIff(g, fields, path, usable, name);
    AlikeSame(g, fields, path, {}, 0, usable);
    LastOfExact(cs, name);
    hide LastOf, BuilderFields, EncodingFields, FieldsSchema, Matches, AllAlike;
  }

  lemma {:induction false} LastOfExact(cs: seq<Candidate>, name: string)
    ensures LastOf(cs, name).None? <==> forall k :: 0 <= k < |cs| ==> cs[k].name != name
    ensures LastOf(cs, name).Some? ==>
      exists k :: 0 <= k < |cs| && cs[k].name == name && LastOf(cs, name) == Some(cs[k].prop)
  {
    if cs != [] {
      var n := |cs| - 1;
      LastOfExact(cs[..n], name);
      assert forall k :: 0 <= k < n ==> cs[..n][k] == cs[k];
    }
  }

  /** So it is kept whenever all fields are treated alike and no two of them have one name. */
  lemma DistinctFlattenAsJson(g: Graph, fields: seq<Field>, path: set<Id>, usable: string -> bool, name: string)
    requires Grounded(g) && (forall i :: 0 <= i < |fields| ==> fields[i].typ in g) && FieldsSchema(g, fields, path).Ok?
    requires AllAlike(g, fields, path, usable)
    requires var cs := BuilderFields(g, fields, path);
      forall j, k :: 0 <= j < k < |cs| ==> cs[j].name != cs[k].name
    ensures Matches(g, fields, path, usable, name)
  {
    var cs := BuilderFields(g, fields, path);
    AlikeMatchesIff(g, fields, path, usable, name);
    LastOfExact(cs, name);
    hide LastOf, BuilderFields, EncodingFields, FieldsSchema, Matches, AllAlike;
  }

  // ----- fields that they do not ---------------------------------------------------------

  lemma OneField(g: Graph, f: Field, path: set<Id>, cut: set<Id>, rule: Rule)
    requires Grounded(g) && f.typ in g
    ensures Candidates(g, [f], path, cut, 0, rule) == FieldCandidates(g, f, path, cut, 0, rule)
  {
    hide FieldCandidates;
    assert [f][..0] == [] && Candidates(g, [], path, cut, 0, rule) == [];
  }

  // What the one field of a struct gives by the builder's rule, if it is not flattened.
  lemma OneOfBuilder(g: Graph, f: Field, path: set<Id>, name: string)
    requires Grounded(g) && f.typ in g && !BuilderTreats(g, f).Flattened?
    ensures var own := BuilderTreats(g, f);
      LastOf(BuilderFields(g, [f], path), name).Some? <==> own.Own? && own.name == name
  {
    OneField(g, f, path, path, OfBuilder);
    hide Grounded, BuilderTreats, SchemaOf, Candidates;
    if BuilderTreats(g, f).Own? { OneCandidate(FieldCandidates(g, f, path, path, 0, OfBuilder)[0]); }
  }

  /** A struct whose one field encoding/json flattens and the builder does not: they differ on every name
    * that encoding/json takes from the struct embedded, but the field's own; and on that, unless
    * encoding/json takes one of the same name there. */
  lemma NotFlattenedDiffers(g: Graph, f: Field, path: set<Id>, usable: string -> bool, name: string)
    requires Grounded(g) && f.typ in g && FieldsSchema(g, [f], path).Ok?
    requires JsonTreats(g, f, usable).Flattened? && !BuilderTreats(g, f).Flattened?
    ensures var own := BuilderTreats(g, f);
      var jcs := StructCandidates(g, JsonTreats(g, f, usable).typ, path, {}, 1, OfJson(usable));
      var taken := Taken(jcs, name);
      && (own == Dropped || own.name != name ==> (Matches(g, [f], path, usable, name) <==> !taken))
      && (own.Own? && own.name == name && !taken ==> !Matches(g, [f], path, usable, name))
  {
    var cs, jcs := BuilderFields(g, [f], path), EncodingFields(g, [f], path, usable);
    JsonFlattens(g, f, path, usable);
    hide *;
    FlattensAsJsonIff(g, [f], path, usable, name);
    OneOfBuilder(g, f, path, name);
    TakenIff(cs, jcs, name);
  }

  lemma JsonFlattens(g: Graph, f: Field, path: set<Id>, usable: string -> bool)
    requires Grounded(g) && f.typ in g && JsonTreats(g, f, usable).Flattened?
    ensures var t := JsonTreats(g, f, usable).typ;
      t in g && g[t].Struct? &&
      EncodingFields(g, [f], path, usable) == StructCandidates(g, t, path, {}, 1, OfJson(usable))
  {
    OneField(g, f, path, {}, OfJson(usable));
    hide Grounded, SchemaOf, Candidates, StructCandidates, NameOf, UsableName;
  }

  lemma TakenIff(cs: seq<Candidate>, jcs: seq<Candidate>, name: string)
    ensures LastOf(cs, name).None? ==> (LastIsTaken(cs, jcs, name) <==> !Taken(jcs, name))
    ensures LastOf(cs, name).Some? && LastIsTaken(cs, jcs, name) ==> Taken(jcs, name)
  {
    hide LastOf;
  }

  /** A struct whose one field encoding/json takes under a name, and the builder under another or not at
    * all: they differ on that name. */
  lemma OtherNameDiffers(g: Graph, f: Field, path: set<Id>, usable: string -> bool)
    requires Grounded(g) && f.typ in g && FieldsSchema(g, [f], path).Ok?
    requires JsonTreats(g, f, usable).Own? && !BuilderTreats(g, f).Flattened?
    requires BuilderTreats(g, f).Own? ==> BuilderTreats(g, f).name != JsonTreats(g, f, usable).name
    ensures !Matches(g, [f], path, usable, JsonTreats(g, f, usable).name)
  {
    var name := JsonTreats(g, f, usable).name;
    FlattensAsJsonIff(g, [f], path, usable, name);
    OneOfBuilder(g, f, path, name);
    OneField(g, f, path, {}, OfJson(usable));
    hide Grounded, BuilderTreats, JsonTreats, SchemaOf, FieldsSchema, Candidates, Matches, StructCandidates, LastOf;
    var jcs := FieldCandidates(g, f, path, {}, 0, OfJson(usable));
    assert jcs[0].name == name && Dominates(jcs, 0);
  }

  /** A struct whose one field embeds a struct that is being built: nothing of it is in the schema, so they
    * differ on every name that encoding/json takes from it. */
  lemma EmbeddedBeingBuilt(g: Graph, f: Field, path: set<Id>, usable: string -> bool, name: string)
    requires Grounded(g) && f.typ in g && Embedded(g, f) && f.typ in path
    ensures FieldsSchema(g, [f], path) == Ok(OPEN_OBJECT)
    ensures Matches(g, [f], path, usable, name) <==>
      !Taken(StructCandidates(g, f.typ, path, {}, 1, OfJson(usable)), name)
  {
    EmbeddedOpen(g, f, path);
    NothingSplits();
    hide Split, Grounded;
    JsonFlattens(g, f, path, usable);
    var cs, jcs := BuilderFields(g, [f], path), EncodingFields(g, [f], path, usable);
    assert LastOf(cs, name).None? by { OneField(g, f, path, path, OfBuilder); }
    hide *;
    FlattensAsJsonIff(g, [f], path, usable, name);
    TakenIff(cs, jcs, name);
  }

  lemma EmbeddedOpen(g: Graph, f: Field, path: set<Id>)
    requires Grounded(g) && f.typ in g && Embedded(g, f) && f.typ in path
    ensures FieldsSchema(g, [f], path) == Ok(OPEN_OBJECT)
  {
    hide SchemaOf, Grounded, NameOf;
    assert [f][..0] == [] && FieldsSchema(g, [], path) == Ok(OPEN_OBJECT);
    assert StructSchema(g, f.typ, path) == Ok(OPEN_OBJECT);
    var none: map<string, Schema> := map[];
    assert none + none == none;
    assert WithEmbedded(OPEN_OBJECT, OPEN_OBJECT) == OPEN_OBJECT;
    assert FieldSchema(g, f, path, OPEN_OBJECT) == Ok(OPEN_OBJECT);
  }

  function Untagged(name: string, typ: Id, anonymous: bool): Field { Field(name, typ, anonymous, true, "", "") }

  lemma UntaggedName(f: Field)
    requires f.json == ""
    ensures NameOf(f) == Named(f.name, false) && TagName(f) == ""
  {
    NothingSplits();
  }

  lemma OptionsName(f: Field)
    requires f.json == ",omitempty"
    ensures NameOf(f).Named? && NameOf(f).name == f.name && TagName(f) == ""
  {
    SplitFirst(f.json, 0, ',');
  }

  // What a field without a tag, of a type that has a schema, gives by either rule.
  lemma PlainField(g: Graph, f: Field, path: set<Id>, cut: set<Id>, depth: nat, rule: Rule)
    requires Grounded(g) && f.typ in g && !f.anonymous && f.exported && f.json == "" && f.tag == ""
    ensures Candidates(g, [f], path, cut, depth, rule) ==
      [Candidate(f.name, depth, false, !g[f.typ].Pointer?, SchemaOf(g, f.typ, path), f, path)]
  {
    UntaggedName(f);
    hide NameOf, Split, SchemaOf;
    assert [f][..0] == [] && Candidates(g, [], path, cut, depth, rule) == [];
  }

  // A struct of one field that is not embedded has a schema if the field's type has.
  lemma OneFieldSchema(g: Graph, f: Field, path: set<Id>)
    requires Grounded(g) && f.typ in g && !Embedded(g, f) && f.exported && NameOf(f).Named?
    requires SchemaOf(g, f.typ, path).Ok?
    ensures FieldsSchema(g, [f], path).Ok?
  {
    hide NameOf, SchemaOf, WithField;
    assert [f][..0] == [] && FieldsSchema(g, [], path) == Ok(OPEN_OBJECT);
  }

  lemma StructOfOne(g: Graph, t: Id, f: Field, path: set<Id>, cut: set<Id>, depth: nat, rule: Rule)
    requires Grounded(g) && t in g && g[t] == Struct([f]) && f.typ in g && t !in path && t !in cut
    ensures SchemaOf(g, t, path) == StructSchema(g, t, path) == FieldsSchema(g, [f], path + {t})
    ensures StructCandidates(g, t, path, cut, depth, rule) == Candidates(g, [f], path + {t}, cut + {t}, depth, rule)
  {
    SchemaOfStruct(g, t, path);
    hide Candidates, FieldsSchema, SchemaOf;
  }

  /** Types 0 to 3: a string, a boolean, a struct of one field of either type, and a pointer to it. */
  function SmallGraph(inner: Field): Graph { map[0 := Str, 1 := Boolean, 2 := Struct([inner]), 3 := Pointer(2)] }

  lemma SmallGrounded(inner: Field)
    requires inner.typ == 0 || inner.typ == 1
    ensures Grounded(SmallGraph(inner))
  {
    var g := SmallGraph(inner);
    assert Ends(g, 0, 0) && Ends(g, 1, 0) && Ends(g, 2, 0) && Ends(g, 3, 1);
  }

  lemma SmallSchemas(inner: Field, path: set<Id>)
    requires inner == Untagged(inner.name, inner.typ, false) && (inner.typ == 0 || inner.typ == 1)
    requires Grounded(SmallGraph(inner)) && 2 !in path
    ensures var g := SmallGraph(inner); SchemaOf(g, 2, path).Ok? && SchemaOf(g, 3, path) == SchemaOf(g, 2, path)
  {
    var g := SmallGraph(inner);
    UntaggedName(inner);
    assert SchemaOf(g, inner.typ, path + {2}).Ok?;
    SchemaNext(g, 3, path);
    hide SchemaOf, NameOf, Grounded;
    OneFieldSchema(g, inner, path + {2});
    StructOfOne(g, 2, inner, path, path, 0, OfBuilder);
  }

  /** The name of an embedded struct, of one string field x, is a property, and x is none, while
    * encoding/json has x and not the struct: if it is embedded through a pointer, or by value with
    * a tag of options only. */
  lemma EmbeddedNotFlattened(base: string, x: string, pointer: bool, usable: string -> bool)
    returns (g: Graph, f: Field)
    requires base != x
    ensures Grounded(g) && f.typ in g && f.anonymous && f.exported && f.name == base && FieldsSchema(g, [f], {}).Ok?
    ensures g[f.typ] == if pointer then Pointer(2) else Struct([Untagged(x, 0, false)])
    ensures 2 in g && g[2] == Struct([Untagged(x, 0, false)]) && f.json == if pointer then "" else ",omitempty"
    ensures !Matches(g, [f], {}, usable, base) && !Matches(g, [f], {}, usable, x)
  {
    var inner, top: set<Id> := Untagged(x, 0, false), {};
    f := if pointer then Untagged(base, 3, true) else Field(base, 2, true, true, ",omitempty", "");
    g := SmallGraph(inner);
    SmallGrounded(inner);
    if pointer { UntaggedName(f); } else { OptionsName(f); }
    UnlikeSchema(g, inner, f);
    UnlikeTreated(g, inner, f, usable);
    InnerTaken(g, inner, usable);
    hide *;
    NotFlattenedDiffers(g, f, top, usable, base);
    NotFlattenedDiffers(g, f, top, usable, x);
  }

  lemma UnlikeSchema(g: Graph, inner: Field, f: Field)
    requires g == SmallGraph(inner) && Grounded(g) && inner == Untagged(inner.name, 0, false)
    requires (f.typ == 2 && f.json != "") || f.typ == 3
    requires f.exported && NameOf(f).Named?
    ensures FieldsSchema(g, [f], {}).Ok?
  {
    SmallSchemas(inner, {});
    hide NameOf, SchemaOf, Grounded, FieldsSchema;
    OneFieldSchema(g, f, {});
  }

  lemma UnlikeTreated(g: Graph, inner: Field, f: Field, usable: string -> bool)
    requires g == SmallGraph(inner) && WellFormed(g) && ((f.typ == 2 && f.json != "") || f.typ == 3)
    requires f.anonymous && f.exported && f.json != "-" && TagName(f) == ""
    requires NameOf(f).Named? && NameOf(f).name == f.name
    ensures JsonTreats(g, f, usable) == Flattened(2) && BuilderTreats(g, f) == Own(f.name, false)
  {
    hide NameOf, TagName, WellFormed;
  }

  // encoding/json has the inner field, and no other.
  lemma InnerTaken(g: Graph, inner: Field, usable: string -> bool)
    requires g == SmallGraph(inner) && Grounded(g) && inner == Untagged(inner.name, 0, false)
    ensures var jcs := StructCandidates(g, 2, {}, {}, 1, OfJson(usable));
      forall name :: Taken(jcs, name) <==> name == inner.name
  {
    var top: set<Id> := {};
    PlainField(g, inner, top + {2}, top + {2}, 1, OfJson(usable));
    StructOfOne(g, 2, inner, top, top, 1, OfJson(usable));
    hide Candidates, StructCandidates, SchemaOf, FieldsSchema, Grounded;
    var jcs := StructCandidates(g, 2, top, top, 1, OfJson(usable));
    assert jcs[0].name == inner.name && |jcs| == 1 && Dominates(jcs, 0);
  }

  /** For a string field followed by an embedded struct with a boolean field of that name the schema has
    * the boolean, which encoding/json neither reads nor writes. */
  lemma EmbeddedOverwrites(name: string, usable: string -> bool) returns (g: Graph, fields: seq<Field>)
    ensures g == SmallGraph(Untagged(name, 1, false)) && fields == [Untagged(name, 0, false), Untagged("", 2, true)]
    ensures Grounded(g) && (forall i :: 0 <= i < |fields| ==> fields[i].typ in g) && FieldsSchema(g, fields, {}).Ok?
    ensures Lookup(FieldsSchema(g, fields, {}).schema, name) == Some(Ok(Plain("boolean")))
    ensures JsonField(EncodingFields(g, fields, {}, usable), name, Some(Ok(Plain("string"))))
    ensures !Matches(g, fields, {}, usable, name)
  {
    var outer, inner, embedded := Untagged(name, 0, false), Untagged(name, 1, false), Untagged("", 2, true);
    var top: set<Id> := {};
    g, fields := SmallGraph(inner), [outer, embedded];
    SmallGrounded(inner);
    BothFields(g, inner, outer, embedded, OfBuilder);
    BothFields(g, inner, outer, embedded, OfJson(usable));
    assert SchemaOf(g, 0, top) == Ok(Plain("string")) && SchemaOf(g, 1, top + {2}) == Ok(Plain("boolean"));
    BothSchema(g, inner, outer, embedded);
    hide SchemaOf, Grounded, Candidates, FieldsSchema;
    LastFieldWins(g, fields, top, name);
    var cs := BuilderFields(g, fields, top);
    SecondOverwrites(cs, name);
    if Matches(g, fields, top, usable, name) { OneJsonField(cs, name, Some(cs[0].prop), Some(cs[1].prop)); }
  }

  lemma SecondOverwrites(cs: seq<Candidate>, name: string)
    requires |cs| == 2 && cs[0].name == name && cs[1].name == name && cs[0].depth < cs[1].depth
    ensures LastOf(cs, name) == Some(cs[1].prop) && JsonField(cs, name, Some(cs[0].prop))
  {
    assert Dominates(cs, 0);
    OneJsonFieldAt(cs, 0);
  }

  lemma BothSchema(g: Graph, inner: Field, outer: Field, embedded: Field)
    requires Grounded(g) && g == SmallGraph(inner) && embedded == Untagged("", 2, true)
    requires outer == Untagged(outer.name, 0, false) && inner == Untagged(inner.name, 1, false)
    ensures FieldsSchema(g, [outer, embedded], {}).Ok?
  {
    var top: set<Id> := {};
    SmallSchemas(inner, top);
    assert SchemaOf(g, 0, top).Ok?;
    UntaggedName(outer);
    SchemaOfStruct(g, 2, top);
    hide SchemaOf, StructSchema, Grounded, NameOf;
    OneFieldSchema(g, outer, top);
    assert [outer, embedded][..1] == [outer] && [outer, embedded][1] == embedded;
  }

  // Either rule takes both fields, one in the other struct's place and one within it.
  lemma BothFields(g: Graph, inner: Field, outer: Field, embedded: Field, rule: Rule)
    requires Grounded(g) && g == SmallGraph(inner)
    requires outer == Untagged(outer.name, 0, false) && inner == Untagged(inner.name, 1, false)
    requires embedded == Untagged("", 2, true)
    ensures var top: set<Id> := {};
      Candidates(g, [outer, embedded], top, top, 0, rule) ==
      [Candidate(outer.name, 0, false, true, SchemaOf(g, 0, top), outer, top),
       Candidate(inner.name, 1, false, true, SchemaOf(g, 1, top + {2}), inner, top + {2})]
  {
    var top: set<Id> := {};
    PlainField(g, outer, top, top, 0, rule);
    PlainField(g, inner, top + {2}, top + {2}, 1, rule);
    StructOfOne(g, 2, inner, top, top, 1, rule);
    UntaggedName(embedded);
    hide SchemaOf, FieldsSchema, StructSchema, Grounded, NameOf, StructCandidates, TagName, Split;
    assert [outer, embedded][..1] == [outer] && [outer, embedded][1] == embedded;
    assert Treats(g, embedded, rule) == Flattened(2);
  }

  lemma OneJsonFieldAt(cs: seq<Candidate>, k: nat)
    requires Dominates(cs, k)
    ensures JsonField(cs, cs[k].name, Some(cs[k].prop))
  {
  }

  /** A struct with a string field x and a pointer to a struct that embeds it: encoding/json has x in the
    * inner struct too, and the schema has no properties there. */
  lemma RecursiveEmbeddingLost(x: string, next: string, usable: string -> bool) returns (g: Graph)
    requires x != next
    ensures g == map[0 := Str, 1 := Struct([Untagged(x, 0, false), Untagged(next, 2, false)]),
                     2 := Pointer(3), 3 := Struct([Untagged("", 1, true)])]
    ensures Grounded(g) && SchemaOf(g, 1, {}).Ok?
    ensures next in SchemaOf(g, 1, {}).schema.properties
    ensures SchemaOf(g, 1, {}).schema.properties[next].properties == map[]
    ensures FieldsSchema(g, g[3].fields, {1, 3}).Ok? && !Matches(g, g[3].fields, {1, 3}, usable, x)
  {
    var a, b, e := Untagged(x, 0, false), Untagged(next, 2, false), Untagged("", 1, true);
    g := map[0 := Str, 1 := Struct([a, b]), 2 := Pointer(3), 3 := Struct([e])];
    assert Ends(g, 0, 0) && Ends(g, 1, 0) && Ends(g, 3, 0) && Ends(g, 2, 1);
    RecursiveSchema(g, a, b, e);
    OuterTaken(g, a, b, {1, 3}, usable);
    assert Embedded(g, e);
    hide Grounded, Ends, SchemaOf, StructCandidates, FieldsSchema, Matches, Taken;
    EmbeddedBeingBuilt(g, e, {1, 3}, usable, x);
  }

  lemma OuterTaken(g: Graph, a: Field, b: Field, path: set<Id>, usable: string -> bool)
    requires Grounded(g) && 0 in g && 1 in g && 2 in g && g[1] == Struct([a, b]) && a.name != b.name
    requires a == Untagged(a.name, 0, false) && b == Untagged(b.name, 2, false)
    ensures Taken(StructCandidates(g, 1, path, {}, 1, OfJson(usable)), a.name)
  {
    var jcs := StructCandidates(g, 1, path, {}, 1, OfJson(usable));
    TwoPlain(g, a, b, path + {1}, {} + {1}, usable);
    assert jcs == Candidates(g, [a, b], path + {1}, {} + {1}, 1, OfJson(usable));
    hide Candidates, StructCandidates;
    assert Dominates(jcs, 0);
  }

  lemma TwoPlain(g: Graph, a: Field, b: Field, path: set<Id>, cut: set<Id>, usable: string -> bool)
    requires Grounded(g) && 0 in g && 2 in g && a == Untagged(a.name, 0, false) && b == Untagged(b.name, 2, false)
    ensures var cs := Candidates(g, [a, b], path, cut, 1, OfJson(usable));
      |cs| == 2 && cs[0].name == a.name && cs[1].name == b.name
  {
    PlainField(g, a, path, cut, 1, OfJson(usable));
    UntaggedName(b);
    hide NameOf, Split, SchemaOf, Grounded, TagName;
    assert [a, b][..1] == [a] && [a, b][1] == b;
  }

  lemma RecursiveSchema(g: Graph, a: Field, b: Field, e: Field)
    requires Grounded(g) && g == map[0 := Str, 1 := Struct([a, b]), 2 := Pointer(3), 3 := Struct([e])]
    requires a == Untagged(a.name, 0, false) && b == Untagged(b.name, 2, false) && e == Untagged("", 1, true)
    ensures SchemaOf(g, 1, {}).Ok? && b.name in SchemaOf(g, 1, {}).schema.properties
    ensures SchemaOf(g, 1, {}).schema.properties[b.name].properties == map[]
  {
    var path: set<Id> := {1};
    UntaggedName(a);
    InnerOpen(g, e);
    assert SchemaOf(g, 0, path).Ok?;
    assert {} + {1} == path;
    SchemaOfStruct(g, 1, {});
    hide SchemaOf, Grounded, NameOf, Tagged;
    OneFieldSchema(g, a, path);
    LastProperty(g, [a, b], path);
  }

  // Within the outer struct the inner one has no properties.
  lemma InnerOpen(g: Graph, e: Field)
    requires Grounded(g) && 1 in g && 2 in g && 3 in g && g[1].Struct? && g[2] == Pointer(3) && g[3] == Struct([e])
    requires e == Untagged("", 1, true)
    ensures SchemaOf(g, 2, {1}) == Ok(OPEN_OBJECT)
  {
    var path: set<Id> := {1};
    SchemaNext(g, 2, path);
    SchemaOfStruct(g, 3, path);
    hide SchemaOf, Grounded;
    EmbeddedOpen(g, e, path + {3});
  }

  // A last field without a tag gives a property of its type's schema.
  lemma LastProperty(g: Graph, fields: seq<Field>, path: set<Id>)
    requires Grounded(g) && (forall i :: 0 <= i < |fields| ==> fields[i].typ in g) && fields != []
    requires var b := fields[|fields| - 1];
      b == Untagged(b.name, b.typ, false) && SchemaOf(g, b.typ, path).Ok?
    requires FieldsSchema(g, fields[..|fields| - 1], path).Ok?
    ensures FieldsSchema(g, fields, path).Ok?
    ensures var b := fields[|fields| - 1];
      Lookup(FieldsSchema(g, fields, path).schema, b.name) == Some(Ok(SchemaOf(g, b.typ, path).schema))
  {
    var b := fields[|fields| - 1];
    UntaggedName(b);
    hide SchemaOf, Grounded, NameOf;
  }
}
