/** Separating media attachments from a tool's return value, by reflection over the value. */
module MediaSplit {
  import opened Options
  import opened Text

  /** An attachment, or a typed nil pointer that passes for one. */
  datatype Media = Attachment(id: nat) | NilAttachment

  datatype Key = Index | MapKey(rendered: string) | FieldKey(name: string, json: string)

  datatype Entry = Entry(key: Key, exported: bool, value: Value)

  datatype Shape = SliceOf | ArrayOf | MapOf | StructOf

  /** A value as reflection sees it. Leaf stands for every kind that is not searched, and for nil
    * pointers and interfaces. Attached has a type that implements Media; Slot is an interface of
    * such a type, None when it is nil. ByAddress implements Media through its address only, and
    * is otherwise the struct `plain`. */
  datatype Value =
    | Leaf(id: nat)
    | Attached(id: nat)
    | NilMediaPointer
    | Slot(held: Option<Media>)
    | ByAddress(id: nat, plain: Value)
    | Pointer(elem: Value)
    | Interface(elem: Value)
    | Node(shape: Shape, entries: seq<Entry>)

  datatype Outcome = Panics | Split(cleaned: Option<Value>, found: seq<Media>)

  datatype Parts = Panicked | Parts(kept: seq<Entry>, found: seq<Media>)

  function BeforeComma(json: string): string {
    match Find(json, ',')
    case None => json
    case Some(i) => json[..i]
  }

  function FieldName(name: string, json: string): string {
    var tag := BeforeComma(json);
    if tag == "" || tag == "-" then name else tag
  }

  lemma TagBeforeComma(tag: string, options: string)
    requires ',' !in tag
    ensures BeforeComma(tag + "," + options) == tag
  {
    hide Find;
    var rest := "," + options;
    FindSkips(tag, rest, ',');
    FindIs(rest, ',', 0);
    assert tag + "," + options == tag + rest && (tag + rest)[..|tag|] == tag;
  }

  /** The options after the first comma of a json tag do not change the name. */
  lemma FieldNameIgnoresOptions(name: string, tag: string, options: string)
    requires ',' !in tag
    ensures FieldName(name, tag + "," + options) == FieldName(name, tag)
    ensures FieldName(name, tag) == if tag == "" || tag == "-" then name else tag
  {
    TagBeforeComma(tag, options);
    assert BeforeComma(tag) == tag;
    hide BeforeComma;
  }

  function Render(key: Key): string {
    match key
    case Index => ""
    case MapKey(rendered) => rendered
    case FieldKey(name, json) => FieldName(name, json)
  }

  /** Whether the children of a container can be addressed. */
  predicate Reaches(shape: Shape, addressable: bool) {
    shape == SliceOf || (shape != MapOf && addressable)
  }

  /** kept[key] = value on a map: the last one written under a key stays. */
  function Put(entries: seq<Entry>, e: Entry): seq<Entry> {
    if entries == [] then [e]
    else if entries[0].key == e.key then [e] + entries[1..]
    else [entries[0]] + Put(entries[1..], e)
  }

  function PutAll(entries: seq<Entry>): seq<Entry> {
    if entries == [] then []
    else
      var e := entries[|entries| - 1];
      Put(PutAll(entries[..|entries| - 1]), e.(key := MapKey(Render(e.key))))
  }

  /** What is left of a container that held media: a plain slice or a plain map. */
  function Rebuilt(shape: Shape, kept: seq<Entry>): Value {
    if shape == SliceOf || shape == ArrayOf then Node(SliceOf, kept) else Node(MapOf, PutAll(kept))
  }

  // ----- splitting -----------------------------------------------------------------------

  function SplitValue(v: Value, addressable: bool): Outcome
    decreases v
  {
    match v
    case Leaf(_) => Split(Some(v), [])
    case Attached(id) => Split(None, [Attachment(id)])
    case NilMediaPointer => Split(None, [])
    case Slot(held) => if held.None? then Panics else Split(None, [held.value])
    case ByAddress(id, plain) =>
      if addressable then Split(None, [Attachment(id)])
      else
        var r := SplitValue(plain, false);
        if r.Split? && r.found == [] then Split(Some(v), []) else r
    case Pointer(elem) => SplitValue(elem, true)
    case Interface(elem) => SplitValue(elem, false)
    case Node(shape, entries) =>
      match SplitEntries(entries, Reaches(shape, addressable))
      case Panicked => Panics
      case Parts(kept, found) => Gather(v, shape, kept, found)
  }

  function Gather(v: Value, shape: Shape, kept: seq<Entry>, found: seq<Media>): Outcome {
    if found == [] then Split(Some(v), [])
    else if kept == [] then Split(None, found)
    else Split(Some(Rebuilt(shape, kept)), found)
  }

  function SplitEntries(entries: seq<Entry>, addressable: bool): Parts
    decreases entries
  {
    if entries == [] then Parts([], [])
    else
      var e := entries[|entries| - 1];
      assert entries decreases to e;
      match SplitEntries(entries[..|entries| - 1], addressable)
      case Panicked => Panicked
      case Parts(kept, found) =>
        if !e.exported then Parts(kept, found)
        else
          match SplitValue(e.value, addressable)
          case Panics => Panicked
          case Split(None, more) => Parts(kept, found + more)
          case Split(Some(c), more) => Parts(kept + [Entry(e.key, true, Interface(c))], found + more)
  }

  // ----- what is in a value --------------------------------------------------------------

  /** The attachments of a value, in order. */
  function MediaIn(v: Value, addressable: bool): seq<Media>
    decreases v
  {
    match v
    case Leaf(_) => []
    case Attached(id) => [Attachment(id)]
    case NilMediaPointer => []
    case Slot(held) => if held.Some? then [held.value] else []
    case ByAddress(id, plain) => if addressable then [Attachment(id)] else MediaIn(plain, false)
    case Pointer(elem) => MediaIn(elem, true)
    case Interface(elem) => MediaIn(elem, false)
    case Node(shape, entries) => MediaInAll(entries, Reaches(shape, addressable))
  }

  function MediaInAll(entries: seq<Entry>, addressable: bool): seq<Media>
    decreases entries
  {
    if entries == [] then []
    else
      var e := entries[|entries| - 1];
      assert entries decreases to e;
      var before := MediaInAll(entries[..|entries| - 1], addressable);
      if e.exported then before + MediaIn(e.value, addressable) else before
  }

  /** The leaves of a value outside its attachments, in order. */
  function LeavesIn(v: Value, addressable: bool): seq<nat>
    decreases v
  {
    match v
    case Leaf(id) => [id]
    case Attached(_) => []
    case NilMediaPointer => []
    case Slot(_) => []
    case ByAddress(_, plain) => if addressable then [] else LeavesIn(plain, false)
    case Pointer(elem) => LeavesIn(elem, true)
    case Interface(elem) => LeavesIn(elem, false)
    case Node(shape, entries) => LeavesInAll(entries, Reaches(shape, addressable))
  }

  function LeavesInAll(entries: seq<Entry>, addressable: bool): seq<nat>
    decreases entries
  {
    if entries == [] then []
    else
      var e := entries[|entries| - 1];
      assert entries decreases to e;
      var before := LeavesInAll(entries[..|entries| - 1], addressable);
      if e.exported then before + LeavesIn(e.value, addressable) else before
  }

  /** An interface of a media type that is nil, somewhere the search gets to. */
  predicate EmptySlotIn(v: Value, addressable: bool)
    decreases v
  {
    match v
    case Slot(held) => held.None?
    case ByAddress(_, plain) => !addressable && EmptySlotIn(plain, false)
    case Pointer(elem) => EmptySlotIn(elem, true)
    case Interface(elem) => EmptySlotIn(elem, false)
    case Node(shape, entries) => EmptySlotInAll(entries, Reaches(shape, addressable))
    case _ => false
  }

  predicate EmptySlotInAll(entries: seq<Entry>, addressable: bool)
    decreases entries
  {
    entries != [] &&
    var e := entries[|entries| - 1];
    assert entries decreases to e;
    || EmptySlotInAll(entries[..|entries| - 1], addressable)
    || (e.exported && EmptySlotIn(e.value, addressable))
  }

  /** An interface of a media type that holds a typed nil pointer, somewhere the search gets to. */
  predicate NilHeld(v: Value, addressable: bool)
    decreases v
  {
    match v
    case Slot(held) => held == Some(NilAttachment)
    case ByAddress(_, plain) => !addressable && NilHeld(plain, false)
    case Pointer(elem) => NilHeld(elem, true)
    case Interface(elem) => NilHeld(elem, false)
    case Node(shape, entries) => NilHeldInAll(entries, Reaches(shape, addressable))
    case _ => false
  }

  predicate NilHeldInAll(entries: seq<Entry>, addressable: bool)
    decreases entries
  {
    entries != [] &&
    var e := entries[|entries| - 1];
    assert entries decreases to e;
    || NilHeldInAll(entries[..|entries| - 1], addressable)
    || (e.exported && NilHeld(e.value, addressable))
  }

  // ----- the attachments found -----------------------------------------------------------

  /** Splitting panics exactly when the search meets a nil interface of a media type; otherwise
    * it finds every attachment, in order. */
  lemma {:induction false} FindsAllMedia(v: Value, addressable: bool)
    ensures SplitValue(v, addressable).Panics? <==> EmptySlotIn(v, addressable)
    ensures SplitValue(v, addressable).Split? ==> SplitValue(v, addressable).found == MediaIn(v, addressable)
    decreases v
  {
    match v
    case ByAddress(_, plain) => FindsAllMedia(plain, false);
    case Pointer(elem) => FindsAllMedia(elem, true);
    case Interface(elem) => FindsAllMedia(elem, false);
    case Node(shape, entries) => EntriesFindAll(entries, Reaches(shape, addressable));
    case _ =>
  }

  lemma {:induction false} EntriesFindAll(entries: seq<Entry>, addressable: bool)
    ensures SplitEntries(entries, addressable).Panicked? <==> EmptySlotInAll(entries, addressable)
    ensures SplitEntries(entries, addressable).Parts? ==>
      SplitEntries(entries, addressable).found == MediaInAll(entries, addressable)
    decreases entries
  {
    if entries != [] {
      var e := entries[|entries| - 1];
      assert entries decreases to e;
      EntriesFindAll(entries[..|entries| - 1], addressable);
      FindsAllMedia(e.value, addressable);
    }
  }

  /** What is found is exactly the media that are not nil if and only if no interface of a media type
    * holds a typed nil pointer: such a pointer, and nothing else, is found as an attachment. */
  lemma {:induction false} NilFoundIff(v: Value, addressable: bool)
    ensures NilAttachment in MediaIn(v, addressable) <==> NilHeld(v, addressable)
    decreases v
  {
    match v
    case ByAddress(_, plain) => NilFoundIff(plain, false);
    case Pointer(elem) => NilFoundIff(elem, true);
    case Interface(elem) => NilFoundIff(elem, false);
    case Node(shape, entries) => NilFoundInAllIff(entries, Reaches(shape, addressable));
    case _ =>
  }

  lemma {:induction false} NilFoundInAllIff(entries: seq<Entry>, addressable: bool)
    ensures NilAttachment in MediaInAll(entries, addressable) <==> NilHeldInAll(entries, addressable)
    decreases entries
  {
    if entries != [] {
      var e := entries[|entries| - 1];
      assert entries decreases to e;
      NilFoundInAllIff(entries[..|entries| - 1], addressable);
      NilFoundIff(e.value, addressable);
    }
  }

  // ----- the cleaned value ---------------------------------------------------------------

  /** A value without media: nothing to find, and no nil slot to trip over. */
  predicate Clean(v: Value, addressable: bool) {
    MediaIn(v, addressable) == [] && !EmptySlotIn(v, addressable)
  }

  predicate CleanAll(entries: seq<Entry>, addressable: bool) {
    MediaInAll(entries, addressable) == [] && !EmptySlotInAll(entries, addressable)
  }

  lemma CleanLast(entries: seq<Entry>, addressable: bool)
    requires entries != []
    ensures var n := |entries| - 1;
      CleanAll(entries, addressable) <==>
      CleanAll(entries[..n], addressable) && (entries[n].exported ==> Clean(entries[n].value, addressable))
  {
  }

  /** A value that is clean where it can be addressed is clean, with the same leaves, where it
    * cannot: there is then nothing that would count as media through its address. */
  lemma {:induction false} CleanAnywhere(v: Value)
    requires Clean(v, true)
    ensures Clean(v, false) && LeavesIn(v, false) == LeavesIn(v, true)
    decreases v
  {
    match v
    case Node(shape, entries) =>
      if shape == ArrayOf || shape == StructOf { AllCleanAnywhere(entries); }
    case _ =>
  }

  lemma {:induction false} AllCleanAnywhere(entries: seq<Entry>)
    requires CleanAll(entries, true)
    ensures CleanAll(entries, false) && LeavesInAll(entries, false) == LeavesInAll(entries, true)
    decreases entries
  {
    if entries != [] {
      var e := entries[|entries| - 1];
      assert entries decreases to e;
      CleanLast(entries, true);
      CleanLast(entries, false);
      AllCleanAnywhere(entries[..|entries| - 1]);
      if e.exported { CleanAnywhere(e.value); }
    }
  }

  lemma CleanUnaddressed(v: Value, addressable: bool)
    requires Clean(v, addressable)
    ensures Clean(v, false) && LeavesIn(v, false) == LeavesIn(v, addressable)
  {
    if addressable { CleanAnywhere(v); }
  }

  // What is kept of a container's entries: clean values in an interface.
  ghost predicate Boxed(kept: seq<Entry>) {
    forall i :: 0 <= i < |kept| ==> kept[i].exported && kept[i].value.Interface? && Clean(kept[i].value, false)
  }

  lemma {:induction false} KeptAllClean(kept: seq<Entry>, addressable: bool)
    requires Boxed(kept)
    ensures CleanAll(kept, addressable)
  {
    if kept != [] {
      KeptAllClean(kept[..|kept| - 1], addressable);
      CleanLast(kept, addressable);
    }
  }

  lemma {:induction false} PutBoxed(entries: seq<Entry>, e: Entry)
    requires Boxed(entries) && Boxed([e])
    ensures Boxed(Put(entries, e))
  {
    assert [e][0] == e;
    if entries != [] && entries[0].key != e.key {
      PutBoxed(entries[1..], e);
      var rest := Put(entries[1..], e);
      assert forall i :: 0 <= i < |rest| ==> ([entries[0]] + rest)[i + 1] == rest[i];
    }
  }

  lemma {:induction false} PutAllBoxed(entries: seq<Entry>)
    requires Boxed(entries)
    ensures Boxed(PutAll(entries))
  {
    if entries != [] {
      var before, e := entries[..|entries| - 1], entries[|entries| - 1];
      PutAllBoxed(before);
      PutBoxed(PutAll(before), e.(key := MapKey(Render(e.key))));
    }
  }

  lemma RebuiltClean(shape: Shape, kept: seq<Entry>)
    requires Boxed(kept)
    ensures Clean(Rebuilt(shape, kept), false)
  {
    PutAllBoxed(kept);
    KeptAllClean(kept, true);
    KeptAllClean(PutAll(kept), false);
  }

  /** The cleaned value holds no media, and splitting it again would not panic. */
  lemma {:induction false} CleanedIsClean(v: Value, addressable: bool)
    requires SplitValue(v, addressable).Split? && SplitValue(v, addressable).cleaned.Some?
    ensures Clean(SplitValue(v, addressable).cleaned.value, false)
    decreases v
  {
    FindsAllMedia(v, addressable);
    match v
    case ByAddress(_, plain) =>
      if SplitValue(v, addressable).found == [] {
        CleanUnaddressed(v, addressable);
      } else {
        CleanedIsClean(plain, false);
      }
    case Pointer(elem) => CleanedIsClean(elem, true);
    case Interface(elem) => CleanedIsClean(elem, false);
    case Node(shape, entries) =>
      var parts := SplitEntries(entries, Reaches(shape, addressable));
      if parts.found == [] {
        CleanUnaddressed(v, addressable);
      } else {
        KeptBoxed(entries, Reaches(shape, addressable));
        RebuiltClean(shape, parts.kept);
      }
    case _ =>
  }

  lemma {:induction false} KeptBoxed(entries: seq<Entry>, addressable: bool)
    requires SplitEntries(entries, addressable).Parts?
    ensures Boxed(SplitEntries(entries, addressable).kept)
    decreases entries
  {
    if entries != [] {
      var e := entries[|entries| - 1];
      assert entries decreases to e;
      KeptBoxed(entries[..|entries| - 1], addressable);
      if e.exported && SplitValue(e.value, addressable).cleaned.Some? { CleanedIsClean(e.value, addressable); }
    }
  }

  /** Splitting a cleaned value again finds nothing and leaves it as it is. */
  lemma SplitsOnce(v: Value, addressable: bool, c: Value)
    requires SplitValue(v, addressable).Split? && SplitValue(v, addressable).cleaned == Some(c)
    ensures SplitValue(c, false) == Split(Some(c), [])
  {
    CleanedIsClean(v, addressable);
    FindsAllMedia(c, false);
    NotWrapped(v, addressable);
    CleanStays(c);
  }

  predicate Bare(v: Value) { v.Leaf? || v.ByAddress? || v.Node? }

  lemma {:induction false} NotWrapped(v: Value, addressable: bool)
    requires SplitValue(v, addressable).Split? && SplitValue(v, addressable).cleaned.Some?
    ensures Bare(SplitValue(v, addressable).cleaned.value)
    decreases v
  {
    match v
    case ByAddress(_, plain) => if SplitValue(v, addressable).found != [] { NotWrapped(plain, false); }
    case Pointer(elem) => NotWrapped(elem, true);
    case Interface(elem) => NotWrapped(elem, false);
    case _ =>
  }

  lemma CleanStays(c: Value)
    requires Clean(c, false) && Bare(c)
    ensures SplitValue(c, false) == Split(Some(c), [])
  {
    FindsAllMedia(c, false);
    match c
    case ByAddress(_, plain) => FindsAllMedia(plain, false);
    case Node(shape, entries) => EntriesFindAll(entries, Reaches(shape, false));
    case _ =>
  }

  /** A container with no media comes back as it was. */
  lemma UntouchedWithoutMedia(shape: Shape, entries: seq<Entry>, addressable: bool)
    requires Clean(Node(shape, entries), addressable)
    ensures SplitValue(Node(shape, entries), addressable) == Split(Some(Node(shape, entries)), [])
  {
    EntriesFindAll(entries, Reaches(shape, addressable));
  }

  // ----- leaves survive ------------------------------------------------------------------

  /** The rendered keys of a container's exported entries are distinct. */
  predicate KeysDistinct(entries: seq<Entry>) {
    forall i, j :: 0 <= i < j < |entries| && entries[i].exported && entries[j].exported ==>
      Render(entries[i].key) != Render(entries[j].key)
  }

  /** Rendered keys are distinct in every map and struct of a value. */
  predicate WellKeyed(v: Value)
    decreases v
  {
    match v
    case ByAddress(_, plain) => WellKeyed(plain)
    case Pointer(elem) => WellKeyed(elem)
    case Interface(elem) => WellKeyed(elem)
    case Node(shape, entries) =>
      (shape == MapOf || shape == StructOf ==> KeysDistinct(entries)) &&
      forall e :: e in entries ==> WellKeyed(e.value)
    case _ => true
  }

  lemma LeavesLast(entries: seq<Entry>, e: Entry, addressable: bool)
    ensures LeavesInAll(entries + [e], addressable) ==
      if e.exported then LeavesInAll(entries, addressable) + LeavesIn(e.value, addressable)
      else LeavesInAll(entries, addressable)
  {
    assert (entries + [e])[..|entries|] == entries;
  }

  // Boxed entries have the same leaves wherever they are.
  lemma {:induction false} BoxedLeaves(kept: seq<Entry>)
    requires Boxed(kept)
    ensures LeavesInAll(kept, true) == LeavesInAll(kept, false)
  {
    if kept != [] {
      var n := |kept| - 1;
      BoxedLeaves(kept[..n]);
      assert kept == kept[..n] + [kept[n]];
    }
  }

  ghost predicate NewKey(entries: seq<Entry>, key: Key) { forall i :: 0 <= i < |entries| ==> entries[i].key != key }

  lemma {:induction false} PutNew(entries: seq<Entry>, e: Entry)
    requires NewKey(entries, e.key)
    ensures Put(entries, e) == entries + [e]
  {
    if entries != [] { PutNew(entries[1..], e); }
  }

  // With distinct keys nothing is overwritten: the entries are kept, under their rendered keys.
  lemma {:induction false} PutAllKeeps(kept: seq<Entry>)
    requires KeysDistinct(kept) && forall i :: 0 <= i < |kept| ==> kept[i].exported
    ensures |PutAll(kept)| == |kept|
    ensures forall i :: 0 <= i < |kept| ==> PutAll(kept)[i] == kept[i].(key := MapKey(Render(kept[i].key)))
  {
    if kept != [] {
      var n := |kept| - 1;
      PutAllKeeps(kept[..n]);
      var before, e := PutAll(kept[..n]), kept[n].(key := MapKey(Render(kept[n].key)));
      assert NewKey(before, e.key);
      PutNew(before, e);
    }
  }

  lemma {:induction false} SameValuesSameLeaves(a: seq<Entry>, b: seq<Entry>, addressable: bool)
    requires |a| == |b| && forall i :: 0 <= i < |a| ==> a[i].value == b[i].value && a[i].exported == b[i].exported
    ensures LeavesInAll(a, addressable) == LeavesInAll(b, addressable)
  {
    if a != [] { SameValuesSameLeaves(a[..|a| - 1], b[..|b| - 1], addressable); }
  }

  predicate HasKey(entries: seq<Entry>, key: Key) {
    exists i :: 0 <= i < |entries| && entries[i].exported && entries[i].key == key
  }

  lemma {:induction false} KeptKeys(entries: seq<Entry>, addressable: bool)
    requires KeysDistinct(entries) && SplitEntries(entries, addressable).Parts?
    ensures var kept := SplitEntries(entries, addressable).kept;
      KeysDistinct(kept) && forall j :: 0 <= j < |kept| ==> kept[j].exported && HasKey(entries, kept[j].key)
    decreases |entries|
  {
    if entries != [] {
      var n := |entries| - 1;
      KeptKeys(entries[..n], addressable);
      var before, kept := SplitEntries(entries[..n], addressable).kept, SplitEntries(entries, addressable).kept;
      forall j | 0 <= j < |before| ensures HasKey(entries, before[j].key)
        ensures entries[n].exported ==> Render(before[j].key) != Render(entries[n].key)
      {
        assert HasKey(entries[..n], before[j].key);
        var i :| 0 <= i < n && entries[..n][i].exported && entries[..n][i].key == before[j].key;
        assert entries[i].key == before[j].key;
      }
      if entries[n].exported { assert HasKey(entries, entries[n].key); }
    }
  }

  lemma RebuiltLeaves(shape: Shape, kept: seq<Entry>)
    requires Boxed(kept) && (shape == MapOf || shape == StructOf ==> KeysDistinct(kept))
    ensures LeavesIn(Rebuilt(shape, kept), false) == LeavesInAll(kept, false)
  {
    hide LeavesInAll, PutAll, KeysDistinct, Clean;
    BoxedLeaves(kept);
    if shape == MapOf || shape == StructOf {
      PutAllKeeps(kept);
      SameValuesSameLeaves(PutAll(kept), kept, false);
    }
  }

  lemma NodeLeaves(shape: Shape, entries: seq<Entry>, addressable: bool)
    requires WellKeyed(Node(shape, entries)) && SplitEntries(entries, Reaches(shape, addressable)).Parts?
    requires var parts := SplitEntries(entries, Reaches(shape, addressable));
      parts.found != [] && LeavesInAll(parts.kept, false) == LeavesInAll(entries, Reaches(shape, addressable))
    ensures var parts := SplitEntries(entries, Reaches(shape, addressable));
      LeavesIn(Node(shape, entries), addressable) ==
      if parts.kept == [] then [] else LeavesIn(Rebuilt(shape, parts.kept), false)
  {
    var parts := SplitEntries(entries, Reaches(shape, addressable));
    KeptBoxed(entries, Reaches(shape, addressable));
    if shape == MapOf || shape == StructOf { KeptKeys(entries, Reaches(shape, addressable)); }
    RebuiltLeaves(shape, parts.kept);
  }

  function LeavesOf(cleaned: Option<Value>): seq<nat> {
    match cleaned
    case None => []
    case Some(c) => LeavesIn(c, false)
  }

  /** With distinct rendered keys every leaf outside the attachments survives, in order. */
  lemma {:induction false} LeavesSurvive(v: Value, addressable: bool)
    requires WellKeyed(v) && SplitValue(v, addressable).Split?
    ensures LeavesOf(SplitValue(v, addressable).cleaned) == LeavesIn(v, addressable)
    decreases v
  {
    hide Rebuilt, WellKeyed, EmptySlotIn;
    if SplitValue(v, addressable).found == [] && SplitValue(v, addressable).cleaned == Some(v) {
      FindsAllMedia(v, addressable);
      CleanUnaddressed(v, addressable);
    } else {
      PartsWellKeyed(v);
      match v
      case ByAddress(_, plain) => if !addressable { LeavesSurvive(plain, false); }
      case Pointer(elem) => LeavesSurvive(elem, true);
      case Interface(elem) => LeavesSurvive(elem, false);
      case Node(shape, entries) =>
        EntriesSurvive(entries, Reaches(shape, addressable));
        NodeLeaves(shape, entries, addressable);
      case _ =>
    }
  }

  lemma PartsWellKeyed(v: Value)
    requires WellKeyed(v)
    ensures v.ByAddress? ==> WellKeyed(v.plain)
    ensures v.Pointer? || v.Interface? ==> WellKeyed(v.elem)
    ensures v.Node? ==> forall i :: 0 <= i < |v.entries| ==> WellKeyed(v.entries[i].value)
  {
  }

  lemma {:induction false} EntriesSurvive(entries: seq<Entry>, addressable: bool)
    requires forall i :: 0 <= i < |entries| ==> WellKeyed(entries[i].value)
    requires SplitEntries(entries, addressable).Parts?
    ensures LeavesInAll(SplitEntries(entries, addressable).kept, false) == LeavesInAll(entries, addressable)
    decreases entries
  {
    hide SplitValue, WellKeyed;
    if entries != [] {
      var n := |entries| - 1;
      var e := entries[n];
      assert entries decreases to e;
      EntriesSurvive(entries[..n], addressable);
      if e.exported {
        LeavesSurvive(e.value, addressable);
        var before := SplitEntries(entries[..n], addressable).kept;
        var r := SplitValue(e.value, addressable);
        if r.cleaned.Some? { LeavesLast(before, Entry(e.key, true, Interface(r.cleaned.value)), false); }
      }
    }
  }

  lemma {:induction false} PutHas(entries: seq<Entry>, e: Entry, key: Key)
    ensures !NewKey(Put(entries, e), key) <==> !NewKey(entries, key) || key == e.key
    ensures |Put(entries, e)| == |entries| + if NewKey(entries, e.key) then 1 else 0
  {
    var next := Put(entries, e);
    if entries == [] {
      assert next[0] == e;
    } else if entries[0].key == e.key {
      assert next[0] == e && entries[0].key == e.key;
      assert forall i :: 1 <= i < |entries| ==> next[i] == entries[i];
    } else {
      var rest, more := entries[1..], Put(entries[1..], e);
      PutHas(rest, e, key);
      assert next[0] == entries[0];
      assert forall i :: 0 <= i < |more| ==> next[i + 1] == more[i];
      assert forall i :: 0 <= i < |rest| ==> entries[i + 1] == rest[i];
    }
  }

  lemma {:induction false} PutAllHas(kept: seq<Entry>, key: string)
    ensures |PutAll(kept)| <= |kept|
    ensures !NewKey(PutAll(kept), MapKey(key)) <==> exists i :: 0 <= i < |kept| && Render(kept[i].key) == key
  {
    if kept != [] {
      var n := |kept| - 1;
      PutAllHas(kept[..n], key);
      PutHas(PutAll(kept[..n]), kept[n].(key := MapKey(Render(kept[n].key))), MapKey(key));
    }
  }

  lemma LastKeyDistinct(kept: seq<Entry>)
    requires kept != [] && forall i :: 0 <= i < |kept| ==> kept[i].exported
    ensures var n := |kept| - 1;
      KeysDistinct(kept) <==>
      KeysDistinct(kept[..n]) && !exists i :: 0 <= i < n && Render(kept[..n][i].key) == Render(kept[n].key)
  {
    hide Render;
    var n := |kept| - 1;
    if KeysDistinct(kept) {
      forall i | 0 <= i < n ensures Render(kept[..n][i].key) != Render(kept[n].key) {}
    }
  }

  /** Distinct keys are what it takes: a rebuilt map has an entry for every value kept exactly when
    * no two of them have the same rendered key. */
  lemma {:induction false} NothingOverwrittenIff(kept: seq<Entry>)
    requires forall i :: 0 <= i < |kept| ==> kept[i].exported
    ensures |PutAll(kept)| == |kept| <==> KeysDistinct(kept)
  {
    hide Put, Render;
    if kept != [] {
      var n := |kept| - 1;
      var e := kept[n].(key := MapKey(Render(kept[n].key)));
      NothingOverwrittenIff(kept[..n]);
      LastKeyDistinct(kept);
      PutAllHas(kept[..n], Render(kept[n].key));
      PutHas(PutAll(kept[..n]), e, e.key);
    }
  }

  // ----- what a container that held media becomes ----------------------------------------

  ghost predicate IsTag(json: string, tag: string) {
    (tag == json && ',' !in json) || (',' !in tag && tag + [','] <= json)
  }

  /** The name of an entry on the wire: a map's key as text, a struct's field by its json tag up to the
    * first comma, unless that is nothing or a dash, and then by its own name. */
  ghost predicate OnWire(key: Key, w: string) {
    match key
    case Index => w == ""
    case MapKey(rendered) => w == rendered
    case FieldKey(name, json) =>
      exists tag :: IsTag(json, tag) && w == if tag == "" || tag == "-" then name else tag
  }

  lemma OneTag(json: string, a: string, b: string)
    requires IsTag(json, a) && IsTag(json, b)
    ensures a == b
  {
    assert a == json[..|a|] && b == json[..|b|];
    assert forall i :: 0 <= i < |a| ==> json[i] == a[i];
    assert forall i :: 0 <= i < |b| ==> json[i] == b[i];
    assert (|a| < |json| ==> json[|a|] == ',') && (|b| < |json| ==> json[|b|] == ',');
  }

  lemma TagIs(json: string)
    ensures IsTag(json, BeforeComma(json))
  {
    hide Find;
    match Find(json, ',')
    case None =>
    case Some(i) => assert json[..i] + [','] == json[..i + 1];
  }

  lemma RenderOnWire(key: Key, w: string)
    ensures OnWire(key, w) <==> Render(key) == w
  {
    if key.FieldKey? {
      TagIs(key.json);
      forall tag | IsTag(key.json, tag) ensures tag == BeforeComma(key.json) {
        OneTag(key.json, tag, BeforeComma(key.json));
      }
    }
    hide BeforeComma, IsTag;
  }

  /** What is left of one entry of a container. */
  function Remains(e: Entry, reach: bool): Option<Value> {
    if !e.exported then None
    else
      match SplitValue(e.value, reach)
      case Panics => None
      case Split(cleaned, _) => cleaned
  }

  /** The last entry under a name on the wire that anything is left of. */
  ghost function LastUnder(entries: seq<Entry>, reach: bool, w: string): Option<Value>
    decreases |entries|
  {
    if entries == [] then None
    else
      var n := |entries| - 1;
      if Remains(entries[n], reach).Some? && OnWire(entries[n].key, w) then Remains(entries[n], reach)
      else LastUnder(entries[..n], reach, w)
  }

  /** What a plain map holds under a key. */
  function Under(entries: seq<Entry>, w: string): Option<Value> {
    if entries == [] then None
    else if entries[0].key == MapKey(w) then Some(entries[0].value)
    else Under(entries[1..], w)
  }

  predicate PlainMap(v: Value) {
    && v.Node? && v.shape == MapOf
    && (forall i :: 0 <= i < |v.entries| ==> v.entries[i].exported && v.entries[i].key.MapKey?)
    && (forall i, j :: 0 <= i < j < |v.entries| ==> v.entries[i].key != v.entries[j].key)
  }

  lemma {:induction false} PutUnder(entries: seq<Entry>, k: string, v: Value, w: string)
    requires PlainMap(Node(MapOf, entries))
    ensures PlainMap(Node(MapOf, Put(entries, Entry(MapKey(k), true, v))))
    ensures Under(Put(entries, Entry(MapKey(k), true, v)), w) == if w == k then Some(v) else Under(entries, w)
  {
    var e := Entry(MapKey(k), true, v);
    if entries != [] {
      var rest, next := entries[1..], Put(entries, e);
      PutUnder(rest, k, v, w);
      if entries[0].key != e.key {
        assert next[0] == entries[0] && next[1..] == Put(rest, e);
        forall j | 1 <= j < |next| ensures next[j].key != entries[0].key {
          assert next[j] == Put(rest, e)[j - 1];
          PutHas(rest, e, entries[0].key);
        }
      }
    }
  }

  lemma {:induction false} KeptUnder(entries: seq<Entry>, reach: bool, w: string)
    requires SplitEntries(entries, reach).Parts?
    ensures var map' := PutAll(SplitEntries(entries, reach).kept);
      && PlainMap(Node(MapOf, map'))
      && Under(map', w) == match LastUnder(entries, reach, w) case None => None case Some(c) => Some(Interface(c))
    decreases |entries|
  {
    hide SplitValue, OnWire, Render, Put, Under;
    if entries == [] {
      assert Under([], w) == None by { NothingUnder(w); }
    } else {
      var n := |entries| - 1;
      var e, before := entries[n], SplitEntries(entries[..n], reach).kept;
      KeptUnder(entries[..n], reach, w);
      RenderOnWire(e.key, w);
      if Remains(e, reach).Some? {
        var v := Interface(Remains(e, reach).value);
        PutAllLast(before, Entry(e.key, true, v));
        PutUnder(PutAll(before), Render(e.key), v, w);
      }
    }
  }

  lemma NothingUnder(w: string)
    ensures Under([], w) == None
  {
  }

  lemma {:induction false} KeptNone(entries: seq<Entry>, reach: bool)
    requires SplitEntries(entries, reach).Parts?
    ensures SplitEntries(entries, reach).kept == [] <==>
      forall i :: 0 <= i < |entries| ==> Remains(entries[i], reach).None?
    decreases |entries|
  {
    hide SplitValue;
    if entries != [] { KeptNone(entries[..|entries| - 1], reach); }
  }

  /** A map or struct that held media becomes a plain map. Under each name on the wire it has what is left
    * of the last such entry that anything is left of, and no name besides; if nothing is left of
    * any entry, it is gone. Map entries are out of reach of an address, a struct's fields as the struct. */
  lemma KeyedExact(v: Value, addressable: bool, w: string)
    requires v.Node? && (v.shape == MapOf || v.shape == StructOf)
    requires SplitValue(v, addressable).Split? && SplitValue(v, addressable).found != []
    ensures var cleaned, reach := SplitValue(v, addressable).cleaned, v.shape == StructOf && addressable;
      if forall i :: 0 <= i < |v.entries| ==> Remains(v.entries[i], reach).None? then cleaned.None?
      else
        && cleaned.Some? && PlainMap(cleaned.value)
        && Under(cleaned.value.entries, w) ==
             match LastUnder(v.entries, reach, w) case None => None case Some(c) => Some(Interface(c))
  {
    var reach := v.shape == StructOf && addressable;
    NodeSplits(v.shape, v.entries, addressable);
    KeptUnder(v.entries, reach, w);
    KeptNone(v.entries, reach);
    hide SplitValue, SplitEntries, PutAll, LastUnder, Under, Remains;
  }

  /** What is left of each entry, in order. */
  function AllRemains(entries: seq<Entry>, reach: bool): seq<Value>
    decreases |entries|
  {
    if entries == [] then []
    else
      var before, e := AllRemains(entries[..|entries| - 1], reach), entries[|entries| - 1];
      match Remains(e, reach) case None => before case Some(c) => before + [c]
  }

  lemma {:induction false} KeptRemains(entries: seq<Entry>, reach: bool)
    requires SplitEntries(entries, reach).Parts?
    ensures var kept, left := SplitEntries(entries, reach).kept, AllRemains(entries, reach);
      |kept| == |left| && forall i :: 0 <= i < |kept| ==> kept[i].exported && kept[i].value == Interface(left[i])
    decreases |entries|
  {
    hide SplitValue;
    if entries != [] { KeptRemains(entries[..|entries| - 1], reach); }
  }

  /** A slice or array that held media becomes a plain slice of what is left of its items, in order. A
    * slice's items can be addressed, an array's if the array can. */
  lemma ListedExact(v: Value, addressable: bool)
    requires v.Node? && (v.shape == SliceOf || v.shape == ArrayOf)
    requires SplitValue(v, addressable).Split? && SplitValue(v, addressable).found != []
    ensures var cleaned, left := SplitValue(v, addressable).cleaned,
        AllRemains(v.entries, v.shape == SliceOf || addressable);
      if left == [] then cleaned.None?
      else
        && cleaned.Some? && cleaned.value.Node? && cleaned.value.shape == SliceOf
        && |cleaned.value.entries| == |left|
        && forall i :: 0 <= i < |left| ==>
             cleaned.value.entries[i].exported && cleaned.value.entries[i].value == Interface(left[i])
  {
    NodeSplits(v.shape, v.entries, addressable);
    KeptRemains(v.entries, v.shape == SliceOf || addressable);
    hide SplitValue, SplitEntries, AllRemains;
  }

  // ----- the order of maps ---------------------------------------------------------------

  /** Values that differ only in the order in which maps are walked. */
  ghost predicate SameUpToOrder(v: Value, w: Value)
    decreases v
  {
    match v
    case ByAddress(id, plain) => w.ByAddress? && w.id == id && SameUpToOrder(plain, w.plain)
    case Pointer(elem) => w.Pointer? && SameUpToOrder(elem, w.elem)
    case Interface(elem) => w.Interface? && SameUpToOrder(elem, w.elem)
    case Node(shape, entries) =>
      w.Node? && w.shape == shape &&
      exists walk: seq<Entry> :: Walks(shape, walk, w.entries) && |walk| == |entries| &&
        forall i :: 0 <= i < |entries| ==>
          && entries[i].key == walk[i].key && entries[i].exported == walk[i].exported
          && SameUpToOrder(entries[i].value, walk[i].value)
    case _ => v == w
  }

  ghost predicate Alike(a: seq<Entry>, b: seq<Entry>) {
    |a| == |b| && forall i :: 0 <= i < |a| ==>
      a[i].key == b[i].key && a[i].exported == b[i].exported && SameUpToOrder(a[i].value, b[i].value)
  }

  lemma WalkOf(v: Value, w: Value) returns (walk: seq<Entry>)
    requires v.Node? && SameUpToOrder(v, w)
    ensures w.Node? && w.shape == v.shape && Walks(v.shape, walk, w.entries) && Alike(v.entries, walk)
  {
    walk :| Walks(v.shape, walk, w.entries) && |walk| == |v.entries| &&
      forall i :: 0 <= i < |v.entries| ==>
        && v.entries[i].key == walk[i].key && v.entries[i].exported == walk[i].exported
        && SameUpToOrder(v.entries[i].value, walk[i].value);
  }

  lemma OfWalk(v: Value, w: Value, walk: seq<Entry>)
    requires v.Node? && w.Node? && w.shape == v.shape && Walks(v.shape, walk, w.entries) && Alike(v.entries, walk)
    ensures SameUpToOrder(v, w)
  {
  }

  /** A map may be walked in any order, everything else only in its own. */
  ghost predicate Walks(shape: Shape, walk: seq<Entry>, entries: seq<Entry>) {
    if shape == MapOf then multiset(walk) == multiset(entries) else walk == entries
  }

  lemma {:induction false} MediaJoin(a: seq<Entry>, b: seq<Entry>, addressable: bool)
    ensures MediaInAll(a + b, addressable) == MediaInAll(a, addressable) + MediaInAll(b, addressable)
    decreases |b|
  {
    if b == [] {
      assert a + b == a;
    } else {
      var n := |b| - 1;
      assert (a + b)[..|a| + n] == a + b[..n];
      MediaJoin(a, b[..n], addressable);
    }
  }

  // Taking the last entry of one walk out of another.
  lemma TakeOut(a: seq<Entry>, b: seq<Entry>) returns (x: seq<Entry>, y: seq<Entry>)
    requires multiset(a) == multiset(b) && a != []
    ensures b == x + [a[|a| - 1]] + y && multiset(a[..|a| - 1]) == multiset(x + y)
  {
    var e, rest := a[|a| - 1], a[..|a| - 1];
    assert a == rest + [e];
    assert e in multiset(b);
    var k :| 0 <= k < |b| && b[k] == e;
    x, y := b[..k], b[k + 1..];
    assert b == x + [e] + y;
    assert multiset(rest) == multiset(a) - multiset{e};
    assert multiset(x + y) == multiset(b) - multiset{e};
  }

  lemma MediaAround(x: seq<Entry>, e: Entry, y: seq<Entry>, addressable: bool)
    ensures multiset(MediaInAll(x + [e] + y, addressable)) ==
      multiset(MediaInAll(x + y, addressable)) + multiset(MediaInAll([e], addressable))
  {
    MediaJoin(x + [e], y, addressable);
    MediaJoin(x, [e], addressable);
    MediaJoin(x, y, addressable);
  }

  lemma {:induction false} WalkSameMedia(a: seq<Entry>, b: seq<Entry>, addressable: bool)
    requires multiset(a) == multiset(b)
    ensures multiset(MediaInAll(a, addressable)) == multiset(MediaInAll(b, addressable))
    decreases |a|
  {
    hide MediaInAll;
    if a == [] {
      assert |multiset(b)| == 0;
    } else {
      var n := |a| - 1;
      var x, y := TakeOut(a, b);
      WalkSameMedia(a[..n], x + y, addressable);
      assert a == a[..n] + [a[n]];
      MediaJoin(a[..n], [a[n]], addressable);
      MediaAround(x, a[n], y, addressable);
    }
  }

  /** What is found does not depend, as a multiset, on the order in which maps are walked. */
  lemma {:induction false} OrderDoesNotMatter(v: Value, w: Value, addressable: bool)
    requires SameUpToOrder(v, w)
    ensures multiset(MediaIn(v, addressable)) == multiset(MediaIn(w, addressable))
    decreases v
  {
    match v
    case ByAddress(_, plain) => OrderDoesNotMatter(plain, w.plain, false);
    case Pointer(elem) => OrderDoesNotMatter(elem, w.elem, true);
    case Interface(elem) => OrderDoesNotMatter(elem, w.elem, false);
    case Node(shape, entries) =>
      var walk := WalkOf(v, w);
      PairwiseSameMedia(entries, walk, Reaches(shape, addressable));
      WalkSameMedia(walk, w.entries, Reaches(shape, addressable));
    case _ =>
  }

  lemma {:induction false} PairwiseSameMedia(a: seq<Entry>, b: seq<Entry>, addressable: bool)
    requires Alike(a, b)
    ensures multiset(MediaInAll(a, addressable)) == multiset(MediaInAll(b, addressable))
    decreases a
  {
    if a != [] {
      var n := |a| - 1;
      var e := a[n];
      assert a decreases to e;
      PairwiseSameMedia(a[..n], b[..n], addressable);
      OrderDoesNotMatter(e.value, b[n].value, addressable);
    }
  }

  // ----- what is kept, whatever the order ------------------------------------------------

  function JoinParts(a: Parts, b: Parts): Parts {
    if a.Panicked? || b.Panicked? then Panicked else Parts(a.kept + b.kept, a.found + b.found)
  }

  lemma {:induction false} EntriesJoin(a: seq<Entry>, b: seq<Entry>, addressable: bool)
    ensures SplitEntries(a + b, addressable) ==
      JoinParts(SplitEntries(a, addressable), SplitEntries(b, addressable))
    decreases |b|
  {
    hide SplitValue;
    if b == [] {
      assert a + b == a;
    } else {
      var n := |b| - 1;
      assert (a + b)[..|a| + n] == a + b[..n];
      EntriesJoin(a, b[..n], addressable);
    }
  }

  ghost predicate SameKept(a: Parts, b: Parts) {
    if a.Panicked? then b.Panicked? else b.Parts? && multiset(a.kept) == multiset(b.kept)
  }

  // Another walk of the same map keeps the same entries.
  lemma {:induction false} WalkSameKept(a: seq<Entry>, b: seq<Entry>, addressable: bool)
    requires multiset(a) == multiset(b)
    ensures SameKept(SplitEntries(a, addressable), SplitEntries(b, addressable))
    decreases |a|
  {
    hide SplitEntries;
    if a == [] {
      assert |multiset(b)| == 0;
    } else {
      var n := |a| - 1;
      var x, y := TakeOut(a, b);
      WalkSameKept(a[..n], x + y, addressable);
      assert a == a[..n] + [a[n]];
      EntriesJoin(a[..n], [a[n]], addressable);
      EntriesJoin(x, y, addressable);
      EntriesJoin(x + [a[n]], y, addressable);
      EntriesJoin(x, [a[n]], addressable);
    }
  }

  function Relabel(e: Entry): Entry { e.(key := MapKey(Render(e.key))) }

  /** The entries of a rebuilt map. */
  function Renamed(kept: seq<Entry>): seq<Entry> {
    if kept == [] then [] else Renamed(kept[..|kept| - 1]) + [Relabel(kept[|kept| - 1])]
  }

  lemma RenamedLast(kept: seq<Entry>, e: Entry)
    ensures Renamed(kept + [e]) == Renamed(kept) + [Relabel(e)]
  {
    assert (kept + [e])[..|kept|] == kept;
  }

  lemma {:induction false} RenamedAt(kept: seq<Entry>)
    ensures |Renamed(kept)| == |kept|
    ensures forall i :: 0 <= i < |kept| ==> Renamed(kept)[i] == Relabel(kept[i])
  {
    hide Relabel;
    if kept != [] { RenamedAt(kept[..|kept| - 1]); }
  }

  lemma {:induction false} RenamedJoin(a: seq<Entry>, b: seq<Entry>)
    ensures Renamed(a + b) == Renamed(a) + Renamed(b)
    decreases |b|
  {
    hide Renamed, Relabel;
    if b == [] {
      assert a + b == a && Renamed([]) == [] by { RenamedAt([]); }
    } else {
      var n := |b| - 1;
      RenamedJoin(a, b[..n]);
      assert b == b[..n] + [b[n]] && a + b == (a + b[..n]) + [b[n]];
      RenamedLast(b[..n], b[n]);
      RenamedLast(a + b[..n], b[n]);
    }
  }

  lemma {:induction false} WalkSameNames(a: seq<Entry>, b: seq<Entry>)
    requires multiset(a) == multiset(b)
    ensures multiset(Renamed(a)) == multiset(Renamed(b))
    decreases |a|
  {
    hide Renamed, Relabel;
    if a == [] {
      assert |multiset(b)| == 0;
    } else {
      var n := |a| - 1;
      var x, y := TakeOut(a, b);
      WalkSameNames(a[..n], x + y);
      assert a == a[..n] + [a[n]];
      RenamedLast(a[..n], a[n]);
      RenamedJoin(x, y);
      RenamedJoin(x + [a[n]], y);
      RenamedLast(x, a[n]);
    }
  }

  lemma {:induction false} WalkDistinct(a: seq<Entry>, b: seq<Entry>)
    requires multiset(a) == multiset(b) && KeysDistinct(a) && forall i :: 0 <= i < |a| ==> a[i].exported
    ensures KeysDistinct(b) && forall i :: 0 <= i < |b| ==> b[i].exported
    decreases |a|
  {
    hide Render;
    if a == [] {
      assert |multiset(b)| == 0;
    } else {
      var n := |a| - 1;
      var x, y := TakeOut(a, b);
      WalkDistinct(a[..n], x + y);
      var rest := x + y;
      forall i | 0 <= i < |rest| ensures Render(rest[i].key) != Render(a[n].key) {
        assert rest[i] in multiset(a[..n]);
      }
      Around(x, a[n], y);
    }
  }

  lemma Around(x: seq<Entry>, e: Entry, y: seq<Entry>)
    requires KeysDistinct(x + y) && e.exported && forall i :: 0 <= i < |x + y| ==> (x + y)[i].exported
    requires forall i :: 0 <= i < |x + y| ==> Render((x + y)[i].key) != Render(e.key)
    ensures KeysDistinct(x + [e] + y) && forall i :: 0 <= i < |x + [e] + y| ==> (x + [e] + y)[i].exported
  {
    hide Render;
    var b := x + [e] + y;
    forall i | 0 <= i < |b| && i != |x| ensures b[i] == (x + y)[if i < |x| then i else i - 1] {}
  }

  ghost predicate SameCleaned(a: Option<Value>, b: Option<Value>) {
    if a.None? then b.None? else b.Some? && SameUpToOrder(a.value, b.value)
  }

  lemma {:induction false} PutAllRenames(kept: seq<Entry>)
    requires KeysDistinct(kept) && forall i :: 0 <= i < |kept| ==> kept[i].exported
    ensures PutAll(kept) == Renamed(kept)
  {
    hide Render, Put;
    if kept != [] {
      var n := |kept| - 1;
      LastKeyDistinct(kept);
      PutAllRenames(kept[..n]);
      PutAllHas(kept[..n], Render(kept[n].key));
      PutNew(PutAll(kept[..n]), Relabel(kept[n]));
    }
  }

  // What is rebuilt of entries kept in one order and in another.
  lemma RebuiltAlike(shape: Shape, a: seq<Entry>, walk: seq<Entry>, b: seq<Entry>)
    requires Alike(a, walk) && Walks(shape, walk, b)
    requires shape == MapOf || shape == StructOf ==> KeysDistinct(a) && forall i :: 0 <= i < |a| ==> a[i].exported
    ensures SameUpToOrder(Rebuilt(shape, a), Rebuilt(shape, b))
  {
    hide PutAll, Render, SameUpToOrder, Renamed;
    if shape == MapOf || shape == StructOf {
      RenamedAt(a);
      RenamedAt(walk);
      if shape == StructOf { assert walk == b; }
      WalkDistinct(walk, b);
      PutAllRenames(a);
      PutAllRenames(b);
      WalkSameNames(walk, b);
      OfWalk(Rebuilt(shape, a), Rebuilt(shape, b), Renamed(walk));
    } else {
      OfWalk(Rebuilt(shape, a), Rebuilt(shape, b), walk);
    }
  }

  ghost predicate AlikeKept(a: Parts, b: Parts) {
    if a.Panicked? then b.Panicked? else b.Parts? && Alike(a.kept, b.kept)
  }

  /** With distinct rendered keys the cleaned value does not depend on the order of maps either, but
    * for the order of the maps in it. */
  lemma {:induction false} CleanedUpToOrder(v: Value, w: Value, addressable: bool)
    requires SameUpToOrder(v, w) && WellKeyed(v)
    ensures SplitValue(v, addressable).Panics? <==> SplitValue(w, addressable).Panics?
    ensures SplitValue(v, addressable).Split? ==>
      SameCleaned(SplitValue(v, addressable).cleaned, SplitValue(w, addressable).cleaned)
    decreases v
  {
    match v
    case ByAddress(_, plain) => CleanedUpToOrder(plain, w.plain, false); SameFound(plain, w.plain, false);
    case Pointer(elem) => CleanedUpToOrder(elem, w.elem, true);
    case Interface(elem) => CleanedUpToOrder(elem, w.elem, false);
    case Node(shape, entries) =>
      var reach := Reaches(shape, addressable);
      var walk := WalkOf(v, w);
      PairwiseSameKept(entries, walk, reach);
      NodeAlike(v, walk, w, addressable);
    case _ =>
  }

  lemma SameFound(v: Value, w: Value, addressable: bool)
    requires SameUpToOrder(v, w)
    ensures SplitValue(v, addressable).Split? && SplitValue(w, addressable).Split? ==>
      (SplitValue(v, addressable).found == [] <==> SplitValue(w, addressable).found == [])
  {
    FindsAllMedia(v, addressable);
    FindsAllMedia(w, addressable);
    OrderDoesNotMatter(v, w, addressable);
    hide *;
    var a, b := MediaIn(v, addressable), MediaIn(w, addressable);
    assert |a| == |multiset(a)| == |multiset(b)| == |b|;
  }

  lemma NodeAlike(v: Value, walk: seq<Entry>, w: Value, addressable: bool)
    requires v.Node? && w.Node? && v.shape == w.shape && SameUpToOrder(v, w) && Walks(v.shape, walk, w.entries)
    requires WellKeyed(v)
    requires AlikeKept(SplitEntries(v.entries, Reaches(v.shape, addressable)),
                       SplitEntries(walk, Reaches(v.shape, addressable)))
    ensures SplitValue(v, addressable).Panics? <==> SplitValue(w, addressable).Panics?
    ensures SplitValue(v, addressable).Split? ==>
      SameCleaned(SplitValue(v, addressable).cleaned, SplitValue(w, addressable).cleaned)
  {
    var shape, reach := v.shape, Reaches(v.shape, addressable);
    var a, m, b := SplitEntries(v.entries, reach), SplitEntries(walk, reach), SplitEntries(w.entries, reach);
    NodeSplits(shape, v.entries, addressable);
    NodeSplits(shape, w.entries, addressable);
    if shape == MapOf { WalkSameKept(walk, w.entries, reach); }
    if a.Parts? {
      SameFound(v, w, addressable);
      if shape == MapOf || shape == StructOf { KeptKeys(v.entries, reach); }
      hide SplitValue, SplitEntries, SameUpToOrder, WellKeyed, KeysDistinct, Rebuilt;
      assert |multiset(m.kept)| == |m.kept| && |multiset(b.kept)| == |b.kept|;
      assert a.kept == [] <==> b.kept == [];
      RebuiltAlike(shape, a.kept, m.kept, b.kept);
    }
  }

  lemma {:induction false} PairwiseSameKept(a: seq<Entry>, b: seq<Entry>, addressable: bool)
    requires Alike(a, b) && forall i :: 0 <= i < |a| ==> WellKeyed(a[i].value)
    ensures AlikeKept(SplitEntries(a, addressable), SplitEntries(b, addressable))
    decreases a
  {
    hide SplitValue, WellKeyed;
    if a != [] {
      var n := |a| - 1;
      var e := a[n];
      assert a decreases to e;
      PairwiseSameKept(a[..n], b[..n], addressable);
      CleanedUpToOrder(e.value, b[n].value, addressable);
    }
  }

  // ----- the recursion as it runs --------------------------------------------------------

  method SplitMediaValue(v: Value, addressable: bool) returns (r: Outcome)
    ensures r == SplitValue(v, addressable)
    decreases v
  {
    match v {
      case Leaf(_) => return Split(Some(v), []);
      case Attached(id) => return Split(None, [Attachment(id)]);
      case NilMediaPointer => return Split(None, []);
      case Slot(held) =>
        if held.None? { return Panics; }
        return Split(None, [held.value]);
      case ByAddress(id, plain) =>
        if addressable { return Split(None, [Attachment(id)]); }
        r := SplitMediaValue(plain, false);
        if r.Split? && |r.found| == 0 { r := Split(Some(v), []); }
      case Pointer(elem) => r := SplitMediaValue(elem, true);
      case Interface(elem) => r := SplitMediaValue(elem, false);
      case Node(shape, entries) =>
        if shape == SliceOf || shape == ArrayOf {
          r := SplitItems(v, shape, entries, addressable);
        } else {
          r := SplitKeyed(v, shape, entries, addressable);
        }
    }
  }

  /** Slices and arrays: what is kept is appended to a list. */
  method SplitItems(v: Value, shape: Shape, entries: seq<Entry>, addressable: bool) returns (r: Outcome)
    requires v == Node(shape, entries) && (shape == SliceOf || shape == ArrayOf)
    ensures r == SplitValue(v, addressable)
    decreases entries
  {
    hide SplitValue;
    var reach := Reaches(shape, addressable);
    var kept: seq<Entry>, found: seq<Media> := [], [];
    for i := 0 to |entries|
      invariant SplitEntries(entries[..i], reach) == Parts(kept, found)
    {
      var e := entries[i];
      assert entries decreases to e;
      assert entries[..i + 1][..i] == entries[..i];
      if !e.exported { continue; }
      var item := SplitMediaValue(e.value, reach);
      if item.Panics? {
        PanicSpreads(entries, i + 1, reach);
        NodeSplits(shape, entries, addressable);
        return Panics;
      }
      found := found + item.found;
      if item.cleaned.Some? { kept := kept + [Entry(e.key, true, Interface(item.cleaned.value))]; }
    }
    assert entries[..|entries|] == entries;
    NodeSplits(shape, entries, addressable);
    if |found| == 0 { return Split(Some(v), []); }
    if |kept| == 0 { return Split(None, found); }
    return Split(Some(Node(SliceOf, kept)), found);
  }

  lemma NodeSplits(shape: Shape, entries: seq<Entry>, addressable: bool)
    ensures SplitValue(Node(shape, entries), addressable) ==
      match SplitEntries(entries, Reaches(shape, addressable))
      case Panicked => Panics
      case Parts(kept, found) => Gather(Node(shape, entries), shape, kept, found)
  {
  }

  lemma {:induction false} PanicSpreads(entries: seq<Entry>, n: nat, addressable: bool)
    requires n <= |entries| && SplitEntries(entries[..n], addressable).Panicked?
    ensures SplitEntries(entries, addressable).Panicked?
    decreases |entries|
  {
    if n == |entries| {
      assert entries[..n] == entries;
    } else {
      assert entries[..|entries| - 1][..n] == entries[..n];
      PanicSpreads(entries[..|entries| - 1], n, addressable);
    }
  }

  lemma PutAllLast(kept: seq<Entry>, e: Entry)
    ensures PutAll(kept + [e]) == Put(PutAll(kept), e.(key := MapKey(Render(e.key))))
    ensures PutAll(kept + [e]) != []
  {
    assert (kept + [e])[..|kept|] == kept;
  }

  /** Maps and structs: what is kept is written to a map, under rendered keys. */
  method SplitKeyed(v: Value, shape: Shape, entries: seq<Entry>, addressable: bool) returns (r: Outcome)
    requires v == Node(shape, entries) && (shape == MapOf || shape == StructOf)
    ensures r == SplitValue(v, addressable)
    decreases entries
  {
    hide SplitValue, PutAll;
    var reach := Reaches(shape, addressable);
    var kept: seq<Entry>, found: seq<Media> := [], [];
    ghost var parts: seq<Entry> := [];
    assert PutAll([]) == [] by { PutNothing(); }
    for i := 0 to |entries|
      invariant SplitEntries(entries[..i], reach) == Parts(parts, found)
      invariant kept == PutAll(parts) && (kept == [] <==> parts == [])
    {
      var e := entries[i];
      assert entries decreases to e;
      assert entries[..i + 1][..i] == entries[..i];
      if !e.exported { continue; }
      var item := SplitMediaValue(e.value, reach);
      if item.Panics? {
        PanicSpreads(entries, i + 1, reach);
        NodeSplits(shape, entries, addressable);
        return Panics;
      }
      found := found + item.found;
      if item.cleaned.Some? {
        var value := Interface(item.cleaned.value);
        PutAllLast(parts, Entry(e.key, true, value));
        kept := Put(kept, Entry(MapKey(Render(e.key)), true, value));
        parts := parts + [Entry(e.key, true, value)];
      }
    }
    assert entries[..|entries|] == entries;
    NodeSplits(shape, entries, addressable);
    if |found| == 0 { return Split(Some(v), []); }
    if |kept| == 0 { return Split(None, found); }
    return Split(Some(Node(MapOf, kept)), found);
  }

  lemma PutNothing()
    ensures PutAll([]) == []
  {
  }

  /** A tool's result: a result that is itself media, even a typed nil pointer, is all attachment. */
  method SplitMedia(v: Option<Value>) returns (r: Outcome)
    ensures v.None? ==> r == Split(None, [])
    ensures v == Some(NilMediaPointer) ==> r == Split(None, [NilAttachment])
    ensures v.Some? && !v.value.NilMediaPointer? ==> r == SplitValue(v.value, false)
  {
    if v.None? { return Split(None, []); }
    match v.value {
      case Attached(id) => return Split(None, [Attachment(id)]);
      case NilMediaPointer => return Split(None, [NilAttachment]);
      case _ => r := SplitMediaValue(v.value, false);
    }
  }
}
