/** The struct tags that annotate a property's schema. */
module SchemaTags {
  import opened Options
  import opened Text

  /** What a jsonschema tag sets on a property. */
  datatype Notes = Notes(description: string, enum: seq<string>, format: string)

  const NONE := Notes("", [], "")

  /** The white space of Unicode, as strings.TrimSpace trims it. */
  predicate IsSpace(c: char) {
    || c == ' ' || '\t' <= c <= '\r' || c == '\U{0085}' || c == '\U{00A0}' || c == '\U{1680}'
    || '\U{2000}' <= c <= '\U{200A}' || c == '\U{2028}' || c == '\U{2029}' || c == '\U{202F}' || c == '\U{205F}'
    || c == '\U{3000}'
  }

  function TrimLeft(s: string): string { if s != "" && IsSpace(s[0]) then TrimLeft(s[1..]) else s }

  function TrimRight(s: string): string {
    if s != "" && IsSpace(s[|s| - 1]) then TrimRight(s[..|s| - 1]) else s
  }

  function TrimSpace(s: string): string { TrimRight(TrimLeft(s)) }

  datatype Part = Prose | Description(value: string) | Enum(value: string) | Format(value: string)

  /** What one comma-separated part of a tag says: a directive, or text. */
  function Read(part: string): Part {
    match Find(part, '=')
    case None => Prose
    case Some(i) =>
      var key, value := TrimSpace(part[..i]), part[i + 1..];
      if key == "description" then Description(value)
      else if key == "enum" then Enum(value)
      else if key == "format" then Format(value)
      else Prose
  }

  /** The notes so far, and whether the last part belongs to the description. */
  datatype Progress = Progress(notes: Notes, inDescription: bool)

  function Next(p: Progress, part: string): Progress {
    var d := p.notes.description;
    match Read(part)
    case Prose => if p.inDescription then p.(notes := p.notes.(description := d + "," + part)) else p
    case Description(value) =>
      Progress(p.notes.(description := if d == "" then value else d + "," + part), true)
    case Enum(value) => Progress(p.notes.(enum := p.notes.enum + [value]), false)
    case Format(value) => Progress(p.notes.(format := value), false)
  }

  function After(p: Progress, parts: seq<string>): Progress {
    if parts == [] then p else Next(After(p, parts[..|parts| - 1]), parts[|parts| - 1])
  }

  /** A property's notes with a tag applied. */
  function Tagged(notes: Notes, tag: string): Notes {
    if tag == "" then notes else After(Progress(notes, false), Split(tag, ',')).notes
  }

  method ApplyTag(notes: Notes, tag: string) returns (r: Notes)
    ensures r == Tagged(notes, tag)
  {
    r := notes;
    if tag == "" { return; }
    var inDescription, parts := false, Split(tag, ',');
    for k := 0 to |parts|
      invariant Progress(r, inDescription) == After(Progress(notes, false), parts[..k])
    {
      assert parts[..k + 1][..k] == parts[..k];
      match Read(parts[k]) {
        case Prose =>
          if inDescription { r := r.(description := r.description + "," + parts[k]); }
        case Description(value) =>
          if r.description == "" {
            r := r.(description := value);
          } else {
            r := r.(description := r.description + "," + parts[k]);
          }
          inDescription := true;
        case Enum(value) =>
          r := r.(enum := r.enum + [value]);
          inDescription := false;
        case Format(value) =>
          r := r.(format := value);
          inDescription := false;
      }
    }
    assert parts[..|parts|] == parts;
  }

  // ----- descriptions with commas --------------------------------------------------------

  /** A fragment of a description that is taken for a directive of its own. */
  predicate Intrudes(parts: seq<string>, k: int)
    requires 0 < k < |parts|
  {
    Read(parts[k]).Enum? || Read(parts[k]).Format? || (Read(parts[k]).Description? && k == 1 && parts[0] == "")
  }

  /** Reading a description's fragments in turn: the text so far, or something shorter once a
    * fragment has intruded. */
  lemma {:induction false} FragmentsRead(notes: Notes, parts: seq<string>, n: nat)
    requires 0 < n <= |parts| && notes.description == ""
    ensures var p := After(Progress(notes.(description := parts[0]), true), parts[1..n]);
      if forall k :: 0 < k < n ==> !Intrudes(parts, k)
      then p.inDescription && p.notes.description == Join(parts[..n], ",")
      else |p.notes.description| < |Join(parts[..n], ",")|
  {
    hide Read, Next, Intrudes, Join;
    if n == 1 {
      OneJoins(parts[0]);
      assert parts[1..1] == [] && parts[..1] == [parts[0]];
    } else {
      var m := n - 1;
      FragmentsRead(notes, parts, m);
      FragmentNext(Progress(notes.(description := parts[0]), true), parts, m);
      var p := After(Progress(notes.(description := parts[0]), true), parts[1..m]);
      hide After;
      NextGrows(p, parts[m]);
      if forall k :: 0 < k < m ==> !Intrudes(parts, k) {
        assert p.inDescription && p.notes.description == Join(parts[..m], ",");
        CleanStep(p, parts, m);
      }
    }
  }

  // One more fragment, in the text and in what is read of it.
  lemma FragmentNext(p: Progress, parts: seq<string>, m: nat)
    requires 0 < m < |parts|
    ensures After(p, parts[1..m + 1]) == Next(After(p, parts[1..m]), parts[m])
    ensures Join(parts[..m + 1], ",") == Join(parts[..m], ",") + "," + parts[m]
    ensures if m == 1 then Join(parts[..m], ",") == parts[0] else Join(parts[..m], ",") != ""
  {
    hide Read, Next, Join;
    assert parts[1..m + 1] == parts[1..m] + [parts[m]] && parts[..m + 1] == parts[..m] + [parts[m]];
    assert parts[1..m + 1][..m - 1] == parts[1..m];
    JoinAppend(parts[..m], parts[m], ",");
    if m > 1 { JoinNotEmpty(parts[..m]); } else { assert parts[..1] == [parts[0]]; OneJoins(parts[0]); }
  }

  lemma CleanStep(p: Progress, parts: seq<string>, m: int)
    requires 0 < m < |parts| && p.inDescription
    requires if m == 1 then p.notes.description == parts[0] else p.notes.description != ""
    ensures var d, q := p.notes.description, Next(p, parts[m]);
      if Intrudes(parts, m) then |q.notes.description| < |d| + 1 + |parts[m]|
      else q.inDescription && q.notes.description == d + "," + parts[m]
  {
    NextGrows(p, parts[m]);
  }

  lemma OneJoins(part: string)
    ensures Join([part], ",") == part
  {
  }

  lemma JoinNotEmpty(parts: seq<string>)
    requires |parts| > 1
    ensures Join(parts, ",") != ""
  {
  }

  lemma NextGrows(p: Progress, part: string)
    ensures var d, e := p.notes.description, Next(p, part).notes.description;
      && |e| <= |d| + 1 + |part|
      && (Read(part).Enum? || Read(part).Format? ==> e == d)
      && (Read(part).Prose? && p.inDescription ==> e == d + "," + part && Next(p, part).inDescription)
      && (Read(part).Description? && d != "" ==> e == d + "," + part && Next(p, part).inDescription)
      && (Read(part).Description? && d == "" ==> |e| < 1 + |part|)
  {
  }

  lemma FirstFragment(text: string)
    ensures var parts := Split(text, ',');
      Split("description=" + text, ',') == ["description=" + parts[0]] + parts[1..]
  {
    var head := "description=";
    FindSkips(head, text, ',');
    match Find(text, ',')
    case None =>
    case Some(i) =>
      var s := head + text;
      assert s[..|head| + i] == head + text[..i] && s[|head| + i + 1..] == text[i + 1..];
  }

  lemma DescriptionRead(value: string)
    ensures Read("description=" + value) == Description(value)
  {
    var key, part := "description", "description=" + value;
    assert part == key + ("=" + value) && part[..|key|] == key && part[|key| + 1..] == value;
    assert '=' !in key;
    FindIs(part, '=', |key|);
    hide Find;
    assert TrimLeft(key) == key && TrimRight(key) == key;
  }

  lemma {:induction false} AfterFirst(p: Progress, part: string, parts: seq<string>)
    ensures After(p, [part] + parts) == After(Next(p, part), parts)
  {
    if parts == [] {
      assert After(p, []) == p && [part] + [] == [part];
    } else {
      var n := |parts| - 1;
      AfterFirst(p, part, parts[..n]);
      assert ([part] + parts)[..n + 1] == [part] + parts[..n];
    }
  }

  // The parts of a tag with something before its description.
  lemma PartsBefore(before: string, text: string)
    requires before == "" || before[|before| - 1] == ','
    ensures var head, parts := Split(before, ','), Split(text, ',');
      Split(before + "description=" + text, ',') == head[..|head| - 1] + (["description=" + parts[0]] + parts[1..])
  {
    hide Split;
    FirstFragment(text);
    var rest := "description=" + text;
    assert before + "description=" + text == before + rest;
    if before == "" {
      SplitNone("", ',');
      assert before + rest == rest;
    } else {
      var a := before[..|before| - 1];
      assert before == a + [','] + "" && before + rest == a + [','] + rest;
      SplitBoth(a, ',', rest);
      SplitBoth(a, ',', "");
      SplitNone("", ',');
    }
  }

  /** No part of a description but its first is a directive to set anything else. */
  ghost predicate Sealed(description: string) {
    forall k :: 0 < k < |Split(description, ',')| ==>
      var part := Read(Split(description, ',')[k]); !part.Enum? && !part.Format?
  }

  lemma ValueOf(part: string)
    requires ',' !in part && Read(part).Description?
    ensures ',' !in Read(part).value
  {
  }

  lemma SealedAppends(d: string, part: string)
    requires Sealed(d) && ',' !in part && !Read(part).Enum? && !Read(part).Format?
    ensures Sealed(d + "," + part)
  {
    assert [','] == ",";
    SplitBoth(d, ',', part);
    SplitNone(part, ',');
    hide Read, Split;
  }

  lemma SealedValue(value: string)
    requires ',' !in value
    ensures Sealed(value)
  {
    SplitNone(value, ',');
    hide Read, Split;
  }

  lemma NextSealed(p: Progress, part: string)
    requires Sealed(p.notes.description) && ',' !in part
    ensures Sealed(Next(p, part).notes.description)
  {
    hide Sealed;
    match Read(part)
    case Prose => SealedAppends(p.notes.description, part);
    case Description(value) =>
      ValueOf(part);
      SealedValue(value);
      SealedAppends(p.notes.description, part);
    case _ =>
  }

  lemma {:induction false} AfterSealed(p: Progress, parts: seq<string>)
    requires Sealed(p.notes.description) && forall part :: part in parts ==> ',' !in part
    ensures Sealed(After(p, parts).notes.description)
  {
    hide Sealed, Next;
    if parts != [] {
      AfterSealed(p, parts[..|parts| - 1]);
      NextSealed(After(p, parts[..|parts| - 1]), parts[|parts| - 1]);
    }
  }

  // Fragments after a text all join it, if none of them sets anything else.
  lemma {:induction false} FragmentsJoin(p: Progress, parts: seq<string>, n: nat)
    requires 0 < n <= |parts| && p.inDescription && p.notes.description != ""
    requires forall k :: 0 < k < n ==> !Read(parts[k]).Enum? && !Read(parts[k]).Format?
    ensures var q := After(p, parts[1..n]);
      q.inDescription && |q.notes.description| + |parts[0]| == |p.notes.description| + |Join(parts[..n], ",")|
  {
    hide Read, Next, Join;
    if n == 1 {
      OneJoins(parts[0]);
      assert parts[1..1] == [] && parts[..1] == [parts[0]];
    } else {
      var m := n - 1;
      FragmentsJoin(p, parts, m);
      FragmentNext(p, parts, m);
      JoinAtLeast(parts[..m]);
      NextGrows(After(p, parts[1..m]), parts[m]);
      hide After;
    }
  }

  lemma JoinAtLeast(parts: seq<string>)
    requires parts != []
    ensures |Join(parts, ",")| >= |parts[0]|
  {
  }

  // A second description is appended to the first, directive and all.
  lemma SecondNotKept(p: Progress, text: string)
    requires Sealed(p.notes.description) && p.notes.description != ""
    ensures var parts := Split(text, ',');
      After(p, ["description=" + parts[0]] + parts[1..]).notes.description != text
  {
    var parts := Split(text, ',');
    var first := "description=" + parts[0];
    AfterFirst(p, first, parts[1..]);
    DescriptionRead(parts[0]);
    var q := Next(p, first);
    assert q.inDescription && q.notes.description == p.notes.description + "," + first;
    assert ',' !in first;
    AfterSealed(p, [first] + parts[1..]);
    hide Read, Next, Split;
    if Sealed(text) {
      FragmentsJoin(q, parts, |parts|);
      assert parts[..|parts|] == parts && parts[1..|parts|] == parts[1..];
      SplitJoin(text, ',');
      assert [','] == ",";
    }
  }

  // The first description is kept unless a fragment intrudes.
  lemma FirstKeptIff(p: Progress, text: string)
    requires p.notes.description == ""
    ensures var parts := Split(text, ',');
      After(p, ["description=" + parts[0]] + parts[1..]).notes.description == text <==>
      forall k :: 0 < k < |parts| ==> !Intrudes(parts, k)
  {
    hide Split, Read, Next, Intrudes;
    var parts := Split(text, ',');
    DescriptionRead(parts[0]);
    AfterFirst(p, "description=" + parts[0], parts[1..]);
    FirstNext(p, parts[0]);
    FragmentsRead(p.notes, parts, |parts|);
    assert parts[..|parts|] == parts && parts[1..|parts|] == parts[1..];
    SplitJoin(text, ',');
    assert [','] == ",";
  }

  /** A description at the end of a tag, behind any other directives, survives its own commas exactly
    * when it is the tag's first, none of its later fragments looks like an enum or format directive,
    * and the first of them is not a description directive behind an empty fragment. */
  lemma DescriptionKeptIff(notes: Notes, before: string, text: string)
    requires notes.description == "" && (before == "" || before[|before| - 1] == ',')
    ensures var head, parts := Split(before, ','), Split(text, ',');
      Tagged(notes, before + "description=" + text).description == text <==>
      && After(Progress(notes, false), head[..|head| - 1]).notes.description == ""
      && forall k :: 0 < k < |parts| ==> !Intrudes(parts, k)
  {
    var start, head, parts := Progress(notes, false), Split(before, ','), Split(text, ',');
    var tail := ["description=" + parts[0]] + parts[1..];
    var p := After(start, head[..|head| - 1]);
    SplitNone("", ',');
    PartsBefore(before, text);
    assert Tagged(notes, before + "description=" + text) == After(start, head[..|head| - 1] + tail).notes;
    AfterSealed(start, head[..|head| - 1]);
    hide *;
    AfterJoins(start, head[..|head| - 1], tail);
    if p.notes.description == "" { FirstKeptIff(p, text); } else { SecondNotKept(p, text); }
  }

  lemma FirstNext(p: Progress, value: string)
    requires p.notes.description == ""
    ensures Next(p, "description=" + value) == Progress(p.notes.(description := value), true)
  {
    DescriptionRead(value);
  }

  // ----- parts that are no directive -----------------------------------------------------

  /** The part before position k that decides whether text belongs to the description: the last
    * directive there is a description. */
  ghost predicate InDescription(parts: seq<string>, k: int) {
    exists j :: 0 <= j < k <= |parts| && Read(parts[j]).Description? && forall m :: j < m < k ==> Read(parts[m]).Prose?
  }

  lemma InDescriptionNext(parts: seq<string>, n: nat)
    requires n < |parts|
    ensures InDescription(parts, n + 1) <==>
      Read(parts[n]).Description? || (Read(parts[n]).Prose? && InDescription(parts, n))
  {
    hide Read;
    if Read(parts[n]).Prose? && InDescription(parts, n) {
      var j :| 0 <= j < n && Read(parts[j]).Description? && forall m :: j < m < n ==> Read(parts[m]).Prose?;
      assert forall m :: j < m < n + 1 ==> Read(parts[m]).Prose?;
    }
    if InDescription(parts, n + 1) && !Read(parts[n]).Description? {
      var j :| 0 <= j < n + 1 && Read(parts[j]).Description? && forall m :: j < m < n + 1 ==> Read(parts[m]).Prose?;
      assert j < n;
    }
  }

  lemma {:induction false} InDescriptionMeans(notes: Notes, parts: seq<string>, k: nat)
    requires k <= |parts|
    ensures After(Progress(notes, false), parts[..k]).inDescription <==> InDescription(parts, k)
  {
    hide Read;
    if k > 0 {
      var n := k - 1;
      InDescriptionMeans(notes, parts, n);
      InDescriptionNext(parts, n);
      hide InDescription;
      assert parts[..k][..n] == parts[..n] && parts[..k][n] == parts[n];
    }
  }

  /** One progress has a longer description than another, and is otherwise at the same place. */
  predicate Longer(p: Progress, q: Progress) {
    p.inDescription == q.inDescription && |p.notes.description| > |q.notes.description|
  }

  lemma NextStaysLonger(p: Progress, q: Progress, part: string)
    requires Longer(p, q)
    ensures Longer(Next(p, part), Next(q, part))
  {
  }

  lemma {:induction false} AfterStaysLonger(p: Progress, q: Progress, parts: seq<string>)
    requires Longer(p, q)
    ensures Longer(After(p, parts), After(q, parts))
  {
    hide Next, Longer;
    if parts != [] {
      AfterStaysLonger(p, q, parts[..|parts| - 1]);
      NextStaysLonger(After(p, parts[..|parts| - 1]), After(q, parts[..|parts| - 1]), parts[|parts| - 1]);
    }
  }

  lemma {:induction false} AfterJoins(p: Progress, a: seq<string>, b: seq<string>)
    ensures After(p, a + b) == After(After(p, a), b)
  {
    if b == [] {
      assert a + b == a;
    } else {
      var n := |b| - 1;
      assert (a + b)[..|a| + n] == a + b[..n];
      AfterJoins(p, a, b[..n]);
    }
  }

  lemma ProseNext(p: Progress, part: string)
    requires Read(part).Prose?
    ensures Next(p, part) ==
      if p.inDescription then p.(notes := p.notes.(description := p.notes.description + "," + part)) else p
    ensures p.inDescription ==> Longer(Next(p, part), p)
  {
    hide Read;
  }

  lemma ProseDropped(start: Progress, parts: seq<string>, k: nat)
    requires k < |parts| && Read(parts[k]).Prose?
    ensures After(start, parts).notes == After(start, parts[..k] + parts[k + 1..]).notes <==>
      !After(start, parts[..k]).inDescription
  {
    var p, rest := After(start, parts[..k]), parts[k + 1..];
    ProseNext(p, parts[k]);
    hide Read, Next, After;
    assert parts == parts[..k] + ([parts[k]] + rest);
    AfterJoins(start, parts[..k], [parts[k]] + rest);
    AfterFirst(p, parts[k], rest);
    AfterJoins(start, parts[..k], rest);
    if p.inDescription { AfterStaysLonger(Next(p, parts[k]), p, rest); }
  }

  /** Where a part that is no directive is ignored: everywhere but in a description. There it is
    * appended, and the tag's notes are no longer what they are without it, whatever follows. */
  lemma ProseIgnoredIff(notes: Notes, tag: string, k: nat)
    requires tag != "" && k < |Split(tag, ',')| && Read(Split(tag, ',')[k]).Prose?
    ensures var parts := Split(tag, ',');
      && (Tagged(notes, tag) == After(Progress(notes, false), parts[..k] + parts[k + 1..]).notes
          <==> !InDescription(parts, k))
      && var p := After(Progress(notes, false), parts[..k]);
         Next(p, parts[k]).notes ==
           if InDescription(parts, k) then p.notes.(description := p.notes.description + "," + parts[k]) else p.notes
  {
    var parts := Split(tag, ',');
    var start := Progress(notes, false);
    assert Tagged(notes, tag) == After(start, parts).notes;
    hide *;
    InDescriptionMeans(notes, parts, k);
    ProseDropped(start, parts, k);
    ProseNext(After(start, parts[..k]), parts[k]);
  }

  lemma RequiredReads()
    ensures Read("required") == Prose
  {
    assert Find("required", '=').None?;
  }

  /** A bare "required" is no directive, though the tag's documentation lists it as one: wherever it
    * stands in a tag it is ignored if and only if it does not follow a description, and otherwise
    * it ends up in the description's text. */
  lemma RequiredIgnoredIff(notes: Notes, tag: string, k: nat)
    requires tag != "" && k < |Split(tag, ',')| && Split(tag, ',')[k] == "required"
    ensures var parts := Split(tag, ',');
      && (Tagged(notes, tag) == After(Progress(notes, false), parts[..k] + parts[k + 1..]).notes
          <==> !InDescription(parts, k))
      && var p := After(Progress(notes, false), parts[..k]);
         Next(p, "required").notes ==
           if InDescription(parts, k) then p.notes.(description := p.notes.description + "," + "required") else p.notes
  {
    RequiredReads();
    hide *;
    ProseIgnoredIff(notes, tag, k);
  }

  // ----- what directives set -------------------------------------------------------------

  /** What is left of a text without the spaces at either end. */
  lemma TrimExact(s: string) returns (before: string, after: string)
    ensures s == before + TrimSpace(s) + after
    ensures (forall c :: c in before ==> IsSpace(c)) && (forall c :: c in after ==> IsSpace(c))
    ensures TrimSpace(s) != "" ==> !IsSpace(TrimSpace(s)[0]) && !IsSpace(TrimSpace(s)[|TrimSpace(s)| - 1])
  {
    before := TrimLeftExact(s);
    after := TrimRightExact(TrimLeft(s));
    assert before + (TrimSpace(s) + after) == before + TrimSpace(s) + after;
  }

  lemma {:induction false} TrimLeftExact(s: string) returns (before: string)
    ensures s == before + TrimLeft(s) && forall c :: c in before ==> IsSpace(c)
    ensures TrimLeft(s) != "" ==> !IsSpace(TrimLeft(s)[0])
  {
    hide IsSpace;
    before := "";
    if s != "" && IsSpace(s[0]) {
      var rest := TrimLeftExact(s[1..]);
      before := [s[0]] + rest;
      assert s == [s[0]] + s[1..];
      assert [s[0]] + (rest + TrimLeft(s[1..])) == before + TrimLeft(s);
    }
  }

  lemma {:induction false} TrimRightExact(s: string) returns (after: string)
    ensures s == TrimRight(s) + after && forall c :: c in after ==> IsSpace(c)
    ensures TrimRight(s) != "" ==> TrimRight(s)[0] == s[0] && !IsSpace(TrimRight(s)[|TrimRight(s)| - 1])
  {
    hide IsSpace;
    after := "";
    if s != "" && IsSpace(s[|s| - 1]) {
      var n := |s| - 1;
      var rest := TrimRightExact(s[..n]);
      after := rest + [s[n]];
      assert s == s[..n] + [s[n]];
      assert TrimRight(s) + rest + [s[n]] == TrimRight(s) + after;
    }
  }

  /** The values that a tag's parts give for a key: what stands after the first equals sign of each part
    * whose text before it is the key, but for spaces. */
  function ValuesFor(parts: seq<string>, key: string): seq<string> {
    if parts == [] then []
    else
      var before, part := ValuesFor(parts[..|parts| - 1], key), parts[|parts| - 1];
      match Find(part, '=')
      case Some(i) => if TrimSpace(part[..i]) == key then before + [part[i + 1..]] else before
      case None => before
  }

  /** Every enum directive adds its value, and the last format directive sets the format; the description
    * is as long as the tag has none of its own. */
  lemma {:induction false} DirectivesSet(p: Progress, parts: seq<string>)
    ensures var n := After(p, parts).notes;
      && n.enum == p.notes.enum + ValuesFor(parts, "enum")
      && n.format == (if ValuesFor(parts, "format") == [] then p.notes.format
                      else ValuesFor(parts, "format")[|ValuesFor(parts, "format")| - 1])
      && (ValuesFor(parts, "description") == [] && !p.inDescription ==> n.description == p.notes.description)
    ensures ValuesFor(parts, "description") == [] && !p.inDescription ==> !After(p, parts).inDescription
  {
    hide TrimSpace, Find;
    if parts != [] {
      DirectivesSet(p, parts[..|parts| - 1]);
      var before := ValuesFor(parts[..|parts| - 1], "enum");
      assert forall v: string :: p.notes.enum + (before + [v]) == p.notes.enum + before + [v];
    } else {
      assert p.notes.enum + [] == p.notes.enum;
    }
  }

  /** So for whole tags. */
  lemma TagSets(notes: Notes, tag: string)
    requires tag != ""
    ensures var parts, n := Split(tag, ','), Tagged(notes, tag);
      && n.enum == notes.enum + ValuesFor(parts, "enum")
      && n.format == (if ValuesFor(parts, "format") == [] then notes.format
                      else ValuesFor(parts, "format")[|ValuesFor(parts, "format")| - 1])
      && (ValuesFor(parts, "description") == [] ==> n.description == notes.description)
  {
    DirectivesSet(Progress(notes, false), Split(tag, ','));
    hide Split, ValuesFor;
  }
}
