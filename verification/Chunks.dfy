/** A turn's semantic events: text and reasoning deltas of the model's answer, and its tool
  * calls with repeats removed. */
module Chunks {
  import opened Options
  import opened Steps

  datatype Chunk = TextChunk(index: int, text: string) | ThoughtChunk(index: int, text: string) | ToolChunk(call: Call)

  /** What a turn's step stream yields: a step, or a failure the turn may survive. */
  datatype Event = Arrived(step: Step) | Failed(error: string)

  /** What its chunk stream yields. */
  datatype Entry = Got(chunk: Chunk) | Broken(error: string)

  predicate Answers(s: Step) { s.source == FromModel && s.target == ToUser }

  // ----- the stream ----------------------------------------------------------------------

  function Deltas(s: Step): seq<Entry> {
    if !Answers(s) then []
    else
      (if s.thinkingDelta != "" then [Got(ThoughtChunk(s.index, s.thinkingDelta))] else []) +
      (if s.contentDelta != "" then [Got(TextChunk(s.index, s.contentDelta))] else [])
  }

  /** The calls not seen before: those without an id and the first of each other id. */
  function Unseen(seen: set<string>, calls: seq<Call>): seq<Call>
    decreases |calls|
  {
    if calls == [] then []
    else if calls[0].id == "" then [calls[0]] + Unseen(seen, calls[1..])
    else if calls[0].id in seen then Unseen(seen, calls[1..])
    else [calls[0]] + Unseen(seen + {calls[0].id}, calls[1..])
  }

  function Ids(calls: seq<Call>): set<string> { set c | c in calls && c.id != "" :: c.id }

  function AsEntries(calls: seq<Call>): (r: seq<Entry>)
    ensures |r| == |calls|
  {
    seq(|calls|, k requires 0 <= k < |calls| => Got(ToolChunk(calls[k])))
  }

  function ChunksFrom(seen: set<string>, events: seq<Event>): seq<Entry>
    decreases |events|
  {
    if events == [] then []
    else
      match events[0]
      case Failed(e) => [Broken(e)] + ChunksFrom(seen, events[1..])
      case Arrived(s) =>
        Deltas(s) + AsEntries(Unseen(seen, s.toolCalls)) + ChunksFrom(seen + Ids(s.toolCalls), events[1..])
  }

  function ChunksOf(events: seq<Event>): seq<Entry> { ChunksFrom({}, events) }

  lemma UnseenAppend(seen: set<string>, calls: seq<Call>, c: Call)
    ensures Unseen(seen, calls + [c]) ==
      Unseen(seen, calls) + if c.id != "" && c.id in seen + Ids(calls) then [] else [c]
    decreases |calls|
  {
    if calls != [] {
      var rest := calls[1..];
      assert (calls + [c])[1..] == rest + [c];
      assert calls == [calls[0]] + rest;
      UnseenAppend(seen, rest, c);
      UnseenAppend(seen + {calls[0].id}, rest, c);
      IdsSplit([calls[0]], rest);
    }
  }

  lemma IdsSplit(a: seq<Call>, b: seq<Call>)
    ensures Ids(a + b) == Ids(a) + Ids(b)
  {
  }

  lemma AsEntriesAppend(calls: seq<Call>, c: Call)
    ensures AsEntries(calls + [c]) == AsEntries(calls) + [Got(ToolChunk(c))]
  {
  }

  method StreamCalls(before: seq<Entry>, was: set<string>, calls: seq<Call>)
    returns (entries: seq<Entry>, seen: set<string>)
    ensures entries == before + AsEntries(Unseen(was, calls))
    ensures seen == was + Ids(calls)
  {
    hide AsEntries, Unseen;
    entries, seen := before, was;
    ghost var read: seq<Call> := [];
    assert Unseen(was, calls[..0]) == [] && AsEntries([]) == [] by { NothingSeen(was); }
    for i := 0 to |calls|
      invariant read == Unseen(was, calls[..i]) && entries == before + AsEntries(read)
      invariant seen == was + Ids(calls[..i])
    {
      var call := calls[i];
      assert calls[..i + 1] == calls[..i] + [call];
      UnseenAppend(was, calls[..i], call);
      IdsSplit(calls[..i], [call]);
      if call.id != "" {
        if call.id in seen { continue; }
        seen := seen + {call.id};
      }
      AsEntriesAppend(read, call);
      read := read + [call];
      entries := entries + [Got(ToolChunk(call))];
    }
    assert calls[..|calls|] == calls;
  }

  lemma NothingSeen(seen: set<string>)
    ensures Unseen(seen, []) == [] && AsEntries([]) == []
  {
  }

  method StreamDeltas(before: seq<Entry>, s: Step) returns (entries: seq<Entry>)
    ensures entries == before + Deltas(s)
  {
    entries := before;
    if s.source == FromModel && s.target == ToUser {
      if s.thinkingDelta != "" { entries := entries + [Got(ThoughtChunk(s.index, s.thinkingDelta))]; }
      if s.contentDelta != "" { entries := entries + [Got(TextChunk(s.index, s.contentDelta))]; }
    }
  }

  /** Walks the turn's steps, yielding their deltas and new tool calls in order. */
  method StreamChunks(events: seq<Event>) returns (entries: seq<Entry>)
    ensures entries == ChunksOf(events)
  {
    hide Deltas, AsEntries, Unseen, Ids;
    var seen: set<string> := {};
    entries := [];
    for i := 0 to |events|
      invariant ChunksOf(events) == entries + ChunksFrom(seen, events[i..])
    {
      assert events[i..][0] == events[i] && events[i..][1..] == events[i + 1..];
      match events[i] {
        case Failed(e) =>
          assert entries + ([Broken(e)] + ChunksFrom(seen, events[i + 1..])) ==
            entries + [Broken(e)] + ChunksFrom(seen, events[i + 1..]);
          entries := entries + [Broken(e)];
        case Arrived(s) =>
          ghost var was, before := seen, entries;
          entries := StreamDeltas(entries, s);
          entries, seen := StreamCalls(entries, seen, s.toolCalls);
          Regroup(before, Deltas(s), AsEntries(Unseen(was, s.toolCalls)), ChunksFrom(seen, events[i + 1..]));
      }
    }
  }

  lemma Regroup(a: seq<Entry>, b: seq<Entry>, c: seq<Entry>, d: seq<Entry>)
    ensures a + (b + c + d) == a + b + c + d
  {
  }

  // ----- reading the stream --------------------------------------------------------------

  datatype Item<T> = Item(value: T) | Failure(error: string)

  /** The chunks that convert, with every failure kept in its place. */
  function Filtered<T>(entries: seq<Entry>, convert: Chunk -> Option<T>): seq<Item<T>> {
    if entries == [] then []
    else
      var rest := Filtered(entries[1..], convert);
      match entries[0]
      case Broken(e) => [Failure(e)] + rest
      case Got(c) => if convert(c).Some? then [Item(convert(c).value)] + rest else rest
  }

  lemma {:induction false} FilteredSplit<T>(a: seq<Entry>, b: seq<Entry>, convert: Chunk -> Option<T>)
    ensures Filtered(a + b, convert) == Filtered(a, convert) + Filtered(b, convert)
  {
    if a == [] {
      assert a + b == b;
    } else {
      FilteredSplit(a[1..], b, convert);
      assert (a + b)[0] == a[0] && (a + b)[1..] == a[1..] + b;
      var x, y := Filtered(a[1..], convert), Filtered(b, convert);
      match a[0]
      case Broken(e) => Associate([Failure(e)], x, y);
      case Got(c) => if convert(c).Some? { Associate([Item(convert(c).value)], x, y); }
    }
  }

  lemma Associate<T>(a: seq<T>, b: seq<T>, c: seq<T>)
    ensures a + b + c == a + (b + c)
  {
  }

  function Values<T>(items: seq<Item<T>>): seq<T> {
    if items == [] then []
    else if items[0].Item? then [items[0].value] + Values(items[1..])
    else Values(items[1..])
  }

  function Failures<T>(items: seq<Item<T>>): seq<string> {
    if items == [] then []
    else if items[0].Failure? then [items[0].error] + Failures(items[1..])
    else Failures(items[1..])
  }

  lemma {:induction false} ValuesSplit<T>(a: seq<Item<T>>, b: seq<Item<T>>)
    ensures Values(a + b) == Values(a) + Values(b)
  {
    if a == [] {
      assert a + b == b;
    } else {
      ValuesSplit(a[1..], b);
      assert (a + b)[0] == a[0] && (a + b)[1..] == a[1..] + b;
      if a[0].Item? {
        assert [a[0].value] + Values(a[1..]) + Values(b) == [a[0].value] + (Values(a[1..]) + Values(b));
      }
    }
  }

  lemma {:induction false} FailuresSplit<T>(a: seq<Item<T>>, b: seq<Item<T>>)
    ensures Failures(a + b) == Failures(a) + Failures(b)
  {
    if a == [] {
      assert a + b == b;
    } else {
      FailuresSplit(a[1..], b);
      assert (a + b)[0] == a[0] && (a + b)[1..] == a[1..] + b;
      if a[0].Failure? {
        assert [a[0].error] + Failures(a[1..]) + Failures(b) == [a[0].error] + (Failures(a[1..]) + Failures(b));
      }
    }
  }

  function AsText(c: Chunk): Option<string> { if c.TextChunk? then Some(c.text) else None }

  function AsThought(c: Chunk): Option<string> { if c.ThoughtChunk? then Some(c.text) else None }

  function AsCall(c: Chunk): Option<Call> { if c.ToolChunk? then Some(c.call) else None }

  function AsChunk(c: Chunk): Option<Chunk> { Some(c) }

  function Concat(parts: seq<string>): string {
    if parts == [] then "" else parts[0] + Concat(parts[1..])
  }

  lemma {:induction false} ConcatSplit(a: seq<string>, b: seq<string>)
    ensures Concat(a + b) == Concat(a) + Concat(b)
  {
    if a == [] {
      assert a + b == b;
    } else {
      ConcatSplit(a[1..], b);
      assert (a + b)[0] == a[0] && (a + b)[1..] == a[1..] + b;
      Associate(a[0], Concat(a[1..]), Concat(b));
    }
  }

  // ----- what the stream means -----------------------------------------------------------

  function Errors(events: seq<Event>): seq<string> {
    if events == [] then []
    else if events[0].Failed? then [events[0].error] + Errors(events[1..])
    else Errors(events[1..])
  }

  /** The text of the model's answer to the user: its content deltas in order. */
  function AnswerText(events: seq<Event>): string {
    if events == [] then ""
    else
      var rest := AnswerText(events[1..]);
      if events[0].Arrived? && Answers(events[0].step) then events[0].step.contentDelta + rest else rest
  }

  function AnswerThoughts(events: seq<Event>): string {
    if events == [] then ""
    else
      var rest := AnswerThoughts(events[1..]);
      if events[0].Arrived? && Answers(events[0].step) then events[0].step.thinkingDelta + rest else rest
  }

  function AllCalls(events: seq<Event>): seq<Call> {
    if events == [] then []
    else if events[0].Arrived? then events[0].step.toolCalls + AllCalls(events[1..])
    else AllCalls(events[1..])
  }

  /** Whatever a cursor filters for, it passes on every failure of the turn, in order. */
  lemma {:induction false} FailuresPass<T>(seen: set<string>, events: seq<Event>, convert: Chunk -> Option<T>)
    ensures Failures(Filtered(ChunksFrom(seen, events), convert)) == Errors(events)
    decreases |events|
  {
    hide Filtered, Deltas, Unseen, Ids, AsEntries;
    if events == [] {
      assert Filtered([], convert) == [] by { FilteredNone(convert); }
    } else {
      match events[0]
      case Failed(e) =>
        var rest := ChunksFrom(seen, events[1..]);
        FailuresPass(seen, events[1..], convert);
        FilteredSplit([Broken(e)], rest, convert);
        FilteredOne(Broken(e), convert);
        FailuresSplit(Filtered([Broken(e)], convert), Filtered(rest, convert));
      case Arrived(s) =>
        var head := Deltas(s) + AsEntries(Unseen(seen, s.toolCalls));
        var rest := ChunksFrom(seen + Ids(s.toolCalls), events[1..]);
        FailuresPass(seen + Ids(s.toolCalls), events[1..], convert);
        FilteredSplit(head, rest, convert);
        AllGot(s, seen);
        NoFailures(head, convert);
        FailuresSplit(Filtered(head, convert), Filtered(rest, convert));
    }
  }

  lemma FilteredNone<T>(convert: Chunk -> Option<T>)
    ensures Filtered([], convert) == []
  {
  }

  lemma FilteredOne<T>(e: Entry, convert: Chunk -> Option<T>)
    ensures Filtered([e], convert) ==
      match e
      case Broken(m) => [Failure(m)]
      case Got(c) => if convert(c).Some? then [Item(convert(c).value)] else []
  {
  }

  lemma AllGot(s: Step, seen: set<string>)
    ensures forall k :: 0 <= k < |Deltas(s) + AsEntries(Unseen(seen, s.toolCalls))| ==>
      (Deltas(s) + AsEntries(Unseen(seen, s.toolCalls)))[k].Got?
  {
  }

  lemma {:induction false} NoFailures<T>(entries: seq<Entry>, convert: Chunk -> Option<T>)
    requires forall k :: 0 <= k < |entries| ==> entries[k].Got?
    ensures Failures(Filtered(entries, convert)) == []
  {
    if entries != [] { NoFailures(entries[1..], convert); }
  }

  /** What one kind of cursor reads from one step, followed by what it reads from the rest. */
  lemma StepValues<T>(seen: set<string>, events: seq<Event>, convert: Chunk -> Option<T>)
    requires events != [] && events[0].Arrived?
    ensures var s := events[0].step;
      Values(Filtered(ChunksFrom(seen, events), convert)) ==
      Values(Filtered(Deltas(s), convert)) + Values(Filtered(AsEntries(Unseen(seen, s.toolCalls)), convert)) +
      Values(Filtered(ChunksFrom(seen + Ids(s.toolCalls), events[1..]), convert))
  {
    hide Filtered, Deltas, Unseen, Ids, AsEntries, Values;
    var s := events[0].step;
    var a, b := Deltas(s), AsEntries(Unseen(seen, s.toolCalls));
    var rest := ChunksFrom(seen + Ids(s.toolCalls), events[1..]);
    FilteredSplit(a + b, rest, convert);
    FilteredSplit(a, b, convert);
    ValuesSplit(Filtered(a + b, convert), Filtered(rest, convert));
    ValuesSplit(Filtered(a, convert), Filtered(b, convert));
  }

  lemma ErrorValues<T>(seen: set<string>, events: seq<Event>, convert: Chunk -> Option<T>)
    requires events != [] && events[0].Failed?
    ensures Values(Filtered(ChunksFrom(seen, events), convert)) ==
      Values(Filtered(ChunksFrom(seen, events[1..]), convert))
  {
    var e, rest := events[0].error, ChunksFrom(seen, events[1..]);
    FilteredSplit([Broken(e)], rest, convert);
    FilteredOne(Broken(e), convert);
    ValuesSplit([Failure(e)], Filtered(rest, convert));
  }

  lemma DeltaValues(s: Step)
    ensures Concat(Values(Filtered(Deltas(s), AsText))) == if Answers(s) then s.contentDelta else ""
    ensures Concat(Values(Filtered(Deltas(s), AsThought))) == if Answers(s) then s.thinkingDelta else ""
    ensures Values(Filtered(Deltas(s), AsCall)) == []
  {
    var a := if s.thinkingDelta != "" then [Got(ThoughtChunk(s.index, s.thinkingDelta))] else [];
    var b := if s.contentDelta != "" then [Got(TextChunk(s.index, s.contentDelta))] else [];
    if Answers(s) {
      assert Deltas(s) == a + b;
      SplitValues(a, b, AsText);
      SplitValues(a, b, AsThought);
      SplitValues(a, b, AsCall);
    }
  }

  lemma SplitValues<T>(a: seq<Entry>, b: seq<Entry>, convert: Chunk -> Option<T>)
    ensures Values(Filtered(a + b, convert)) == Values(Filtered(a, convert)) + Values(Filtered(b, convert))
  {
    FilteredSplit(a, b, convert);
    ValuesSplit(Filtered(a, convert), Filtered(b, convert));
  }

  lemma {:induction false} CallValues(calls: seq<Call>)
    ensures Values(Filtered(AsEntries(calls), AsCall)) == calls
    ensures Values(Filtered(AsEntries(calls), AsText)) == []
    ensures Values(Filtered(AsEntries(calls), AsThought)) == []
  {
    if calls != [] {
      CallValues(calls[1..]);
      assert AsEntries(calls)[1..] == AsEntries(calls[1..]);
    }
  }

  /** Concatenating the text chunks gives exactly the answer's content deltas, in order. */
  lemma {:induction false} TextMeans(seen: set<string>, events: seq<Event>)
    ensures Concat(Values(Filtered(ChunksFrom(seen, events), AsText))) == AnswerText(events)
    ensures Concat(Values(Filtered(ChunksFrom(seen, events), AsThought))) == AnswerThoughts(events)
    decreases |events|
  {
    hide Filtered, Deltas, Unseen, Ids, AsEntries, Values, Concat, ChunksFrom;
    if events == [] {
      NothingRead(seen);
    } else if events[0].Failed? {
      TextMeans(seen, events[1..]);
      ErrorValues(seen, events, AsText);
      ErrorValues(seen, events, AsThought);
    } else {
      var s := events[0].step;
      var next := seen + Ids(s.toolCalls);
      TextMeans(next, events[1..]);
      DeltaValues(s);
      CallValues(Unseen(seen, s.toolCalls));
      StepValues(seen, events, AsText);
      StepValues(seen, events, AsThought);
      var t, u := Values(Filtered(Deltas(s), AsText)), Values(Filtered(Deltas(s), AsThought));
      assert t + [] == t && u + [] == u;
      ConcatSplit(t, Values(Filtered(ChunksFrom(next, events[1..]), AsText)));
      ConcatSplit(u, Values(Filtered(ChunksFrom(next, events[1..]), AsThought)));
    }
  }

  lemma NothingRead(seen: set<string>)
    ensures Concat(Values(Filtered(ChunksFrom(seen, []), AsText))) == ""
    ensures Concat(Values(Filtered(ChunksFrom(seen, []), AsThought))) == ""
    ensures Values(Filtered(ChunksFrom(seen, []), AsCall)) == []
  {
  }

  lemma {:induction false} UnseenSplit(seen: set<string>, a: seq<Call>, b: seq<Call>)
    ensures Unseen(seen, a + b) == Unseen(seen, a) + Unseen(seen + Ids(a), b)
    decreases |b|
  {
    if b == [] {
      assert a + b == a;
    } else {
      var n := |b| - 1;
      UnseenSplit(seen, a, b[..n]);
      assert a + b == (a + b[..n]) + [b[n]] && b == b[..n] + [b[n]];
      UnseenAppend(seen, a + b[..n], b[n]);
      UnseenAppend(seen + Ids(a), b[..n], b[n]);
      IdsSplit(a, b[..n]);
    }
  }

  /** The tool-call cursor reads every call of the turn that has not been seen before it. */
  lemma {:induction false} CallsMean(seen: set<string>, events: seq<Event>)
    ensures Values(Filtered(ChunksFrom(seen, events), AsCall)) == Unseen(seen, AllCalls(events))
    decreases |events|
  {
    hide Filtered, Deltas, Ids, AsEntries, Values, ChunksFrom;
    if events == [] {
      NothingRead(seen);
    } else if events[0].Failed? {
      CallsMean(seen, events[1..]);
      ErrorValues(seen, events, AsCall);
    } else {
      var s := events[0].step;
      CallsMean(seen + Ids(s.toolCalls), events[1..]);
      DeltaValues(s);
      CallValues(Unseen(seen, s.toolCalls));
      StepValues(seen, events, AsCall);
      UnseenSplit(seen, s.toolCalls, AllCalls(events[1..]));
    }
  }

  /** Call i is reported: it has no id, or no earlier call has its id. */
  predicate Reported(calls: seq<Call>, i: int)
    requires 0 <= i < |calls|
  {
    calls[i].id == "" || calls[i].id !in Ids(calls[..i])
  }

  function Firsts(calls: seq<Call>): seq<Call> {
    if calls == [] then []
    else
      var n := |calls| - 1;
      Firsts(calls[..n]) + if Reported(calls, n) then [calls[n]] else []
  }

  /** The calls read are the reported ones, in order of occurrence. */
  lemma {:induction false} UnseenAreFirsts(calls: seq<Call>)
    ensures Unseen({}, calls) == Firsts(calls)
  {
    if calls != [] {
      var n := |calls| - 1;
      UnseenAreFirsts(calls[..n]);
      assert calls == calls[..n] + [calls[n]];
      UnseenAppend({}, calls[..n], calls[n]);
    }
  }

  function Mentions(calls: seq<Call>, id: string): nat {
    if calls == [] then 0
    else Mentions(calls[..|calls| - 1], id) + if calls[|calls| - 1].id == id then 1 else 0
  }

  lemma MentionsAppend(calls: seq<Call>, c: Call, id: string)
    ensures Mentions(calls + [c], id) == Mentions(calls, id) + if c.id == id then 1 else 0
  {
    assert (calls + [c])[..|calls|] == calls;
  }

  /** Each id is read once if it occurs at all, and every call without an id is read. */
  lemma {:induction false} EachIdOnce(calls: seq<Call>, id: string)
    ensures id != "" ==> Mentions(Firsts(calls), id) == if id in Ids(calls) then 1 else 0
    ensures Mentions(Firsts(calls), "") == Mentions(calls, "")
  {
    hide Mentions;
    if calls == [] {
      assert Mentions([], id) == 0 && Mentions([], "") == 0 by { NoMentions(id); NoMentions(""); }
    } else {
      var n := |calls| - 1;
      var before, last := calls[..n], calls[n];
      EachIdOnce(before, id);
      assert calls == before + [last];
      IdsSplit(before, [last]);
      assert Firsts(before) + [] == Firsts(before);
      MentionsAppend(Firsts(before), last, id);
      MentionsAppend(Firsts(before), last, "");
      MentionsAppend(before, last, "");
    }
  }

  lemma NoMentions(id: string)
    ensures Mentions([], id) == 0
  {
  }

  // ----- the stream, event by event ------------------------------------------------------

  lemma {:induction false} AllCallsLast(events: seq<Event>, e: Event)
    ensures AllCalls(events + [e]) == AllCalls(events) + if e.Arrived? then e.step.toolCalls else []
  {
    if events == [] {
      assert [e][1..] == [] && AllCalls([]) == [];
      assert e.Arrived? ==> e.step.toolCalls + [] == [] + e.step.toolCalls;
    } else {
      AllCallsLast(events[1..], e);
      assert (events + [e])[1..] == events[1..] + [e];
      if events[0].Arrived? {
        Associate(events[0].step.toolCalls, AllCalls(events[1..]), if e.Arrived? then e.step.toolCalls else []);
      }
    }
  }

  lemma {:induction false} ChunksLast(seen: set<string>, events: seq<Event>, e: Event)
    ensures ChunksFrom(seen, events + [e]) == ChunksFrom(seen, events) + ChunksFrom(seen + Ids(AllCalls(events)), [e])
    decreases |events|
  {
    hide Deltas, Unseen, AsEntries, Ids;
    if events == [] {
      assert [] + [e] == [e] && seen + Ids(AllCalls([])) == seen by { NoIds(); }
    } else {
      var rest := events[1..];
      assert (events + [e])[1..] == rest + [e] && (events + [e])[0] == events[0];
      match events[0]
      case Failed(m) =>
        ChunksLast(seen, rest, e);
        Associate([Broken(m)], ChunksFrom(seen, rest), ChunksFrom(seen + Ids(AllCalls(rest)), [e]));
      case Arrived(s) =>
        var next := seen + Ids(s.toolCalls);
        ChunksLast(next, rest, e);
        IdsSplit(s.toolCalls, AllCalls(rest));
        assert next + Ids(AllCalls(rest)) == seen + Ids(AllCalls(events));
        Associate(Deltas(s) + AsEntries(Unseen(seen, s.toolCalls)), ChunksFrom(next, rest),
                  ChunksFrom(next + Ids(AllCalls(rest)), [e]));
    }
  }

  lemma NoIds()
    ensures AllCalls([]) == [] && Ids([]) == {}
  {
  }

  /** What each event adds to the stream: an error itself; a step of the model to the user its reasoning and
    * then its text, each if there is any, under the step's index; and any step then its calls that are
    * the first of their id, or have none. */
  lemma StreamGrows(events: seq<Event>, e: Event)
    ensures e.Failed? ==> ChunksOf(events + [e]) == ChunksOf(events) + [Broken(e.error)]
    ensures e.Arrived? ==>
      var s, toUser := e.step, e.step.source == FromModel && e.step.target == ToUser;
      var before, calls := Firsts(AllCalls(events)), Firsts(AllCalls(events) + s.toolCalls);
      && before <= calls
      && ChunksOf(events + [e]) == ChunksOf(events)
           + (if toUser && s.thinkingDelta != "" then [Got(ThoughtChunk(s.index, s.thinkingDelta))] else [])
           + (if toUser && s.contentDelta != "" then [Got(TextChunk(s.index, s.contentDelta))] else [])
           + AsEntries(calls[|before|..])
  {
    ChunksLast({}, events, e);
    var seen := {} + Ids(AllCalls(events));
    OneEvent(seen, e);
    match e
    case Failed(_) =>
    case Arrived(s) =>
      UnseenSplit({}, AllCalls(events), s.toolCalls);
      UnseenAreFirsts(AllCalls(events));
      UnseenAreFirsts(AllCalls(events) + s.toolCalls);
      assert {} + Ids(AllCalls(events)) == seen;
      var before, calls := Firsts(AllCalls(events)), Firsts(AllCalls(events) + s.toolCalls);
      var thoughts := if s.source == FromModel && s.target == ToUser && s.thinkingDelta != ""
                      then [Got(ThoughtChunk(s.index, s.thinkingDelta))] else [];
      var texts := if s.source == FromModel && s.target == ToUser && s.contentDelta != ""
                   then [Got(TextChunk(s.index, s.contentDelta))] else [];
      var tools := AsEntries(calls[|before|..]);
      assert Deltas(s) == thoughts + texts;
      assert calls[|before|..] == Unseen(seen, s.toolCalls);
      hide Deltas, AsEntries, Unseen, Firsts, ChunksFrom;
      Regroup(ChunksOf(events), thoughts, texts, tools);
  }

  lemma OneEvent(seen: set<string>, e: Event)
    ensures e.Failed? ==> ChunksFrom(seen, [e]) == [Broken(e.error)]
    ensures e.Arrived? ==>
      ChunksFrom(seen, [e]) == Deltas(e.step) + AsEntries(Unseen(seen, e.step.toolCalls))
  {
    hide Deltas, AsEntries, Unseen;
    assert [e][1..] == [] && ChunksFrom(seen, []) == [];
  }

  /** A cursor over all chunks drops and moves nothing: it has a chunk or an error wherever the stream has. */
  lemma {:induction false} EveryChunkPasses(entries: seq<Entry>)
    ensures |Filtered(entries, AsChunk)| == |entries|
    ensures forall k :: 0 <= k < |entries| ==>
      Filtered(entries, AsChunk)[k] == match entries[k] case Got(c) => Item(c) case Broken(e) => Failure(e)
  {
    if entries != [] { EveryChunkPasses(entries[1..]); }
  }
}
