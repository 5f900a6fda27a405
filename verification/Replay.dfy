/** A live turn as a replayable buffer. Every cursor walks the same entries; the one at the
  * live edge pulls the next entry from the stream for all of them. */
module Replay {
  import opened Chunks
  import opened Options

  // ----- the shared buffer ---------------------------------------------------------------

  /** `stream` is what the turn will yield, `buf` what has been pulled from it so far. */
  datatype Buffer = Buffer(stream: seq<Entry>, buf: seq<Entry>, done: bool)

  ghost predicate Sound(b: Buffer) { b.buf <= b.stream }

  /** The entry at a position, pulling for as long as the buffer falls short. */
  function At(b: Buffer, pos: nat): (r: (Buffer, Option<Entry>)) {
    if pos < |b.buf| then (b, Some(b.buf[pos]))
    else if b.done then (b, None)
    else if pos < |b.stream| then (b.(buf := b.stream[..pos + 1]), Some(b.stream[pos]))
    else (b.(buf := b.stream, done := true), None)
  }

  /** The turn's stream, of which a prefix has been pulled. */
  class Puller {
    ghost const entries: seq<Entry>
    var pending: seq<Entry>
    var stopped: bool
    ghost var pulled: nat

    ghost predicate Valid() reads this {
      pulled <= |entries| && pending == entries[pulled..]
    }

    constructor (entries: seq<Entry>)
      ensures Valid() && this.entries == entries && pulled == 0 && !stopped
    {
      this.entries := entries;
      pending, stopped, pulled := entries, false, 0;
    }

    method Next() returns (r: Option<Entry>)
      requires Valid() && !stopped
      modifies this`pending, this`pulled
      ensures Valid()
      ensures r == if old(pulled) < |entries| then Some(entries[old(pulled)]) else None
      ensures pulled == if r.Some? then old(pulled) + 1 else old(pulled)
    {
      if pending == [] { return None; }
      r := Some(pending[0]);
      pending, pulled := pending[1..], pulled + 1;
    }

    method Stop()
      modifies this`stopped
      ensures stopped
    {
      stopped := true;
    }
  }

  class ChatResponse {
    const source: Puller
    var buf: seq<Entry>
    var done: bool

    ghost function View(): Buffer
      reads this, source
    {
      Buffer(source.entries, buf, done)
    }

    /** Everything pulled is in the buffer, once, and the stream is released when done. */
    ghost predicate Valid()
      reads this, source
    {
      source.Valid() && buf == source.entries[..source.pulled] && source.stopped == done
    }

    constructor (source: Puller)
      requires source.Valid() && !source.stopped && source.pulled == 0
      ensures Valid() && this.source == source && View() == Buffer(source.entries, [], false)
    {
      this.source := source;
      buf, done := [], false;
    }

    method Entry(pos: nat) returns (r: Option<Entry>)
      requires Valid()
      modifies this, source
      ensures Valid() && (View(), r) == At(old(View()), pos)
    {
      while pos >= |buf|
        invariant Valid() && old(buf) <= buf && done == old(done)
        invariant done ==> buf == old(buf)
        invariant |buf| <= pos + 1 || buf == old(buf)
        decreases |source.entries| - |buf|
      {
        if done { return None; }
        var next := source.Next();
        match next {
          case None =>
            done := true;
            source.Stop();
            assert buf == source.entries;
            return None;
          case Some(e) => buf := buf + [e];
        }
      }
      r := Some(buf[pos]);
    }

    /** Abandons the rest of the turn. */
    method Close()
      requires Valid()
      modifies this`done, source`stopped
      ensures Valid() && View() == old(View()).(done := true)
    {
      if done { return; }
      done := true;
      source.Stop();
    }

    /** Drains a filtering cursor. */
    method Drain<T>(convert: Chunk -> Option<T>) returns (items: seq<Item<T>>)
      requires Valid()
      modifies this, source
      ensures Valid() && done && View() == Exhausted(old(View()))
      ensures items == Filtered(buf, convert)
    {
      items := [];
      var pos := 0;
      ghost var read: seq<Entry> := [];
      while true
        invariant Valid() && pos <= |buf| && read == buf[..pos] && items == Filtered(read, convert)
        invariant Exhausted(View()) == Exhausted(old(View()))
        decreases |source.entries| - pos
      {
        ghost var was := View();
        var entry := Entry(pos);
        if entry.None? {
          assert buf == was.buf && read == buf;
          return;
        }
        assert buf[..pos + 1] == read + [entry.value];
        FilteredSplit(read, [entry.value], convert);
        match entry.value {
          case Broken(e) => items := items + [Failure(e)];
          case Got(c) => if convert(c).Some? { items := items + [Item(convert(c).value)]; }
        }
        read := buf[..pos + 1];
        pos := pos + 1;
      }
    }
  }

  /** The buffer after a cursor has read to the end. */
  function Exhausted(b: Buffer): Buffer {
    if b.done then b else b.(buf := b.stream, done := true)
  }

  // ----- cursors -------------------------------------------------------------------------

  /** A cursor: how far it is, what it has yielded, and whether it has come to the end. */
  datatype Cursor = Cursor(pos: nat, read: seq<Entry>, over: bool)

  datatype System = System(buffer: Buffer, cursors: seq<Cursor>)

  /** A cursor is created, one of them is advanced, or the response is closed. */
  datatype Action = Open | Advance(cursor: nat) | Close

  function Step(s: System, a: Action): System {
    match a
    case Open => s.(cursors := s.cursors + [Cursor(0, [], false)])
    case Close => s.(buffer := s.buffer.(done := true))
    case Advance(i) =>
      if i >= |s.cursors| || s.cursors[i].over then s
      else
        var c, (b, entry) := s.cursors[i], At(s.buffer, s.cursors[i].pos);
        s.(buffer := b, cursors := s.cursors[i := match entry
          case None => c.(over := true)
          case Some(e) => Cursor(c.pos + 1, c.read + [e], false)])
  }

  function Run(s: System, actions: seq<Action>): System
    decreases |actions|
  {
    if actions == [] then s else Run(Step(s, actions[0]), actions[1..])
  }

  /** A cursor has yielded the buffer up to its position, and is over only at the end of a
    * buffer that will not grow. */
  ghost predicate Follows(c: Cursor, b: Buffer) {
    && c.pos <= |b.buf| && c.read == b.buf[..c.pos]
    && (c.over ==> b.done && c.pos == |b.buf|)
  }

  ghost predicate Inv(s: System) {
    Sound(s.buffer) && forall i :: 0 <= i < |s.cursors| ==> Follows(s.cursors[i], s.buffer)
  }

  /** Reading only ever extends the buffer, and never once the response is done. */
  lemma AtExtends(b: Buffer, pos: nat)
    requires Sound(b) && pos <= |b.buf|
    ensures var (next, entry) := At(b, pos);
      && Sound(next) && next.stream == b.stream && b.buf <= next.buf
      && (b.done ==> next == b)
      && (entry.None? ==> next.done && next.buf == b.buf && pos == |b.buf|)
      && (entry.Some? ==> pos < |next.buf| && entry.value == next.buf[pos])
  {
  }

  lemma StepKeeps(s: System, a: Action)
    requires Inv(s)
    ensures Inv(Step(s, a)) && Step(s, a).buffer.stream == s.buffer.stream && s.buffer.buf <= Step(s, a).buffer.buf
    ensures s.buffer.done ==> Step(s, a).buffer == s.buffer
  {
    match a
    case Open =>
    case Close =>
    case Advance(i) =>
      if i < |s.cursors| && !s.cursors[i].over {
        hide At;
        AtExtends(s.buffer, s.cursors[i].pos);
        var next := Step(s, a);
        forall j | 0 <= j < |s.cursors| ensures Follows(next.cursors[j], next.buffer) {
          assert Follows(s.cursors[j], s.buffer);
        }
      }
  }

  /** However cursors and Close interleave, the buffer is a prefix of the stream, every cursor
    * has yielded exactly the buffer up to its position, and a finished cursor all of it; once
    * the response is done its buffer never changes. */
  lemma {:induction false} RunKeeps(s: System, actions: seq<Action>)
    requires Inv(s)
    ensures Inv(Run(s, actions)) && Run(s, actions).buffer.stream == s.buffer.stream
    ensures s.buffer.buf <= Run(s, actions).buffer.buf
    ensures s.buffer.done ==> Run(s, actions).buffer == s.buffer
    decreases |actions|
  {
    if actions != [] {
      StepKeeps(s, actions[0]);
      RunKeeps(Step(s, actions[0]), actions[1..]);
    }
  }

  /** Any two cursors agree on what both have read. */
  lemma CursorsAgree(stream: seq<Entry>, actions: seq<Action>, i: nat, j: nat)
    requires var end := Run(System(Buffer(stream, [], false), []), actions);
      i < |end.cursors| && j < |end.cursors| && end.cursors[i].pos <= end.cursors[j].pos
    ensures var end := Run(System(Buffer(stream, [], false), []), actions);
      end.cursors[i].read <= end.cursors[j].read <= stream
  {
    RunKeeps(System(Buffer(stream, [], false), []), actions);
    var end := Run(System(Buffer(stream, [], false), []), actions);
    assert Follows(end.cursors[i], end.buffer) && Follows(end.cursors[j], end.buffer);
  }

  /** Opening adds a cursor at the start, and closing keeps what is buffered and lets nothing follow. */
  lemma OpenCloseLaw(s: System)
    ensures Step(s, Open) == System(s.buffer, s.cursors + [Cursor(0, [], false)])
    ensures Step(s, Close) == System(Buffer(s.buffer.stream, s.buffer.buf, true), s.cursors)
  {
  }

  /** Advancing a cursor either yields the next entry of the stream or, if there is none to come, ends it;
    * and it leaves every other cursor alone. */
  lemma AdvanceLaw(s: System, i: nat)
    requires Inv(s) && i < |s.cursors| && !s.cursors[i].over
    ensures var t, c := Step(s, Advance(i)), s.cursors[i];
      && |t.cursors| == |s.cursors| && (forall j :: 0 <= j < |s.cursors| && j != i ==> t.cursors[j] == s.cursors[j])
      && if c.pos < (if s.buffer.done then |s.buffer.buf| else |s.buffer.stream|)
         then t.cursors[i] == Cursor(c.pos + 1, c.read + [s.buffer.stream[c.pos]], false)
         else t.cursors[i] == Cursor(c.pos, c.read, true) && t.buffer.done
  {
    assert Follows(s.cursors[i], s.buffer);
  }

  predicate ReadAll(s: System) { s.buffer.done ==> s.buffer.buf == s.buffer.stream }

  /** Without a Close, a cursor that is over has yielded the whole turn. */
  lemma {:induction false} FinishedReadAll(s: System, actions: seq<Action>)
    requires Inv(s) && ReadAll(s) && Close !in actions
    ensures ReadAll(Run(s, actions))
    ensures forall i :: 0 <= i < |Run(s, actions).cursors| && Run(s, actions).cursors[i].over ==>
      Run(s, actions).cursors[i].read == s.buffer.stream
    decreases |actions|
  {
    if actions == [] {
      forall i | 0 <= i < |s.cursors| && s.cursors[i].over ensures s.cursors[i].read == s.buffer.stream {
        assert Follows(s.cursors[i], s.buffer);
      }
    } else {
      StepKeeps(s, actions[0]);
      assert actions[0] in actions;
      NotClosed(s, actions[0]);
      FinishedReadAll(Step(s, actions[0]), actions[1..]);
    }
  }

  lemma NotClosed(s: System, a: Action)
    requires Inv(s) && ReadAll(s) && a != Close
    ensures ReadAll(Step(s, a))
  {
    if a.Advance? && a.cursor < |s.cursors| { assert Follows(s.cursors[a.cursor], s.buffer); }
  }

  // ----- draining ------------------------------------------------------------------------

  function Last(errors: seq<string>): Option<string> {
    if errors == [] then None else Some(errors[|errors| - 1])
  }

  lemma LastMeans(errors: seq<string>)
    ensures Last(errors).None? ==> errors == []
    ensures Last(errors).Some? ==> exists before :: errors == before + [Last(errors).value]
  {
    if errors != [] { assert errors == errors[..|errors| - 1] + [errors[|errors| - 1]]; }
  }

  lemma OneMore<T>(items: seq<Item<T>>, item: Item<T>)
    ensures Values(items + [item]) == if item.Item? then Values(items) + [item.value] else Values(items)
    ensures Failures(items + [item]) == if item.Failure? then Failures(items) + [item.error] else Failures(items)
  {
    ValuesSplit(items, [item]);
    FailuresSplit(items, [item]);
  }

  lemma ConcatOne(parts: seq<string>, part: string)
    ensures Concat(parts + [part]) == Concat(parts) + part
  {
    ConcatSplit(parts, [part]);
    assert Concat([part]) == part;
  }

  method JoinText(items: seq<Item<string>>) returns (text: string, error: Option<string>)
    ensures text == Concat(Values(items)) && error == Last(Failures(items))
  {
    hide Concat, Values, Failures;
    text, error := "", None;
    assert items[..0] == [] && Values(items[..0]) == [] && Failures(items[..0]) == [] && Concat([]) == "" by {
      NothingTo<string>();
    }
    for i := 0 to |items|
      invariant text == Concat(Values(items[..i])) && error == Last(Failures(items[..i]))
    {
      assert items[..i + 1] == items[..i] + [items[i]];
      OneMore(items[..i], items[i]);
      match items[i] {
        case Failure(e) => error := Some(e);
        case Item(part) =>
          ConcatOne(Values(items[..i]), part);
          text := text + part;
      }
    }
    assert items[..|items|] == items;
  }

  lemma NothingTo<T>()
    ensures Values<T>([]) == [] && Failures<T>([]) == [] && Concat([]) == ""
  {
  }

  method Collect(items: seq<Item<Chunk>>) returns (chunks: seq<Chunk>, error: Option<string>)
    ensures chunks == Values(items) && error == Last(Failures(items))
  {
    chunks, error := [], None;
    for i := 0 to |items|
      invariant chunks == Values(items[..i]) && error == Last(Failures(items[..i]))
    {
      assert items[..i + 1] == items[..i] + [items[i]];
      OneMore(items[..i], items[i]);
      match items[i] {
        case Failure(e) => error := Some(e);
        case Item(chunk) => chunks := chunks + [chunk];
      }
    }
    assert items[..|items|] == items;
  }

  /** Wait reads all of a turn's text and the last failure it reported. */
  method Wait(r: ChatResponse) returns (text: string, error: Option<string>)
    requires r.Valid()
    modifies r, r.source
    ensures r.Valid() && r.done && r.View() == Exhausted(old(r.View()))
    ensures text == Concat(Values(Filtered(r.buf, AsText)))
    ensures error == Last(Failures(Filtered(r.buf, AsText)))
    ensures error.None? ==> Failures(Filtered(r.buf, AsText)) == []
    ensures error.Some? ==> exists before :: Failures(Filtered(r.buf, AsText)) == before + [error.value]
  {
    var items := r.Drain(AsText);
    text, error := JoinText(items);
    LastMeans(Failures(items));
  }

  /** Resolve reads all of a turn's chunks and the last failure it reported. */
  method Resolve(r: ChatResponse) returns (chunks: seq<Chunk>, error: Option<string>)
    requires r.Valid()
    modifies r, r.source
    ensures r.Valid() && r.done && r.View() == Exhausted(old(r.View()))
    ensures chunks == Values(Filtered(r.buf, AsChunk))
    ensures error == Last(Failures(Filtered(r.buf, AsChunk)))
    ensures error.None? ==> Failures(Filtered(r.buf, AsChunk)) == []
    ensures error.Some? ==> exists before :: Failures(Filtered(r.buf, AsChunk)) == before + [error.value]
  {
    var items := r.Drain(AsChunk);
    chunks, error := Collect(items);
    LastMeans(Failures(items));
  }

  /** Waiting for a turn that nobody closed returns the concatenation of the model's content
    * deltas to the user, in order, and the turn's last failure. */
  lemma WaitMeans(events: seq<Event>, b: Buffer)
    requires b.stream == ChunksOf(events) && !b.done
    ensures Concat(Values(Filtered(Exhausted(b).buf, AsText))) == AnswerText(events)
    ensures Last(Failures(Filtered(Exhausted(b).buf, AsText))) == Last(Errors(events))
  {
    TextMeans({}, events);
    FailuresPass({}, events, AsText);
  }

  /** Resolving a turn that nobody closed returns every chunk of it, in order, and the turn's last failure. */
  lemma ResolveMeans(events: seq<Event>, b: Buffer)
    requires b.stream == ChunksOf(events) && !b.done
    ensures Values(Filtered(Exhausted(b).buf, AsChunk)) == GotChunks(ChunksOf(events))
    ensures Last(Failures(Filtered(Exhausted(b).buf, AsChunk))) == Last(Errors(events))
  {
    EveryChunkGot(ChunksOf(events));
    FailuresPass({}, events, AsChunk);
  }

  /** The chunks of a stream without its errors. */
  function GotChunks(entries: seq<Entry>): seq<Chunk> {
    if entries == [] then []
    else
      match entries[0]
      case Got(c) => [c] + GotChunks(entries[1..])
      case Broken(_) => GotChunks(entries[1..])
  }

  lemma {:induction false} EveryChunkGot(entries: seq<Entry>)
    ensures Values(Filtered(entries, AsChunk)) == GotChunks(entries)
  {
    if entries != [] { EveryChunkGot(entries[1..]); }
  }

  /** A drained tool-call cursor has read each call with an id once, at its first occurrence,
    * and every call without one. */
  lemma ToolCallsMean(events: seq<Event>, b: Buffer, id: string)
    requires b.stream == ChunksOf(events) && !b.done
    ensures Values(Filtered(Exhausted(b).buf, AsCall)) == Firsts(AllCalls(events))
    ensures id != "" ==>
      Mentions(Values(Filtered(Exhausted(b).buf, AsCall)), id) == if id in Ids(AllCalls(events)) then 1 else 0
    ensures Mentions(Values(Filtered(Exhausted(b).buf, AsCall)), "") == Mentions(AllCalls(events), "")
  {
    CallsMean({}, events);
    UnseenAreFirsts(AllCalls(events));
    EachIdOnce(AllCalls(events), id);
  }
}
