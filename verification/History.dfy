/** A conversation's transcript: the retained steps, where turns began in them and where the
  * model's context was compacted, all kept in step as the oldest entries are dropped. */
module History {
  import opened Options
  import opened Slices
  import opened Steps
  import opened Usage

  const DEFAULT_MAX_HISTORY := 10000

  // ----- positions -----------------------------------------------------------------------

  /** The positions that survive dropping the first `overflow` entries, moved down to match. */
  function Shifted(s: seq<int>, overflow: int): seq<int> {
    if s == [] then []
    else
      var n := |s| - 1;
      var before := Shifted(s[..n], overflow);
      if s[n] >= overflow then before + [s[n] - overflow] else before
  }

  /** Where a transcript was compacted. */
  function Positions(steps: seq<Step>): seq<int> {
    if steps == [] then []
    else
      var n := |steps| - 1;
      if steps[n].kind == Compaction then Positions(steps[..n]) + [n] else Positions(steps[..n])
  }

  function Dropped(log: seq<Step>, max: int): nat {
    if |log| > max >= 0 then |log| - max else 0
  }

  ghost predicate Ascending(s: seq<int>) { forall i, j :: 0 <= i < j < |s| ==> s[i] < s[j] }

  /** A position is reported exactly when it holds a compaction, in ascending order. */
  lemma {:induction false} PositionsExact(steps: seq<Step>)
    ensures Ascending(Positions(steps))
    ensures forall i :: i in Positions(steps) <==> 0 <= i < |steps| && steps[i].kind == Compaction
  {
    if steps != [] {
      PositionsExact(steps[..|steps| - 1]);
      var before, at := Positions(steps[..|steps| - 1]), Positions(steps);
      forall i, j | 0 <= i < j < |at| ensures at[i] < at[j] {
        assert at[i] in before;
      }
    }
  }

  lemma {:induction false} ShiftedExact(s: seq<int>, overflow: int)
    ensures forall x :: x in Shifted(s, overflow) <==> x >= 0 && x + overflow in s
  {
    if s != [] { ShiftedExact(s[..|s| - 1], overflow); }
  }

  /** Shifting keeps the positions in order. */
  lemma {:induction false} ShiftedOrdered(s: seq<int>, overflow: int)
    requires Nondecreasing(s)
    ensures Nondecreasing(Shifted(s, overflow))
  {
    if s != [] {
      var n := |s| - 1;
      ShiftedOrdered(s[..n], overflow);
      var before, at := Shifted(s[..n], overflow), Shifted(s, overflow);
      ShiftedExact(s[..n], overflow);
      forall i, j | 0 <= i < j < |at| ensures at[i] <= at[j] {
        assert at[i] in before;
      }
    }
  }

  /** Shifting twice is shifting once by the sum. */
  lemma {:induction false} ShiftedTwice(s: seq<int>, a: nat, b: nat)
    ensures Shifted(Shifted(s, a), b) == Shifted(s, a + b)
  {
    if s != [] {
      var n := |s| - 1;
      ShiftedTwice(s[..n], a, b);
      var before := Shifted(s[..n], a);
      if s[n] >= a { assert (before + [s[n] - a])[..|before|] == before; }
    }
  }

  /** The compactions of what remains are the compactions, shifted. */
  lemma {:induction false} PositionsShift(steps: seq<Step>, overflow: nat)
    requires overflow <= |steps|
    ensures Positions(steps[overflow..]) == Shifted(Positions(steps), overflow)
  {
    if overflow == |steps| {
      NoneRemain(steps);
    } else {
      var n := |steps| - 1;
      PositionsShift(steps[..n], overflow);
      assert steps[overflow..][..n - overflow] == steps[..n][overflow..];
      var before := Positions(steps[..n]);
      if steps[n].kind == Compaction { assert (before + [n])[..|before|] == before; }
    }
  }

  lemma NoneRemain(steps: seq<Step>)
    ensures Shifted(Positions(steps), |steps|) == []
  {
    PositionsExact(steps);
    var at := Positions(steps);
    forall i | 0 <= i < |at| ensures at[i] < |steps| { assert at[i] in at; }
    NoneSurvive(at, |steps|);
  }

  lemma {:induction false} NoneSurvive(s: seq<int>, overflow: int)
    requires forall i :: 0 <= i < |s| ==> s[i] < overflow
    ensures Shifted(s, overflow) == []
  {
    if s != [] { NoneSurvive(s[..|s| - 1], overflow); }
  }

  lemma ShiftedAppend(s: seq<int>, x: int, overflow: int)
    ensures Shifted(s + [x], overflow) ==
      if x >= overflow then Shifted(s, overflow) + [x - overflow] else Shifted(s, overflow)
  {
    assert (s + [x])[..|s|] == s;
  }

  lemma PositionsAppend(steps: seq<Step>, s: Step)
    ensures Positions(steps + [s]) ==
      if s.kind == Compaction then Positions(steps) + [|steps|] else Positions(steps)
  {
    assert (steps + [s])[..|steps|] == steps;
  }

  lemma {:induction false} ShiftedShorter(s: seq<int>, overflow: int)
    ensures |Shifted(s, overflow)| <= |s|
    ensures (exists i :: 0 <= i < |s| && s[i] < overflow) ==> |Shifted(s, overflow)| < |s|
    ensures (forall i :: 0 <= i < |s| ==> s[i] >= overflow) ==> |Shifted(s, overflow)| == |s|
  {
    if s != [] { ShiftedShorter(s[..|s| - 1], overflow); }
  }

  // ----- turns counted -------------------------------------------------------------------

  /** What became of a prompt whose turn start is recorded: the delivery comes after. */
  datatype Outcome = Undecided | Delivered | Failed

  function Prompts(sends: seq<Outcome>): nat {
    if sends == [] then 0 else Prompts(sends[..|sends| - 1]) + if sends[|sends| - 1].Delivered? then 1 else 0
  }

  function Undelivered(sends: seq<Outcome>): nat {
    if sends == [] then 0 else Undelivered(sends[..|sends| - 1]) + if sends[|sends| - 1].Delivered? then 0 else 1
  }

  /** How many turn starts are dropped with the first `dropped` steps. */
  function StartsBelow(starts: seq<int>, dropped: int): nat {
    if starts == [] then 0
    else StartsBelow(starts[..|starts| - 1], dropped) + if starts[|starts| - 1] < dropped then 1 else 0
  }

  lemma {:induction false} SendsAddUp(sends: seq<Outcome>)
    ensures Prompts(sends) + Undelivered(sends) == |sends|
  {
    if sends != [] { SendsAddUp(sends[..|sends| - 1]); }
  }

  lemma {:induction false} ShiftedLength(starts: seq<int>, dropped: int)
    ensures |Shifted(starts, dropped)| + StartsBelow(starts, dropped) == |starts|
  {
    if starts != [] { ShiftedLength(starts[..|starts| - 1], dropped); }
  }

  lemma NoneBelowIff(starts: seq<int>, dropped: int)
    requires Nondecreasing(starts)
    ensures StartsBelow(starts, dropped) == 0 <==> starts == [] || starts[0] >= dropped
  {
    ShiftedLength(starts, dropped);
    ShiftedShorter(starts, dropped);
  }

  /** The turn count is the number of prompts sent on the conversation exactly when as many starts have
    * been forgotten, by trimming or by clearing, as sends have left a start and no prompt; and the
    * number sent since the last clear exactly when this is so of the starts since then. */
  lemma TurnCountExactIff(sends: seq<Outcome>, cleared: nat, starts: seq<int>, dropped: int)
    requires |sends| == cleared + |starts|
    ensures var count, lost := |Shifted(starts, dropped)|, StartsBelow(starts, dropped);
      && (count == Prompts(sends) <==> cleared + lost == Undelivered(sends))
      && (count == Prompts(sends[cleared..]) <==> lost == Undelivered(sends[cleared..]))
  {
    ShiftedLength(starts, dropped);
    SendsAddUp(sends);
    SendsAddUp(sends[cleared..]);
  }

  /** When no delivery failed since the last clear, the count is exact exactly when the first start
    * since then has not been dropped. */
  lemma TurnCountAllDelivered(sends: seq<Outcome>, cleared: nat, starts: seq<int>, dropped: int)
    requires |sends| == cleared + |starts| && Nondecreasing(starts) && Undelivered(sends[cleared..]) == 0
    ensures |Shifted(starts, dropped)| == Prompts(sends[cleared..]) <==> starts == [] || starts[0] >= dropped
  {
    TurnCountExactIff(sends, cleared, starts, dropped);
    NoneBelowIff(starts, dropped);
  }

  /** Drops and shifts in place, over the array it reads from: no entry is overwritten before it
    * has been read. */
  method Shift(indices: Slice, overflow: int)
    requires indices.Valid()
    modifies indices`len, indices.data
    ensures indices.Valid() && indices.data == old(indices.data)
    ensures indices.Contents() == Shifted(old(indices.Contents()), overflow)
  {
    hide Shifted;
    ghost var was := indices.Contents();
    NoneSurvive([], overflow);
    assert was[..0] == [];
    var data, n, out := indices.data, indices.len, 0;
    for i := 0 to n
      invariant 0 <= out <= i && n == indices.len <= data.Length && data == indices.data
      invariant data[..out] == Shifted(was[..i], overflow)
      invariant forall k :: i <= k < n ==> data[k] == was[k]
    {
      var x := data[i];
      ShiftedAppend(was[..i], x, overflow);
      assert was[..i + 1] == was[..i] + [x];
      if x >= overflow {
        data[out] := x - overflow;
        out := out + 1;
      }
    }
    assert was[..n] == was;
    indices.len := out;
  }

  lemma NothingKept()
    ensures Positions([]) == [] && Shifted([], 0) == []
  {
  }

  ghost function NextMark(marks: seq<Mark>, mark: Mark): (r: seq<Mark>)
    ensures r == marks + [mark] && MarkedAll(r) == Marked(MarkedAll(marks), mark)
  {
    assert (marks + [mark])[..|marks|] == marks;
    marks + [mark]
  }

  // ----- the conversation ----------------------------------------------------------------

  class Conversation {
    var steps: seq<Step>
    const turnStarts: Slice
    const compactions: Slice
    const maxHistory: int
    var turnStartUsage: UsageMetadata
    var lastTurnUsage: Option<UsageMetadata>
    /** Every step recorded since the last clear, and where in it each turn began. */
    ghost var log: seq<Step>
    /** The sends, finished turns and clears of the whole conversation. */
    ghost var marks: seq<Mark>
    ghost var starts: seq<int>
    /** What became of every prompt, and how many of them had their starts cleared. */
    ghost var sends: seq<Outcome>
    ghost var cleared: nat

    ghost predicate Apart()
      reads this, turnStarts, compactions
    {
      && turnStarts != compactions && turnStarts.data != compactions.data
      && turnStarts.Valid() && compactions.Valid()
    }

    ghost predicate Sensible() reads this {
      && |sends| == cleared + |starts| && Nondecreasing(starts)
      && forall i :: 0 <= i < |starts| ==> 0 <= starts[i] <= |log|
    }

    /** The transcript is the log without its first `dropped` steps, and the index lists follow. */
    ghost predicate Follows(dropped: nat)
      requires Apart()
      reads this, turnStarts, compactions, turnStarts.data, compactions.data
    {
      && dropped <= |log| && steps == log[dropped..]
      && compactions.Contents() == Positions(steps)
      && turnStarts.Contents() == Shifted(starts, dropped)
    }

    /** The transcript is the last maxHistory steps of the log. */
    ghost predicate Valid()
      reads this, turnStarts, compactions, turnStarts.data, compactions.data
    {
      && Apart() && maxHistory > 0 && Sensible() && Follows(Dropped(log, maxHistory))
      && Meter(turnStartUsage, lastTurnUsage) == MarkedAll(marks)
    }

    constructor (history: seq<Step>, maxHistory: int)
      ensures Valid() && log == history && starts == [] && marks == []
      ensures this.maxHistory == if maxHistory <= 0 then 10000 else maxHistory
      ensures turnStartUsage == UNUSED && lastTurnUsage == None && sends == [] && cleared == 0
    {
      sends, cleared := [], 0;
      this.maxHistory := if maxHistory <= 0 then DEFAULT_MAX_HISTORY else maxHistory;
      turnStarts := new Slice();
      compactions := new Slice();
      steps, log, starts, marks, turnStartUsage, lastTurnUsage := [], [], [], [], UNUSED, None;
      new;
      Restore(history);
    }

    method Restore(history: seq<Step>)
      requires Valid() && log == [] && starts == []
      modifies this`steps, this`log, turnStarts, compactions, turnStarts.data, compactions.data
      ensures Valid() && log == history && starts == []
    {
      hide Shifted, Positions, Dropped;
      for i := 0 to |history|
        invariant Valid() && log == history[..i] && starts == []
        invariant turnStarts.data == old(turnStarts.data)
        invariant compactions.data == old(compactions.data) || fresh(compactions.data)
      {
        Record(history[i]);
      }
    }

    /** Appends a step, noting a compaction and enforcing the cap. */
    method Record(s: Step)
      requires Valid()
      modifies this`steps, this`log, turnStarts, compactions, turnStarts.data, compactions.data
      ensures Valid() && log == old(log) + [s]
      ensures turnStarts.data == old(turnStarts.data)
      ensures compactions.data == old(compactions.data) || fresh(compactions.data)
    {
      hide MarkedAll, Shifted, Positions;
      ghost var dropped := Dropped(log, maxHistory);
      PositionsAppend(steps, s);
      log := log + [s];
      steps := steps + [s];
      if s.kind == Compaction { compactions.Append(|steps| - 1); }
      TrimLocked(dropped);
    }

    /** Drops the oldest steps beyond the cap, shifting the recorded positions to match. */
    method TrimLocked(ghost dropped: nat)
      requires Apart() && maxHistory > 0 && Sensible()
      requires Follows(dropped) && dropped <= Dropped(log, maxHistory)
      requires Meter(turnStartUsage, lastTurnUsage) == MarkedAll(marks)
      modifies this`steps, turnStarts`len, compactions`len, turnStarts.data, compactions.data
      ensures Valid()
      ensures turnStarts.data == old(turnStarts.data) && compactions.data == old(compactions.data)
    {
      hide MarkedAll, Shifted, Positions;
      var overflow := |steps| - maxHistory;
      if overflow <= 0 { return; }
      PositionsShift(steps, overflow);
      ShiftedTwice(starts, dropped, overflow);
      steps := steps[overflow..];
      Shift(turnStarts, overflow);
      Shift(compactions, overflow);
    }

    /** The bookkeeping of a send: the next turn begins after the steps recorded so far. */
    method BeginTurn(usage: UsageMetadata)
      requires Valid()
      modifies this`turnStartUsage, this`lastTurnUsage, this`starts, this`marks, this`sends
      modifies turnStarts, turnStarts.data
      ensures Valid() && log == old(log) && steps == old(steps) && starts == old(starts) + [|log|]
      ensures turnStartUsage == usage && lastTurnUsage == None && marks == old(marks) + [Sent(usage)]
      ensures sends == old(sends) + [Undecided]
      ensures turnStarts.data == old(turnStarts.data) || fresh(turnStarts.data)
    {
      hide MarkedAll, Shifted, Positions;
      ShiftedAppend(starts, |log|, Dropped(log, maxHistory));
      turnStarts.Append(|steps|);
      turnStartUsage, lastTurnUsage := usage, None;
      starts, sends := starts + [|log|], sends + [Undecided];
      marks := NextMark(marks, Sent(usage));
    }

    /** The prompt whose start was recorded last is delivered, or fails to be: nothing else changes, so a
      * failed send leaves its start behind. */
    ghost method Settle(ok: bool)
      requires Valid() && sends != [] && sends[|sends| - 1].Undecided?
      modifies this`sends
      ensures Valid() && sends == old(sends)[..|sends| - 1] + [if ok then Delivered else Failed]
    {
      sends := sends[..|sends| - 1] + [if ok then Delivered else Failed];
    }

    /** Reports the usage between the readings before and after the turn. */
    method FinishTurn(after: UsageMetadata)
      requires Valid()
      modifies this`lastTurnUsage, this`marks
      ensures Valid() && lastTurnUsage == Some(Turn(turnStartUsage, after).Spent())
      ensures marks == old(marks) + [Finished(after)]
    {
      hide MarkedAll, Shifted, Positions;
      var delta := Sub(after, turnStartUsage);
      lastTurnUsage := Some(delta);
      marks := NextMark(marks, Finished(after));
    }

    method ClearHistory()
      requires Valid()
      modifies this, turnStarts, compactions
      ensures Valid() && log == [] && starts == [] && steps == []
      ensures turnStartUsage == UNUSED && lastTurnUsage == None && marks == old(marks) + [Cleared]
      ensures sends == old(sends) && cleared == |sends|
      ensures fresh(turnStarts.data) && fresh(compactions.data)
    {
      hide MarkedAll, Shifted, Positions;
      NothingKept();
      steps := [];
      turnStarts.Clear();
      compactions.Clear();
      lastTurnUsage, turnStartUsage := None, UNUSED;
      log, starts, cleared := [], [], |sends|;
      marks := NextMark(marks, Cleared);
    }

    /** Not the prompts sent, but the starts retained: trimming and clearing forget some, and a failed
      * send leaves one too many. */
    method TurnCount() returns (n: nat)
      requires Valid()
      ensures n + StartsBelow(starts, |log| - |steps|) == |starts|
      ensures n == Prompts(sends) <==> cleared + StartsBelow(starts, |log| - |steps|) == Undelivered(sends)
      ensures n == Prompts(sends[cleared..]) <==>
        StartsBelow(starts, |log| - |steps|) == Undelivered(sends[cleared..])
    {
      TurnCountExactIff(sends, cleared, starts, Dropped(log, maxHistory));
      ShiftedLength(starts, Dropped(log, maxHistory));
      n := turnStarts.len;
    }

    /** The content of the last retained complete response. */
    method LastResponse() returns (r: string)
      requires Valid()
      ensures || (r == "" && forall k :: 0 <= k < |steps| ==> !steps[k].complete)
              || (exists i :: 0 <= i < |steps| && steps[i].complete && r == steps[i].content &&
                              forall k :: i < k < |steps| ==> !steps[k].complete)
    {
      var i := |steps| - 1;
      while i >= 0
        invariant -1 <= i < |steps|
        invariant forall k :: i < k < |steps| ==> !steps[k].complete
      {
        if steps[i].complete { return steps[i].content; }
        i := i - 1;
      }
      return "";
    }

    /** The payload of the last retained finish step, even when that step has none. */
    method LastStructuredOutput() returns (r: Option<string>)
      requires Valid()
      ensures || (r == None && forall k :: 0 <= k < |steps| ==> steps[k].kind != Finish)
              || (exists i :: 0 <= i < |steps| && steps[i].kind == Finish && r == steps[i].structuredOutput &&
                              forall k :: i < k < |steps| ==> steps[k].kind != Finish)
    {
      var i := |steps| - 1;
      while i >= 0
        invariant -1 <= i < |steps|
        invariant forall k :: i < k < |steps| ==> steps[k].kind != Finish
      {
        if steps[i].kind == Finish { return steps[i].structuredOutput; }
        i := i - 1;
      }
      return None;
    }

    method CompactionIndices() returns (r: seq<int>)
      requires Valid()
      ensures Ascending(r)
      ensures forall i :: i in r <==> 0 <= i < |steps| && steps[i].kind == Compaction
    {
      PositionsExact(steps);
      r := compactions.data[..compactions.len];
    }
  }

  /** At any time the transcript is the end of what was recorded, as much of it as the cap allows. */
  lemma TranscriptCapped(c: Conversation)
    requires c.Valid()
    ensures |c.steps| == if |c.log| < c.maxHistory then |c.log| else c.maxHistory
    ensures c.steps == c.log[|c.log| - |c.steps|..]
  {
  }
}
