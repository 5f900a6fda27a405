/** What each callback does to the spans, in terms of what it is told: which spans it starts, in what
  * they nest, which it ends, and what it leaves alone. */
module TracingLaws {
  import opened Options
  import opened Tracing

  // ----- a step update -------------------------------------------------------------------

  /** A trajectory other than the turn's first, or than the one just seen first, is a delegate's. */
  predicate OfDelegate(s: State, traj: string) { traj != "" && s.main != "" && traj != s.main }

  /** The update's step is behind what its trajectory has come to. */
  predicate Late(s: State, step: Step) {
    if step.traj in s.steps then step.index < s.steps[step.traj].index
    else step.traj in s.closed && step.index <= s.closed[step.traj]
  }

  predicate Continues(s: State, step: Step) { step.traj in s.steps && s.steps[step.traj].index == step.index }

  predicate OpensSubagent(s: State, step: Step) {
    OfDelegate(s, step.traj) && !Continues(s, step) && step.traj !in s.subagents
  }

  /** The span of the update's step: the one open, or the next to be started, after its subagent's. */
  function SpanOfStep(s: State, step: Step): SpanId {
    if Continues(s, step) then s.steps[step.traj].id
    else if OpensSubagent(s, step) then |s.spans| + 1
    else |s.spans|
  }

  function CallIds(calls: seq<ToolCall>): set<string> { set c | c in calls && c.id != "" :: c.id }

  /** The delegations that calls ask for: those that start a subagent, each call with an id once, and none
    * that has a span already. */
  function Requested(calls: seq<ToolCall>, open: set<string>): seq<Delegation> {
    if calls == [] then []
    else
      var front, call := calls[..|calls| - 1], calls[|calls| - 1];
      Requested(front, open) +
      if call.id != "" && call.id !in open + CallIds(front) && call.name == "start_subagent"
      then [Delegation(call.id, call.delegate)] else []
  }

  /** Fields that starting spans leaves alone, and those started before. */
  ghost predicate Grown(s: State, t: State) {
    && s.spans <= t.spans && s.places <= t.places && |t.places| == |t.spans|
    && t.session == s.session && t.turn == s.turn && t.closed == s.closed && t.ended == s.ended
  }

  ghost predicate ToolOpened(s: State, t: State, parent: SpanId, id: string) {
    id in t.tools && |s.spans| <= t.tools[id] < |t.spans| && At(t, t.tools[id], InTool(id)) &&
    t.spans[t.tools[id]] == Span(ToolSpan(id), Some(parent), s.turn)
  }

  /** New spans of tools in the step, one for each call with an id that had none. */
  ghost predicate NewTools(s: State, t: State, parent: SpanId) {
    && (forall id :: id in t.tools && id !in s.tools ==> ToolOpened(s, t, parent, id))
    && (forall x :: |s.spans| <= x < |t.spans| ==> t.spans[x].kind.ToolSpan? && t.spans[x].kind.call !in s.tools)
  }

  /** Every call with an id has an open span: the one it had, or a new one in the step. */
  ghost predicate ToolsOpen(s: State, t: State, parent: SpanId, calls: seq<ToolCall>) {
    && t.tools.Keys == s.tools.Keys + CallIds(calls)
    && (forall id :: id in s.tools ==> t.tools[id] == s.tools[id])
    && NewTools(s, t, parent)
  }

  lemma {:induction false} StartToolsOpen(s: State, parent: SpanId, calls: seq<ToolCall>)
    requires |s.places| == |s.spans|
    ensures var t := StartTools(s, parent, calls);
      && Grown(s, t) && ToolsOpen(s, t, parent, calls)
      && t == s.(tools := t.tools, pending := t.pending, spans := t.spans, places := t.places)
      && t.pending == s.pending + Requested(calls, s.tools.Keys)
    decreases |calls|
  {
    if calls == [] {
      assert CallIds([]) == {} && s.pending + [] == s.pending;
    } else {
      var front, call := calls[..|calls| - 1], calls[|calls| - 1];
      var u := StartTools(s, parent, front);
      StartToolsOpen(s, parent, front);
      assert StartTools(s, parent, calls) == StartTool(u, parent, call);
      assert calls == front + [call];
      hide StartTools, ToolsOpen, Grown, CallIds, Requested;
      OneToolOpen(s, u, parent, front, call);
      OpenKeys(s, u, parent, front);
      OneToolSame(u, parent, call);
      MoreRequested(s, u, front, call, parent);
    }
  }

  lemma OneToolSame(u: State, parent: SpanId, call: ToolCall)
    ensures var t := StartTool(u, parent, call);
      t == u.(tools := t.tools, pending := t.pending, spans := t.spans, places := t.places)
  {
  }

  lemma MoreRequested(s: State, u: State, front: seq<ToolCall>, call: ToolCall, parent: SpanId)
    requires u.tools.Keys == s.tools.Keys + CallIds(front) && u.pending == s.pending + Requested(front, s.tools.Keys)
    ensures StartTool(u, parent, call).pending == s.pending + Requested(front + [call], s.tools.Keys)
  {
    hide CallIds;
    assert (front + [call])[..|front|] == front;
    var more := Requested(front, s.tools.Keys);
    assert s.pending + more + [Delegation(call.id, call.delegate)] ==
      s.pending + (more + [Delegation(call.id, call.delegate)]);
    assert more + [] == more;
  }

  lemma OpenKeys(s: State, u: State, parent: SpanId, calls: seq<ToolCall>)
    requires ToolsOpen(s, u, parent, calls)
    ensures u.tools.Keys == s.tools.Keys + CallIds(calls)
  {
  }

  lemma OneToolOpen(s: State, u: State, parent: SpanId, front: seq<ToolCall>, call: ToolCall)
    requires Grown(s, u) && ToolsOpen(s, u, parent, front)
    ensures Grown(s, StartTool(u, parent, call)) && ToolsOpen(s, StartTool(u, parent, call), parent, front + [call])
  {
    var t := StartTool(u, parent, call);
    IdsLast(front, call);
    if call.id != "" && call.id !in u.tools {
      assert t.spans == u.spans + [Span(ToolSpan(call.id), Some(parent), s.turn)];
      assert t.places == u.places + [InTool(call.id)] && t.tools == u.tools[call.id := |u.spans|];
      assert Grown(s, t);
      hide StartTool, CallIds;
      OneMoreTool(s, u, t, parent, front, call);
    } else {
      hide CallIds;
      assert t == u;
    }
  }

  lemma IdsLast(front: seq<ToolCall>, call: ToolCall)
    ensures CallIds(front + [call]) == CallIds(front) + if call.id == "" then {} else {call.id}
  {
    assert call in [call] && forall c :: c in front + [call] <==> c in front || c == call;
  }

  lemma OneMoreTool(s: State, u: State, t: State, parent: SpanId, front: seq<ToolCall>, call: ToolCall)
    requires Grown(s, u) && ToolsOpen(s, u, parent, front) && call.id !in u.tools && Grown(s, t)
    requires t.spans == u.spans + [Span(ToolSpan(call.id), Some(parent), s.turn)]
    requires t.places == u.places + [InTool(call.id)] && t.tools == u.tools[call.id := |u.spans|]
    requires CallIds(front + [call]) == CallIds(front) + {call.id}
    ensures ToolsOpen(s, t, parent, front + [call])
  {
    hide CallIds;
    assert call.id !in s.tools;
    NewToolsGrow(s, u, t, parent, call.id);
    hide NewTools, Grown;
    KeysGrow(u.tools, call.id, |u.spans|, s.tools.Keys, CallIds(front));
    hide *;
    assert ToolsOpen(s, t, parent, front + [call]) by {
      hide CallIds, NewTools;
      assert forall id :: id in s.tools ==> t.tools[id] == u.tools[id];
    }
  }

  lemma KeysGrow(tools: map<string, SpanId>, id: string, x: SpanId, a: set<string>, b: set<string>)
    requires tools.Keys == a + b
    ensures tools[id := x].Keys == a + (b + {id})
  {
  }

  lemma NewToolsGrow(s: State, u: State, t: State, parent: SpanId, id: string)
    requires Grown(s, u) && NewTools(s, u, parent) && id !in u.tools && id !in s.tools && Grown(s, t)
    requires t.spans == u.spans + [Span(ToolSpan(id), Some(parent), s.turn)]
    requires t.places == u.places + [InTool(id)] && t.tools == u.tools[id := |u.spans|]
    ensures NewTools(s, t, parent)
  {
    forall c | c in t.tools && c !in s.tools ensures ToolOpened(s, t, parent, c) {
      assert c != id ==> ToolOpened(s, u, parent, c) && t.tools[c] == u.tools[c];
    }
    forall x | |s.spans| <= x < |t.spans| ensures t.spans[x].kind.ToolSpan? && t.spans[x].kind.call !in s.tools {
      assert x < |u.spans| ==> t.spans[x] == u.spans[x];
    }
  }

  // ----- where the step's span is --------------------------------------------------------

  function RootOf(s: State, step: Step): string { if s.main == "" then step.traj else s.main }

  /** The step its trajectory had open, if the update is of another. */
  function MovedOn(s: State, step: Step): seq<SpanId> {
    if step.traj in s.steps && s.steps[step.traj].index != step.index then [s.steps[step.traj].id] else []
  }

  function ClosedByMove(s: State, step: Step): map<string, int> {
    if MovedOn(s, step) == [] then s.closed else s.closed[step.traj := s.steps[step.traj].index]
  }

  /** What is open when an update has been taken in that is not late, before its calls are looked at. */
  ghost predicate StepOpened(s: State, step: Step, u: State) {
    var x := SpanOfStep(s, step);
    && u.session == s.session && u.turn == s.turn && u.tools == s.tools && u.main == RootOf(s, step)
    && u.steps == s.steps[step.traj := OpenStep(x, step.index)] && u.closed == ClosedByMove(s, step)
    && u.ended == s.ended + MovedOn(s, step)
    && s.spans <= u.spans && |u.places| == |u.spans| && |s.places| == |s.spans|
    && |u.spans| == |s.spans| + (if Continues(s, step) then 0 else if OpensSubagent(s, step) then 2 else 1)
    && x < |u.spans| && u.spans[x].kind == StepSpan(step.traj, step.index) && u.spans[x].turn == s.turn
    && u.places[x] == InStep(step.traj)
    && (forall y :: 0 <= y < |s.places| && y !in MovedOn(s, step) ==> u.places[y] == s.places[y])
  }

  /** The subagents when it has been taken in: a delegate seen for the first time has the name of the
    * delegation that has waited longest, which is then spoken for. */
  ghost predicate DelegateOpened(s: State, step: Step, u: State) {
    if !OpensSubagent(s, step) then
      && u.subagents == s.subagents && u.pending == s.pending && u.trajectoryOfCall == s.trajectoryOfCall
    else
      && u.subagents == s.subagents[step.traj := |s.spans|] && |s.spans| < |u.spans| && |u.places| == |u.spans|
      && u.places[|s.spans|] == InSubagent(step.traj)
      && if s.pending == [] then
           && u.spans[|s.spans|] == Span(SubagentSpan(step.traj, "subagent"), s.turn, s.turn)
           && u.pending == [] && u.trajectoryOfCall == s.trajectoryOfCall
         else
           && u.spans[|s.spans|] == Span(SubagentSpan(step.traj, s.pending[0].name), s.turn, s.turn)
           && u.pending == s.pending[1..]
           && u.trajectoryOfCall == s.trajectoryOfCall[s.pending[0].call := step.traj]
  }

  /** A delegate's step nests in its subagent's span, any other in the turn's. */
  ghost predicate StepNests(s: State, step: Step, u: State) {
    !Continues(s, step) && SpanOfStep(s, step) < |u.spans| ==>
      if OfDelegate(s, step.traj)
      then step.traj in u.subagents && u.spans[SpanOfStep(s, step)].parent == Some(u.subagents[step.traj])
      else u.spans[SpanOfStep(s, step)].parent == s.turn
  }

  lemma InvHas(s: State, traj: string)
    requires Inv(s)
    ensures |s.places| == |s.spans|
    ensures traj in s.steps ==>
      var open := s.steps[traj];
      && open.id < |s.spans| && s.places[open.id] == InStep(traj)
      && s.spans[open.id].kind == StepSpan(traj, open.index) && s.spans[open.id].turn == s.turn
      && (traj in s.closed ==> s.closed[traj] < open.index)
  {
    if traj in s.steps { assert At(s, s.steps[traj].id, InStep(traj)); }
  }

  lemma EndStepIs(s: State, traj: string)
    requires traj in s.steps && s.steps[traj].id < |s.places|
    ensures EndStep(s, traj) ==
      s.(places := s.places[s.steps[traj].id := Ended(|s.ended|)], ended := s.ended + [s.steps[traj].id],
         closed := s.closed[traj := s.steps[traj].index], steps := s.steps - {traj})
  {
  }

  /** Nothing but the trajectory's step changes when the update arrives. */
  ghost predicate HasArrived(s: State, step: Step, u: State) {
    && u == s.(main := RootOf(s, step), steps := u.steps, closed := ClosedByMove(s, step), places := u.places,
               ended := s.ended + MovedOn(s, step))
    && u.steps == (if Continues(s, step) then s.steps else s.steps - {step.traj})
    && |u.places| == |s.places| == |s.spans|
    && (forall y :: 0 <= y < |s.places| && y !in MovedOn(s, step) ==> u.places[y] == s.places[y])
    && (forall y :: y in MovedOn(s, step) ==> y < |u.places| && u.places[y].Ended?)
  }

  lemma ArrivedIs(s: State, step: Step)
    requires Inv(s)
    ensures HasArrived(s, step, Arrived(s, step)) && (Stale(Arrived(s, step), step) <==> Late(s, step))
  {
    InvHas(s, step.traj);
    hide Inv;
    if MovedOn(s, step) != [] { ArrivedMoved(s, step); } else { ArrivedOn(s, step); }
  }

  lemma ArrivedOn(s: State, step: Step)
    requires |s.places| == |s.spans| && MovedOn(s, step) == []
    ensures HasArrived(s, step, Arrived(s, step)) && (Stale(Arrived(s, step), step) <==> Late(s, step))
  {
    hide EndStep;
    var u := Arrived(s, step);
    assert u == s.(main := RootOf(s, step)) && s.ended + [] == s.ended;
    assert step.traj !in s.steps ==> s.steps - {step.traj} == s.steps;
  }

  lemma ArrivedMoved(s: State, step: Step)
    requires |s.places| == |s.spans| && MovedOn(s, step) != [] && s.steps[step.traj].id < |s.places|
    ensures HasArrived(s, step, Arrived(s, step)) && (Stale(Arrived(s, step), step) <==> Late(s, step))
  {
    var r, u, old' := s.(main := RootOf(s, step)), Arrived(s, step), s.steps[step.traj];
    EndStepIs(r, step.traj);
    hide EndStep;
    assert u == EndStep(r, step.traj);
    assert u.places == s.places[old'.id := Ended(|s.ended|)] && u.closed[step.traj] == old'.index;
  }

  lemma StartStepIs(s: State, step: Step, u: State)
    requires |s.places| == |s.spans| && s.turn.Some? && !Continues(s, step) && HasArrived(s, step, u)
    ensures var t := StartStep(u, step.traj, step.index);
      StepOpened(s, step, t) && DelegateOpened(s, step, t) && StepNests(s, step, t)
  {
    assert Delegated(u, step.traj) <==> OfDelegate(s, step.traj);
    assert (s.steps - {step.traj})[step.traj := OpenStep(SpanOfStep(s, step), step.index)] ==
      s.steps[step.traj := OpenStep(SpanOfStep(s, step), step.index)];
    if OpensSubagent(s, step) { StartsBoth(s, step, u); } else { StartsOne(s, step, u); }
  }

  lemma StartsOne(s: State, step: Step, u: State)
    requires |s.places| == |s.spans| && s.turn.Some? && !Continues(s, step) && HasArrived(s, step, u)
    requires !OpensSubagent(s, step) && (Delegated(u, step.traj) <==> OfDelegate(s, step.traj))
    ensures var t := StartStep(u, step.traj, step.index);
      StepOpened(s, step, t) && DelegateOpened(s, step, t) && StepNests(s, step, t)
  {
    var t := StartStep(u, step.traj, step.index);
    var parent := if Delegated(u, step.traj) then Some(u.subagents[step.traj]) else u.turn;
    assert t.spans == s.spans + [Span(StepSpan(step.traj, step.index), parent, s.turn)];
    assert t.places == u.places + [InStep(step.traj)];
    assert t.steps == s.steps[step.traj := OpenStep(|s.spans|, step.index)];
  }

  lemma StartsBoth(s: State, step: Step, u: State)
    requires |s.places| == |s.spans| && s.turn.Some? && !Continues(s, step) && HasArrived(s, step, u)
    requires OpensSubagent(s, step) && Delegated(u, step.traj)
    ensures var t := StartStep(u, step.traj, step.index);
      StepOpened(s, step, t) && DelegateOpened(s, step, t) && StepNests(s, step, t)
  {
    var t, m := StartStep(u, step.traj, step.index), Subagent(u, step.traj);
    assert m.subagents == s.subagents[step.traj := |s.spans|] && |m.spans| == |s.spans| + 1;
    assert m.places == u.places + [InSubagent(step.traj)];
    assert t.spans == m.spans + [Span(StepSpan(step.traj, step.index), Some(|s.spans|), s.turn)];
    assert t.places == m.places + [InStep(step.traj)];
    assert t.steps == s.steps[step.traj := OpenStep(|s.spans| + 1, step.index)];
  }

  // What is open is a step, before and after its calls have been looked at.
  lemma TakenIn(s: State, step: Step) returns (u: State)
    requires Inv(s) && s.turn.Some? && !Late(s, step)
    ensures StepOpened(s, step, u) && DelegateOpened(s, step, u) && StepNests(s, step, u)
    ensures var v := StartTools(u, SpanOfStep(s, step), step.calls);
      React(s, OnStep(step)) ==
      if step.status == Done || step.status == Failed || step.status == Canceled then EndStep(v, step.traj) else v
  {
    ArrivedIs(s, step);
    u := Arrived(s, step);
    hide StartTools, EndStep, Arrived;
    if Continues(s, step) {
      ContinuesOpen(s, step, u);
    } else {
      assert step.traj !in u.steps;
      InvHas(s, step.traj);
      StartStepIs(s, step, u);
      u := StartStep(u, step.traj, step.index);
      hide Inv;
    }
  }

  lemma ContinuesOpen(s: State, step: Step, u: State)
    requires Inv(s) && Continues(s, step) && HasArrived(s, step, u)
    ensures StepOpened(s, step, u) && DelegateOpened(s, step, u) && StepNests(s, step, u)
  {
    InvHas(s, step.traj);
    hide Inv;
    assert s.steps[step.traj := OpenStep(s.steps[step.traj].id, step.index)] == s.steps;
  }

  /** The step has ended, the last span to do so, and its index is remembered. */
  ghost predicate StepOver(s: State, step: Step, t: State) {
    && t.steps == s.steps - {step.traj}
    && SpanOfStep(s, step) < |t.places| && t.places[SpanOfStep(s, step)].Ended?
    && t.ended == s.ended + MovedOn(s, step) + [SpanOfStep(s, step)]
    && t.closed == ClosedByMove(s, step)[step.traj := step.index]
  }

  /** The step is the one its trajectory has open. */
  ghost predicate StepGoesOn(s: State, step: Step, t: State) {
    && t.steps == s.steps[step.traj := OpenStep(SpanOfStep(s, step), step.index)]
    && At(t, SpanOfStep(s, step), InStep(step.traj))
    && t.ended == s.ended + MovedOn(s, step) && t.closed == ClosedByMove(s, step)
  }

  /** An update that is not late has a span for its step, in the live turn. It ends on done, error and
    * canceled, and on nothing else; before it, a step that its trajectory has moved on from. */
  lemma StepLaw(s: State, step: Step)
    requires Inv(s) && s.turn.Some? && !Late(s, step)
    ensures var t, x := React(s, OnStep(step)), SpanOfStep(s, step);
      && x < |t.spans| && t.spans[x].kind == StepSpan(step.traj, step.index) && t.spans[x].turn == s.turn
      && t.session == s.session && t.turn == s.turn && t.main == RootOf(s, step)
      && match step.status
         case Done => StepOver(s, step, t)
         case Failed => StepOver(s, step, t)
         case Canceled => StepOver(s, step, t)
         case Active => StepGoesOn(s, step, t)
         case WaitingForUser => StepGoesOn(s, step, t)
         case Unknown => StepGoesOn(s, step, t)
  {
    var u := TakenIn(s, step);
    var x := SpanOfStep(s, step);
    StartToolsOpen(u, x, step.calls);
    var v := StartTools(u, x, step.calls);
    hide Inv, React, StartTools, ToolsOpen, DelegateOpened, StepNests, EndStep;
    StepStands(s, step, u, v);
    if step.status == Done || step.status == Failed || step.status == Canceled { StepEnds(s, step, v); }
  }

  lemma StepStands(s: State, step: Step, u: State, v: State)
    requires StepOpened(s, step, u) && Grown(u, v) && v.steps == u.steps && v.main == u.main
    ensures StepGoesOn(s, step, v) && v.session == s.session && v.turn == s.turn && v.main == RootOf(s, step)
    ensures var x := SpanOfStep(s, step);
      x < |v.spans| && v.spans[x].kind == StepSpan(step.traj, step.index) && v.spans[x].turn == s.turn
  {
    var x := SpanOfStep(s, step);
    assert v.places[x] == u.places[x] && v.spans[x] == u.spans[x];
  }

  lemma StepEnds(s: State, step: Step, v: State)
    requires StepGoesOn(s, step, v)
    ensures var t := EndStep(v, step.traj);
      StepOver(s, step, t) && t.spans == v.spans && t.session == v.session && t.turn == v.turn && t.main == v.main
  {
    EndStepIs(v, step.traj);
    hide EndStep;
    assert v.steps - {step.traj} == s.steps - {step.traj};
  }

  /** Ending the step changes its entry, its place and the log. */
  predicate SameButStep(v: State, t: State, x: SpanId) {
    && t.spans == v.spans && t.tools == v.tools && t.subagents == v.subagents && t.pending == v.pending
    && t.trajectoryOfCall == v.trajectoryOfCall && |t.places| == |v.places|
    && forall y :: 0 <= y < |v.places| && y != x ==> t.places[y] == v.places[y]
  }

  // What the other laws need of the way a step is taken in.
  lemma TakenInWhole(s: State, step: Step) returns (u: State, v: State)
    requires Inv(s) && s.turn.Some? && !Late(s, step)
    ensures StepOpened(s, step, u) && DelegateOpened(s, step, u) && StepNests(s, step, u)
    ensures Grown(u, v) && ToolsOpen(u, v, SpanOfStep(s, step), step.calls)
    ensures v.subagents == u.subagents && v.trajectoryOfCall == u.trajectoryOfCall
    ensures v.pending == u.pending + Requested(step.calls, u.tools.Keys)
    ensures SameButStep(v, React(s, OnStep(step)), SpanOfStep(s, step))
  {
    u := TakenIn(s, step);
    var x := SpanOfStep(s, step);
    StartToolsOpen(u, x, step.calls);
    v := StartTools(u, x, step.calls);
    hide Inv, React, StartTools, ToolsOpen, DelegateOpened, StepNests;
    EndStepIs(v, step.traj);
    hide EndStep;
  }

  /** Every call of the update that has an id has an open span: the one it had, or a new one in the
    * step. Nothing else is started but the step itself and, before it, its subagent. */
  lemma StepToolsLaw(s: State, step: Step)
    requires Inv(s) && s.turn.Some? && !Late(s, step)
    ensures var t := React(s, OnStep(step));
      && t.tools.Keys == s.tools.Keys + CallIds(step.calls)
      && (forall id :: id in s.tools ==> t.tools[id] == s.tools[id])
      && (forall id :: id in t.tools && id !in s.tools ==> ToolOpened(s, t, SpanOfStep(s, step), id))
      && (forall y :: |s.spans| <= y < |t.spans| ==>
            || y == SpanOfStep(s, step)
            || (y == |s.spans| && OpensSubagent(s, step))
            || (t.spans[y].kind.ToolSpan? && t.spans[y].kind.call !in s.tools))
  {
    var u, v := TakenInWhole(s, step);
    var t, x := React(s, OnStep(step)), SpanOfStep(s, step);
    hide Inv, React, CallIds, DelegateOpened, StepNests;
    forall id | id in t.tools && id !in s.tools ensures ToolOpened(s, t, x, id) {
      assert ToolOpened(u, v, x, id);
    }
    OnlyThese(s, step, u, v);
  }

  lemma OnlyThese(s: State, step: Step, u: State, v: State)
    requires StepOpened(s, step, u) && Grown(u, v) && NewTools(u, v, SpanOfStep(s, step))
    ensures forall y :: |s.spans| <= y < |v.spans| ==>
      || y == SpanOfStep(s, step)
      || (y == |s.spans| && OpensSubagent(s, step))
      || (v.spans[y].kind.ToolSpan? && v.spans[y].kind.call !in s.tools)
  {
    var x := SpanOfStep(s, step);
    assert x < |u.spans| && |u.spans| == |s.spans| + (if Continues(s, step) then 0 else x + 1 - |s.spans|);
  }

  /** A delegate's step nests in its subagent's span, which is started with it if there is none: in the
    * turn, and by the name of the delegation that has waited longest. Any other step nests in the
    * turn. The calls that start subagents wait in order. */
  lemma StepDelegatesLaw(s: State, step: Step)
    requires Inv(s) && s.turn.Some? && !Late(s, step)
    ensures var t, x := React(s, OnStep(step)), SpanOfStep(s, step);
      var waiting := if OpensSubagent(s, step) && s.pending != [] then s.pending[1..] else s.pending;
      && t.pending == waiting + Requested(step.calls, s.tools.Keys)
      && t.subagents == (if OpensSubagent(s, step) then s.subagents[step.traj := |s.spans|] else s.subagents)
      && t.trajectoryOfCall == (if OpensSubagent(s, step) && s.pending != []
                                then s.trajectoryOfCall[s.pending[0].call := step.traj] else s.trajectoryOfCall)
      && (OpensSubagent(s, step) ==>
            && |s.spans| < |t.spans| && At(t, |s.spans|, InSubagent(step.traj))
            && t.spans[|s.spans|].parent == s.turn && t.spans[|s.spans|].turn == s.turn
            && t.spans[|s.spans|].kind ==
                 SubagentSpan(step.traj, if s.pending == [] then "subagent" else s.pending[0].name))
      && (!Continues(s, step) ==>
            && x < |t.spans|
            && t.spans[x].parent ==
                 if OfDelegate(s, step.traj) && step.traj in t.subagents then Some(t.subagents[step.traj]) else s.turn)
      && (OfDelegate(s, step.traj) && !Continues(s, step) ==> step.traj in t.subagents)
  {
    var u, v := TakenInWhole(s, step);
    hide Inv, React, ToolsOpen, Requested;
  }

  /** Spans that are neither the step's, nor the one its trajectory moved on from, stay where they are. */
  lemma StepLeavesOthers(s: State, step: Step, y: SpanId)
    requires Inv(s) && s.turn.Some? && !Late(s, step)
    requires y < |s.spans| && y !in MovedOn(s, step) && y != SpanOfStep(s, step)
    ensures var t := React(s, OnStep(step)); s.spans <= t.spans && y < |t.places| && t.places[y] == s.places[y]
  {
    var u, v := TakenInWhole(s, step);
    hide Inv, React, ToolsOpen, DelegateOpened, StepNests;
  }

  /** A late update starts nothing: it may show which trajectory is the turn's, and that its own has moved
    * on from the step it had open. */
  lemma LateLaw(s: State, step: Step)
    requires Inv(s) && s.turn.Some? && Late(s, step)
    ensures var t := React(s, OnStep(step));
      && t == s.(main := RootOf(s, step), steps := s.steps - {step.traj}, closed := ClosedByMove(s, step),
                 places := t.places, ended := s.ended + MovedOn(s, step))
      && |t.places| == |s.places|
      && (forall y :: 0 <= y < |s.places| && y !in MovedOn(s, step) ==> t.places[y] == s.places[y])
  {
    ArrivedIs(s, step);
    hide Inv, Arrived;
  }

  /** Without a turn, a step leaves no trace. */
  lemma NoTurnLaw(s: State, step: Step)
    requires s.turn.None?
    ensures React(s, OnStep(step)) == s
  {
  }

  // ----- a call's result -----------------------------------------------------------------

  /** The spans that a call's result ends: the call's own, and if it started a delegate, the step that the
    * delegate has open and then the delegate. */
  function EndedByResult(s: State, call: string): seq<SpanId> {
    (if call in s.tools then [s.tools[call]] else []) +
    if call !in s.trajectoryOfCall then []
    else
      var traj := s.trajectoryOfCall[call];
      (if traj in s.steps then [s.steps[traj].id] else []) +
      (if traj in s.subagents then [s.subagents[traj]] else [])
  }

  ghost predicate Ends(s: State, t: State, ids: seq<SpanId>) {
    && t.ended == s.ended + ids && t.spans == s.spans && |t.places| == |s.places|
    && (forall y :: 0 <= y < |s.places| ==> if y in ids then t.places[y].Ended? else t.places[y] == s.places[y])
    && t.session == s.session && t.turn == s.turn && t.main == s.main && t.pending == s.pending
  }

  lemma EndsOne(s: State, t: State, x: SpanId)
    requires t == End(s, x).(steps := t.steps, closed := t.closed, subagents := t.subagents, tools := t.tools,
                             trajectoryOfCall := t.trajectoryOfCall)
    ensures Ends(s, t, [x])
  {
  }

  lemma EndsJoin(s: State, t: State, u: State, a: seq<SpanId>, b: seq<SpanId>)
    requires Ends(s, t, a) && Ends(t, u, b)
    ensures Ends(s, u, a + b)
  {
    assert forall y :: y in a + b <==> y in a || y in b;
  }

  /** A failed call ends its own span and nothing else. */
  lemma ToolErrorLaw(s: State, call: string)
    ensures var t := React(s, OnToolError(call));
      && Ends(s, t, if call in s.tools then [s.tools[call]] else [])
      && t == s.(tools := s.tools - {call}, places := t.places, ended := t.ended)
  {
    var t := EndTool(s, call);
    if call in s.tools {
      EndsOne(s, t, s.tools[call]);
    } else {
      assert s.tools - {call} == s.tools && s.ended + [] == s.ended;
    }
  }

  /** A result ends exactly these, and forgets the call. */
  lemma ToolResultLaw(s: State, call: string)
    ensures var t := React(s, OnToolResult(call));
      && Ends(s, t, EndedByResult(s, call))
      && t.tools == s.tools - {call} && t.trajectoryOfCall == s.trajectoryOfCall - {call}
      && if call !in s.trajectoryOfCall then t.steps == s.steps && t.closed == s.closed && t.subagents == s.subagents
         else
           var traj := s.trajectoryOfCall[call];
           && t.steps == s.steps - {traj} && t.subagents == s.subagents - {traj}
           && t.closed == if traj in s.steps then s.closed[traj := s.steps[traj].index] else s.closed
  {
    ToolErrorLaw(s, call);
    var t1 := EndTool(s, call);
    assert t1 == React(s, OnToolError(call));
    var own := if call in s.tools then [s.tools[call]] else [];
    hide EndTool;
    if call in s.trajectoryOfCall {
      DelegateEnds(s, t1, call, own);
      hide EndStep, EndSubagent;
    } else {
      assert own + [] == own && s.trajectoryOfCall - {call} == s.trajectoryOfCall;
    }
  }

  lemma DelegateEnds(s: State, t1: State, call: string, own: seq<SpanId>)
    requires call in s.trajectoryOfCall && Ends(s, t1, own)
    requires t1 == s.(tools := t1.tools, places := t1.places, ended := t1.ended)
    ensures var traj := s.trajectoryOfCall[call];
      var t := EndSubagent(EndStep(t1, traj), traj);
      && Ends(s, t, own + ((if traj in s.steps then [s.steps[traj].id] else []) +
                           (if traj in s.subagents then [s.subagents[traj]] else [])))
      && t.steps == s.steps - {traj} && t.subagents == s.subagents - {traj}
      && t.closed == (if traj in s.steps then s.closed[traj := s.steps[traj].index] else s.closed)
      && t.tools == t1.tools && t.trajectoryOfCall == t1.trajectoryOfCall
  {
    var traj := s.trajectoryOfCall[call];
    var t2 := EndStep(t1, traj);
    var t3 := EndSubagent(t2, traj);
    var a := if traj in s.steps then [s.steps[traj].id] else [];
    var b := if traj in s.subagents then [s.subagents[traj]] else [];
    assert traj !in s.steps ==> s.steps - {traj} == s.steps;
    assert traj !in s.subagents ==> s.subagents - {traj} == s.subagents;
    assert Ends(t1, t2, a) by { if traj in s.steps { EndsOne(t1, t2, s.steps[traj].id); } }
    assert Ends(t2, t3, b) by { if traj in s.subagents { EndsOne(t2, t3, s.subagents[traj]); } }
    hide Ends;
    EndsJoin(t1, t2, t3, a, b);
    EndsJoin(s, t1, t3, own, a + b);
  }

  // ----- turns and sessions --------------------------------------------------------------

  /** Everything the turn had open ends in the order given, and then the turn; nothing of it is kept. */
  ghost predicate TurnOver(s: State, open: seq<SpanId>, t: State) {
    && t.turn == None && t.spans == s.spans && t.main == ""
    && t.steps == map[] && t.closed == map[] && t.subagents == map[] && t.trajectoryOfCall == map[]
    && t.pending == [] && t.tools == map[]
    && t.ended == s.ended + if s.turn.Some? then open + [s.turn.value] else []
  }

  lemma EndTurnOver(s: State, open: seq<SpanId>)
    requires Inv(s)
    ensures TurnOver(s, open, EndTurn(s, open)) && EndTurn(s, open).session == s.session
    ensures |EndTurn(s, open).places| == |s.spans|
  {
    if s.turn.Some? {
      EndAllLog(s, open + [s.turn.value]);
    } else {
      assert s.ended + [] == s.ended;
    }
  }

  /** A turn nests in the session, if there is one, and what was left open of another turn ends first. */
  lemma TurnLaw(s: State, open: seq<SpanId>)
    requires Inv(s)
    ensures var t := React(s, OnPreTurn(open));
      && t.turn == Some(|s.spans|) && t.spans == s.spans + [Span(TurnSpan, s.session, None)]
      && At(t, |s.spans|, InTurn) && t.session == s.session
      && TurnOver(s, open, t.(turn := None, spans := s.spans))
    ensures TurnOver(s, open, React(s, OnPostTurn(open))) && React(s, OnPostTurn(open)).session == s.session
  {
    EndTurnOver(s, open);
    hide Inv, EndTurn;
  }

  /** A session starts a span of its own and ends nothing; one that was live is lost. */
  lemma SessionStartLaw(s: State)
    requires Inv(s)
    ensures var t := React(s, OnSessionStart);
      && t.spans == s.spans + [Span(SessionSpan, None, None)] && At(t, |s.spans|, InSession)
      && t == s.(session := Some(|s.spans|), spans := t.spans, places := t.places)
      && forall y :: 0 <= y < |s.places| ==> t.places[y] == if s.session == Some(y) then Lost else s.places[y]
  {
    assert |s.places| == |s.spans| by { hide Nesting, Routes, Ledger; }
    hide Inv;
  }

  /** At a session's end a turn left open ends, and then the session. */
  lemma SessionEndLaw(s: State, open: seq<SpanId>)
    requires Inv(s)
    ensures var t := React(s, OnSessionEnd(open));
      && t.session == None
      && (s.session.Some? ==> t.ended != [] && t.ended[|t.ended| - 1] == s.session.value)
      && TurnOver(s, open, t.(ended := if s.session.Some? then t.ended[..|t.ended| - 1] else t.ended))
  {
    EndTurnOver(s, open);
    hide Inv, EndTurn;
  }
}
