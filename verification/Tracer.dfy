/** The span tracer: five kinds of span, held in six maps and queues, opened and closed by
  * callbacks that may arrive in any order.
  *
  * A span is named by its place in `spans`, the list of everything ever started; `ended`
  * lists the spans ended, in that order.  `places` is a history variable: where each span
  * is.  The functions say what each callback does to the whole state, the lemmas prove what
  * every order of callbacks keeps, and class Tracer updates its fields as the functions say.
  */
module Tracing {
  import opened Options

  type SpanId = nat

  datatype Kind =
    | SessionSpan
    | TurnSpan
    | StepSpan(traj: string, index: int)
    | SubagentSpan(traj: string, name: string)
    | ToolSpan(call: string)

  // A started span, the span it nests in, and the turn it was started in.
  datatype Span = Span(kind: Kind, parent: Option<SpanId>, turn: Option<SpanId>)

  /** A span is held by one field of the tracer, or was the at-th to end, or was overwritten. */
  datatype Slot =
    | InSession
    | InTurn
    | InStep(traj: string)
    | InSubagent(traj: string)
    | InTool(call: string)
    | Ended(at: nat)
    | Lost

  datatype OpenStep = OpenStep(id: SpanId, index: int)

  datatype Delegation = Delegation(call: string, name: string)

  // `delegate` is the name subagentName reads out of a start_subagent call.
  datatype ToolCall = ToolCall(id: string, name: string, delegate: string)

  datatype Status = Active | Done | WaitingForUser | Failed | Canceled | Unknown

  datatype Step = Step(traj: string, index: int, status: Status, calls: seq<ToolCall>)

  const START_SUBAGENT := "start_subagent"

  datatype State = State(
    session: Option<SpanId>, turn: Option<SpanId>, main: string,
    steps: map<string, OpenStep>, closed: map<string, int>,
    subagents: map<string, SpanId>, trajectoryOfCall: map<string, string>,
    pending: seq<Delegation>, tools: map<string, SpanId>,
    spans: seq<Span>, ended: seq<SpanId>, places: seq<Slot>)

  const NEW_TRACER: State := State(None, None, "", map[], map[], map[], map[], [], map[], [], [], [])

  // ----- what each callback does ---------------------------------------------------------

  function Begin(s: State, span: Span, slot: Slot): State {
    s.(spans := s.spans + [span], places := s.places + [slot])
  }

  function End(s: State, id: SpanId): State {
    s.(places := if id < |s.places| then s.places[id := Ended(|s.ended|)] else s.places, ended := s.ended + [id])
  }

  function EndAll(s: State, ids: seq<SpanId>): State
    decreases |ids|
  {
    if ids == [] then s else EndAll(End(s, ids[0]), ids[1..])
  }

  function SessionStarted(s: State): State {
    var lost := if s.session.Some? && s.session.value < |s.places|
                then s.(places := s.places[s.session.value := Lost]) else s;
    Begin(lost, Span(SessionSpan, None, None), InSession).(session := Some(|s.spans|))
  }

  /** endTurnLocked, the spans still open ending in the given order. */
  function EndTurn(s: State, open: seq<SpanId>): State {
    if s.turn.None? then s
    else
      Cleared(EndAll(s, open + [s.turn.value]))
  }

  function Cleared(s: State): State {
    s.(steps := map[], subagents := map[], tools := map[], trajectoryOfCall := map[],
       closed := map[], pending := [], main := "", turn := None)
  }

  function SessionEnded(s: State, open: seq<SpanId>): State {
    var t := EndTurn(s, open);
    if t.session.None? then t else End(t, t.session.value).(session := None)
  }

  function TurnStarted(s: State, open: seq<SpanId>): State {
    var t := EndTurn(s, open);
    Begin(t, Span(TurnSpan, t.session, None), InTurn).(turn := Some(|t.spans|))
  }

  function EndStep(s: State, traj: string): State {
    if traj !in s.steps then s
    else End(s, s.steps[traj].id).(closed := s.closed[traj := s.steps[traj].index], steps := s.steps - {traj})
  }

  function Subagent(s: State, traj: string): State {
    if traj in s.subagents then s
    else
      var name := if s.pending == [] then "subagent" else s.pending[0].name;
      Begin(s, Span(SubagentSpan(traj, name), s.turn, s.turn), InSubagent(traj)).(
        subagents := s.subagents[traj := |s.spans|],
        pending := if s.pending == [] then [] else s.pending[1..],
        trajectoryOfCall := if s.pending == [] then s.trajectoryOfCall
                            else s.trajectoryOfCall[s.pending[0].call := traj])
  }

  predicate Delegated(s: State, traj: string) { traj != s.main && traj != "" }

  function StartStep(s: State, traj: string, index: int): State {
    var t := if Delegated(s, traj) then Subagent(s, traj) else s;
    var parent := if Delegated(s, traj) then Some(t.subagents[traj]) else s.turn;
    Begin(t, Span(StepSpan(traj, index), parent, s.turn), InStep(traj)).(
      steps := t.steps[traj := OpenStep(|t.spans|, index)])
  }

  function StartTool(s: State, parent: SpanId, call: ToolCall): State {
    if call.id == "" || call.id in s.tools then s
    else
      Begin(s, Span(ToolSpan(call.id), Some(parent), s.turn), InTool(call.id)).(
        tools := s.tools[call.id := |s.spans|],
        pending := if call.name == START_SUBAGENT then s.pending + [Delegation(call.id, call.delegate)]
                   else s.pending)
  }

  function StartTools(s: State, parent: SpanId, calls: seq<ToolCall>): State
    decreases |calls|
  {
    if calls == [] then s
    else StartTool(StartTools(s, parent, calls[..|calls| - 1]), parent, calls[|calls| - 1])
  }

  predicate Settled(status: Status) { status.Done? || status.Failed? || status.Canceled? }

  function Rooting(s: State, traj: string): State {
    if s.main == "" then s.(main := traj) else s
  }

  /** The state in which an update of the step is looked at: the root trajectory is known
    * and a step that moved on is closed. */
  function Arrived(s: State, step: Step): State {
    var t := Rooting(s, step.traj);
    if step.traj in t.steps && t.steps[step.traj].index != step.index then EndStep(t, step.traj) else t
  }

  predicate Stale(s: State, step: Step) {
    step.traj !in s.steps && step.traj in s.closed && step.index <= s.closed[step.traj]
  }

  function Observed(s: State, step: Step): State {
    if s.turn.None? then s
    else
      var t := Arrived(s, step);
      if Stale(t, step) then t
      else
        var u := if step.traj in t.steps then t else StartStep(t, step.traj, step.index);
        var v := StartTools(u, u.steps[step.traj].id, step.calls);
        if Settled(step.status) then EndStep(v, step.traj) else v
  }

  function EndTool(s: State, call: string): State {
    if call !in s.tools then s
    else End(s, s.tools[call]).(tools := s.tools - {call})
  }

  function EndSubagent(s: State, traj: string): State {
    if traj !in s.subagents then s
    else End(s, s.subagents[traj]).(subagents := s.subagents - {traj})
  }

  function ToolReturned(s: State, call: string): State {
    var t := EndTool(s, call);
    if call !in t.trajectoryOfCall then t
    else
      var traj := t.trajectoryOfCall[call];
      EndSubagent(EndStep(t, traj), traj).(trajectoryOfCall := t.trajectoryOfCall - {call})
  }

  // ----- the books: every span in one place ----------------------------------------------

  ghost predicate Fits(kind: Kind, slot: Slot) {
    match kind
    case SessionSpan => slot == InSession || slot.Ended? || slot == Lost
    case TurnSpan => slot == InTurn || slot.Ended?
    case StepSpan(traj, _) => slot == InStep(traj) || slot.Ended?
    case SubagentSpan(traj, _) => slot == InSubagent(traj) || slot.Ended?
    case ToolSpan(call) => slot == InTool(call) || slot.Ended?
  }

  ghost predicate OfTurn(slot: Slot) { slot.InStep? || slot.InSubagent? || slot.InTool? }

  ghost predicate At(s: State, x: SpanId, slot: Slot) { x < |s.places| && s.places[x] == slot }

  /** The field that holds a span placed there. */
  ghost predicate Held(s: State, x: SpanId, slot: Slot) {
    match slot
    case InSession => s.session == Some(x)
    case InTurn => s.turn == Some(x)
    case InStep(traj) => traj in s.steps && s.steps[traj].id == x
    case InSubagent(traj) => traj in s.subagents && s.subagents[traj] == x
    case InTool(call) => call in s.tools && s.tools[call] == x
    case Ended(at) => at < |s.ended| && s.ended[at] == x
    case Lost => true
  }

  ghost predicate Placed(s: State) {
    && |s.places| == |s.spans|
    && (forall x :: 0 <= x < |s.spans| ==> Fits(s.spans[x].kind, s.places[x]))
    && (forall x :: 0 <= x < |s.places| ==> Held(s, x, s.places[x]))
  }

  ghost predicate Holding(s: State) {
    && (s.session.Some? ==> At(s, s.session.value, InSession))
    && (s.turn.Some? ==> At(s, s.turn.value, InTurn))
    && (forall t :: t in s.steps ==> At(s, s.steps[t].id, InStep(t)))
    && (forall t :: t in s.subagents ==> At(s, s.subagents[t], InSubagent(t)))
    && (forall c :: c in s.tools ==> At(s, s.tools[c], InTool(c)))
    && (forall k :: 0 <= k < |s.ended| ==> At(s, s.ended[k], Ended(k)))
  }

  /** Every span is in exactly one place, and what the fields and the log hold is placed there. */
  ghost predicate Books(s: State) { Placed(s) && Holding(s) }

  // ----- the tree, and the order in which its spans end ----------------------------------

  predicate MayNest(kind: Kind, parent: Kind) {
    match kind
    case SessionSpan => false
    case TurnSpan => parent.SessionSpan?
    case StepSpan(traj, _) => parent.TurnSpan? || (parent.SubagentSpan? && parent.traj == traj)
    case SubagentSpan(_, _) => parent.TurnSpan?
    case ToolSpan(_) => parent.StepSpan?
  }

  predicate TopLevel(kind: Kind) { kind.SessionSpan? || kind.TurnSpan? }

  ghost predicate Rooted(spans: seq<Span>, x: nat)
    requires x < |spans|
  {
    var s := spans[x];
    && (s.turn.None? <==> TopLevel(s.kind))
    && (s.turn.Some? ==> s.turn.value < x && spans[s.turn.value].kind.TurnSpan?)
    && (s.parent.None? ==> TopLevel(s.kind))
    && (s.parent.Some? ==> s.parent.value < x && MayNest(s.kind, spans[s.parent.value].kind))
    && (s.parent.Some? && !TopLevel(s.kind) ==>
          s.turn == if spans[s.parent.value].kind.TurnSpan? then s.parent else spans[s.parent.value].turn)
  }

  /** Session, turns in it, steps and subagents in a turn, steps in a subagent, tools in a step. */
  ghost predicate Tree(spans: seq<Span>) { forall x :: 0 <= x < |spans| ==> Rooted(spans, x) }

  ghost predicate EndsBefore(places: seq<Slot>, x: nat, p: nat)
    requires x < |places| && p < |places|
  {
    places[p].Ended? ==> places[x].Ended? && places[x].at < places[p].at
  }

  // A tool may outlive the step that announced it; every other span nests in its parent.
  ghost predicate Nests(s: Span) { s.parent.Some? && !s.kind.ToolSpan? }

  /** A span ends before the one it nests in, and whatever a turn started ends before it. */
  ghost predicate NestedEnds(spans: seq<Span>, places: seq<Slot>)
    requires Tree(spans) && |places| == |spans|
  {
    && (forall x :: 0 <= x < |spans| && Nests(spans[x]) ==>
          Rooted(spans, x) && EndsBefore(places, x, spans[x].parent.value))
    && (forall x :: 0 <= x < |spans| && spans[x].turn.Some? ==>
          Rooted(spans, x) && EndsBefore(places, x, spans[x].turn.value))
  }

  ghost predicate Ledger(s: State) {
    && |s.places| == |s.spans| && Tree(s.spans) && NestedEnds(s.spans, s.places)
    && (forall x :: 0 <= x < |s.places| && s.places[x].Ended? ==> s.places[x].at < |s.ended|)
    && (forall x :: 0 <= x < |s.spans| && OfTurn(s.places[x]) ==> s.turn.Some? && s.spans[x].turn == s.turn)
  }

  // ----- how what is open nests ----------------------------------------------------------

  ghost predicate Nesting(s: State) {
    && (s.turn.None? ==>
          && s.steps == map[] && s.closed == map[] && s.subagents == map[] && s.tools == map[]
          && s.trajectoryOfCall == map[] && s.pending == [] && s.main == "")
    && (forall t :: t in s.steps && Delegated(s, t) ==> t in s.subagents)
    && (forall t :: t in s.subagents ==> Delegated(s, t) && s.main != "")
    && (forall t :: t in s.steps && t in s.closed ==> s.closed[t] < s.steps[t].index)
    && (forall t :: t in s.steps ==>
          s.steps[t].id < |s.spans| &&
          s.spans[s.steps[t].id] ==
            Span(StepSpan(t, s.steps[t].index), if t in s.subagents then Some(s.subagents[t]) else s.turn, s.turn))
  }

  /** Each delegated call closes at most one subagent, and a live one. */
  ghost predicate Routes(s: State) {
    && (forall c :: c in s.trajectoryOfCall ==> s.trajectoryOfCall[c] in s.subagents)
    && (forall c, d | c in s.trajectoryOfCall && d in s.trajectoryOfCall ::
          (s.trajectoryOfCall[c] == s.trajectoryOfCall[d] ==> c == d))
  }

  ghost predicate Inv(s: State) { Books(s) && Ledger(s) && Nesting(s) && Routes(s) }

  lemma FreshInv()
    ensures Inv(NEW_TRACER)
  {}

  // ----- ending spans --------------------------------------------------------------------

  ghost predicate ChildrenEnded(s: State, p: SpanId)
    requires |s.places| == |s.spans|
  {
    && (forall x :: 0 <= x < |s.spans| && s.spans[x].turn == Some(p) ==> s.places[x].Ended?)
    && (forall x :: 0 <= x < |s.spans| && Nests(s.spans[x]) && s.spans[x].parent == Some(p) ==> s.places[x].Ended?)
  }

  lemma EndKeepsLedger(s: State, p: SpanId)
    requires Ledger(s) && p < |s.spans| && !s.places[p].Ended? && ChildrenEnded(s, p)
    ensures Ledger(End(s, p))
  {
    var t := End(s, p);
    forall x | 0 <= x < |t.spans| && t.spans[x].turn.Some? ensures EndsBefore(t.places, x, t.spans[x].turn.value) {
      assert EndsBefore(s.places, x, s.spans[x].turn.value);
    }
    forall x | 0 <= x < |t.spans| && Nests(t.spans[x]) ensures EndsBefore(t.places, x, t.spans[x].parent.value) {
      assert EndsBefore(s.places, x, s.spans[x].parent.value);
    }
  }

  lemma BeginKeepsLedger(s: State, span: Span, slot: Slot)
    requires Ledger(s) && !slot.Ended? && (OfTurn(slot) ==> s.turn.Some? && span.turn == s.turn)
    requires Rooted(s.spans + [span], |s.spans|)
    requires span.turn.Some? ==> !s.places[span.turn.value].Ended?
    requires Nests(span) ==> !s.places[span.parent.value].Ended?
    ensures Ledger(Begin(s, span, slot))
  {
    var t := Begin(s, span, slot);
    forall x | 0 <= x < |t.spans| ensures Rooted(t.spans, x) {
      assert x < |s.spans| ==> Rooted(s.spans, x);
    }
    forall x | 0 <= x < |t.spans| && t.spans[x].turn.Some? ensures EndsBefore(t.places, x, t.spans[x].turn.value) {
      assert x < |s.spans| ==> EndsBefore(s.places, x, s.spans[x].turn.value);
    }
    forall x | 0 <= x < |t.spans| && Nests(t.spans[x]) ensures EndsBefore(t.places, x, t.spans[x].parent.value) {
      assert x < |s.spans| ==> EndsBefore(s.places, x, s.spans[x].parent.value);
    }
  }

  lemma LeafChildless(s: State, p: SpanId)
    requires Ledger(s) && p < |s.spans| && (s.spans[p].kind.StepSpan? || s.spans[p].kind.ToolSpan?)
    ensures ChildrenEnded(s, p)
  {
    forall x | 0 <= x < |s.spans|
      ensures s.spans[x].turn != Some(p) && (Nests(s.spans[x]) ==> s.spans[x].parent != Some(p))
    {
      assert Rooted(s.spans, x);
    }
  }

  // ----- what a new span leaves alone ----------------------------------------------------

  /** A span started and held in one place leaves the rest of what is held alone. */
  lemma HoldingGrows(s: State, t: State, slot: Slot)
    requires Holding(s) && t.places == s.places + [slot] && t.ended == s.ended
    requires t.session == s.session || (slot == InSession && t.session == Some(|s.places|))
    requires t.turn == s.turn || (slot == InTurn && t.turn == Some(|s.places|))
    requires forall u :: u in t.steps ==>
      (u in s.steps && t.steps[u].id == s.steps[u].id) || (slot == InStep(u) && t.steps[u].id == |s.places|)
    requires forall u :: u in t.subagents ==>
      (u in s.subagents && t.subagents[u] == s.subagents[u]) || (slot == InSubagent(u) && t.subagents[u] == |s.places|)
    requires forall c :: c in t.tools ==>
      (c in s.tools && t.tools[c] == s.tools[c]) || (slot == InTool(c) && t.tools[c] == |s.places|)
    ensures Holding(t)
  {
    forall x, a | At(s, x, a) ensures At(t, x, a) {}
    assert At(t, |s.places|, slot);
    forall u | u in t.steps ensures At(t, t.steps[u].id, InStep(u)) {
      assert u in s.steps ==> At(s, s.steps[u].id, InStep(u));
    }
    forall u | u in t.subagents ensures At(t, t.subagents[u], InSubagent(u)) {
      assert u in s.subagents ==> At(s, s.subagents[u], InSubagent(u));
    }
    forall c | c in t.tools ensures At(t, t.tools[c], InTool(c)) {
      assert c in s.tools ==> At(s, s.tools[c], InTool(c));
    }
    forall k | 0 <= k < |t.ended| ensures At(t, t.ended[k], Ended(k)) { assert At(s, s.ended[k], Ended(k)); }
  }

  lemma PlacedGrows(s: State, t: State, span: Span, slot: Slot)
    requires Placed(s) && t.places == s.places + [slot] && t.spans == s.spans + [span] && t.ended == s.ended
    requires Fits(span.kind, slot) && Held(t, |s.spans|, slot)
    requires (s.session.Some? ==> t.session == s.session) && (s.turn.Some? ==> t.turn == s.turn)
    requires forall u :: u in s.steps ==> u in t.steps && t.steps[u].id == s.steps[u].id
    requires forall u :: u in s.subagents ==> u in t.subagents && t.subagents[u] == s.subagents[u]
    requires forall c :: c in s.tools ==> c in t.tools && t.tools[c] == s.tools[c]
    ensures Placed(t)
  {
    hide Fits;
    forall x | 0 <= x < |s.places| ensures Held(t, x, t.places[x]) && Fits(t.spans[x].kind, t.places[x]) {
      assert Held(s, x, s.places[x]) && Fits(s.spans[x].kind, s.places[x]);
    }
  }

  // ----- ending steps --------------------------------------------------------------------

  lemma EndStepPlaced(s: State, traj: string)
    requires Books(s) && traj in s.steps
    ensures Placed(EndStep(s, traj))
  {
    var t, p := EndStep(s, traj), s.steps[traj].id;
    assert At(s, p, InStep(traj));
    forall x | 0 <= x < |t.places| ensures Held(t, x, t.places[x]) {
      assert Held(s, x, s.places[x]);
    }
  }

  /** Ending a span and letting go of it leaves the rest of the books as they were. */
  lemma EndHolding(s: State, p: SpanId, t: State)
    requires Holding(s) && p < |s.places| && !s.places[p].Ended?
    requires t.places == s.places[p := Ended(|s.ended|)] && t.ended == s.ended + [p]
    requires t.session == s.session && s.session != Some(p) && t.turn == s.turn && s.turn != Some(p)
    requires forall u :: u in t.steps ==> u in s.steps && t.steps[u].id == s.steps[u].id != p
    requires forall u :: u in t.subagents ==> u in s.subagents && t.subagents[u] == s.subagents[u] != p
    requires forall c :: c in t.tools ==> c in s.tools && t.tools[c] == s.tools[c] != p
    ensures Holding(t)
  {
    EndHoldingLog(s, p, t);
    forall x, slot: Slot | !slot.Ended? && x != p && At(s, x, slot) ensures At(t, x, slot) {}
    forall u | u in t.steps ensures At(t, t.steps[u].id, InStep(u)) { assert At(s, s.steps[u].id, InStep(u)); }
    forall u | u in t.subagents ensures At(t, t.subagents[u], InSubagent(u)) {
      assert At(s, s.subagents[u], InSubagent(u));
    }
    forall c | c in t.tools ensures At(t, t.tools[c], InTool(c)) { assert At(s, s.tools[c], InTool(c)); }
  }

  lemma EndHoldingLog(s: State, p: SpanId, t: State)
    requires Holding(s) && p < |s.places| && !s.places[p].Ended?
    requires t.places == s.places[p := Ended(|s.ended|)] && t.ended == s.ended + [p]
    ensures forall k :: 0 <= k < |t.ended| ==> At(t, t.ended[k], Ended(k))
  {
    forall k | 0 <= k < |t.ended| ensures At(t, t.ended[k], Ended(k)) {
      assert k < |s.ended| ==> At(s, s.ended[k], Ended(k));
    }
  }

  lemma EndStepHolding(s: State, traj: string)
    requires Holding(s) && traj in s.steps
    ensures Holding(EndStep(s, traj))
  {
    var t, p := EndStep(s, traj), s.steps[traj].id;
    assert At(s, p, InStep(traj));
    forall u | u in s.steps && u != traj ensures s.steps[u].id != p { assert At(s, s.steps[u].id, InStep(u)); }
    forall u | u in s.subagents ensures s.subagents[u] != p { assert At(s, s.subagents[u], InSubagent(u)); }
    forall c | c in s.tools ensures s.tools[c] != p { assert At(s, s.tools[c], InTool(c)); }
    assert s.session != Some(p) && s.turn != Some(p);
    hide Holding;
    EndHolding(s, p, t);
  }

  lemma EndStepKeeps(s: State, traj: string)
    requires Inv(s)
    ensures Inv(EndStep(s, traj))
  {
    if traj in s.steps {
      assert At(s, s.steps[traj].id, InStep(traj));
      EndStepPlaced(s, traj);
      EndStepHolding(s, traj);
      LeafChildless(s, s.steps[traj].id);
      EndKeepsLedger(s, s.steps[traj].id);
      EndStepNesting(s, traj);
    }
  }

  lemma EndStepNesting(s: State, traj: string)
    requires Nesting(s) && Routes(s) && traj in s.steps
    ensures Nesting(EndStep(s, traj)) && Routes(EndStep(s, traj))
  {
    assert EndStep(s, traj).spans == s.spans;
  }

  lemma EndToolPlaced(s: State, call: string)
    requires Books(s) && call in s.tools
    ensures Placed(EndTool(s, call))
  {
    var t := EndTool(s, call);
    assert At(s, s.tools[call], InTool(call));
    forall x | 0 <= x < |t.places| ensures Held(t, x, t.places[x]) {
      assert Held(s, x, s.places[x]);
    }
  }

  lemma EndToolHolding(s: State, call: string)
    requires Books(s) && call in s.tools
    ensures Holding(EndTool(s, call))
  {
    var t, p := EndTool(s, call), s.tools[call];
    assert At(s, p, InTool(call));
    forall u | u in s.steps ensures s.steps[u].id != p { assert At(s, s.steps[u].id, InStep(u)); }
    forall u | u in s.subagents ensures s.subagents[u] != p { assert At(s, s.subagents[u], InSubagent(u)); }
    forall c | c in s.tools && c != call ensures s.tools[c] != p { assert At(s, s.tools[c], InTool(c)); }
    assert s.session != Some(p) && s.turn != Some(p);
    hide Holding;
    EndHolding(s, p, t);
  }

  lemma ToolChildless(s: State, call: string)
    requires Inv(s) && call in s.tools
    ensures s.tools[call] < |s.spans| == |s.places| && !s.places[s.tools[call]].Ended?
    ensures ChildrenEnded(s, s.tools[call])
  {
    hide Nesting, Routes;
    assert At(s, s.tools[call], InTool(call)) && Fits(s.spans[s.tools[call]].kind, InTool(call));
    LeafChildless(s, s.tools[call]);
  }

  lemma EndToolNesting(s: State, call: string)
    requires Nesting(s) && Routes(s) && s.turn.Some?
    ensures Nesting(EndTool(s, call)) && Routes(EndTool(s, call))
  {
    var t := EndTool(s, call);
    assert t.spans == s.spans && t.steps == s.steps && t.subagents == s.subagents && t.turn == s.turn;
  }

  lemma EndToolLedger(s: State, call: string)
    requires Ledger(s) && call in s.tools && s.tools[call] < |s.spans| == |s.places|
    requires !s.places[s.tools[call]].Ended? && ChildrenEnded(s, s.tools[call])
    ensures Ledger(EndTool(s, call))
  {
    EndKeepsLedger(s, s.tools[call]);
    hide Tree, NestedEnds;
    assert Ledger(End(s, s.tools[call]));
  }

  lemma EndToolKeeps(s: State, call: string)
    requires Inv(s)
    ensures Inv(EndTool(s, call))
  {
    if call in s.tools {
      assert At(s, s.tools[call], InTool(call)) && |s.places| == |s.spans|;
      EndToolPlaced(s, call);
      EndToolHolding(s, call);
      ToolChildless(s, call);
      EndToolNesting(s, call);
      hide Books, Nesting, Routes, Ledger;
      EndToolLedger(s, call);
    }
  }

  lemma EndSubagentPlaced(s: State, traj: string)
    requires Books(s) && traj in s.subagents
    ensures Placed(EndSubagent(s, traj))
  {
    var t := EndSubagent(s, traj);
    assert At(s, s.subagents[traj], InSubagent(traj));
    forall x | 0 <= x < |t.places| ensures Held(t, x, t.places[x]) {
      assert Held(s, x, s.places[x]);
    }
  }

  lemma EndSubagentHolding(s: State, traj: string)
    requires Books(s) && traj in s.subagents
    ensures Holding(EndSubagent(s, traj))
  {
    var t, p := EndSubagent(s, traj), s.subagents[traj];
    assert At(s, p, InSubagent(traj));
    forall u | u in s.steps ensures s.steps[u].id != p { assert At(s, s.steps[u].id, InStep(u)); }
    forall u | u in s.subagents && u != traj ensures s.subagents[u] != p {
      assert At(s, s.subagents[u], InSubagent(u));
    }
    forall c | c in s.tools ensures s.tools[c] != p { assert At(s, s.tools[c], InTool(c)); }
    assert s.session != Some(p) && s.turn != Some(p);
    hide Holding;
    EndHolding(s, p, t);
  }

  /** A subagent whose trajectory has no open step has nothing open beneath it. */
  lemma QuietSubagentChildless(s: State, traj: string)
    requires Books(s) && Ledger(s) && traj in s.subagents && traj !in s.steps
    ensures s.subagents[traj] < |s.spans| && ChildrenEnded(s, s.subagents[traj])
  {
    var p := s.subagents[traj];
    assert At(s, p, InSubagent(traj)) && Fits(s.spans[p].kind, s.places[p]);
    forall x | 0 <= x < |s.spans| && Nests(s.spans[x]) && s.spans[x].parent == Some(p)
      ensures s.places[x].Ended?
    {
      assert Rooted(s.spans, x) && Fits(s.spans[x].kind, s.places[x]) && Held(s, x, s.places[x]);
    }
    forall x | 0 <= x < |s.spans| ensures s.spans[x].turn != Some(p) {
      assert Rooted(s.spans, x);
    }
  }

  lemma EndSubagentKeeps(s: State, traj: string)
    requires Books(s) && Ledger(s) && Nesting(s) && traj in s.subagents && traj !in s.steps
    ensures var t := EndSubagent(s, traj); Books(t) && Ledger(t)
  {
    assert At(s, s.subagents[traj], InSubagent(traj));
    EndSubagentPlaced(s, traj);
    EndSubagentHolding(s, traj);
    QuietSubagentChildless(s, traj);
    EndKeepsLedger(s, s.subagents[traj]);
  }

  lemma EndSubagentNesting(s: State, traj: string, call: string)
    requires Nesting(s) && Routes(s) && traj in s.subagents && traj !in s.steps
    requires call in s.trajectoryOfCall && s.trajectoryOfCall[call] == traj
    ensures var t := EndSubagent(s, traj).(trajectoryOfCall := s.trajectoryOfCall - {call}); Nesting(t) && Routes(t)
  {}

  lemma LedgerFrame(s: State, t: State)
    requires Ledger(s) && t.places == s.places && t.spans == s.spans && t.ended == s.ended && t.turn == s.turn
    ensures Ledger(t)
  {
    hide Tree, NestedEnds;
  }

  /** The spans' places do not depend on how calls and trajectories are matched. */
  lemma BooksFrame(s: State, t: State)
    requires Books(s) && Ledger(s)
    requires t == s.(trajectoryOfCall := t.trajectoryOfCall, main := t.main)
    ensures Books(t) && Ledger(t)
  {
    hide Ledger;
    assert t.places == s.places && t.spans == s.spans && t.ended == s.ended && t.steps == s.steps;
    forall x | 0 <= x < |t.places| ensures Held(t, x, t.places[x]) { assert Held(s, x, s.places[x]); }
    assert forall x, slot :: At(s, x, slot) <==> At(t, x, slot);
    LedgerFrame(s, t);
  }

  lemma CloseDelegateKeeps(s: State, call: string)
    requires Inv(s) && call in s.trajectoryOfCall
    ensures var traj := s.trajectoryOfCall[call];
            Inv(EndSubagent(EndStep(s, traj), traj).(trajectoryOfCall := s.trajectoryOfCall - {call}))
  {
    var traj := s.trajectoryOfCall[call];
    EndStepKeeps(s, traj);
    var u := EndStep(s, traj);
    EndSubagentKeeps(u, traj);
    EndSubagentNesting(u, traj, call);
    var v := EndSubagent(u, traj);
    BooksFrame(v, v.(trajectoryOfCall := s.trajectoryOfCall - {call}));
  }

  lemma PostToolCallKeeps(s: State, call: string)
    requires Inv(s)
    ensures Inv(ToolReturned(s, call))
  {
    EndToolKeeps(s, call);
    var t := EndTool(s, call);
    if call in t.trajectoryOfCall {
      CloseDelegateKeeps(t, call);
    }
  }

  // ----- starting spans ------------------------------------------------------------------

  lemma SubagentBooks(s: State, traj: string)
    requires Books(s) && traj !in s.subagents
    ensures Books(Subagent(s, traj))
  {
    var t := Subagent(s, traj);
    SubagentHolding(s, traj);
    assert |s.places| == |s.spans|;
    hide Holding, Placed;
    PlacedGrows(s, t, t.spans[|s.spans|], InSubagent(traj));
  }

  lemma SubagentHolding(s: State, traj: string)
    requires Books(s) && traj !in s.subagents
    ensures Holding(Subagent(s, traj))
  {
    assert |s.places| == |s.spans|;
    hide Holding, Placed;
    HoldingGrows(s, Subagent(s, traj), InSubagent(traj));
  }

  lemma SubagentKeeps(s: State, traj: string)
    requires Inv(s) && s.turn.Some? && Delegated(s, traj) && s.main != "" && traj !in s.steps
    ensures Inv(Subagent(s, traj))
  {
    if traj !in s.subagents {
      SubagentBooks(s, traj);
      var t := Subagent(s, traj);
      assert At(s, s.turn.value, InTurn) && Fits(s.spans[s.turn.value].kind, InTurn);
      BeginKeepsLedger(s, t.spans[|s.spans|], InSubagent(traj));
      assert Ledger(t);
      SubagentNesting(s, traj);
    }
  }

  lemma SubagentNesting(s: State, traj: string)
    requires Nesting(s) && Routes(s) && s.turn.Some? && Delegated(s, traj) && s.main != ""
    requires traj !in s.subagents && traj !in s.steps
    ensures Nesting(Subagent(s, traj)) && Routes(Subagent(s, traj))
  {}

  /** The parent a new step of the trajectory nests in. */
  function StepParent(s: State, traj: string): Option<SpanId>
    requires Delegated(s, traj) ==> traj in s.subagents
  {
    if Delegated(s, traj) then Some(s.subagents[traj]) else s.turn
  }

  function OpenStepIn(s: State, traj: string, index: int): State
    requires Delegated(s, traj) ==> traj in s.subagents
  {
    Begin(s, Span(StepSpan(traj, index), StepParent(s, traj), s.turn), InStep(traj)).(
      steps := s.steps[traj := OpenStep(|s.spans|, index)])
  }

  lemma OpenStepPlaced(s: State, traj: string, index: int)
    requires Books(s) && (Delegated(s, traj) ==> traj in s.subagents) && traj !in s.steps
    ensures Placed(OpenStepIn(s, traj, index))
  {
    var t := OpenStepIn(s, traj, index);
    assert |s.places| == |s.spans|;
    hide Holding, Placed;
    PlacedGrows(s, t, t.spans[|s.spans|], InStep(traj));
  }

  lemma OpenStepHolding(s: State, traj: string, index: int)
    requires Books(s) && (Delegated(s, traj) ==> traj in s.subagents) && traj !in s.steps
    ensures Holding(OpenStepIn(s, traj, index))
  {
    assert |s.places| == |s.spans|;
    hide Holding, Placed;
    HoldingGrows(s, OpenStepIn(s, traj, index), InStep(traj));
  }

  lemma OpenStepLedger(s: State, traj: string, index: int)
    requires Inv(s) && s.turn.Some? && (Delegated(s, traj) ==> traj in s.subagents)
    ensures Ledger(OpenStepIn(s, traj, index))
  {
    var t := OpenStepIn(s, traj, index);
    assert At(s, s.turn.value, InTurn) && Fits(s.spans[s.turn.value].kind, InTurn);
    if Delegated(s, traj) {
      var p := s.subagents[traj];
      assert At(s, p, InSubagent(traj)) && Fits(s.spans[p].kind, s.places[p]) && OfTurn(s.places[p]);
    }
    BeginKeepsLedger(s, t.spans[|s.spans|], InStep(traj));
  }

  lemma OpenStepNesting(s: State, traj: string, index: int)
    requires Nesting(s) && Routes(s) && s.turn.Some? && (Delegated(s, traj) ==> traj in s.subagents) && traj !in s.steps
    requires traj in s.closed ==> s.closed[traj] < index
    ensures Nesting(OpenStepIn(s, traj, index)) && Routes(OpenStepIn(s, traj, index))
  {}

  lemma SubagentOpens(s: State, traj: string)
    ensures var t := Subagent(s, traj);
      traj in t.subagents && t.steps == s.steps && t.closed == s.closed && t.turn == s.turn && t.main == s.main
  {
  }

  lemma OpenStepKeeps(s: State, traj: string, index: int)
    requires Inv(s) && s.turn.Some? && traj !in s.steps && (traj in s.closed ==> s.closed[traj] < index)
    requires Delegated(s, traj) ==> traj in s.subagents
    ensures Inv(OpenStepIn(s, traj, index))
  {
    hide Placed, Holding, Ledger, Nesting, Routes;
    OpenStepPlaced(s, traj, index);
    OpenStepHolding(s, traj, index);
    OpenStepLedger(s, traj, index);
    OpenStepNesting(s, traj, index);
  }

  lemma StartStepKeeps(s: State, traj: string, index: int)
    requires Inv(s) && s.turn.Some? && traj !in s.steps && (traj in s.closed ==> s.closed[traj] < index)
    requires Delegated(s, traj) ==> s.main != ""
    ensures Inv(StartStep(s, traj, index))
  {
    if Delegated(s, traj) {
      SubagentKeeps(s, traj);
      hide Inv, Subagent;
      SubagentOpens(s, traj);
      OpenStepKeeps(Subagent(s, traj), traj, index);
    } else {
      hide Inv;
      OpenStepKeeps(s, traj, index);
    }
  }

  lemma StartToolBooks(s: State, parent: SpanId, call: ToolCall)
    requires Books(s)
    ensures Books(StartTool(s, parent, call))
  {
    var t := StartTool(s, parent, call);
    assert |s.places| == |s.spans|;
    hide Holding, Placed;
    if t != s {
      HoldingGrows(s, t, InTool(call.id));
      PlacedGrows(s, t, t.spans[|s.spans|], InTool(call.id));
    }
  }

  // An open step is one a tool can nest in.
  lemma LedgerOf(s: State)
    requires Inv(s)
    ensures Ledger(s)
  {
  }

  lemma StepInTurn(s: State, traj: string)
    requires Inv(s) && traj in s.steps
    ensures var p := s.steps[traj].id;
      p < |s.spans| == |s.places| && s.turn.Some? && s.spans[p].kind.StepSpan? && s.spans[p].turn == s.turn
  {
    hide Tree, NestedEnds, Routes;
    var p := s.steps[traj].id;
    assert At(s, p, InStep(traj)) && OfTurn(s.places[p]);
  }

  lemma TurnHeld(s: State)
    requires Inv(s) && s.turn.Some?
    ensures s.turn.value < |s.spans| == |s.places| && !s.places[s.turn.value].Ended?
    ensures s.spans[s.turn.value].kind.TurnSpan?
  {
    hide Ledger, Nesting, Routes;
    assert At(s, s.turn.value, InTurn) && Fits(s.spans[s.turn.value].kind, InTurn);
  }

  lemma ToolParent(s: State, traj: string)
    requires Inv(s) && traj in s.steps
    ensures var p := s.steps[traj].id;
      && Ledger(s) && s.turn.Some? && p < |s.spans| == |s.places| && s.turn.value < |s.spans|
      && !s.places[s.turn.value].Ended?
      && forall call :: Rooted(s.spans + [Span(ToolSpan(call), Some(p), s.turn)], |s.spans|)
  {
    var p := s.steps[traj].id;
    StepInTurn(s, traj);
    TurnHeld(s);
    hide Inv, Tree, NestedEnds;
    assert Ledger(s) by { LedgerOf(s); }
  }

  lemma StartToolLedger(s: State, traj: string, call: ToolCall)
    requires Inv(s) && traj in s.steps
    ensures Ledger(StartTool(s, s.steps[traj].id, call))
  {
    var p := s.steps[traj].id;
    var t := StartTool(s, p, call);
    if t != s {
      ToolParent(s, traj);
      hide Inv, Rooted;
      BeginKeepsLedger(s, t.spans[|s.spans|], InTool(call.id));
    }
  }

  lemma StartToolNesting(s: State, parent: SpanId, call: ToolCall)
    requires Nesting(s) && Routes(s) && s.turn.Some?
    ensures Nesting(StartTool(s, parent, call)) && Routes(StartTool(s, parent, call))
  {}

  lemma StartToolKeeps(s: State, traj: string, call: ToolCall)
    requires Inv(s) && traj in s.steps
    ensures Inv(StartTool(s, s.steps[traj].id, call))
  {
    assert s.turn.Some?;
    hide Books, Ledger, Nesting, Routes, StartTool;
    StartToolBooks(s, s.steps[traj].id, call);
    StartToolLedger(s, traj, call);
    StartToolNesting(s, s.steps[traj].id, call);
  }

  lemma {:induction false} StartToolsKeeps(s: State, traj: string, calls: seq<ToolCall>)
    requires Inv(s) && traj in s.steps
    ensures var t := StartTools(s, s.steps[traj].id, calls); Inv(t) && t.steps == s.steps && t.turn == s.turn
    decreases |calls|
  {
    hide Inv;
    if calls != [] {
      StartToolsKeeps(s, traj, calls[..|calls| - 1]);
      StartToolKeeps(StartTools(s, s.steps[traj].id, calls[..|calls| - 1]), traj, calls[|calls| - 1]);
    }
  }

  lemma RootingKeeps(s: State, traj: string)
    requires Inv(s) && s.turn.Some?
    ensures Inv(Rooting(s, traj))
  {
    var t := Rooting(s, traj);
    BooksFrame(s, t);
    assert Nesting(t) && Routes(t);
    hide Books, Ledger, Nesting, Routes;
  }

  lemma ArrivedKeeps(s: State, step: Step)
    requires Inv(s) && s.turn.Some?
    ensures var t := Arrived(s, step);
            Inv(t) && t.turn == s.turn && (Delegated(t, step.traj) ==> t.main != "") &&
            (step.traj in t.steps ==> t.steps[step.traj].index == step.index)
  {
    hide Inv;
    RootingKeeps(s, step.traj);
    EndStepKeeps(Rooting(s, step.traj), step.traj);
  }

  lemma UpdateKeeps(s: State, step: Step)
    requires Inv(s) && step.traj in s.steps
    ensures var v := StartTools(s, s.steps[step.traj].id, step.calls); Inv(v) && Inv(EndStep(v, step.traj))
  {
    StartToolsKeeps(s, step.traj, step.calls);
    EndStepKeeps(StartTools(s, s.steps[step.traj].id, step.calls), step.traj);
  }

  lemma ObserveStepKeeps(s: State, step: Step)
    requires Inv(s)
    ensures Inv(Observed(s, step))
  {
    hide Inv;
    if s.turn.Some? {
      ArrivedKeeps(s, step);
      var t := Arrived(s, step);
      if !Stale(t, step) {
        if step.traj in t.steps {
          UpdateKeeps(t, step);
        } else {
          StartStepKeeps(t, step.traj, step.index);
          UpdateKeeps(StartStep(t, step.traj, step.index), step);
        }
      }
    }
  }

  // ----- ending a turn -------------------------------------------------------------------

  /** The order in which endTurnLocked closes what is open: the steps, the subagents and the
    * tools, each group in whatever order its map is walked. */
  datatype Sweep = Sweep(steps: seq<string>, subagents: seq<string>, tools: seq<string>)

  ghost predicate Lists(keys: seq<string>, all: set<string>) {
    && (forall k :: k in keys <==> k in all)
    && (forall i, j :: 0 <= i < j < |keys| ==> keys[i] != keys[j])
  }

  ghost predicate Sweeps(s: State, w: Sweep) {
    Lists(w.steps, s.steps.Keys) && Lists(w.subagents, s.subagents.Keys) && Lists(w.tools, s.tools.Keys)
  }

  ghost function StepIds(s: State, keys: seq<string>): seq<SpanId>
    requires forall k :: k in keys ==> k in s.steps
  {
    seq(|keys|, i requires 0 <= i < |keys| => s.steps[keys[i]].id)
  }

  ghost function Ids(m: map<string, SpanId>, keys: seq<string>): seq<SpanId>
    requires forall k :: k in keys ==> k in m
  {
    seq(|keys|, i requires 0 <= i < |keys| => m[keys[i]])
  }

  ghost function Opened(s: State, w: Sweep): seq<SpanId>
    requires Sweeps(s, w)
  {
    StepIds(s, w.steps) + Ids(s.subagents, w.subagents) + Ids(s.tools, w.tools)
  }

  ghost predicate Distinct(ids: seq<SpanId>) { forall i, j :: 0 <= i < j < |ids| ==> ids[i] != ids[j] }

  ghost predicate IsChild(spans: seq<Span>, x: SpanId, p: SpanId) {
    x < |spans| && (spans[x].turn == Some(p) || (Nests(spans[x]) && spans[x].parent == Some(p)))
  }

  /** The spans listed are open and each one's children end before it. */
  ghost predicate ChildrenFirst(s: State, ids: seq<SpanId>)
    requires |s.places| == |s.spans|
  {
    && Distinct(ids)
    && (forall i :: 0 <= i < |ids| ==> ids[i] < |s.places| && !s.places[ids[i]].Ended?)
    && (forall i, x | 0 <= i < |ids| && 0 <= x < |s.spans| ::
          (IsChild(s.spans, x, ids[i]) ==> s.places[x].Ended? || x in ids[..i]))
  }

  lemma {:induction false} EndAllLog(s: State, ids: seq<SpanId>)
    ensures var t := EndAll(s, ids);
            t == s.(ended := s.ended + ids, places := t.places) && |t.places| == |s.places|
    decreases |ids|
  {
    if ids == [] {
      assert s.ended + ids == s.ended;
    } else {
      EndAllLog(End(s, ids[0]), ids[1..]);
      assert (s.ended + [ids[0]]) + ids[1..] == s.ended + ids;
    }
  }

  lemma {:induction false} EndAllOthers(s: State, ids: seq<SpanId>, x: SpanId)
    requires x < |s.places| && x !in ids
    ensures var t := EndAll(s, ids); x < |t.places| && t.places[x] == s.places[x]
    decreases |ids|
  {
    if ids != [] { EndAllOthers(End(s, ids[0]), ids[1..], x); }
  }

  lemma {:induction false} EndAllEnds(s: State, ids: seq<SpanId>, i: nat)
    requires Distinct(ids) && i < |ids| && ids[i] < |s.places|
    ensures At(EndAll(s, ids), ids[i], Ended(|s.ended| + i))
    decreases |ids|
  {
    if i == 0 {
      EndAllOthers(End(s, ids[0]), ids[1..], ids[0]);
    } else {
      EndAllEnds(End(s, ids[0]), ids[1..], i - 1);
    }
  }

  lemma {:induction false} EndAllKeeps(s: State, ids: seq<SpanId>)
    requires Ledger(s) && ChildrenFirst(s, ids)
    ensures Ledger(EndAll(s, ids))
    decreases |ids|
  {
    if ids != [] {
      FirstChildless(s, ids);
      EndKeepsLedger(s, ids[0]);
      RestChildrenFirst(s, ids);
      hide Ledger, ChildrenFirst;
      EndAllKeeps(End(s, ids[0]), ids[1..]);
    }
  }

  lemma FirstChildless(s: State, ids: seq<SpanId>)
    requires |s.places| == |s.spans| && ChildrenFirst(s, ids) && ids != []
    ensures ChildrenEnded(s, ids[0])
  {
    forall x | 0 <= x < |s.spans| && IsChild(s.spans, x, ids[0]) ensures s.places[x].Ended? {
      assert ids[..0] == [];
    }
  }

  lemma RestChildrenFirst(s: State, ids: seq<SpanId>)
    requires Ledger(s) && ChildrenFirst(s, ids) && ids != []
    ensures ChildrenFirst(End(s, ids[0]), ids[1..])
  {
    var u, rest := End(s, ids[0]), ids[1..];
    assert u.spans == s.spans && |u.places| == |s.places|;
    assert u.places[ids[0]].Ended? && forall x :: 0 <= x < |s.places| && x != ids[0] ==> u.places[x] == s.places[x];
    hide End, Ledger;
    forall i | 0 <= i < |rest| ensures rest[i] < |u.places| && !u.places[rest[i]].Ended? {
      assert rest[i] == ids[i + 1];
    }
    forall i, x | 0 <= i < |rest| && 0 <= x < |u.spans| && IsChild(u.spans, x, rest[i])
      ensures u.places[x].Ended? || x in rest[..i]
    {
      assert rest[i] == ids[i + 1] && ids[..i + 1] == [ids[0]] + rest[..i];
      assert IsChild(s.spans, x, ids[i + 1]);
    }
  }

  lemma OpenedPlaces(s: State, w: Sweep)
    requires Inv(s) && Sweeps(s, w)
    ensures var a, b, c := StepIds(s, w.steps), Ids(s.subagents, w.subagents), Ids(s.tools, w.tools);
            && (forall i :: 0 <= i < |a| ==> At(s, a[i], InStep(w.steps[i])))
            && (forall i :: 0 <= i < |b| ==> At(s, b[i], InSubagent(w.subagents[i])))
            && (forall i :: 0 <= i < |c| ==> At(s, c[i], InTool(w.tools[i])))
  {
    hide Placed, Ledger, Nesting, Routes;
  }

  /** The field that the i-th span of a sweep is read from. */
  function SweptFrom(w: Sweep, i: nat): Slot
    requires i < |w.steps| + |w.subagents| + |w.tools|
  {
    if i < |w.steps| then InStep(w.steps[i])
    else if i < |w.steps| + |w.subagents| then InSubagent(w.subagents[i - |w.steps|])
    else InTool(w.tools[i - |w.steps| - |w.subagents|])
  }

  lemma OpenedAt(s: State, w: Sweep, i: nat)
    requires Inv(s) && Sweeps(s, w) && i < |Opened(s, w)|
    ensures i < |w.steps| + |w.subagents| + |w.tools| && At(s, Opened(s, w)[i], SweptFrom(w, i))
  {
    OpenedPlaces(s, w);
    hide Inv;
  }

  lemma SweptApart(s: State, w: Sweep, i: nat, j: nat)
    requires Sweeps(s, w) && i < j < |w.steps| + |w.subagents| + |w.tools|
    ensures SweptFrom(w, i) != SweptFrom(w, j)
  {
  }

  /** What a sweep lists is open, each span once, steps first. */
  lemma OpenedIsOpen(s: State, w: Sweep)
    requires Inv(s) && Sweeps(s, w)
    ensures var ids := Opened(s, w);
            && Distinct(ids)
            && (forall i :: 0 <= i < |ids| ==> ids[i] < |s.places| && OfTurn(s.places[ids[i]]))
            && (forall i, j :: 0 <= i < j < |ids| && s.places[ids[j]].InStep? ==> s.places[ids[i]].InStep?)
  {
    var ids := Opened(s, w);
    hide Inv, Opened, Sweeps;
    forall i | 0 <= i < |ids| ensures ids[i] < |s.places| && OfTurn(s.places[ids[i]]) { OpenedAt(s, w, i); }
    forall i, j | 0 <= i < j < |ids| ensures ids[i] != ids[j] {
      OpenedAt(s, w, i);
      OpenedAt(s, w, j);
      SweptApart(s, w, i, j);
    }
    forall i, j | 0 <= i < j < |ids| && s.places[ids[j]].InStep? ensures s.places[ids[i]].InStep? {
      OpenedAt(s, w, i);
      OpenedAt(s, w, j);
    }
  }

  /** A map walked in part: the keys met, each once, and the rest. */
  ghost predicate Walked(keys: seq<string>, all: set<string>, rest: set<string>) {
    && (forall k :: k in all <==> k in keys || k in rest)
    && (forall k :: k in keys ==> k !in rest)
    && (forall i, j :: 0 <= i < j < |keys| ==> keys[i] != keys[j])
  }

  lemma WalkNext(keys: seq<string>, all: set<string>, rest: set<string>, k: string)
    requires Walked(keys, all, rest) && k in rest
    ensures k in all && Walked(keys + [k], all, rest - {k})
  {
    forall i | 0 <= i < |keys| ensures keys[i] != k { assert keys[i] in keys; }
  }

  lemma WalkedIn(keys: seq<string>, all: set<string>, rest: set<string>)
    requires Walked(keys, all, rest)
    ensures (forall k :: k in keys ==> k in all) && (rest == {} ==> Lists(keys, all))
  {
  }

  lemma IdsSnoc(m: map<string, SpanId>, keys: seq<string>, k: string)
    requires (forall j :: j in keys ==> j in m) && k in m
    ensures Ids(m, keys + [k]) == Ids(m, keys) + [m[k]]
  {
  }

  lemma StepIdsSnoc(s: State, keys: seq<string>, k: string)
    requires (forall j :: j in keys ==> j in s.steps) && k in s.steps
    ensures StepIds(s, keys + [k]) == StepIds(s, keys) + [s.steps[k].id]
  {
  }

  lemma {:induction false} InIds(m: map<string, SpanId>, keys: seq<string>, k: string)
    requires (forall j :: j in keys ==> j in m) && k in keys
    ensures m[k] in Ids(m, keys)
  {
    var i :| 0 <= i < |keys| && keys[i] == k;
    assert Ids(m, keys)[i] == m[k];
  }

  lemma {:induction false} InStepIds(s: State, keys: seq<string>, k: string)
    requires (forall j :: j in keys ==> j in s.steps) && k in keys
    ensures s.steps[k].id in StepIds(s, keys)
  {
    var i :| 0 <= i < |keys| && keys[i] == k;
    assert StepIds(s, keys)[i] == s.steps[k].id;
  }

  /** A sweep lists everything the turn has open. */
  lemma OpenedIsAll(s: State, w: Sweep, x: SpanId)
    requires Inv(s) && Sweeps(s, w) && x < |s.places| && OfTurn(s.places[x])
    ensures x in Opened(s, w)
  {
    assert Held(s, x, s.places[x]);
    hide Inv, StepIds, Ids;
    match s.places[x]
    case InStep(traj) => InStepIds(s, w.steps, traj);
    case InSubagent(traj) => InIds(s.subagents, w.subagents, traj);
    case InTool(call) => InIds(s.tools, w.tools, call);
  }

  lemma ChildIsOpened(s: State, x: SpanId, p: SpanId)
    requires Inv(s) && p < |s.spans| && IsChild(s.spans, x, p)
    ensures !s.spans[p].kind.ToolSpan? && !s.spans[p].kind.StepSpan?
    ensures s.turn == Some(p) || s.spans[p].kind.SubagentSpan? ==> s.places[x].Ended? || OfTurn(s.places[x])
    ensures s.spans[p].kind.SubagentSpan? ==> s.places[x].Ended? || s.places[x].InStep?
  {
    assert Rooted(s.spans, x) && Fits(s.spans[x].kind, s.places[x]);
    assert s.turn.Some? ==> At(s, s.turn.value, InTurn) && Fits(s.spans[s.turn.value].kind, InTurn);
  }

  // A child that is open comes earlier in the sweep: under the turn anything, under a subagent a step.
  lemma ChildBefore(s: State, w: Sweep, i: nat, x: SpanId)
    requires Inv(s) && Sweeps(s, w) && s.turn.Some? && i <= |Opened(s, w)|
    requires var ids := Opened(s, w) + [s.turn.value];
      x < |s.spans| == |s.places| && ids[i] < |s.spans| && IsChild(s.spans, x, ids[i]) && !s.places[x].Ended?
    ensures x in (Opened(s, w) + [s.turn.value])[..i]
  {
    hide Inv, Opened, Sweeps;
    var open := Opened(s, w);
    var ids := open + [s.turn.value];
    ChildIsOpened(s, x, ids[i]);
    if i == |open| {
      hide IsChild;
      OpenedIsAll(s, w, x);
      assert ids[..i] == open;
    } else {
      OpenedIsOpen(s, w);
      ParentFits(s, ids[i]);
      hide IsChild, Distinct;
      OpenedIsAll(s, w, x);
      var j :| 0 <= j < |open| && open[j] == x;
      assert s.places[open[i]].InSubagent? && s.places[x].InStep?;
      assert j < i && ids[..i][j] == x;
    }
  }

  lemma ParentFits(s: State, p: SpanId)
    requires Inv(s) && p < |s.spans| && !s.spans[p].kind.ToolSpan? && !s.spans[p].kind.StepSpan?
    ensures p < |s.places| && (OfTurn(s.places[p]) ==> s.places[p].InSubagent? && s.spans[p].kind.SubagentSpan?)
  {
    assert Fits(s.spans[p].kind, s.places[p]);
  }

  lemma SweepChildrenFirst(s: State, w: Sweep)
    requires Inv(s) && Sweeps(s, w) && s.turn.Some?
    ensures ChildrenFirst(s, Opened(s, w) + [s.turn.value])
  {
    var ids := Opened(s, w) + [s.turn.value];
    OpenedIsOpen(s, w);
    assert At(s, s.turn.value, InTurn) && |s.places| == |s.spans|;
    hide Inv, Opened, Sweeps;
    forall i, x | 0 <= i < |ids| && 0 <= x < |s.spans| && IsChild(s.spans, x, ids[i])
      ensures s.places[x].Ended? || x in ids[..i]
    {
      if !s.places[x].Ended? { ChildBefore(s, w, i, x); }
    }
  }

  /** Everything the turn has open, each once, children before what they nest in. */
  ghost predicate Complete(s: State, open: seq<SpanId>) {
    s.turn.Some? ==>
      && |s.places| == |s.spans| && ChildrenFirst(s, open + [s.turn.value])
      && (forall x :: 0 <= x < |s.places| && OfTurn(s.places[x]) ==> x in open)
      && (forall x :: x in open ==> x < |s.places| && OfTurn(s.places[x]))
  }

  /** Every order in which the maps may be walked is such a list. */
  lemma SweepComplete(s: State, w: Sweep)
    requires Inv(s) && Sweeps(s, w)
    ensures Complete(s, Opened(s, w))
  {
    if s.turn.Some? {
      SweepChildrenFirst(s, w);
      OpenedIsOpen(s, w);
      forall x | 0 <= x < |s.places| && OfTurn(s.places[x]) ensures x in Opened(s, w) {
        OpenedIsAll(s, w, x);
      }
      hide Books, Ledger, Nesting, Routes, Opened;
    }
  }

  lemma CompleteIds(s: State, open: seq<SpanId>)
    requires Complete(s, open) && s.turn.Some? && At(s, s.turn.value, InTurn)
    ensures var ids := open + [s.turn.value];
            && Distinct(ids) && (forall i :: 0 <= i < |ids| ==> ids[i] < |s.places|)
            && (forall x :: 0 <= x < |s.places| ==> (x in ids <==> OfTurn(s.places[x]) || x == s.turn.value))
  {
    assert (open + [s.turn.value])[|open|] == s.turn.value;
  }

  /** After the sweep a span is where it was, or ended by the sweep. */
  lemma EndTurnPlace(s: State, open: seq<SpanId>, x: SpanId)
    requires Books(s) && Complete(s, open) && s.turn.Some? && x < |s.places|
    ensures var t := EndTurn(s, open);
            && x < |t.places| && Held(t, x, t.places[x])
            && (OfTurn(s.places[x]) || s.places[x] == InTurn ==> t.places[x].Ended?)
            && (!OfTurn(s.places[x]) && s.places[x] != InTurn ==> t.places[x] == s.places[x])
  {
    hide Complete, Distinct;
    var ids := open + [s.turn.value];
    assert Held(s, x, s.places[x]) && At(s, s.turn.value, InTurn);
    hide Books;
    CompleteIds(s, open);
    EndAllLog(s, ids);
    if x in ids {
      EndAllEnded(s, ids, x);
    } else {
      EndAllOthers(s, ids, x);
    }
  }

  lemma EndAllEnded(s: State, ids: seq<SpanId>, x: SpanId)
    requires Distinct(ids) && x in ids && x < |s.places|
    ensures var t := EndAll(s, ids);
            |t.places| == |s.places| && t.places[x].Ended? && Held(t, x, t.places[x])
  {
    EndAllLog(s, ids);
    var i :| 0 <= i < |ids| && ids[i] == x;
    EndAllEnds(s, ids, i);
    assert (s.ended + ids)[|s.ended| + i] == x;
  }

  lemma EndTurnOldLog(s: State, open: seq<SpanId>, k: nat)
    requires Books(s) && Complete(s, open) && s.turn.Some? && k < |s.ended|
    ensures var t := EndTurn(s, open); k < |t.ended| && At(t, t.ended[k], Ended(k))
  {
    hide Complete;
    EndAllLog(s, open + [s.turn.value]);
    assert At(s, s.ended[k], Ended(k));
    EndTurnPlace(s, open, s.ended[k]);
  }

  lemma EndTurnNewLog(s: State, open: seq<SpanId>, i: nat)
    requires Complete(s, open) && s.turn.Some? && At(s, s.turn.value, InTurn) && i <= |open|
    ensures var t, k := EndTurn(s, open), |s.ended| + i; k < |t.ended| && At(t, t.ended[k], Ended(k))
  {
    hide Complete, Distinct;
    var ids := open + [s.turn.value];
    CompleteIds(s, open);
    EndAllLog(s, ids);
    EndAllEnds(s, ids, i);
    assert (s.ended + ids)[|s.ended| + i] == ids[i];
  }

  lemma EndTurnPlaced(s: State, open: seq<SpanId>)
    requires Books(s) && Complete(s, open) && s.turn.Some?
    ensures Placed(EndTurn(s, open))
  {
    hide Complete, Holding;
    var t := EndTurn(s, open);
    EndAllLog(s, open + [s.turn.value]);
    forall x | 0 <= x < |t.places| ensures Held(t, x, t.places[x]) && Fits(t.spans[x].kind, t.places[x]) {
      EndTurnPlace(s, open, x);
      assert Fits(s.spans[x].kind, s.places[x]);
    }
  }

  lemma EndTurnHolding(s: State, open: seq<SpanId>)
    requires Books(s) && Complete(s, open) && s.turn.Some?
    ensures Holding(EndTurn(s, open))
  {
    hide Complete, Placed;
    var t := EndTurn(s, open);
    EndAllLog(s, open + [s.turn.value]);
    assert At(s, s.turn.value, InTurn);
    forall k | 0 <= k < |t.ended| ensures At(t, t.ended[k], Ended(k)) {
      if k < |s.ended| { EndTurnOldLog(s, open, k); } else { EndTurnNewLog(s, open, k - |s.ended|); }
    }
    if s.session.Some? {
      assert At(s, s.session.value, InSession);
      EndTurnPlace(s, open, s.session.value);
    }
  }

  lemma EndTurnBooks(s: State, open: seq<SpanId>)
    requires Books(s) && Complete(s, open) && s.turn.Some?
    ensures Books(EndTurn(s, open))
  {
    hide Placed, Holding, Complete;
    EndTurnPlaced(s, open);
    EndTurnHolding(s, open);
  }

  lemma ClearedLedger(s: State, t: State)
    requires Ledger(s) && t.spans == s.spans && t.places == s.places && t.ended == s.ended
    requires forall x :: 0 <= x < |t.places| ==> !OfTurn(t.places[x])
    ensures Ledger(t)
  {}

  lemma EndTurnLedger(s: State, open: seq<SpanId>)
    requires Books(s) && Ledger(s) && Complete(s, open) && s.turn.Some?
    ensures Ledger(EndTurn(s, open))
  {
    var ids := open + [s.turn.value];
    var u := EndAll(s, ids);
    EndAllLog(s, ids);
    assert ChildrenFirst(s, ids);
    forall x | 0 <= x < |u.places| ensures !OfTurn(u.places[x]) {
      EndTurnPlace(s, open, x);
    }
    hide Ledger, Complete, ChildrenFirst, Books;
    EndAllKeeps(s, ids);
    ClearedLedger(u, EndTurn(s, open));
  }

  lemma ClearedNesting(s: State)
    ensures Nesting(Cleared(s)) && Routes(Cleared(s))
  {}

  lemma EndTurnKeeps(s: State, open: seq<SpanId>)
    requires Inv(s) && Complete(s, open)
    ensures Inv(EndTurn(s, open))
  {
    if s.turn.Some? {
      ClearedNesting(EndAll(s, open + [s.turn.value]));
      hide Books, Ledger, Complete, Nesting, Routes, Cleared;
      EndTurnBooks(s, open);
      EndTurnLedger(s, open);
    }
  }

  // ----- sessions, and whole runs --------------------------------------------------------

  lemma SessionStartPlaced(s: State)
    requires Books(s)
    ensures Placed(SessionStarted(s))
  {
    var t := SessionStarted(s);
    assert s.session.Some? ==> At(s, s.session.value, InSession);
    hide Holding;
    forall x | 0 <= x < |t.places| ensures Held(t, x, t.places[x]) && Fits(t.spans[x].kind, t.places[x]) {
      assert x < |s.places| ==> Held(s, x, s.places[x]) && Fits(s.spans[x].kind, s.places[x]);
    }
  }

  lemma LetGoHolding(s: State, u: State)
    requires Holding(s) && s.session.Some? && s.session.value < |s.places|
    requires u == s.(places := s.places[s.session.value := Lost], session := None)
    ensures Holding(u)
  {
    assert At(s, s.session.value, InSession);
    forall x, slot | slot != InSession && At(s, x, slot) ensures At(u, x, slot) {}
    forall c | c in u.steps ensures At(u, u.steps[c].id, InStep(c)) { assert At(s, s.steps[c].id, InStep(c)); }
    forall c | c in u.subagents ensures At(u, u.subagents[c], InSubagent(c)) {
      assert At(s, s.subagents[c], InSubagent(c));
    }
    forall c | c in u.tools ensures At(u, u.tools[c], InTool(c)) { assert At(s, s.tools[c], InTool(c)); }
    forall k | 0 <= k < |u.ended| ensures At(u, u.ended[k], Ended(k)) { assert At(s, s.ended[k], Ended(k)); }
  }

  lemma SessionStartHolding(s: State)
    requires Books(s)
    ensures Holding(SessionStarted(s))
  {
    var t := SessionStarted(s);
    assert |s.places| == |s.spans|;
    hide Placed;
    if s.session.Some? {
      var p := s.session.value;
      assert At(s, p, InSession);
      var u := s.(places := s.places[p := Lost], session := None);
      LetGoHolding(s, u);
      hide Holding;
      HoldingGrows(u, t, InSession);
    } else {
      hide Holding;
      HoldingGrows(s, t, InSession);
    }
  }

  lemma SessionStartBooks(s: State)
    requires Books(s)
    ensures Books(SessionStarted(s))
  {
    hide Placed, Holding;
    SessionStartPlaced(s);
    SessionStartHolding(s);
  }

  lemma SessionStartLedger(s: State)
    requires Books(s) && Ledger(s)
    ensures Ledger(SessionStarted(s))
  {
    assert s.session.Some? ==> At(s, s.session.value, InSession);
    hide Books;
    var lost := if s.session.Some? then s.(places := s.places[s.session.value := Lost]) else s;
    LoseKeepsLedger(s, lost);
    BeginKeepsLedger(lost, Span(SessionSpan, None, None), InSession);
    hide Tree, NestedEnds;
  }

  lemma NestingFrame(s: State, t: State)
    requires Nesting(s) && Routes(s) && t.steps == s.steps && t.closed == s.closed && t.subagents == s.subagents
    requires t.tools == s.tools && t.trajectoryOfCall == s.trajectoryOfCall && t.pending == s.pending
    requires t.main == s.main && t.turn == s.turn && s.spans <= t.spans
    ensures Nesting(t) && Routes(t)
  {
    forall u | u in t.steps ensures t.steps[u].id < |t.spans| && t.spans[t.steps[u].id] == s.spans[s.steps[u].id] {
      assert s.steps[u].id < |s.spans|;
    }
  }

  lemma SessionStartFields(s: State)
    ensures var t := SessionStarted(s);
      && t.steps == s.steps && t.closed == s.closed && t.subagents == s.subagents && t.tools == s.tools
      && t.trajectoryOfCall == s.trajectoryOfCall && t.pending == s.pending && t.main == s.main && t.turn == s.turn
      && t.ended == s.ended && s.spans <= t.spans
  {
  }

  lemma SessionStartNesting(s: State)
    requires Nesting(s) && Routes(s)
    ensures Nesting(SessionStarted(s)) && Routes(SessionStarted(s))
  {
    SessionStartFields(s);
    hide Nesting, Routes, SessionStarted;
    NestingFrame(s, SessionStarted(s));
  }

  lemma SessionStartKeeps(s: State)
    requires Inv(s)
    ensures Inv(SessionStarted(s))
  {
    hide Books, Ledger, Nesting, Routes, SessionStarted;
    SessionStartBooks(s);
    SessionStartLedger(s);
    SessionStartNesting(s);
  }

  lemma LoseKeepsLedger(s: State, t: State)
    requires Ledger(s) && (t == s || (s.session.Some? && At(s, s.session.value, InSession) &&
                                      t == s.(places := s.places[s.session.value := Lost])))
    ensures Ledger(t)
  {
    forall x | 0 <= x < |t.spans| && t.spans[x].turn.Some? ensures EndsBefore(t.places, x, t.spans[x].turn.value) {
      assert EndsBefore(s.places, x, s.spans[x].turn.value);
    }
    forall x | 0 <= x < |t.spans| && Nests(t.spans[x]) ensures EndsBefore(t.places, x, t.spans[x].parent.value) {
      assert EndsBefore(s.places, x, s.spans[x].parent.value);
    }
  }

  /** Between turns a session has nothing open beneath it. */
  lemma EndSessionKeeps(s: State)
    requires Inv(s) && s.turn.None? && s.session.Some?
    ensures Inv(End(s, s.session.value).(session := None))
  {
    var p := s.session.value;
    var t := End(s, p).(session := None);
    assert At(s, p, InSession) && Fits(s.spans[p].kind, s.places[p]);
    forall x | 0 <= x < |s.spans| && IsChild(s.spans, x, p) ensures s.places[x].Ended? {
      assert Rooted(s.spans, x) && Fits(s.spans[x].kind, s.places[x]) && Held(s, x, s.places[x]);
    }
    assert ChildrenEnded(s, p) by {
      assert forall x :: 0 <= x < |s.spans| && s.spans[x].turn == Some(p) ==> IsChild(s.spans, x, p);
    }
    EndKeepsLedger(s, p);
    EndSessionBooks(s);
  }

  lemma EndSessionBooks(s: State)
    requires Books(s) && s.session.Some?
    ensures Books(End(s, s.session.value).(session := None))
  {
    var p := s.session.value;
    var t := End(s, p).(session := None);
    assert At(s, p, InSession);
    forall x | 0 <= x < |t.places| ensures Held(t, x, t.places[x]) && Fits(t.spans[x].kind, t.places[x]) {
      assert Held(s, x, s.places[x]) && Fits(s.spans[x].kind, s.places[x]);
    }
    forall k | 0 <= k < |t.ended| ensures At(t, t.ended[k], Ended(k)) {
      assert k < |s.ended| ==> At(s, s.ended[k], Ended(k));
    }
  }

  lemma OpenTurnKeeps(s: State)
    requires Inv(s) && s.turn.None?
    ensures Inv(Begin(s, Span(TurnSpan, s.session, None), InTurn).(turn := Some(|s.spans|)))
  {
    var t := Begin(s, Span(TurnSpan, s.session, None), InTurn).(turn := Some(|s.spans|));
    assert s.session.Some? ==> At(s, s.session.value, InSession) && Fits(s.spans[s.session.value].kind, InSession);
    BeginKeepsLedger(s, Span(TurnSpan, s.session, None), InTurn);
    OpenTurnBooks(s);
    assert forall x :: 0 <= x < |s.spans| ==> Held(s, x, s.places[x]);
    assert Ledger(t);
  }

  lemma OpenTurnGrows(s: State)
    requires Books(s) && s.turn.None?
    ensures var t := Begin(s, Span(TurnSpan, s.session, None), InTurn).(turn := Some(|s.spans|));
            Placed(t) && Holding(t)
  {
    var t := Begin(s, Span(TurnSpan, s.session, None), InTurn).(turn := Some(|s.spans|));
    assert |s.places| == |s.spans|;
    hide Holding, Placed;
    HoldingGrows(s, t, InTurn);
    PlacedGrows(s, t, Span(TurnSpan, s.session, None), InTurn);
  }

  lemma OpenTurnBooks(s: State)
    requires Books(s) && s.turn.None?
    ensures Books(Begin(s, Span(TurnSpan, s.session, None), InTurn).(turn := Some(|s.spans|)))
  {
    var t := Begin(s, Span(TurnSpan, s.session, None), InTurn).(turn := Some(|s.spans|));
    hide Holding, Placed;
    OpenTurnGrows(s);
  }

  datatype Callback =
    | OnSessionStart
    | OnSessionEnd(open: seq<SpanId>)
    | OnPreTurn(open: seq<SpanId>)
    | OnPostTurn(open: seq<SpanId>)
    | OnStep(step: Step)
    | OnToolResult(call: string)
    | OnToolError(call: string)

  // The maps are walked in some order that lists all that is open.
  ghost predicate May(s: State, c: Callback) {
    c.OnSessionEnd? || c.OnPreTurn? || c.OnPostTurn? ==> Complete(s, c.open)
  }

  function React(s: State, c: Callback): State {
    match c
    case OnSessionStart => SessionStarted(s)
    case OnSessionEnd(open) => SessionEnded(s, open)
    case OnPreTurn(open) => TurnStarted(s, open)
    case OnPostTurn(open) => EndTurn(s, open)
    case OnStep(step) => Observed(s, step)
    case OnToolResult(call) => ToolReturned(s, call)
    case OnToolError(call) => EndTool(s, call)
  }

  lemma ReactKeeps(s: State, c: Callback)
    requires Inv(s) && May(s, c)
    ensures Inv(React(s, c))
  {
    hide Inv, Complete, EndTurn, Observed, ToolReturned, EndTool, SessionStarted;
    match c
    case OnSessionStart => SessionStartKeeps(s);
    case OnSessionEnd(open) =>
      EndTurnKeeps(s, open); EndTurnEnds(s, open);
      if EndTurn(s, open).session.Some? { EndSessionKeeps(EndTurn(s, open)); }
    case OnPreTurn(open) => EndTurnKeeps(s, open); EndTurnEnds(s, open); OpenTurnKeeps(EndTurn(s, open));
    case OnPostTurn(open) => EndTurnKeeps(s, open);
    case OnStep(step) => ObserveStepKeeps(s, step);
    case OnToolResult(call) => PostToolCallKeeps(s, call);
    case OnToolError(call) => EndToolKeeps(s, call);
  }

  lemma EndTurnEnds(s: State, open: seq<SpanId>)
    ensures EndTurn(s, open).turn.None? && EndTurn(s, open).session == s.session
    ensures EndTurn(s, open).spans == s.spans
  {
    if s.turn.Some? { EndAllLog(s, open + [s.turn.value]); }
  }

  // ----- a step index is never reopened --------------------------------------------------

  ghost predicate StepOf(s: State, x: int, traj: string) {
    && 0 <= x < |s.spans| && s.turn.Some? && s.spans[x].turn == s.turn
    && s.spans[x].kind.StepSpan? && s.spans[x].kind.traj == traj
  }

  /** The live turn's step spans that are behind the open step are covered by the closed mark. */
  ghost predicate Covered(s: State) {
    forall x, traj :: StepOf(s, x, traj) ==>
      || (traj in s.steps && s.steps[traj].id == x)
      || (traj in s.closed && s.spans[x].kind.index <= s.closed[traj])
  }

  /** Two step spans of one trajectory in one turn, the first started first. */
  predicate SameTrajectory(spans: seq<Span>, x: int, y: int) {
    && 0 <= x < y < |spans| && spans[x].turn == spans[y].turn
    && spans[x].kind.StepSpan? && spans[y].kind.StepSpan? && spans[x].kind.traj == spans[y].kind.traj
  }

  /** Within any turn, the step spans of a trajectory are started in increasing order of index. */
  ghost predicate StepsAscend(spans: seq<Span>) {
    forall x, y :: SameTrajectory(spans, x, y) ==> spans[x].kind.index < spans[y].kind.index
  }

  ghost predicate Indexed(s: State) { Covered(s) && StepsAscend(s.spans) }

  lemma EndStepIndexed(s: State, traj: string)
    requires Nesting(s) && Indexed(s)
    ensures Indexed(EndStep(s, traj))
  {
    var t := EndStep(s, traj);
    assert t.spans == s.spans;
    hide StepsAscend;
    forall x, u | StepOf(t, x, u)
      ensures (u in t.steps && t.steps[u].id == x) || (u in t.closed && t.spans[x].kind.index <= t.closed[u])
    {
      assert StepOf(s, x, u);
    }
  }

  lemma StillAscend(spans: seq<Span>, more: seq<Span>)
    requires StepsAscend(spans) && spans <= more
    requires forall x :: |spans| <= x < |more| ==> !more[x].kind.StepSpan?
    ensures StepsAscend(more)
  {
    forall x, y | SameTrajectory(more, x, y) ensures more[x].kind.index < more[y].kind.index {
      assert SameTrajectory(spans, x, y);
    }
  }

  /** Anything but a step may be started, and anything but a step's entry changed. */
  lemma OtherIndexed(s: State, t: State)
    requires Indexed(s) && t.steps == s.steps && t.closed == s.closed && t.turn == s.turn
    requires s.spans <= t.spans && forall x :: |s.spans| <= x < |t.spans| ==> !t.spans[x].kind.StepSpan?
    ensures Indexed(t)
  {
    StillAscend(s.spans, t.spans);
    hide StepsAscend;
    forall x, u | StepOf(t, x, u)
      ensures (u in t.steps && t.steps[u].id == x) || (u in t.closed && t.spans[x].kind.index <= t.closed[u])
    {
      assert StepOf(s, x, u);
    }
  }

  lemma OpenStepIndexed(s: State, traj: string, index: int)
    requires Indexed(s) && s.turn.Some? && (Delegated(s, traj) ==> traj in s.subagents) && traj !in s.steps
    requires traj in s.closed ==> s.closed[traj] < index
    ensures Indexed(OpenStepIn(s, traj, index))
  {
    OpenStepAscends(s, traj, index);
    hide StepsAscend;
    var t := OpenStepIn(s, traj, index);
    forall x, u | StepOf(t, x, u)
      ensures (u in t.steps && t.steps[u].id == x) || (u in t.closed && t.spans[x].kind.index <= t.closed[u])
    {
      assert x < |s.spans| ==> StepOf(s, x, u);
    }
  }

  lemma OpenStepAscends(s: State, traj: string, index: int)
    requires Indexed(s) && s.turn.Some? && (Delegated(s, traj) ==> traj in s.subagents) && traj !in s.steps
    requires traj in s.closed ==> s.closed[traj] < index
    ensures StepsAscend(OpenStepIn(s, traj, index).spans)
  {
    var t := OpenStepIn(s, traj, index);
    forall x, y | SameTrajectory(t.spans, x, y) ensures t.spans[x].kind.index < t.spans[y].kind.index {
      if y < |s.spans| { assert SameTrajectory(s.spans, x, y); } else { assert StepOf(s, x, traj); }
    }
  }

  lemma {:induction false} StartToolsFrame(s: State, parent: SpanId, calls: seq<ToolCall>)
    ensures var t := StartTools(s, parent, calls);
            && t.steps == s.steps && t.closed == s.closed && t.turn == s.turn && s.spans <= t.spans
            && forall x :: |s.spans| <= x < |t.spans| ==> !t.spans[x].kind.StepSpan?
    decreases |calls|
  {
    if calls != [] { StartToolsFrame(s, parent, calls[..|calls| - 1]); }
  }

  lemma RootingIndexed(s: State, traj: string)
    requires Indexed(s)
    ensures Indexed(Rooting(s, traj))
  {
    hide Indexed;
    OtherIndexed(s, Rooting(s, traj));
  }

  lemma ArrivedIndexed(s: State, step: Step)
    requires Inv(s) && s.turn.Some? && Indexed(s)
    ensures Indexed(Arrived(s, step))
  {
    RootingKeeps(s, step.traj);
    RootingIndexed(s, step.traj);
    var t := Rooting(s, step.traj);
    assert Nesting(t);
    hide Indexed, Nesting, Books, Ledger, Routes, Rooting;
    EndStepIndexed(t, step.traj);
  }

  lemma StartStepIndexed(s: State, traj: string, index: int)
    requires Indexed(s) && s.turn.Some? && traj !in s.steps && (traj in s.closed ==> s.closed[traj] < index)
    ensures Indexed(StartStep(s, traj, index))
  {
    hide Indexed;
    var t := if Delegated(s, traj) then Subagent(s, traj) else s;
    OtherIndexed(s, t);
    OpenStepIndexed(t, traj, index);
  }

  lemma UpdateIndexed(s: State, step: Step)
    requires Inv(s) && Indexed(s) && step.traj in s.steps
    ensures var v := StartTools(s, s.steps[step.traj].id, step.calls); Indexed(v) && Indexed(EndStep(v, step.traj))
  {
    var v := StartTools(s, s.steps[step.traj].id, step.calls);
    StartToolsKeeps(s, step.traj, step.calls);
    assert Nesting(v);
    hide Indexed, Nesting, Books, Ledger, Routes;
    StartToolsFrame(s, s.steps[step.traj].id, step.calls);
    OtherIndexed(s, v);
    EndStepIndexed(v, step.traj);
  }

  lemma ObserveStepIndexed(s: State, step: Step)
    requires Inv(s) && Indexed(s)
    ensures Indexed(Observed(s, step))
  {
    hide Inv, Indexed;
    if s.turn.Some? {
      ArrivedKeeps(s, step);
      ArrivedIndexed(s, step);
      var t := Arrived(s, step);
      if !Stale(t, step) {
        if step.traj in t.steps {
          UpdateIndexed(t, step);
        } else {
          StartStepKeeps(t, step.traj, step.index);
          StartStepIndexed(t, step.traj, step.index);
          UpdateIndexed(StartStep(t, step.traj, step.index), step);
        }
      }
    }
  }

  /** A turn begins with no steps of its own. */
  lemma NewTurnIndexed(s: State)
    requires Ledger(s) && StepsAscend(s.spans)
    ensures Indexed(Begin(s, Span(TurnSpan, s.session, None), InTurn).(turn := Some(|s.spans|)))
  {
    var t := Begin(s, Span(TurnSpan, s.session, None), InTurn).(turn := Some(|s.spans|));
    StillAscend(s.spans, t.spans);
    hide StepsAscend;
    assert forall x :: 0 <= x < |s.spans| ==> Rooted(s.spans, x);
  }

  lemma IdleIndexed(s: State)
    requires s.turn.None? && StepsAscend(s.spans)
    ensures Indexed(s)
  {}

  lemma CloseDelegateIndexed(s: State, call: string)
    requires Nesting(s) && Indexed(s) && call in s.trajectoryOfCall
    ensures var traj := s.trajectoryOfCall[call];
            Indexed(EndSubagent(EndStep(s, traj), traj).(trajectoryOfCall := s.trajectoryOfCall - {call}))
  {
    var traj := s.trajectoryOfCall[call];
    EndStepIndexed(s, traj);
    hide Indexed, Nesting, EndStep;
    var u := EndStep(s, traj);
    OtherIndexed(u, EndSubagent(u, traj).(trajectoryOfCall := s.trajectoryOfCall - {call}));
  }

  lemma EndToolIndexed(s: State, call: string)
    requires Indexed(s)
    ensures Indexed(EndTool(s, call))
  {
    hide Indexed;
    OtherIndexed(s, EndTool(s, call));
  }

  lemma PostToolCallIndexed(s: State, call: string)
    requires Inv(s) && Indexed(s)
    ensures Indexed(ToolReturned(s, call))
  {
    var t := EndTool(s, call);
    EndToolKeeps(s, call);
    EndToolIndexed(s, call);
    assert Nesting(t);
    hide Indexed, Inv, EndTool;
    if call in t.trajectoryOfCall { CloseDelegateIndexed(t, call); }
  }

  lemma PreTurnIndexed(s: State, open: seq<SpanId>)
    requires Inv(s) && Complete(s, open) && Indexed(s)
    ensures Indexed(TurnStarted(s, open))
  {
    hide Complete, EndTurn, StepsAscend;
    EndTurnKeeps(s, open);
    EndTurnEnds(s, open);
    NewTurnIndexed(EndTurn(s, open));
  }

  lemma SessionStartIndexed(s: State)
    requires Indexed(s)
    ensures Indexed(SessionStarted(s))
  {
    hide Indexed;
    OtherIndexed(s, SessionStarted(s));
  }

  lemma SessionEndIndexed(s: State, open: seq<SpanId>)
    requires StepsAscend(s.spans)
    ensures Indexed(SessionEnded(s, open)) && Indexed(EndTurn(s, open))
  {
    hide StepsAscend, Indexed;
    EndTurnEnds(s, open);
    hide EndTurn;
    IdleIndexed(EndTurn(s, open));
    IdleIndexed(SessionEnded(s, open));
  }

  lemma ReactIndexed(s: State, c: Callback)
    requires Inv(s) && May(s, c) && Indexed(s)
    ensures Indexed(React(s, c))
  {
    assert StepsAscend(s.spans);
    hide Indexed, Inv, Complete, EndTurn, Observed, ToolReturned, StepsAscend, SessionStarted, SessionEnded, EndTool;
    match c
    case OnSessionStart => SessionStartIndexed(s);
    case OnSessionEnd(open) => SessionEndIndexed(s, open);
    case OnPreTurn(open) => PreTurnIndexed(s, open);
    case OnPostTurn(open) => SessionEndIndexed(s, open);
    case OnStep(step) => ObserveStepIndexed(s, step);
    case OnToolResult(call) => PostToolCallIndexed(s, call);
    case OnToolError(call) => EndToolIndexed(s, call);
  }

  // ----- what holds in every reachable state ---------------------------------------------

  ghost predicate MayAll(s: State, cs: seq<Callback>)
    decreases |cs|
  {
    cs == [] || (May(s, cs[0]) && MayAll(React(s, cs[0]), cs[1..]))
  }

  function ReactAll(s: State, cs: seq<Callback>): State
    decreases |cs|
  {
    if cs == [] then s else ReactAll(React(s, cs[0]), cs[1..])
  }

  ghost predicate Reachable(s: State) { exists cs :: MayAll(NEW_TRACER, cs) && s == ReactAll(NEW_TRACER, cs) }

  lemma {:induction false} ReactAllKeeps(s: State, cs: seq<Callback>)
    requires Inv(s) && Indexed(s) && MayAll(s, cs)
    ensures Inv(ReactAll(s, cs)) && Indexed(ReactAll(s, cs))
    decreases |cs|
  {
    hide Inv, Indexed, May, React;
    if cs != [] {
      ReactKeeps(s, cs[0]);
      ReactIndexed(s, cs[0]);
      ReactAllKeeps(React(s, cs[0]), cs[1..]);
    }
  }

  lemma ReachableInv(s: State)
    requires Reachable(s)
    ensures Inv(s) && Indexed(s)
  {
    var cs :| MayAll(NEW_TRACER, cs) && s == ReactAll(NEW_TRACER, cs);
    FreshInv();
    IdleIndexed(NEW_TRACER);
    hide Inv, Indexed;
    ReactAllKeeps(NEW_TRACER, cs);
  }

  /** The field of the tracer named by the slot holds the span. */
  ghost predicate FieldHolds(s: State, x: SpanId, slot: Slot) { !slot.Ended? && slot != Lost && Held(s, x, slot) }

  /** Conservation: a span is ended at most once; it is held by at most one field, and by
    * none once ended; and one that is neither ended nor held was overwritten. */
  lemma EverySpanOnce(s: State, x: SpanId)
    requires Reachable(s) && x < |s.spans|
    ensures forall i, j | 0 <= i < |s.ended| && 0 <= j < |s.ended| :: (s.ended[i] == x && s.ended[j] == x ==> i == j)
    ensures forall a, b | FieldHolds(s, x, a) && FieldHolds(s, x, b) :: a == b
    ensures forall a | FieldHolds(s, x, a) :: x !in s.ended
    ensures x !in s.ended && (forall a :: !FieldHolds(s, x, a)) <==> At(s, x, Lost)
  {
    ReachableInv(s);
    forall a | FieldHolds(s, x, a) ensures At(s, x, a) {}
    forall k | 0 <= k < |s.ended| && s.ended[k] == x ensures At(s, x, Ended(k)) { assert At(s, s.ended[k], Ended(k)); }
    assert Held(s, x, s.places[x]);
    assert At(s, x, Lost) || s.places[x].Ended? || FieldHolds(s, x, s.places[x]);
    hide Books, Ledger, Nesting, Routes, Indexed;
  }

  /** Inside out: a step ends before its turn or subagent, a subagent before its turn, a turn
    * before its session, and every step, subagent and tool before the turn that started it. */
  lemma EndsInsideOut(s: State, i: nat, p: SpanId, x: SpanId)
    requires Reachable(s) && i < |s.ended| && s.ended[i] == p && IsChild(s.spans, x, p)
    ensures x in s.ended[..i]
  {
    ReachableInv(s);
    assert At(s, p, Ended(i)) && Rooted(s.spans, x) && Held(s, x, s.places[x]);
    assert EndsBefore(s.places, x, p);
    assert s.ended[..i][s.places[x].at] == x;
  }

  /** Between turns nothing of a turn is open or remembered. */
  lemma IdleIsEmpty(s: State)
    requires Reachable(s) && s.turn.None?
    ensures s.steps == map[] && s.subagents == map[] && s.tools == map[] && s.trajectoryOfCall == map[]
    ensures s.closed == map[] && s.pending == [] && s.main == ""
    ensures forall x :: 0 <= x < |s.spans| && s.spans[x].turn.Some? ==> x in s.ended
  {
    ReachableInv(s);
    forall x | 0 <= x < |s.spans| && s.spans[x].turn.Some? ensures x in s.ended {
      assert Held(s, x, s.places[x]) && Rooted(s.spans, x) && Fits(s.spans[x].kind, s.places[x]);
    }
  }

  /** A delegated trajectory's open step nests in that trajectory's live span, and a call
    * closes at most one delegate, a live one that no other call closes. */
  lemma DelegatesLive(s: State)
    requires Reachable(s)
    ensures forall t :: t in s.steps && Delegated(s, t) ==>
              && t in s.subagents && s.steps[t].id < |s.spans|
              && s.spans[s.steps[t].id].parent == Some(s.subagents[t])
    ensures forall c :: c in s.trajectoryOfCall ==> s.trajectoryOfCall[c] in s.subagents
    ensures forall c, d | c in s.trajectoryOfCall && d in s.trajectoryOfCall ::
              (s.trajectoryOfCall[c] == s.trajectoryOfCall[d] ==> c == d)
  {
    ReachableInv(s);
  }

  /** Within one turn, live or past, the steps of a trajectory are opened in increasing order, so a
    * late update never reopens one. */
  lemma StepsNeverReopened(s: State, x: nat, y: nat)
    requires Reachable(s) && x < y < |s.spans| && s.spans[x].turn == s.spans[y].turn
    requires s.spans[x].kind.StepSpan? && s.spans[y].kind.StepSpan? && s.spans[x].kind.traj == s.spans[y].kind.traj
    ensures s.spans[x].kind.index < s.spans[y].kind.index
  {
    ReachableInv(s);
    hide Inv, Covered;
    assert SameTrajectory(s.spans, x, y);
  }

  /** Ending the session ends every span that was not overwritten. */
  lemma SessionEndEndsAll(s: State, open: seq<SpanId>, x: SpanId)
    requires Inv(s) && Complete(s, open)
    ensures var t := SessionEnded(s, open);
            t.session.None? && t.turn.None? && (x < |t.spans| ==> x in t.ended || At(t, x, Lost))
  {
    ReactKeeps(s, OnSessionEnd(open));
    EndTurnEnds(s, open);
    var t := SessionEnded(s, open);
    if x < |t.spans| {
      assert Held(t, x, t.places[x]);
    }
  }

  // ----- the one way to lose a span ------------------------------------------------------

  ghost predicate SameLost(s: State, t: State) { forall x :: At(s, x, Lost) <==> At(t, x, Lost) }

  lemma EndOneSameLost(s: State, p: SpanId, slot: Slot, t: State)
    requires At(s, p, slot) && slot != Lost && t.places == End(s, p).places
    ensures SameLost(s, t)
  {}

  lemma EndStepSameLost(s: State, traj: string)
    requires Holding(s)
    ensures SameLost(s, EndStep(s, traj))
  {
    if traj in s.steps { EndOneSameLost(s, s.steps[traj].id, InStep(traj), EndStep(s, traj)); }
  }

  lemma EndToolSameLost(s: State, call: string)
    requires Holding(s)
    ensures SameLost(s, EndTool(s, call))
  {
    if call in s.tools { EndOneSameLost(s, s.tools[call], InTool(call), EndTool(s, call)); }
  }

  lemma EndSubagentSameLost(s: State, traj: string)
    requires Holding(s)
    ensures SameLost(s, EndSubagent(s, traj))
  {
    if traj in s.subagents { EndOneSameLost(s, s.subagents[traj], InSubagent(traj), EndSubagent(s, traj)); }
  }

  lemma InvHolds(s: State)
    requires Inv(s)
    ensures Holding(s)
  {}

  lemma {:induction false} StartToolsSameLost(s: State, parent: SpanId, calls: seq<ToolCall>)
    ensures SameLost(s, StartTools(s, parent, calls))
    decreases |calls|
  {
    if calls != [] { StartToolsSameLost(s, parent, calls[..|calls| - 1]); }
  }

  lemma StartStepSameLost(s: State, traj: string, index: int)
    ensures SameLost(s, StartStep(s, traj, index))
  {}

  lemma UpdateSameLost(s: State, step: Step)
    requires Inv(s) && step.traj in s.steps
    ensures var v := StartTools(s, s.steps[step.traj].id, step.calls);
            SameLost(s, v) && SameLost(s, EndStep(v, step.traj))
  {
    hide Inv, Holding;
    StartToolsSameLost(s, s.steps[step.traj].id, step.calls);
    StartToolsKeeps(s, step.traj, step.calls);
    InvHolds(StartTools(s, s.steps[step.traj].id, step.calls));
    EndStepSameLost(StartTools(s, s.steps[step.traj].id, step.calls), step.traj);
  }

  lemma ObserveStepSameLost(s: State, step: Step)
    requires Inv(s)
    ensures SameLost(s, Observed(s, step))
  {
    hide Inv, Holding;
    if s.turn.Some? {
      RootingKeeps(s, step.traj);
      InvHolds(Rooting(s, step.traj));
      EndStepSameLost(Rooting(s, step.traj), step.traj);
      ArrivedKeeps(s, step);
      var t := Arrived(s, step);
      assert SameLost(s, t);
      if !Stale(t, step) {
        if step.traj in t.steps {
          UpdateSameLost(t, step);
        } else {
          StartStepKeeps(t, step.traj, step.index);
          StartStepSameLost(t, step.traj, step.index);
          StartStepOpens(t, step.traj, step.index);
          hide StartStep;
          UpdateSameLost(StartStep(t, step.traj, step.index), step);
        }
      }
    }
  }

  lemma StartStepOpens(s: State, traj: string, index: int)
    ensures traj in StartStep(s, traj, index).steps
  {}

  lemma PostToolCallSameLost(s: State, call: string)
    requires Inv(s)
    ensures SameLost(s, ToolReturned(s, call))
  {
    hide Inv, Holding;
    InvHolds(s);
    EndToolSameLost(s, call);
    EndToolKeeps(s, call);
    var t := EndTool(s, call);
    InvHolds(t);
    if call in t.trajectoryOfCall {
      var traj := t.trajectoryOfCall[call];
      EndStepSameLost(t, traj);
      EndStepKeeps(t, traj);
      InvHolds(EndStep(t, traj));
      EndSubagentSameLost(EndStep(t, traj), traj);
    }
  }

  lemma EndTurnSameLost(s: State, open: seq<SpanId>)
    requires Inv(s) && Complete(s, open)
    ensures SameLost(s, EndTurn(s, open))
  {
    if s.turn.Some? {
      EndAllLog(s, open + [s.turn.value]);
      forall x | 0 <= x < |s.places| ensures At(s, x, Lost) <==> At(EndTurn(s, open), x, Lost) {
        EndTurnPlace(s, open, x);
      }
    }
  }

  lemma SessionEndSameLost(s: State, open: seq<SpanId>)
    requires Inv(s) && Complete(s, open)
    ensures SameLost(s, SessionEnded(s, open))
  {
    hide Inv, Complete, EndTurn;
    EndTurnSameLost(s, open);
    EndTurnKeeps(s, open);
    var t := EndTurn(s, open);
    InvHolds(t);
    if t.session.Some? { EndOneSameLost(t, t.session.value, InSession, SessionEnded(s, open)); }
  }

  lemma LoseSession(s: State, x: SpanId)
    requires Holding(s)
    ensures At(SessionStarted(s), x, Lost) <==> At(s, x, Lost) || s.session == Some(x)
  {
    assert s.session.Some? ==> At(s, s.session.value, InSession);
    hide Holding;
  }

  lemma SessionStartLoses(s: State, x: SpanId)
    requires Inv(s)
    ensures At(SessionStarted(s), x, Lost) <==> At(s, x, Lost) || s.session == Some(x)
  {
    InvHolds(s);
    LoseSession(s, x);
    hide Inv, Holding;
  }

  /** A callback leaves a span neither ended nor held only by starting a session over a live
    * one, and then just that one's span. */
  lemma LostOnlyByRestart(s: State, c: Callback, x: SpanId)
    requires Inv(s) && May(s, c)
    ensures At(React(s, c), x, Lost) <==> At(s, x, Lost) || (c.OnSessionStart? && s.session == Some(x))
  {
    hide Inv, Complete, EndTurn, Observed, ToolReturned, EndTool, SessionStarted;
    match c
    case OnSessionStart => SessionStartLoses(s, x);
    case OnSessionEnd(open) => SessionEndSameLost(s, open);
    case OnPreTurn(open) => EndTurnSameLost(s, open);
    case OnPostTurn(open) => EndTurnSameLost(s, open);
    case OnStep(step) => ObserveStepSameLost(s, step);
    case OnToolResult(call) => PostToolCallSameLost(s, call);
    case OnToolError(call) => InvHolds(s); EndToolSameLost(s, call);
  }

  ghost predicate NeverRestarted(s: State, cs: seq<Callback>)
    decreases |cs|
  {
    cs == [] || ((cs[0].OnSessionStart? ==> s.session.None?) && NeverRestarted(React(s, cs[0]), cs[1..]))
  }

  /** So if no session is started over a live one, no span is ever lost. */
  lemma {:induction false} NothingLost(s: State, cs: seq<Callback>)
    requires Inv(s) && MayAll(s, cs) && NeverRestarted(s, cs)
    requires forall x :: !At(s, x, Lost)
    ensures forall x :: !At(ReactAll(s, cs), x, Lost)
    decreases |cs|
  {
    hide Inv, May, React;
    if cs != [] {
      ReactKeeps(s, cs[0]);
      forall x ensures !At(React(s, cs[0]), x, Lost) { LostOnlyByRestart(s, cs[0], x); }
      NothingLost(React(s, cs[0]), cs[1..]);
    }
  }

  // ----- the tracer itself ---------------------------------------------------------------

  lemma {:induction false} EndAllSnoc(s: State, ids: seq<SpanId>, x: SpanId)
    ensures EndAll(s, ids + [x]) == End(EndAll(s, ids), x)
    decreases |ids|
  {
    if ids == [] {
      assert [] + [x] == [x];
    } else {
      assert (ids + [x])[1..] == ids[1..] + [x];
      EndAllSnoc(End(s, ids[0]), ids[1..], x);
    }
  }

  lemma {:induction false} EndAllJoin(s: State, a: seq<SpanId>, b: seq<SpanId>)
    ensures EndAll(s, a + b) == EndAll(EndAll(s, a), b)
    decreases |a|
  {
    if a == [] {
      assert a + b == b;
    } else {
      assert (a + b)[1..] == a[1..] + b;
      EndAllJoin(End(s, a[0]), a[1..], b);
    }
  }

  /** Ending spans depends on the places and the log alone. */
  lemma {:induction false} EndAllSame(s: State, t: State, ids: seq<SpanId>)
    requires s.places == t.places && s.ended == t.ended
    ensures EndAll(s, ids).places == EndAll(t, ids).places && EndAll(s, ids).ended == EndAll(t, ids).ended
    decreases |ids|
  {
    if ids != [] { EndAllSame(End(s, ids[0]), End(t, ids[0]), ids[1..]); }
  }

  lemma ClearedEnd(s: State, t: State, x: SpanId)
    requires Cleared(s) == Cleared(t)
    ensures Cleared(End(s, x)) == Cleared(End(t, x))
  {
    var u, v := Cleared(s), Cleared(t);
    assert u.places == s.places && v.places == t.places && u.ended == s.ended && v.ended == t.ended;
  }

  /** Ending the three groups one after the other is one sweep. */
  lemma GroupsJoin(s: State, a: seq<SpanId>, b: seq<SpanId>, c: seq<SpanId>, closed: map<string, int>)
    ensures var s1 := EndAll(s, a).(steps := map[], closed := closed);
            Cleared(EndAll(EndAll(s1, b), c).(tools := map[])) == Cleared(EndAll(s, a + b + c))
  {
    var s1 := EndAll(s, a).(steps := map[], closed := closed);
    EndAllJoin(s1, b, c);
    EndAllJoin(s, a, b + c);
    assert a + (b + c) == a + b + c;
    EndAllSame(s1, EndAll(s, a), b + c);
    EndAllLog(s1, b + c);
    EndAllLog(s, a);
    EndAllLog(EndAll(s, a), b + c);
    hide EndAll;
  }

  lemma ThreeGroups(s: State, a: seq<SpanId>, b: seq<SpanId>, c: seq<SpanId>, closed: map<string, int>)
    ensures var s1 := EndAll(s, a).(steps := map[], closed := closed);
            var s3 := EndAll(EndAll(s1, b), c).(tools := map[]);
            forall x :: Cleared(End(s3, x)) == Cleared(EndAll(s, a + b + c + [x]))
  {
    var s1 := EndAll(s, a).(steps := map[], closed := closed);
    var s3 := EndAll(EndAll(s1, b), c).(tools := map[]);
    GroupsJoin(s, a, b, c, closed);
    hide EndAll, Cleared;
    forall x ensures Cleared(End(s3, x)) == Cleared(EndAll(s, a + b + c + [x])) {
      EndAllSnoc(s, a + b + c, x);
      ClearedEnd(s3, EndAll(s, a + b + c), x);
    }
  }

  lemma IdleComplete(s: State)
    requires s.turn.None?
    ensures Complete(s, []) && EndTurn(s, []) == s
  {}

  ghost function Swept(s: State, w: Sweep, marks: map<string, int>): State
    requires Sweeps(s, w)
  {
    var s1 := EndAll(s, StepIds(s, w.steps)).(steps := map[], closed := marks);
    EndAll(EndAll(s1, Ids(s.subagents, w.subagents)), Ids(s.tools, w.tools)).(tools := map[])
  }

  lemma SweptTurn(s: State, w: Sweep, marks: map<string, int>)
    requires Inv(s) && Sweeps(s, w) && s.turn.Some?
    ensures Complete(s, Opened(s, w))
    ensures EndTurn(s, Opened(s, w)) == Cleared(End(Swept(s, w, marks), s.turn.value))
    ensures Swept(s, w, marks).steps == map[] && Swept(s, w, marks).tools == map[]
  {
    hide Inv, Complete;
    SweepComplete(s, w);
    ThreeGroups(s, StepIds(s, w.steps), Ids(s.subagents, w.subagents), Ids(s.tools, w.tools), marks);
    var s1 := EndAll(s, StepIds(s, w.steps)).(steps := map[], closed := marks);
    EndAllLog(s1, Ids(s.subagents, w.subagents));
    EndAllLog(EndAll(s1, Ids(s.subagents, w.subagents)), Ids(s.tools, w.tools));
  }

  lemma EndAllNone(s: State)
    ensures EndAll(s, []) == s
  {}

  class Tracer {
    var session: Option<SpanId>
    var turn: Option<SpanId>
    var mainTrajectory: string
    var steps: map<string, OpenStep>
    var closed: map<string, int>
    var subagents: map<string, SpanId>
    var trajectoryOfCall: map<string, string>
    var pending: seq<Delegation>
    var tools: map<string, SpanId>

    // what the tracing backend has been told, and where each span is
    var spans: seq<Span>
    var ended: seq<SpanId>
    ghost var places: seq<Slot>

    ghost function View(): State reads this {
      State(session, turn, mainTrajectory, steps, closed, subagents, trajectoryOfCall, pending, tools,
            spans, ended, places)
    }

    /** What every callback, in any order, relies on and keeps. */
    ghost predicate Valid() reads this { Inv(View()) && Indexed(View()) }

    constructor ()
      ensures View() == NEW_TRACER && Valid()
    {
      session, turn, mainTrajectory := None, None, "";
      steps, closed, subagents, trajectoryOfCall, tools := map[], map[], map[], map[], map[];
      pending, spans, ended, places := [], [], [], [];
      new;
      FreshInv();
      IdleIndexed(NEW_TRACER);
    }

    ghost method Reacted(s: State, c: Callback)
      requires Inv(s) && Indexed(s) && May(s, c) && View() == React(s, c)
      ensures Valid()
    {
      hide Inv, Indexed, May, React;
      ReactKeeps(s, c);
      ReactIndexed(s, c);
    }

    method StartSpan(span: Span, ghost slot: Slot) returns (id: SpanId)
      modifies `spans, `places
      ensures View() == Begin(old(View()), span, slot) && id == |old(spans)|
    {
      id := |spans|;
      spans, places := spans + [span], places + [slot];
    }

    method EndSpan(id: SpanId)
      modifies `ended, `places
      ensures View() == End(old(View()), id)
    {
      places := if id < |places| then places[id := Ended(|ended|)] else places;
      ended := ended + [id];
    }

    method SessionStart()
      requires Valid()
      modifies this
      ensures Valid()
      ensures View() == SessionStarted(old(View()))
    {
      hide Inv, Indexed;
      ghost var s := View();
      if session.Some? && session.value < |places| {
        places := places[session.value := Lost];
      }
      var id := StartSpan(Span(SessionSpan, None, None), InSession);
      session := Some(id);
      Reacted(s, OnSessionStart);
    }

    method EndStepLocked(traj: string)
      modifies this
      ensures View() == EndStep(old(View()), traj)
    {
      if traj in steps {
        var current := steps[traj];
        EndSpan(current.id);
        closed := closed[traj := current.index];
        steps := steps - {traj};
      }
    }

    method EndSteps() returns (ghost keys: seq<string>)
      modifies this
      ensures Lists(keys, old(steps).Keys)
      ensures View() == EndAll(old(View()), StepIds(old(View()), keys)).(steps := map[], closed := closed)
    {
      keys := [];
      ghost var s := View();
      assert StepIds(s, keys) == [];
      EndAllNone(s);
      while steps != map[]
        invariant Walked(keys, s.steps.Keys, steps.Keys) && (forall k :: k in keys ==> k in s.steps)
        invariant forall k :: k in steps ==> k in s.steps && steps[k] == s.steps[k]
        invariant View() == EndAll(s, StepIds(s, keys)).(steps := steps, closed := closed)
        decreases |steps|
      {
        hide EndAll, StepIds, Walked;
        var traj :| traj in steps;
        ghost var before := steps;
        EndAllSnoc(s, StepIds(s, keys), steps[traj].id);
        EndStepLocked(traj);
        StepIdsSnoc(s, keys, traj);
        WalkNext(keys, s.steps.Keys, before.Keys, traj);
        keys := keys + [traj];
        assert steps.Keys == before.Keys - {traj};
        WalkedIn(keys, s.steps.Keys, steps.Keys);
      }
      WalkedIn(keys, s.steps.Keys, steps.Keys);
    }

    method EndSubagents() returns (ghost keys: seq<string>)
      modifies `ended, `places
      ensures Lists(keys, subagents.Keys)
      ensures View() == EndAll(old(View()), Ids(subagents, keys))
    {
      keys := [];
      ghost var s := View();
      var rest := subagents.Keys;
      assert Ids(subagents, keys) == [];
      EndAllNone(s);
      while rest != {}
        invariant Walked(keys, subagents.Keys, rest) && (forall k :: k in keys ==> k in subagents)
        invariant View() == EndAll(s, Ids(subagents, keys))
        decreases |rest|
      {
        hide EndAll, Ids, Walked;
        var traj :| traj in rest;
        WalkNext(keys, subagents.Keys, rest, traj);
        EndAllSnoc(s, Ids(subagents, keys), subagents[traj]);
        EndSpan(subagents[traj]);
        IdsSnoc(subagents, keys, traj);
        keys := keys + [traj];
        rest := rest - {traj};
        WalkedIn(keys, subagents.Keys, rest);
      }
      WalkedIn(keys, subagents.Keys, rest);
    }

    method EndTools() returns (ghost keys: seq<string>)
      modifies this
      ensures Lists(keys, old(tools).Keys)
      ensures View() == EndAll(old(View()), Ids(old(tools), keys)).(tools := map[])
    {
      keys := [];
      ghost var s := View();
      assert Ids(s.tools, keys) == [];
      EndAllNone(s);
      while tools != map[]
        invariant Walked(keys, s.tools.Keys, tools.Keys) && (forall k :: k in keys ==> k in s.tools)
        invariant forall k :: k in tools ==> k in s.tools && tools[k] == s.tools[k]
        invariant View() == EndAll(s, Ids(s.tools, keys)).(tools := tools)
        decreases |tools|
      {
        hide EndAll, Ids, Walked;
        var call :| call in tools;
        ghost var before := tools;
        EndAllSnoc(s, Ids(s.tools, keys), tools[call]);
        EndSpan(tools[call]);
        tools := tools - {call};
        IdsSnoc(s.tools, keys, call);
        WalkNext(keys, s.tools.Keys, before.Keys, call);
        keys := keys + [call];
        assert tools.Keys == before.Keys - {call};
        WalkedIn(keys, s.tools.Keys, tools.Keys);
      }
      WalkedIn(keys, s.tools.Keys, tools.Keys);
    }

    /** Ends the open steps, then the subagents, then the tools. */
    method SweepLocked() returns (ghost w: Sweep, ghost marks: map<string, int>)
      modifies this
      ensures Sweeps(old(View()), w) && View() == Swept(old(View()), w, marks) && turn == old(turn)
    {
      ghost var s := View();
      ghost var a := EndSteps();
      EndAllLog(s, StepIds(s, a));
      marks := closed;
      ghost var b := EndSubagents();
      ghost var s2 := View();
      EndAllLog(EndAll(s, StepIds(s, a)).(steps := map[], closed := marks), Ids(s.subagents, b));
      ghost var c := EndTools();
      EndAllLog(s2, Ids(s.tools, c));
      w := Sweep(a, b, c);
    }

    /** Closes the turn and everything open beneath it, each map walked in some order. */
    method EndTurnLocked() returns (ghost open: seq<SpanId>)
      requires Inv(View())
      modifies this
      ensures Complete(old(View()), open) && View() == EndTurn(old(View()), open)
    {
      hide Inv, Complete, EndTurn, Swept, Sweeps;
      open := [];
      ghost var s := View();
      if turn.None? { IdleComplete(s); return; }
      ghost var w, marks := SweepLocked();
      SweptTurn(s, w, marks);
      open := Opened(s, w);
      EndSpan(turn.value);
      assert steps == map[] && tools == map[];
      Forget();
    }

    method Forget()
      requires steps == map[] && tools == map[]
      modifies `subagents, `trajectoryOfCall, `closed, `pending, `mainTrajectory, `turn
      ensures View() == Cleared(old(View()))
    {
      subagents, trajectoryOfCall, closed, pending := map[], map[], map[], [];
      mainTrajectory, turn := "", None;
    }

    method SessionEnd() returns (ghost open: seq<SpanId>)
      requires Valid()
      modifies this
      ensures Valid()
      ensures Complete(old(View()), open) && View() == SessionEnded(old(View()), open)
    {
      hide Inv, Indexed, Complete, EndTurn;
      ghost var s := View();
      open := EndTurnLocked();
      if session.Some? {
        EndSpan(session.value);
        session := None;
      }
      Reacted(s, OnSessionEnd(open));
    }

    method PreTurn() returns (ghost open: seq<SpanId>)
      requires Valid()
      modifies this
      ensures Valid()
      ensures Complete(old(View()), open) && View() == TurnStarted(old(View()), open)
    {
      hide Inv, Indexed, Complete, EndTurn;
      ghost var s := View();
      open := EndTurnLocked();
      var id := StartSpan(Span(TurnSpan, session, None), InTurn);
      turn := Some(id);
      Reacted(s, OnPreTurn(open));
    }

    method PostTurn() returns (ghost open: seq<SpanId>)
      requires Valid()
      modifies this
      ensures Valid()
      ensures Complete(old(View()), open) && View() == EndTurn(old(View()), open)
    {
      hide Inv, Indexed, Complete, EndTurn;
      ghost var s := View();
      open := EndTurnLocked();
      Reacted(s, OnPostTurn(open));
    }

    method SubagentLocked(traj: string) returns (id: SpanId)
      modifies this
      ensures View() == Subagent(old(View()), traj)
      ensures traj in subagents && id == subagents[traj]
    {
      if traj in subagents { return subagents[traj]; }
      var name := "subagent";
      if pending != [] {
        name := pending[0].name;
        trajectoryOfCall := trajectoryOfCall[pending[0].call := traj];
        pending := pending[1..];
      }
      id := StartSpan(Span(SubagentSpan(traj, name), turn, turn), InSubagent(traj));
      subagents := subagents[traj := id];
    }

    method StartStepLocked(traj: string, index: int) returns (current: OpenStep)
      modifies this
      ensures View() == StartStep(old(View()), traj, index)
      ensures traj in steps && current == steps[traj]
    {
      var parent := turn;
      if traj != mainTrajectory && traj != "" {
        var id := SubagentLocked(traj);
        parent := Some(id);
      }
      var id := StartSpan(Span(StepSpan(traj, index), parent, turn), InStep(traj));
      current := OpenStep(id, index);
      steps := steps[traj := current];
    }

    method StartToolLocked(parent: SpanId, call: ToolCall)
      modifies this
      ensures View() == StartTool(old(View()), parent, call)
    {
      if call.id == "" || call.id in tools { return; }
      var id := StartSpan(Span(ToolSpan(call.id), Some(parent), turn), InTool(call.id));
      tools := tools[call.id := id];
      if call.name == START_SUBAGENT {
        pending := pending + [Delegation(call.id, call.delegate)];
      }
    }

    method StartToolsLocked(parent: SpanId, calls: seq<ToolCall>)
      modifies this
      ensures View() == StartTools(old(View()), parent, calls)
    {
      ghost var s := View();
      var i := 0;
      while i < |calls|
        invariant 0 <= i <= |calls|
        invariant View() == StartTools(s, parent, calls[..i])
      {
        assert calls[..i + 1][..i] == calls[..i];
        StartToolLocked(parent, calls[i]);
        i := i + 1;
      }
      assert calls[..i] == calls;
    }

    method Observe(step: Step)
      modifies this
      ensures View() == Observed(old(View()), step)
    {
      if turn.None? { return; }
      if mainTrajectory == "" { mainTrajectory := step.traj; }
      if step.traj in steps && steps[step.traj].index != step.index {
        EndStepLocked(step.traj);
      }
      ghost var arrived := View();
      if step.traj !in steps {
        if step.traj in closed && step.index <= closed[step.traj] { return; }
        var current := StartStepLocked(step.traj, step.index);
      }
      StartToolsLocked(steps[step.traj].id, step.calls);
      if Settled(step.status) {
        EndStepLocked(step.traj);
      }
    }

    method ObserveStep(step: Step)
      requires Valid()
      modifies this
      ensures Valid()
      ensures View() == Observed(old(View()), step)
    {
      hide Inv, Indexed, Observed;
      ghost var s := View();
      Observe(step);
      Reacted(s, OnStep(step));
    }

    method PostToolCall(call: string)
      requires Valid()
      modifies this
      ensures Valid()
      ensures View() == ToolReturned(old(View()), call)
    {
      hide Inv, Indexed;
      ghost var s := View();
      if call in tools {
        EndSpan(tools[call]);
        tools := tools - {call};
      }
      if call in trajectoryOfCall { CloseDelegate(call); }
      Reacted(s, OnToolResult(call));
    }

    method CloseDelegate(call: string)
      requires call in trajectoryOfCall
      modifies this
      ensures var s, traj := old(View()), old(trajectoryOfCall[call]);
        View() == EndSubagent(EndStep(s, traj), traj).(trajectoryOfCall := s.trajectoryOfCall - {call})
    {
      var traj := trajectoryOfCall[call];
      EndStepLocked(traj);
      if traj in subagents {
        EndSpan(subagents[traj]);
        subagents := subagents - {traj};
      }
      trajectoryOfCall := trajectoryOfCall - {call};
    }

    method ToolError(call: string)
      requires Valid()
      modifies this
      ensures Valid()
      ensures View() == EndTool(old(View()), call)
    {
      hide Inv, Indexed;
      ghost var s := View();
      if call in tools {
        EndSpan(tools[call]);
        tools := tools - {call};
      }
      Reacted(s, OnToolError(call));
    }
  }
}
