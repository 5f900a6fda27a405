/** The turn protocol of a session: the read loop and its tool goroutines feed one bounded
  * queue, readers drain it into history, and a sender closes one turn and opens the next.
  *
  * Every action is one atomic step of one goroutine.  Queueing the idle marker and opening
  * the idle gate are two steps, as they are in the program.  Items carry the turn whose
  * output they are; that tag and the logs at the end of `State` are history variables.
  */
module TurnProtocol {
  import opened Options

  const QUEUE_CAP := 64

  datatype StepId = Update(traj: string, n: nat) | Announce(call: nat)

  datatype Event = StepEv(step: StepId) | ErrEv | Idle

  datatype Item = Item(turn: nat, ev: Event)

  // ----- the harness and what it sends ---------------------------------------------------

  datatype TrajState = Running | FullyIdle | Cancelled | Other

  datatype Output =
    | StepUpdate(traj: string, n: nat)
    | StateUpdate(traj: string, state: TrajState, failed: bool)
    | ToolCall(call: nat)

  // `routed` records whether the turn's first step had been sent before this output.
  datatype Wired = Wired(turn: nat, routed: bool, out: Output)

  datatype Harness = Harness(turn: nat, active: bool, main: string, stepped: bool,
                             nextCall: nat, outstanding: set<nat>)

  // ----- the client ----------------------------------------------------------------------

  // What the read loop still has to do for the output it received.
  datatype Micro = Emit(item: Item) | OpenGate | CloseGate

  datatype Tool = Tool(turn: nat, announced: bool)

  // One run of Conversation.Steps: it holds recvMu from its first step to its last.
  datatype Session = Session(drain: bool, seen: seq<Item>, inHand: Option<Item>, failed: bool)

  // Where Conversation.Send is.
  datatype Pc = Ready | CheckGate | CheckQueue | WaitDrain | Draining | Commit | Reset | Regate | Flush | Input

  datatype Start = Start(turn: nat, pos: nat)

  datatype State = State(
    queue: seq<Item>, gate: bool, main: string,
    wire: seq<Wired>, todo: seq<Micro>, tools: map<nat, Tool>,
    h: Harness,
    reader: Option<Session>, pc: Pc,
    history: seq<Item>, starts: seq<Start>,
    emitted: seq<Item>, taken: seq<Item>, discarded: seq<Item>)

  const INIT: State :=
    State([], true, "", [], [], map[], Harness(0, false, "", false, 0, {}),
          None, Ready, [], [], [], [], [])

  datatype HarnessAct =
    | SendStep(traj: string, n: nat)
    | SendState(traj: string, state: TrajState, failed: bool)
    | SendCall
    | SendEnd(cancelled: bool, failed: bool)

  datatype ReadAct = Begin | Take | Process | Stop

  datatype SendAct = Call | TestGate | TestQueue | Drain | RecordStart | ClearMain | CloseIdle | FlushQueue
                   | Deliver(ok: bool, main: string)

  datatype Action =
    | ByHarness(e: HarnessAct)
    | Receive
    | Work
    | AnnounceTool(id: nat)
    | AnswerTool(id: nat)
    | ByReader(r: ReadAct)
    | BySender(d: SendAct)

  // ----- the steps -----------------------------------------------------------------------

  predicate Ends(state: TrajState) { state == FullyIdle || state == Cancelled }

  /** How the read loop routes one output: the new main trajectory and the work it causes. */
  function Route(main: string, w: Wired): (string, seq<Micro>) {
    match w.out
    case StepUpdate(traj, n) =>
      (if main == "" && traj != "" then traj else main, [Emit(Item(w.turn, StepEv(Update(traj, n))))])
    case StateUpdate(traj, state, failed) =>
      if main != "" && traj != main then (main, []) else
      (main,
       match state
       case Running => [CloseGate]
       case FullyIdle =>
         if failed then [Emit(Item(w.turn, ErrEv)), Emit(Item(w.turn, Idle)), OpenGate]
         else [Emit(Item(w.turn, Idle)), OpenGate]
       case Cancelled => [Emit(Item(w.turn, ErrEv)), Emit(Item(w.turn, Idle)), OpenGate]
       case Other => [])
    case ToolCall(_) => (main, [])
  }

  /** The rules the harness keeps: it sends a turn's events only after the turn's user
    * input, its first step is the main trajectory's, no subagent reports before that step,
    * and it ends the turn once, last, when every tool call has been answered. */
  predicate HarnessMay(h: Harness, e: HarnessAct) {
    h.active &&
    match e
    case SendStep(traj, _) => h.stepped || traj == h.main
    case SendState(traj, state, _) => !(traj == h.main && Ends(state)) && (h.stepped || traj == h.main)
    case SendCall => true
    case SendEnd(_, _) => h.outstanding == {}
  }

  predicate ReaderMay(s: State, r: ReadAct) {
    match r
    case Begin => s.reader.None?
    case Take => s.reader.Some? && s.reader.value.inHand.None? && s.queue != []
    case Process => s.reader.Some? && s.reader.value.inHand.Some?
    case Stop => s.reader.Some? && s.reader.value.inHand.None?
  }

  predicate SenderMay(s: State, d: SendAct) {
    match d
    case Call => s.pc == Ready
    case TestGate => s.pc == CheckGate
    case TestQueue => s.pc == CheckQueue
    case Drain => s.pc == WaitDrain && s.reader.None?
    case RecordStart => s.pc == Commit
    case ClearMain => s.pc == Reset
    case CloseIdle => s.pc == Regate
    case FlushQueue => s.pc == Flush
    case Deliver(_, main) => s.pc == Input && main != ""
  }

  predicate Enabled(s: State, a: Action) {
    match a
    case ByHarness(e) => HarnessMay(s.h, e)
    case Receive => s.wire != [] && s.todo == []
    case Work => s.todo != [] && (s.todo[0].Emit? ==> |s.queue| < QUEUE_CAP)
    case AnnounceTool(id) => id in s.tools && !s.tools[id].announced && |s.queue| < QUEUE_CAP
    case AnswerTool(id) => id in s.tools && s.tools[id].announced
    case ByReader(r) => ReaderMay(s, r)
    case BySender(d) => SenderMay(s, d)
  }

  function Sent(h: Harness, e: HarnessAct): Wired {
    Wired(h.turn, h.stepped,
          match e
          case SendStep(traj, n) => StepUpdate(traj, n)
          case SendState(traj, state, failed) => StateUpdate(traj, state, failed)
          case SendCall => ToolCall(h.nextCall)
          case SendEnd(cancelled, failed) =>
            StateUpdate(h.main, if cancelled then Cancelled else FullyIdle, failed))
  }

  function HarnessStep(s: State, e: HarnessAct): State {
    var h := s.h;
    s.(wire := s.wire + [Sent(h, e)],
       h := match e
            case SendStep(_, _) => h.(stepped := true)
            case SendState(_, _, _) => h
            case SendCall => h.(nextCall := h.nextCall + 1, outstanding := h.outstanding + {h.nextCall})
            case SendEnd(_, _) => h.(active := false))
  }

  function ReceiveStep(s: State): State
    requires Enabled(s, Receive)
  {
    var w := s.wire[0];
    var (main, todo) := Route(s.main, w);
    s.(wire := s.wire[1..], main := main, todo := todo,
       tools := if w.out.ToolCall? then s.tools[w.out.call := Tool(w.turn, false)] else s.tools)
  }

  function Enqueue(s: State, x: Item): State {
    s.(queue := s.queue + [x], emitted := s.emitted + [x])
  }

  function WorkStep(s: State): State
    requires Enabled(s, Work)
  {
    match s.todo[0]
    case Emit(x) => Enqueue(s, x).(todo := s.todo[1..])
    case OpenGate => s.(todo := s.todo[1..], gate := true)
    case CloseGate => s.(todo := s.todo[1..], gate := false)
  }

  /** A reader locks the stream, takes the oldest item, and deals with it: a step is
    * recorded, an error noted, and the idle marker finishes the turn. */
  function ReaderStep(s: State, r: ReadAct): State
    requires ReaderMay(s, r)
  {
    match r
    case Begin => s.(reader := Some(Session(false, [], None, false)))
    case Take =>
      var x := s.queue[0];
      s.(queue := s.queue[1..], taken := s.taken + [x],
         reader := Some(s.reader.value.(seen := s.reader.value.seen + [x], inHand := Some(x))))
    case Process =>
      var v := s.reader.value;
      (match v.inHand.value.ev
       case StepEv(_) =>
         s.(history := s.history + [v.inHand.value], reader := Some(v.(inHand := None)))
       case ErrEv => s.(reader := Some(v.(inHand := None, failed := true)))
       case Idle =>
         s.(reader := None, pc := if !v.drain then s.pc else if v.failed then Ready else Commit))
    case Stop => s.(reader := None, pc := if s.reader.value.drain then Ready else s.pc)
  }

  function SenderStep(s: State, d: SendAct): State
    requires SenderMay(s, d)
  {
    match d
    case Call => s.(pc := CheckGate)
    case TestGate => s.(pc := if s.gate then CheckQueue else WaitDrain)
    case TestQueue => s.(pc := if s.queue == [] then Commit else WaitDrain)
    case Drain => s.(pc := Draining, reader := Some(Session(true, [], None, false)))
    case RecordStart => s.(pc := Reset, starts := s.starts + [Start(s.h.turn + 1, |s.history|)])
    case ClearMain => s.(pc := Regate, main := "")
    case CloseIdle => s.(pc := Flush, gate := false)
    case FlushQueue =>
      if s.queue == [] then s.(pc := Input)
      else s.(queue := s.queue[1..], discarded := s.discarded + [s.queue[0]])
    case Deliver(ok, main) =>
      if !ok then s.(pc := Ready)
      else s.(pc := Ready, h := Harness(s.h.turn + 1, true, main, false, s.h.nextCall, s.h.outstanding))
  }

  function Apply(s: State, a: Action): State
    requires Enabled(s, a)
  {
    match a
    case ByHarness(e) => HarnessStep(s, e)
    case Receive => ReceiveStep(s)
    case Work => WorkStep(s)
    case AnnounceTool(id) =>
      Enqueue(s, Item(s.tools[id].turn, StepEv(Announce(id)))).(
        tools := s.tools[id := s.tools[id].(announced := true)])
    case AnswerTool(id) =>
      s.(tools := s.tools - {id}, h := s.h.(outstanding := s.h.outstanding - {id}))
    case ByReader(r) => ReaderStep(s, r)
    case BySender(d) => SenderStep(s, d)
  }

  ghost predicate Runs(s: State, acts: seq<Action>, t: State)
    decreases |acts|
  {
    if acts == [] then s == t
    else Enabled(s, acts[0]) && Runs(Apply(s, acts[0]), acts[1..], t)
  }

  /** The sender closes the gate while the read loop has yet to open it for the turn before. */
  predicate Racy(s: State, a: Action) { a == BySender(CloseIdle) && OpenGate in s.todo }

  ghost predicate Clean(s: State, acts: seq<Action>)
    decreases |acts|
  {
    acts == [] ||
    (Enabled(s, acts[0]) && !Racy(s, acts[0]) && Clean(Apply(s, acts[0]), acts[1..]))
  }

  // ----- the invariant -------------------------------------------------------------------

  function StepsOf(items: seq<Item>): seq<Item> {
    if items == [] then []
    else StepsOf(items[..|items| - 1]) +
         if items[|items| - 1].ev.StepEv? then [items[|items| - 1]] else []
  }

  lemma {:induction false} StepsOfIn(items: seq<Item>)
    ensures forall x :: x in StepsOf(items) ==> x in items
  {
    if items != [] {
      StepsOfIn(items[..|items| - 1]);
    }
  }

  lemma StepsOfSnoc(items: seq<Item>, x: Item)
    ensures StepsOf(items + [x]) == StepsOf(items) + if x.ev.StepEv? then [x] else []
  {
    assert (items + [x])[..|items|] == items;
  }

  /** The read loop is ending the turn: the marker, then the gate, is still to come. */
  predicate EndTail(todo: seq<Micro>) {
    && 2 <= |todo| <= 3
    && todo[|todo| - 1].OpenGate?
    && todo[|todo| - 2].Emit? && todo[|todo| - 2].item.ev.Idle?
    && (|todo| == 3 ==> todo[0].Emit? && todo[0].item.ev.ErrEv?)
  }

  /** The current turn's idle marker has not been queued yet. */
  predicate Pending(s: State) { s.h.active || s.wire != [] || EndTail(s.todo) }

  predicate IsEnd(s: State, w: Wired) {
    w.out.StateUpdate? && w.out.traj == s.h.main && Ends(w.out.state)
  }

  /** What follows a turn's first step finds the main trajectory set. */
  ghost predicate RoutingInv(s: State) {
    && (s.main == "" || s.main == s.h.main)
    && (s.h.active || s.wire != [] ==> s.h.main != "")
    && (forall i :: 0 <= i < |s.wire| ==> s.wire[i].turn == s.h.turn)
    && (forall i :: 0 <= i < |s.wire| && !s.wire[i].routed && !s.wire[i].out.ToolCall? ==>
          s.wire[i].out.traj == s.h.main)
    && (s.wire != [] && s.wire[0].routed ==> s.main == s.h.main)
    && (forall i :: 1 <= i < |s.wire| && s.wire[i].routed ==>
          s.wire[i - 1].routed || s.wire[i - 1].out.StepUpdate?)
    && (s.h.stepped && s.h.active ==>
          if s.wire == [] then s.main == s.h.main
          else s.wire[|s.wire| - 1].routed || s.wire[|s.wire| - 1].out.StepUpdate?)
  }

  /** The end of the turn is sent once, last. */
  ghost predicate EndInv(s: State) {
    forall i :: 0 <= i < |s.wire| ==> (IsEnd(s, s.wire[i]) <==> i == |s.wire| - 1 && !s.h.active)
  }

  /** What the read loop may have left to do. */
  ghost predicate TodoInv(s: State) {
    && (s.todo == [] || s.todo == [OpenGate] || s.todo == [CloseGate] || EndTail(s.todo)
        || (|s.todo| == 1 && s.todo[0].Emit? && s.todo[0].item.ev.StepEv?))
    && (forall m :: m in s.todo && m.Emit? ==> m.item.turn == s.h.turn)
    && (EndTail(s.todo) ==> !s.h.active && s.wire == [])
    && (!Pending(s) ==> s.todo == [] || s.todo == [OpenGate])
    && (Pending(s) ==> s.todo != [OpenGate])
  }

  ghost predicate LoopInv(s: State) { RoutingInv(s) && EndInv(s) && TodoInv(s) }

  ghost predicate ToolInv(s: State) {
    && s.tools.Keys <= s.h.outstanding
    && (forall id :: id in s.tools ==> s.tools[id].turn == s.h.turn)
    && (forall id :: id in s.h.outstanding ==> id < s.h.nextCall)
    && (forall i :: 0 <= i < |s.wire| && s.wire[i].out.ToolCall? ==>
          s.wire[i].out.call in s.h.outstanding && s.wire[i].out.call !in s.tools)
    && (forall i, j :: 0 <= i < j < |s.wire| && s.wire[i].out.ToolCall? && s.wire[j].out.ToolCall? ==>
          s.wire[i].out.call != s.wire[j].out.call)
    && (s.h.outstanding != {} ==> s.h.active)
  }

  /** The sender has established that the turn before is accounted for. */
  predicate Drained(pc: Pc) { pc.Commit? || pc.Reset? || pc.Regate? || pc.Flush? || pc.Input? }

  /** Queue, gate, reader and sender, by whether the turn's marker is still to come. */
  ghost predicate StageInv(s: State) {
    && (forall x :: x in s.queue ==> x.turn == s.h.turn)
    && (forall i :: 0 <= i < |s.queue| ==>
          (s.queue[i].ev.Idle? <==> i == |s.queue| - 1 && !Pending(s)))
    && (s.gate ==> !Pending(s) && s.todo == [])
    && (s.pc.CheckQueue? ==> !Pending(s) && s.todo == [])
    && (Drained(s.pc) ==> !Pending(s) && s.queue == [])
    && (s.pc.Flush? || s.pc.Input? ==> s.todo == [] && !s.gate)
    && (s.pc.Regate? || s.pc.Flush? || s.pc.Input? ==> s.main == "")
    && (s.pc.Draining? <==> s.reader.Some? && s.reader.value.drain)
    && (s.reader.Some? ==> SessionInv(s.taken, s.h.turn, More(s), s.reader.value))
  }

  /** A session has seen the last items taken, all of one turn; `more` says that items of
    * the current turn are still to be read. */
  ghost predicate SessionInv(taken: seq<Item>, turn: nat, more: bool, r: Session) {
    && |r.seen| <= |taken| && r.seen == taken[|taken| - |r.seen|..]
    && (forall i :: 0 <= i < |r.seen| ==> r.seen[i].turn == r.seen[0].turn)
    && (forall i :: 0 <= i < |r.seen| && r.seen[i].ev.Idle? ==> i == |r.seen| - 1 && r.inHand.Some?)
    && (r.inHand.Some? ==> r.seen != [] && r.inHand.value == r.seen[|r.seen| - 1])
    && (r.seen != [] && !r.seen[|r.seen| - 1].ev.Idle? ==> r.seen[0].turn == turn && more)
    && (r.drain && r.seen != [] && r.seen[|r.seen| - 1].ev.Idle? ==> !more)
  }

  predicate More(s: State) { Pending(s) || s.queue != [] }

  function InHand(s: State): seq<Item> {
    if s.reader.Some? && s.reader.value.inHand.Some? then [s.reader.value.inHand.value] else []
  }

  /** Turn by turn, each closed by its one idle marker. */
  ghost predicate InTurnOrder(items: seq<Item>) {
    forall i, j :: 0 <= i < j < |items| ==>
      items[i].turn <= items[j].turn && (items[i].ev.Idle? ==> items[i].turn < items[j].turn)
  }

  ghost predicate Conserved(s: State) {
    && s.discarded == []
    && s.emitted == s.taken + s.queue
    && StepsOf(s.taken) == s.history + StepsOf(InHand(s))
  }

  ghost predicate Ordered(emitted: seq<Item>, turn: nat, pending: bool) {
    && InTurnOrder(emitted)
    && (forall x :: x in emitted ==> x.turn <= turn && (x.ev.Idle? && x.turn == turn ==> !pending))
    && (forall k :: 1 <= k <= turn && (k < turn || !pending) ==> Item(k, Idle) in emitted)
  }

  ghost predicate LogInv(s: State) { Conserved(s) && Ordered(s.emitted, s.h.turn, Pending(s)) }

  /** A recorded turn start divides history: earlier turns before it, the rest after. */
  ghost predicate StartInv(s: State) {
    forall b :: b in s.starts ==>
      && b.turn <= s.h.turn + 1 && b.pos <= |s.history|
      && (forall i :: 0 <= i < b.pos ==> s.history[i].turn < b.turn)
      && (forall i :: b.pos <= i < |s.history| ==> b.turn <= s.history[i].turn)
      && (b.turn > s.h.turn ==> !Pending(s) && s.queue == [])
  }

  ghost predicate Inv(s: State) { LoopInv(s) && ToolInv(s) && StageInv(s) && LogInv(s) && StartInv(s) }

  lemma InitLoop()
    ensures LoopInv(INIT) && ToolInv(INIT)
  {}

  lemma InitLogs()
    ensures StageInv(INIT) && LogInv(INIT) && StartInv(INIT)
  {}

  lemma InitInv()
    ensures Inv(INIT)
  {
    InitLoop();
    InitLogs();
    hide LoopInv, ToolInv, StageInv, LogInv, StartInv;
  }

  // ----- every action keeps it -----------------------------------------------------------

  lemma HarnessKeepsRouting(s: State, e: HarnessAct)
    requires LoopInv(s) && HarnessMay(s.h, e)
    ensures RoutingInv(HarnessStep(s, e))
  {
    var t, n := HarnessStep(s, e), |s.wire|;
    var w := Sent(s.h, e);
    assert t.wire == s.wire + [w] && t.main == s.main && t.h.main == s.h.main && t.h.turn == s.h.turn;
    SentRouted(s.h, e);
    hide HarnessStep, Sent;
    forall i | 1 <= i <= n && t.wire[i].routed ensures t.wire[i - 1].routed || t.wire[i - 1].out.StepUpdate? {
      assert t.wire[i - 1] == s.wire[i - 1];
      if i < n { assert t.wire[i] == s.wire[i]; }
    }
  }

  // An output sent before the turn's first step is of the main trajectory.
  lemma SentRouted(h: Harness, e: HarnessAct)
    requires HarnessMay(h, e)
    ensures Sent(h, e).turn == h.turn && Sent(h, e).routed == h.stepped
    ensures !h.stepped && !Sent(h, e).out.ToolCall? ==> Sent(h, e).out.traj == h.main
    ensures e.SendStep? <==> Sent(h, e).out.StepUpdate?
  {}

  lemma HarnessKeepsEnd(s: State, e: HarnessAct)
    requires LoopInv(s) && HarnessMay(s.h, e)
    ensures EndInv(HarnessStep(s, e)) && TodoInv(HarnessStep(s, e))
  {
    hide RoutingInv;
    var t := HarnessStep(s, e);
    assert t.wire[..|s.wire|] == s.wire && t.wire[|s.wire|] == Sent(s.h, e);
    assert t.h.main == s.h.main && t.todo == s.todo;
  }

  lemma HarnessKeepsLoop(s: State, e: HarnessAct)
    requires LoopInv(s) && HarnessMay(s.h, e)
    ensures LoopInv(HarnessStep(s, e))
  {
    HarnessKeepsRouting(s, e);
    HarnessKeepsEnd(s, e);
    hide RoutingInv, EndInv, TodoInv;
  }

  lemma HarnessKeepsRest(s: State, e: HarnessAct)
    requires ToolInv(s) && StageInv(s) && LogInv(s) && StartInv(s) && HarnessMay(s.h, e)
    ensures var t := HarnessStep(s, e); ToolInv(t) && StageInv(t) && LogInv(t) && StartInv(t)
  {
    var t := HarnessStep(s, e);
    assert t.wire[..|s.wire|] == s.wire;
    assert ToolInv(t);
    assert Pending(s) && Pending(t);
    assert t.h.turn == s.h.turn;
  }

  lemma ReceiveKeepsLoop(s: State)
    requires LoopInv(s) && Enabled(s, Receive)
    ensures LoopInv(ReceiveStep(s)) && Pending(ReceiveStep(s))
  {}

  lemma ReceiveKeepsRest(s: State)
    requires LoopInv(s) && ToolInv(s) && StageInv(s) && LogInv(s) && StartInv(s) && Enabled(s, Receive)
    ensures var t := ReceiveStep(s); ToolInv(t) && StageInv(t) && LogInv(t) && StartInv(t)
  {
    ReceiveKeepsLoop(s);
    assert ToolInv(ReceiveStep(s));
    assert Pending(s);
  }

  /** Queueing one more item of the current turn. */
  lemma EnqueueKeeps(s: State, t: State, x: Item)
    requires StageInv(s) && LogInv(s) && StartInv(s) && Pending(s) && x.turn == s.h.turn
    requires t == Enqueue(s, x).(todo := t.todo, tools := t.tools)
    requires Pending(t) <==> !x.ev.Idle?
    ensures StageInv(t) && LogInv(t) && StartInv(t)
  {
    assert t.emitted == t.taken + t.queue;
    EnqueueKeepsStage(s, t, x);
    forall k | 1 <= k <= t.h.turn && (k < t.h.turn || !Pending(t))
      ensures Item(k, Idle) in t.emitted
    {
      if k < t.h.turn { assert Item(k, Idle) in s.emitted; } else { assert x == Item(k, Idle); }
    }
  }

  lemma EnqueueKeepsStage(s: State, t: State, x: Item)
    requires StageInv(s) && Pending(s) && x.turn == s.h.turn
    requires t == Enqueue(s, x).(todo := t.todo, tools := t.tools)
    requires Pending(t) <==> !x.ev.Idle?
    ensures StageInv(t)
  {}

  /** A step that leaves queue, logs and the marker's place alone keeps the logs in order. */
  lemma LogFrame(s: State, t: State)
    requires LogInv(s) && SameLogs(s, t)
    ensures LogInv(t)
    ensures StartInv(s) && t.starts == s.starts ==> StartInv(t)
  {
    hide Ordered, StepsOf;
  }

  predicate SameLogs(s: State, t: State) {
    && t.queue == s.queue && t.emitted == s.emitted && t.taken == s.taken
    && t.discarded == s.discarded && t.history == s.history
    && InHand(t) == InHand(s) && t.h.turn == s.h.turn && Pending(t) == Pending(s)
  }

  lemma WorkKeepsLoop(s: State)
    requires LoopInv(s) && Enabled(s, Work)
    ensures LoopInv(WorkStep(s))
    ensures var x := s.todo[0];
            (x.Emit? ==> Pending(s)) &&
            (Pending(WorkStep(s)) <==> Pending(s) && !(x.Emit? && x.item.ev.Idle?))
  {
    var t := WorkStep(s);
    assert t.wire == s.wire && t.h == s.h && t.main == s.main;
    assert |s.todo| <= 3;
    assert forall i :: 0 <= i < |t.todo| ==> t.todo[i] == s.todo[i + 1];
  }

  lemma WorkKeepsRest(s: State)
    requires Inv(s) && Enabled(s, Work)
    ensures var t := WorkStep(s); ToolInv(t) && StageInv(t) && LogInv(t) && StartInv(t)
  {
    WorkKeepsLoop(s);
    var t := WorkStep(s);
    assert t.wire == s.wire && t.h == s.h && t.tools == s.tools;
    if s.todo[0].Emit? {
      EnqueueKeeps(s, t, s.todo[0].item);
    } else {
      LogFrame(s, t);
      assert s.todo == [OpenGate] || s.todo == [CloseGate];
    }
  }

  lemma ToolKeeps(s: State, a: Action)
    requires Inv(s) && Enabled(s, a) && (a.AnnounceTool? || a.AnswerTool?)
    ensures Inv(Apply(s, a))
  {
    var t := Apply(s, a);
    assert LoopInv(t) && ToolInv(t);
    assert Pending(s) && Pending(t);
    if a.AnnounceTool? {
      EnqueueKeeps(s, t, Item(s.tools[a.id].turn, StepEv(Announce(a.id))));
    } else {
      LogFrame(s, t);
    }
  }

  lemma TakeConserves(s: State)
    requires Conserved(s) && ReaderMay(s, Take)
    ensures Conserved(ReaderStep(s, Take))
  {
    var t, x := ReaderStep(s, Take), s.queue[0];
    StepsOfSnoc(s.taken, x);
    StepsOfSnoc([], x);
    assert [] + [x] == [x];
    assert InHand(s) == [] && InHand(t) == [x];
    hide StepsOf;
    assert s.taken + s.queue == (s.taken + [x]) + s.queue[1..];
  }

  lemma TakeKeepsStarts(s: State)
    requires StartInv(s) && ReaderMay(s, Take)
    ensures StartInv(ReaderStep(s, Take))
  {
    var t := ReaderStep(s, Take);
    assert Pending(t) == Pending(s);
    assert t.history == s.history && t.starts == s.starts && t.h == s.h;
  }

  lemma TakeKeepsSession(taken: seq<Item>, turn: nat, r: Session, x: Item, more: bool)
    requires SessionInv(taken, turn, true, r) && r.inHand.None? && x.turn == turn
    requires more <==> !x.ev.Idle?
    ensures SessionInv(taken + [x], turn, more, r.(seen := r.seen + [x], inHand := Some(x)))
  {
    var seen := r.seen + [x];
    SnocSuffix(taken, r.seen, x);
    assert r.seen == [] || (!r.seen[|r.seen| - 1].ev.Idle? && r.seen[0].turn == turn);
    assert seen[|seen| - 1] == x && forall i :: 0 <= i < |r.seen| ==> seen[i] == r.seen[i];
  }

  lemma SnocSuffix(a: seq<Item>, b: seq<Item>, x: Item)
    requires |b| <= |a| && b == a[|a| - |b|..]
    ensures b + [x] == (a + [x])[|a + [x]| - |b + [x]|..]
  {}

  lemma TakeKeepsStage(s: State)
    requires StageInv(s) && ReaderMay(s, Take)
    ensures StageInv(ReaderStep(s, Take))
  {
    var t := ReaderStep(s, Take);
    assert Pending(t) == Pending(s);
    TakeKeepsSession(s.taken, s.h.turn, s.reader.value, s.queue[0], More(t));
    assert forall i :: 0 <= i < |t.queue| ==> t.queue[i] == s.queue[i + 1];
  }

  lemma ProcessConserves(s: State)
    requires Conserved(s) && ReaderMay(s, Process)
    ensures Conserved(ReaderStep(s, Process))
  {
    var t, x := ReaderStep(s, Process), s.reader.value.inHand.value;
    assert t.taken == s.taken && t.emitted == s.emitted && t.queue == s.queue && t.discarded == s.discarded;
    assert InHand(s) == [x] && InHand(t) == [];
    assert StepsOf(InHand(t)) == [];
    assert t.history == s.history + StepsOf([x]) by {
      StepsOfSnoc([], x);
      assert [] + [x] == [x];
    }
  }

  lemma ReadKeepsOrder(s: State, r: ReadAct)
    requires ReaderMay(s, r) && Ordered(s.emitted, s.h.turn, Pending(s))
    ensures var t := ReaderStep(s, r); Ordered(t.emitted, t.h.turn, Pending(t))
  {
    var t := ReaderStep(s, r);
    assert t.emitted == s.emitted && t.h == s.h && Pending(t) == Pending(s);
  }

  lemma ProcessKeepsStarts(s: State)
    requires StageInv(s) && LogInv(s) && StartInv(s) && ReaderMay(s, Process)
    ensures StartInv(ReaderStep(s, Process))
  {
    var t, x := ReaderStep(s, Process), s.reader.value.inHand.value;
    assert Pending(t) == Pending(s);
    if x.ev.StepEv? {
      assert t.history == s.history + [x] && x.turn == s.h.turn;
    }
  }

  /** StageInv sees the reader only through the session it holds. */
  lemma StageFrame(s: State, t: State)
    requires StageInv(s) && t.queue == s.queue && t.gate == s.gate && t.main == s.main && t.wire == s.wire
    requires t.todo == s.todo && t.h == s.h && t.taken == s.taken
    requires t.pc == s.pc || t.pc.Ready? || (t.pc.Commit? && !Pending(s) && s.queue == [])
    requires t.pc.Draining? <==> t.reader.Some? && t.reader.value.drain
    requires t.reader.Some? ==> SessionInv(s.taken, s.h.turn, More(s), t.reader.value)
    ensures StageInv(t)
  {
    assert Pending(t) == Pending(s);
  }

  // A step is recorded, or an error noted: the session goes on.
  lemma ReadingGoesOn(s: State)
    requires StageInv(s) && ReaderMay(s, Process) && !s.reader.value.inHand.value.ev.Idle?
    ensures StageInv(ReaderStep(s, Process))
  {
    var r, t := s.reader.value, ReaderStep(s, Process);
    StageHas(s);
    PutDown(s.taken, s.h.turn, More(s), r, t.reader.value.failed);
    hide StageInv, SessionInv, More;
    assert t.reader == Some(r.(inHand := None, failed := t.reader.value.failed));
    StageFrame(s, t);
  }

  // The idle marker finishes it.
  lemma ReadingEnds(s: State)
    requires StageInv(s) && ReaderMay(s, Process) && s.reader.value.inHand.value.ev.Idle?
    ensures StageInv(ReaderStep(s, Process))
  {
    StageHas(s);
    IdleInHand(s);
    hide StageInv, SessionInv, More, Pending;
    StageFrame(s, ReaderStep(s, Process));
  }

  lemma ProcessKeepsStage(s: State)
    requires StageInv(s) && ReaderMay(s, Process)
    ensures StageInv(ReaderStep(s, Process))
  {
    hide StageInv;
    if s.reader.value.inHand.value.ev.Idle? { ReadingEnds(s); } else { ReadingGoesOn(s); }
  }

  lemma StageHas(s: State)
    requires StageInv(s)
    ensures s.pc.Draining? <==> s.reader.Some? && s.reader.value.drain
    ensures s.reader.Some? ==> SessionInv(s.taken, s.h.turn, More(s), s.reader.value)
  {}

  lemma PutDown(taken: seq<Item>, turn: nat, more: bool, r: Session, failed: bool)
    requires SessionInv(taken, turn, more, r) && r.inHand.Some? && !r.inHand.value.ev.Idle?
    ensures SessionInv(taken, turn, more, r.(inHand := None, failed := failed))
  {}

  // A draining reader that has the marker has drained the turn.
  lemma IdleInHand(s: State)
    requires StageInv(s) && ReaderMay(s, Process)
    ensures s.reader.value.drain && s.reader.value.inHand.value.ev.Idle? ==> !Pending(s) && s.queue == []
  {}

  lemma ReadEdgesKeep(s: State, r: ReadAct)
    requires StageInv(s) && LogInv(s) && StartInv(s) && ReaderMay(s, r) && (r.Begin? || r.Stop?)
    ensures var t := ReaderStep(s, r); StageInv(t) && LogInv(t) && StartInv(t)
  {
    LogFrame(s, ReaderStep(s, r));
    assert [] == s.taken[|s.taken|..];
    StageFrame(s, ReaderStep(s, r));
  }

  lemma ReaderKeeps(s: State, r: ReadAct)
    requires Inv(s) && ReaderMay(s, r)
    ensures Inv(ReaderStep(s, r))
  {
    ReaderFrame(s, r);
    match r
    case Take => TakeKeepsStage(s); TakeKeepsStarts(s); TakeConserves(s); ReadKeepsOrder(s, r);
    case Process => ProcessKeepsStage(s); ProcessKeepsStarts(s); ProcessConserves(s); ReadKeepsOrder(s, r);
    case Begin => ReadEdgesKeep(s, r);
    case Stop => ReadEdgesKeep(s, r);
  }

  lemma LoopFrame(s: State, t: State)
    requires t.wire == s.wire && t.h == s.h && t.todo == s.todo && t.main == s.main && t.tools == s.tools
    ensures LoopInv(s) && ToolInv(s) ==> LoopInv(t) && ToolInv(t)
  {}

  lemma ReaderFrame(s: State, r: ReadAct)
    requires ReaderMay(s, r)
    ensures LoopInv(s) && ToolInv(s) ==> LoopInv(ReaderStep(s, r)) && ToolInv(ReaderStep(s, r))
  {
    LoopFrame(s, ReaderStep(s, r));
  }

  lemma SenderKeepsLoop(s: State, d: SendAct)
    requires LoopInv(s) && ToolInv(s) && StageInv(s) && SenderMay(s, d) && !d.Deliver?
    ensures var t := SenderStep(s, d); LoopInv(t) && ToolInv(t) && Pending(t) == Pending(s)
  {
    var t := SenderStep(s, d);
    assert t.wire == s.wire && t.tools == s.tools && t.h == s.h && t.todo == s.todo;
    if d.ClearMain? { assert s.wire == []; } else { assert t.main == s.main; }
  }

  lemma SenderKeepsStage(s: State, d: SendAct)
    requires LoopInv(s) && StageInv(s) && SenderMay(s, d) && !d.Deliver? && !Racy(s, BySender(d))
    requires Pending(SenderStep(s, d)) == Pending(s)
    ensures StageInv(SenderStep(s, d))
  {
    var t := SenderStep(s, d);
    assert t.queue == s.queue && t.taken == s.taken && t.todo == s.todo && t.h == s.h;
    if d.Drain? {
      assert t.reader.value.seen == t.taken[|t.taken|..];
    } else {
      assert t.reader == s.reader;
    }
  }

  lemma StartsAhead(s: State)
    requires LogInv(s)
    ensures forall i :: 0 <= i < |s.history| ==> s.history[i].turn <= s.h.turn
  {
    StepsOfIn(s.taken);
    forall i | 0 <= i < |s.history| ensures s.history[i].turn <= s.h.turn {
      assert s.history[i] in StepsOf(s.taken);
    }
  }

  lemma SenderKeepsLog(s: State, d: SendAct)
    requires StageInv(s) && LogInv(s) && StartInv(s) && SenderMay(s, d) && !d.Deliver?
    requires Pending(SenderStep(s, d)) == Pending(s)
    ensures LogInv(SenderStep(s, d)) && StartInv(SenderStep(s, d))
  {
    var t := SenderStep(s, d);
    SenderSameLogs(s, d);
    LogFrame(s, t);
    if d.RecordStart? { StartRecorded(s); }
  }

  lemma SenderSameLogs(s: State, d: SendAct)
    requires StageInv(s) && SenderMay(s, d) && !d.Deliver?
    requires Pending(SenderStep(s, d)) == Pending(s)
    ensures SameLogs(s, SenderStep(s, d)) && (!d.RecordStart? ==> SenderStep(s, d).starts == s.starts)
  {
    hide SessionInv;
    assert d.FlushQueue? ==> s.queue == [];
    assert d.Drain? ==> InHand(SenderStep(s, d)) == InHand(s);
  }

  lemma StartRecorded(s: State)
    requires StageInv(s) && LogInv(s) && StartInv(s) && s.pc.Commit?
    ensures StartInv(SenderStep(s, RecordStart))
  {
    StartsAhead(s);
    hide SessionInv, LogInv;
    var t := SenderStep(s, RecordStart);
    assert Pending(t) == Pending(s) && t.queue == s.queue == [] && t.history == s.history && t.h == s.h;
  }

  lemma DeliverKeepsLog(s: State, main: string)
    requires StageInv(s) && LogInv(s) && StartInv(s) && SenderMay(s, Deliver(true, main))
    ensures var t := SenderStep(s, Deliver(true, main)); LogInv(t) && StartInv(t)
  {
    var t := SenderStep(s, Deliver(true, main));
    StartsAhead(s);
    forall k | 1 <= k <= t.h.turn && (k < t.h.turn || !Pending(t)) ensures Item(k, Idle) in t.emitted {
      assert k <= s.h.turn;
    }
  }

  lemma DeliverKeeps(s: State, d: SendAct)
    requires Inv(s) && SenderMay(s, d) && d.Deliver?
    ensures Inv(SenderStep(s, d))
  {
    var t := SenderStep(s, d);
    if d.ok {
      DeliverKeepsLog(s, d.main);
      assert LoopInv(t) && ToolInv(t);
      assert s.reader.Some? ==> SessionInv(t.taken, t.h.turn, More(t), s.reader.value);
    } else {
      LogFrame(s, t);
    }
  }

  lemma StepKeeps(s: State, a: Action)
    requires Inv(s) && Enabled(s, a) && !Racy(s, a)
    ensures Inv(Apply(s, a))
  {
    match a
    case ByHarness(e) => HarnessKeepsLoop(s, e); HarnessKeepsRest(s, e);
    case Receive => ReceiveKeepsLoop(s); ReceiveKeepsRest(s);
    case Work => WorkKeepsLoop(s); WorkKeepsRest(s);
    case AnnounceTool(_) => ToolKeeps(s, a);
    case AnswerTool(_) => ToolKeeps(s, a);
    case ByReader(r) => ReaderKeeps(s, r);
    case BySender(d) =>
      if d.Deliver? {
        DeliverKeeps(s, d);
      } else {
        SenderKeepsLoop(s, d); SenderKeepsStage(s, d); SenderKeepsLog(s, d);
      }
  }

  lemma {:induction false} RunKeeps(s: State, acts: seq<Action>, t: State)
    requires Inv(s) && Clean(s, acts) && Runs(s, acts, t)
    ensures Inv(t)
    decreases |acts|
  {
    if acts != [] {
      StepKeeps(s, acts[0]);
      RunKeeps(Apply(s, acts[0]), acts[1..], t);
    }
  }

  // ----- what an open gate tells a sender ------------------------------------------------

  /** The sender has seen the turn end, or whoever drains it is about to. */
  predicate Watched(s: State) {
    || s.pc.CheckQueue? || s.pc.Commit? || s.pc.Reset? || s.pc.Regate?
    || (s.queue != [] && s.queue[|s.queue| - 1].ev.Idle?)
    || (s.reader.Some? && s.reader.value.drain && s.reader.value.inHand.Some? && s.reader.value.inHand.value.ev.Idle?)
  }

  /** Until the sender closes it, the gate is open as soon as the read loop has nothing left to do
    * for the turn. */
  predicate GateInv(s: State) { Watched(s) && !Pending(s) && s.todo == [] ==> s.gate }

  lemma WorkOpensGate(s: State)
    requires Inv(s) && GateInv(s) && Enabled(s, Work)
    ensures GateInv(WorkStep(s))
  {
    hide ToolInv, StageInv, LogInv, StartInv;
    WorkKeepsLoop(s);
    var t := WorkStep(s);
    assert s.todo == [s.todo[0]] + t.todo;
  }

  lemma ReaderKeepsGate(s: State, r: ReadAct)
    requires Inv(s) && GateInv(s) && ReaderMay(s, r)
    ensures GateInv(ReaderStep(s, r))
  {
    hide LoopInv, ToolInv, LogInv, StartInv, SessionInv;
    var t := ReaderStep(s, r);
    assert Pending(t) == Pending(s) && t.todo == s.todo && t.gate == s.gate;
    if r.Take? {
      assert s.queue[0].ev.Idle? ==> |s.queue| == 1;
      assert t.queue != [] ==> t.queue[|t.queue| - 1] == s.queue[|s.queue| - 1];
    }
  }

  lemma SenderKeepsGate(s: State, d: SendAct)
    requires Inv(s) && GateInv(s) && SenderMay(s, d)
    ensures GateInv(SenderStep(s, d))
  {
    hide LoopInv, ToolInv, LogInv, StartInv, SessionInv;
    var t := SenderStep(s, d);
    if !d.Deliver? { assert Pending(t) == Pending(s) && t.todo == s.todo && t.queue == s.queue; }
  }

  lemma StepKeepsGate(s: State, a: Action)
    requires Inv(s) && GateInv(s) && Enabled(s, a) && !Racy(s, a)
    ensures GateInv(Apply(s, a))
  {
    match a
    case ByHarness(e) => assert Pending(HarnessStep(s, e));
    case Receive => ReceiveKeepsLoop(s);
    case Work => WorkOpensGate(s);
    case AnnounceTool(_) => assert s.h.active;
    case AnswerTool(_) => assert s.h.active;
    case ByReader(r) => ReaderKeepsGate(s, r);
    case BySender(d) => SenderKeepsGate(s, d);
  }

  lemma {:induction false} RunKeepsGate(s: State, acts: seq<Action>, t: State)
    requires Inv(s) && GateInv(s) && Clean(s, acts) && Runs(s, acts, t)
    ensures GateInv(t)
    decreases |acts|
  {
    hide Inv, GateInv, Racy;
    if acts != [] {
      StepKeeps(s, acts[0]);
      StepKeepsGate(s, acts[0]);
      RunKeepsGate(Apply(s, acts[0]), acts[1..], t);
    }
  }

  // ----- what holds over every run -------------------------------------------------------

  ghost predicate Reachable(s: State) { exists acts :: Clean(INIT, acts) && Runs(INIT, acts, s) }

  lemma ReachableInv(s: State)
    requires Reachable(s)
    ensures Inv(s)
  {
    var acts :| Clean(INIT, acts) && Runs(INIT, acts, s);
    InitInv();
    RunKeeps(INIT, acts, s);
  }

  /** Nothing queued is ever lost or reordered: what was emitted is what was taken and what
    * is still queued, and history is exactly the steps taken, bar the one in hand. */
  lemma NoLossNoReorder(s: State)
    requires Reachable(s)
    ensures s.discarded == []
    ensures s.emitted == s.taken + s.queue
    ensures StepsOf(s.emitted) == s.history + StepsOf(InHand(s)) + StepsOf(s.queue)
  {
    ReachableInv(s);
    StepsOfConcat(s.taken, s.queue);
  }

  lemma {:induction false} StepsOfConcat(a: seq<Item>, b: seq<Item>)
    ensures StepsOf(a + b) == StepsOf(a) + StepsOf(b)
  {
    if b == [] {
      assert a + b == a;
    } else {
      assert (a + b)[..|a + b| - 1] == a + b[..|b| - 1];
      StepsOfConcat(a, b[..|b| - 1]);
    }
  }

  /** The emitted log is the turns in order, each ended or abandoned turn closed by exactly
    * one idle marker, its last item. */
  lemma TurnsInOrder(s: State)
    requires Reachable(s)
    ensures InTurnOrder(s.emitted)
    ensures forall k :: 1 <= k < s.h.turn ==> Item(k, Idle) in s.emitted
    ensures forall i, j | 0 <= i < |s.emitted| && 0 <= j < |s.emitted| ::
              (s.emitted[i].ev.Idle? && s.emitted[j].turn == s.emitted[i].turn ==> j <= i)
  {
    ReachableInv(s);
  }

  /** Whoever holds the stream has seen consecutive items of one turn and none after the
    * marker that ended it, whichever goroutines interleaved. */
  lemma ReaderSeesOneTurn(s: State)
    requires Reachable(s) && s.reader.Some?
    ensures var seen := s.reader.value.seen;
            && |seen| <= |s.taken| && seen == s.taken[|s.taken| - |seen|..]
            && (forall x, y :: x in seen && y in seen ==> x.turn == y.turn)
            && (forall i :: 0 <= i < |seen| && seen[i].ev.Idle? ==> i == |seen| - 1)
  {
    ReachableInv(s);
    assert SessionInv(s.taken, s.h.turn, More(s), s.reader.value);
  }

  /** The session open in s was begun in turn k: it is at that turn's items, or has seen only them. */
  predicate ReadsTurn(s: State, k: nat) {
    s.reader.Some? ==>
      if s.reader.value.seen == [] then s.h.turn == k && More(s) else s.reader.value.seen[0].turn == k
  }

  predicate BeginsSession(a: Action) { a == ByReader(Begin) || a == BySender(Drain) }

  lemma ReaderStaysInTurn(s: State, r: ReadAct, k: nat)
    requires Inv(s) && ReaderMay(s, r) && !r.Begin? && ReadsTurn(s, k)
    ensures ReadsTurn(ReaderStep(s, r), k)
  {
    hide LoopInv, ToolInv, LogInv, StartInv;
    var t := ReaderStep(s, r);
    assert Pending(t) == Pending(s) && t.h == s.h;
    if r.Take? { assert s.queue[0].turn == s.h.turn; }
  }

  lemma StepStaysInTurn(s: State, a: Action, k: nat)
    requires Inv(s) && Enabled(s, a) && !Racy(s, a) && !BeginsSession(a) && ReadsTurn(s, k)
    ensures ReadsTurn(Apply(s, a), k)
  {
    hide LogInv, StartInv, SessionInv;
    match a
    case ByHarness(e) => assert Pending(HarnessStep(s, e));
    case Receive => ReceiveKeepsLoop(s);
    case Work => WorkKeepsLoop(s);
    case AnnounceTool(_) => assert s.h.active;
    case AnswerTool(_) => assert s.h.active;
    case ByReader(r) => ReaderStaysInTurn(s, r, k);
    case BySender(d) => SenderStaysInTurn(s, d, k);
  }

  lemma SenderStaysInTurn(s: State, d: SendAct, k: nat)
    requires StageInv(s) && SenderMay(s, d) && !d.Drain? && ReadsTurn(s, k)
    ensures ReadsTurn(SenderStep(s, d), k)
  {
    hide SessionInv;
    var t := SenderStep(s, d);
    if d.Deliver? || d.FlushQueue? {
      assert !More(s);
    } else {
      assert Pending(t) == Pending(s) && t.queue == s.queue && t.h == s.h && t.reader == s.reader;
    }
  }

  lemma {:induction false} RunStaysInTurn(s: State, acts: seq<Action>, t: State, k: nat)
    requires Inv(s) && Clean(s, acts) && Runs(s, acts, t) && ReadsTurn(s, k)
    requires forall i :: 0 <= i < |acts| ==> !BeginsSession(acts[i])
    ensures Inv(t) && ReadsTurn(t, k)
    decreases |acts|
  {
    hide Inv, ReadsTurn, Racy;
    if acts != [] {
      StepKeeps(s, acts[0]);
      StepStaysInTurn(s, acts[0], k);
      RunStaysInTurn(Apply(s, acts[0]), acts[1..], t, k);
    }
  }

  /** A reader of turn k sees only events of turn k: one that begins while events of the turn are
    * still to come sees no other turn's, however long it reads and whoever acts meanwhile. */
  lemma ReaderOfTurn(s: State, acts: seq<Action>, t: State)
    requires Reachable(s) && s.reader.Some? && s.reader.value.seen == [] && More(s)
    requires Clean(s, acts) && Runs(s, acts, t) && forall i :: 0 <= i < |acts| ==> !BeginsSession(acts[i])
    ensures t.reader.Some? ==> forall x :: x in t.reader.value.seen ==> x.turn == s.h.turn
  {
    ReachableInv(s);
    RunStaysInTurn(s, acts, t, s.h.turn);
    hide LoopInv, ToolInv, LogInv, StartInv;
    if t.reader.Some? { assert SessionInv(t.taken, t.h.turn, More(t), t.reader.value); }
  }

  /** A prompt is delivered only when the turn before is over and entirely in history. */
  lemma DeliveredBetweenTurns(s: State)
    requires Reachable(s) && s.pc == Input
    ensures !s.h.active && s.wire == [] && s.todo == [] && s.tools == map[] && s.queue == []
    ensures s.history == StepsOf(s.emitted)
  {
    ReachableInv(s);
    NoLossNoReorder(s);
    DrainedIdle(s);
    hide Inv;
    if InHand(s) != [] {
      StepsOfSnoc([], InHand(s)[0]);
      assert [] + [InHand(s)[0]] == InHand(s);
    }
    assert s.history + [] == s.history;
  }

  // Once drained, the turn is over, and a reader holds at most its marker.
  lemma DrainedIdle(s: State)
    requires Inv(s) && Drained(s.pc)
    ensures !s.h.active && s.wire == [] && s.queue == [] && s.tools == map[]
    ensures s.pc == Input ==> s.todo == []
    ensures forall x :: x in InHand(s) ==> !x.ev.StepEv?
  {
    hide LoopInv, LogInv, StartInv;
    assert s.tools.Keys == {};
  }

  /** Every recorded turn start splits history between the turns before it and the rest. */
  lemma StartsSplitHistory(s: State, b: Start)
    requires Reachable(s) && b in s.starts
    ensures b.pos <= |s.history|
    ensures forall i :: 0 <= i < |s.history| ==> (s.history[i].turn < b.turn <==> i < b.pos)
  {
    ReachableInv(s);
  }

  /** An open gate is true: the turn is over and all it emitted is queued or read. */
  lemma OpenGateMeansOver(s: State)
    requires Reachable(s) && s.gate
    ensures !s.h.active && s.wire == [] && s.todo == [] && s.tools == map[]
  {
    ReachableInv(s);
    assert s.tools.Keys == {};
  }

  // ----- starts and turns ----------------------------------------------------------------

  /** Between recording a turn's start and delivering its prompt. */
  predicate DuringReset(pc: Pc) { pc.Reset? || pc.Regate? || pc.Flush? || pc.Input? }

  function Failures(acts: seq<Action>): nat {
    if acts == [] then 0
    else Failures(acts[1..]) + if acts[0].BySender? && acts[0].d.Deliver? && !acts[0].d.ok then 1 else 0
  }

  predicate DrainWaits(s: State) { s.reader.Some? && s.reader.value.drain ==> s.pc.Draining? }

  /** The starts recorded for which no turn began. */
  function Spare(s: State): int { |s.starts| - s.h.turn - if DuringReset(s.pc) then 1 else 0 }

  lemma StepSpares(s: State, a: Action)
    requires DrainWaits(s) && Enabled(s, a)
    ensures DrainWaits(Apply(s, a)) && Spare(Apply(s, a)) == Spare(s) + Failures([a])
  {
    assert [a][1..] == [];
    match a
    case ByReader(r) => ReadSpares(s, r);
    case BySender(d) =>
      assert [a][0] == a && Failures([]) == 0;
      SendSpares(s, d);
    case _ =>
      var t := Apply(s, a);
      assert t.reader == s.reader && t.pc == s.pc && t.starts == s.starts && t.h.turn == s.h.turn;
  }

  lemma ReadSpares(s: State, r: ReadAct)
    requires DrainWaits(s) && ReaderMay(s, r)
    ensures DrainWaits(ReaderStep(s, r)) && Spare(ReaderStep(s, r)) == Spare(s)
  {
  }

  lemma SendSpares(s: State, d: SendAct)
    requires DrainWaits(s) && SenderMay(s, d)
    ensures DrainWaits(SenderStep(s, d))
    ensures Spare(SenderStep(s, d)) == Spare(s) + if d.Deliver? && !d.ok then 1 else 0
  {
  }

  lemma {:induction false} RunSpares(s: State, acts: seq<Action>, t: State)
    requires DrainWaits(s) && Runs(s, acts, t)
    ensures Spare(t) == Spare(s) + Failures(acts)
    decreases |acts|
  {
    hide Spare, DrainWaits, Enabled, Apply;
    if acts != [] {
      StepSpares(s, acts[0]);
      RunSpares(Apply(s, acts[0]), acts[1..], t);
      assert [acts[0]][1..] == [];
    }
  }

  /** Over any run there is a recorded start for each turn, for each delivery that failed, and for the
    * one under way: failed sends are counted as turns. */
  lemma StartsCountSends(acts: seq<Action>, t: State)
    requires Runs(INIT, acts, t)
    ensures |t.starts| == t.h.turn + Failures(acts) + if DuringReset(t.pc) then 1 else 0
  {
    RunSpares(INIT, acts, t);
  }

  // ----- the window between the idle marker and the gate ---------------------------------

  ghost predicate LaterSendsClean(s: State, acts: seq<Action>) {
    acts != [] && acts[0] == BySender(CloseIdle) && Enabled(s, acts[0]) &&
    Clean(Apply(s, acts[0]), acts[1..])
  }

  lemma {:induction false} Join(s: State, a: seq<Action>, t: State, b: seq<Action>, u: State)
    requires Clean(s, a) && Runs(s, a, t) && Clean(t, b) && Runs(t, b, u)
    ensures Clean(s, a + b) && Runs(s, a + b, u)
    decreases |a|
  {
    if a == [] {
      assert a + b == b;
    } else {
      Join(Apply(s, a[0]), a[1..], t, b, u);
      assert (a + b)[1..] == a[1..] + b;
    }
  }

  lemma One(s: State, a: Action)
    requires Enabled(s, a) && !Racy(s, a)
    ensures Clean(s, [a]) && Runs(s, [a], Apply(s, a))
  {}

  /** Two actions in a row. */
  lemma Two(s: State, a: Action, b: Action) returns (t: State)
    requires Enabled(s, a) && !Racy(s, a) && Enabled(Apply(s, a), b) && !Racy(Apply(s, a), b)
    ensures Clean(s, [a, b]) && Runs(s, [a, b], t) && t == Apply(Apply(s, a), b)
  {
    One(s, a);
    t := Apply(Apply(s, a), b);
    One(Apply(s, a), b);
    Join(s, [a], Apply(s, a), [b], t);
    assert [a] + [b] == [a, b];
  }

  /** The prompt is delivered, the read loop opens the gate for the turn before, and the new
    * turn's first step is on its way. */
  lemma StaleGate(s: State) returns (acts: seq<Action>, t: State)
    requires s.pc == Flush && s.todo == [OpenGate] && s.wire == [] && s.queue == []
    ensures Clean(s, acts) && Runs(s, acts, t)
    ensures t.pc == Ready && t.gate && t.todo == [] && t.queue == [] && t.discarded == s.discarded
    ensures t.h.active && t.h.turn == s.h.turn + 1 && t.h.main == "m"
    ensures t.wire == [Wired(t.h.turn, false, StepUpdate("m", 0))]
  {
    var s2 := Two(s, BySender(FlushQueue), BySender(Deliver(true, "m")));
    t := Two(s2, Work, ByHarness(SendStep("m", 0)));
    acts := [BySender(FlushQueue), BySender(Deliver(true, "m"))] + [Work, ByHarness(SendStep("m", 0))];
    Join(s, [BySender(FlushQueue), BySender(Deliver(true, "m"))], s2, [Work, ByHarness(SendStep("m", 0))], t);
  }

  /** The next Send finds the gate open and the queue empty, and skips the drain. */
  lemma SendSkipsDrain(s: State) returns (acts: seq<Action>, t: State)
    requires s.pc == Ready && s.gate && s.queue == [] && s.todo == []
    ensures Clean(s, acts) && Runs(s, acts, t)
    ensures t == s.(pc := Flush, gate := false, main := "", starts := t.starts) && |t.starts| == |s.starts| + 1
  {
    var s2 := Two(s, BySender(Call), BySender(TestGate));
    var s4 := Two(s2, BySender(TestQueue), BySender(RecordStart));
    t := Two(s4, BySender(ClearMain), BySender(CloseIdle));
    var a, b, c := [BySender(Call), BySender(TestGate)], [BySender(TestQueue), BySender(RecordStart)],
                   [BySender(ClearMain), BySender(CloseIdle)];
    Join(s, a, s2, b, s4);
    Join(s, a + b, s4, c, t);
    acts := a + b + c;
  }

  /** The step arrives and is queued, and the reset throws it away. */
  lemma ResetDiscards(s: State) returns (acts: seq<Action>, t: State)
    requires s.pc == Flush && s.todo == [] && s.queue == [] && s.main == ""
    requires s.wire == [Wired(s.h.turn, false, StepUpdate("m", 0))]
    ensures Clean(s, acts) && Runs(s, acts, t) && t.h == s.h && t.queue == []
    ensures t.discarded == s.discarded + [Item(s.h.turn, StepEv(Update("m", 0)))]
  {
    var x := Item(s.h.turn, StepEv(Update("m", 0)));
    assert ReceiveStep(s).todo == [Emit(x)];
    var s2 := Two(s, Receive, Work);
    assert s2.queue == [x] && s2.pc == Flush;
    One(s2, BySender(FlushQueue));
    t := SenderStep(s2, FlushQueue);
    Join(s, [Receive, Work], s2, [BySender(FlushQueue)], t);
    acts := [Receive, Work] + [BySender(FlushQueue)];
  }

  lemma ClosedInWindowLoses(s: State) returns (acts: seq<Action>, t: State)
    requires s.pc == Flush && s.todo == [OpenGate] && s.wire == [] && s.queue == []
    ensures Clean(s, acts) && Runs(s, acts, t) && t.h.active
    ensures t.discarded == s.discarded + [Item(s.h.turn + 1, StepEv(Update("m", 0)))]
  {
    var a, sa := StaleGate(s);
    var b, sb := SendSkipsDrain(sa);
    var c, sc := ResetDiscards(sb);
    Join(s, a, sa, b, sb);
    Join(s, a + b, sb, c, sc);
    acts, t := a + b + c, sc;
  }

  /** From inside the window there is always a run, every later Send of it clean, that
    * discards a step of the turn just begun. */
  lemma WindowLoses(s: State) returns (acts: seq<Action>, t: State)
    requires Inv(s) && s.pc == Regate && OpenGate in s.todo
    ensures LaterSendsClean(s, acts) && Runs(s, acts, t)
    ensures t.discarded == [Item(s.h.turn + 1, StepEv(Update("m", 0)))] && t.h.active
  {
    var s1 := SenderStep(s, CloseIdle);
    assert s1.todo == [OpenGate] && s1.wire == [] && s1.discarded == [] by { assert !Pending(s); }
    var rest, t' := ClosedInWindowLoses(s1);
    acts, t := [BySender(CloseIdle)] + rest, t';
    assert acts[1..] == rest;
  }

  lemma SettledSafe(s: State, acts: seq<Action>, t: State)
    requires Inv(s) && OpenGate !in s.todo && LaterSendsClean(s, acts) && Runs(s, acts, t)
    ensures t.discarded == []
  {
    StepKeeps(s, acts[0]);
    RunKeeps(Apply(s, acts[0]), acts[1..], t);
  }

  ghost predicate SafeFrom(s: State) {
    forall acts, t :: LaterSendsClean(s, acts) && Runs(s, acts, t) ==> t.discarded == []
  }

  /** The exact condition: closing the gate for the next turn is safe, whatever follows, if
    * and only if the read loop has opened it for the turn before. */
  lemma ResetSafeIffGateSettled(s: State)
    requires Reachable(s) && s.pc == Regate
    ensures SafeFrom(s) <==> OpenGate !in s.todo
  {
    ReachableInv(s);
    if OpenGate in s.todo {
      var acts, t := WindowLoses(s);
      assert t.discarded != [];
    } else {
      SettledAlwaysSafe(s);
    }
  }

  /** What a sender can check: closing the gate is safe, whatever follows, if and only if the gate is
    * open, that is, if the session reports itself idle. */
  lemma ResetSafeIffIdle(s: State)
    requires Reachable(s) && s.pc == Regate
    ensures SafeFrom(s) <==> s.gate
  {
    ReachableGate(s);
    ResetSafeIffGateSettled(s);
    GateAtReset(s);
  }

  lemma ReachableGate(s: State)
    requires Reachable(s)
    ensures Inv(s) && GateInv(s)
  {
    var acts :| Clean(INIT, acts) && Runs(INIT, acts, s);
    InitInv();
    RunKeeps(INIT, acts, s);
    RunKeepsGate(INIT, acts, s);
  }

  lemma GateAtReset(s: State)
    requires Inv(s) && GateInv(s) && s.pc == Regate
    ensures s.gate <==> OpenGate !in s.todo
  {
    hide RoutingInv, EndInv, ToolInv, LogInv, StartInv, SessionInv;
  }

  lemma SettledAlwaysSafe(s: State)
    requires Inv(s) && OpenGate !in s.todo
    ensures SafeFrom(s)
  {
    forall acts, t | LaterSendsClean(s, acts) && Runs(s, acts, t) ensures t.discarded == [] {
      SettledSafe(s, acts, t);
    }
  }

  // ----- the window is reached -----------------------------------------------------------

  lemma {:induction false} Follow(s: State, a: seq<Action>, t: State, b: seq<Action>, u: State)
    requires Runs(s, a, t) && Runs(t, b, u)
    ensures Runs(s, a + b, u)
    decreases |a|
  {
    if a == [] {
      assert a + b == b;
    } else {
      Follow(Apply(s, a[0]), a[1..], t, b, u);
      assert (a + b)[1..] == a[1..] + b;
    }
  }

  lemma FirstTurnSent() returns (acts: seq<Action>, t: State)
    ensures Clean(INIT, acts) && Runs(INIT, acts, t)
    ensures t.pc == Ready && !t.gate && t.todo == [] && t.wire == [] && t.queue == [] && t.main == ""
    ensures t.reader == None && t.discarded == [] && t.h == Harness(1, true, "m", false, 0, {})
    ensures t.tools == map[] && t.emitted == []
  {
    var a, s1 := SendSkipsDrain(INIT);
    var b := [BySender(FlushQueue), BySender(Deliver(true, "m"))];
    t := Two(s1, b[0], b[1]);
    Join(INIT, a, s1, b, t);
    acts := a + b;
  }

  /** A first send that fails leaves a start, and no turn begins. */
  lemma FailedSendCounts() returns (acts: seq<Action>, t: State)
    ensures Clean(INIT, acts) && Runs(INIT, acts, t)
    ensures t.pc == Ready && |t.starts| == 1 && t.h.turn == 0
  {
    var a, s1 := SendSkipsDrain(INIT);
    var b := [BySender(FlushQueue), BySender(Deliver(false, "m"))];
    t := Two(s1, b[0], b[1]);
    Join(INIT, a, s1, b, t);
    acts := a + b;
  }

  /** Why no subagent may report its state before the turn's first step: the main trajectory is not
    * known yet. From a new session a run reaches a state s in which such a report, of any
    * trajectory, would end the turn for the client while the harness goes on with it. */
  lemma SubagentEndsTurn(traj: string) returns (acts: seq<Action>, s: State, t: State)
    ensures Clean(INIT, acts) && Runs(INIT, acts, s) && s.h.active && s.wire == []
    ensures Runs(s.(wire := [Wired(1, false, StateUpdate(traj, FullyIdle, false))]), [Receive, Work, Work], t)
    ensures t.gate && t.queue == [Item(1, Idle)] && t.h == s.h
  {
    acts, s := FirstTurnSent();
    var x, s0 := Item(1, Idle), s.(wire := [Wired(1, false, StateUpdate(traj, FullyIdle, false))]);
    assert ReceiveStep(s0).todo == [Emit(x), OpenGate];
    var s2 := Two(s0, Receive, Work);
    assert s2.todo == [OpenGate] && s2.queue == [x];
    One(s2, Work);
    t := WorkStep(s2);
    Join(s0, [Receive, Work], s2, [Work], t);
    assert [Receive, Work] + [Work] == [Receive, Work, Work];
  }

  /** The harness ends a turn at once, and the read loop queues its marker. */
  lemma TurnEnds(s: State) returns (acts: seq<Action>, t: State)
    requires s.h.active && s.h.outstanding == {} && s.todo == [] && s.wire == [] && s.queue == [] && s.main == ""
    ensures Clean(s, acts) && Runs(s, acts, t)
    ensures t.todo == [OpenGate] && t.wire == [] && t.queue == [Item(s.h.turn, Idle)]
    ensures t.pc == s.pc && t.gate == s.gate && t.reader == s.reader && t.h.turn == s.h.turn
  {
    var end := ByHarness(SendEnd(false, false));
    var s1 := Apply(s, end);
    One(s, end);
    assert s1.wire == [Wired(s.h.turn, s.h.stepped, StateUpdate(s.h.main, FullyIdle, false))];
    assert ReceiveStep(s1).todo == [Emit(Item(s.h.turn, Idle)), OpenGate];
    t := Two(s1, Receive, Work);
    acts := [end] + [Receive, Work];
    Join(s, [end], s1, [Receive, Work], t);
  }

  /** The next Send finds the gate still closed and drains; the drain reads the marker, and the reset
    * overtakes the read loop. */
  lemma DrainOvertakes(s: State) returns (acts: seq<Action>, t: State)
    requires s.pc == Ready && !s.gate && s.reader == None && s.queue == [Item(s.h.turn, Idle)]
    ensures Clean(s, acts) && Runs(s, acts, t)
    ensures t.pc == Regate && t.todo == s.todo && t.h == s.h
  {
    var s2 := Two(s, BySender(Call), BySender(TestGate));
    var s4 := Two(s2, BySender(Drain), ByReader(Take));
    var s6 := Two(s4, ByReader(Process), BySender(RecordStart));
    One(s6, BySender(ClearMain));
    t := SenderStep(s6, ClearMain);
    var a, b, c := [BySender(Call), BySender(TestGate)], [BySender(Drain), ByReader(Take)],
                   [ByReader(Process), BySender(RecordStart)];
    Join(s, a, s2, b, s4);
    Join(s, a + b, s4, c, s6);
    Join(s, a + b + c, s6, [BySender(ClearMain)], t);
    acts := a + b + c + [BySender(ClearMain)];
  }

  /** The window is reached from a new session by a run with no reset in it before. */
  lemma WindowReached() returns (acts: seq<Action>, s: State)
    ensures Clean(INIT, acts) && Runs(INIT, acts, s)
    ensures s.pc == Regate && OpenGate in s.todo && s.h.turn == 1
  {
    var a, s1 := FirstTurnSent();
    var b, s2 := TurnEnds(s1);
    var c, s3 := DrainOvertakes(s2);
    Join(INIT, a, s1, b, s2);
    Join(INIT, a + b, s2, c, s3);
    acts, s := a + b + c, s3;
  }

  /** So isolation does fail: there is a run from a new session, with one reset in the window, in
    * which a step of the second turn is discarded. */
  lemma IsolationFails() returns (before: seq<Action>, s: State, after: seq<Action>, t: State)
    ensures Clean(INIT, before) && Runs(INIT, before, s) && LaterSendsClean(s, after)
    ensures Runs(INIT, before + after, t)
    ensures t.discarded == [Item(2, StepEv(Update("m", 0)))] && t.h.active
  {
    before, s := WindowReached();
    InitInv();
    RunKeeps(INIT, before, s);
    after, t := WindowLoses(s);
    Follow(INIT, before, s, after, t);
  }
}
