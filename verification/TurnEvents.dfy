/** What a reader gets of what the harness sends, over every clean run: each step and each end of a turn
  * arrives once, in order, and an end that is a failure arrives as one.
  */
module TurnEvents {
  import opened Options
  import opened TurnProtocol

  /** An output of the harness and the turn it was sent in. */
  datatype Sending = Sending(turn: nat, act: HarnessAct)

  /** A session with everything the harness has sent, which is a history variable. */
  datatype Trace = Trace(s: State, sent: seq<Sending>)

  const NEW_TRACE := Trace(INIT, [])

  function Do(t: Trace, a: Action): Trace
    requires Enabled(t.s, a)
  {
    Trace(Apply(t.s, a), if a.ByHarness? then t.sent + [Sending(t.s.h.turn, a.e)] else t.sent)
  }

  ghost predicate Leads(t: Trace, acts: seq<Action>, u: Trace)
    decreases |acts|
  {
    if acts == [] then t == u
    else Enabled(t.s, acts[0]) && !Racy(t.s, acts[0]) && Leads(Do(t, acts[0]), acts[1..], u)
  }

  /** The traces of every clean run from a new session. */
  ghost predicate Traced(t: Trace) { exists acts :: Leads(NEW_TRACE, acts, t) }

  // ----- what was sent is what arrives ---------------------------------------------------

  /** What a reader is to get of an output: its step; or the end of the turn, after an error if the turn
    * was cancelled or failed. */
  function Means(x: Sending): seq<Item> {
    match x.act
    case SendStep(traj, n) => [Item(x.turn, StepEv(Update(traj, n)))]
    case SendState(_, _, _) => []
    case SendCall => []
    case SendEnd(cancelled, failed) =>
      (if cancelled || failed then [Item(x.turn, ErrEv)] else []) + [Item(x.turn, Idle)]
  }

  function MeansAll(sent: seq<Sending>): seq<Item> {
    if sent == [] then [] else MeansAll(sent[..|sent| - 1]) + Means(sent[|sent| - 1])
  }

  predicate IsAnnouncement(x: Item) { x.ev.StepEv? && x.ev.step.Announce? }

  /** The items but for the client's announcements of its own tools. */
  function Plain(items: seq<Item>): seq<Item> {
    if items == [] then []
    else Plain(items[..|items| - 1]) + if IsAnnouncement(items[|items| - 1]) then [] else [items[|items| - 1]]
  }

  lemma PlainLast(items: seq<Item>, x: Item)
    ensures Plain(items + [x]) == Plain(items) + if IsAnnouncement(x) then [] else [x]
  {
    assert (items + [x])[..|items|] == items;
  }

  /** What an output on the wire is still to bring, main being the turn's main trajectory. */
  function Owed(main: string, w: Wired): seq<Item> {
    match w.out
    case StepUpdate(traj, n) => [Item(w.turn, StepEv(Update(traj, n)))]
    case StateUpdate(traj, state, failed) =>
      if traj == main && (state == FullyIdle || state == Cancelled)
      then (if state == Cancelled || failed then [Item(w.turn, ErrEv)] else []) + [Item(w.turn, Idle)]
      else []
    case ToolCall(_) => []
  }

  function OwedAll(main: string, wire: seq<Wired>): seq<Item> {
    if wire == [] then [] else Owed(main, wire[0]) + OwedAll(main, wire[1..])
  }

  lemma {:induction false} OwedLast(main: string, wire: seq<Wired>, w: Wired)
    ensures OwedAll(main, wire + [w]) == OwedAll(main, wire) + Owed(main, w)
  {
    hide Owed;
    if wire == [] {
      assert [w][1..] == [] && [] + [w] == [w];
    } else {
      OwedLast(main, wire[1..], w);
      assert (wire + [w])[1..] == wire[1..] + [w];
    }
  }

  predicate Queues(m: Micro) { m.Emit? && !IsAnnouncement(m.item) }

  /** What the read loop is still to queue. */
  function ToEmit(todo: seq<Micro>): seq<Item> {
    if todo == [] then [] else (if Queues(todo[0]) then [todo[0].item] else []) + ToEmit(todo[1..])
  }

  /** Nothing sent is lost, added or reordered between the harness and the queue. */
  ghost predicate InOrder(t: Trace) {
    Plain(t.s.emitted) + ToEmit(t.s.todo) + OwedAll(t.s.h.main, t.s.wire) == MeansAll(t.sent)
  }

  lemma SentInOrder(t: Trace, e: HarnessAct)
    requires InOrder(t) && HarnessMay(t.s.h, e)
    ensures InOrder(Do(t, ByHarness(e)))
  {
    var s, w, x := t.s, Sent(t.s.h, e), Sending(t.s.h.turn, e);
    var u := Do(t, ByHarness(e));
    SentMeans(s.h, e);
    assert u.sent == t.sent + [x];
    assert u.s.wire == s.wire + [w] && u.s.h.main == s.h.main && u.s.todo == s.todo && u.s.emitted == s.emitted;
    hide Owed, Means, Sent, HarnessMay, HarnessStep, ToEmit, Plain;
    assert MeansAll(u.sent) == MeansAll(t.sent) + Means(x) by { assert u.sent[..|t.sent|] == t.sent; }
    OwedLast(s.h.main, s.wire, w);
    Associate(Plain(s.emitted) + ToEmit(s.todo), OwedAll(s.h.main, s.wire), Means(x));
  }

  lemma Associate(a: seq<Item>, b: seq<Item>, c: seq<Item>)
    ensures a + b + c == a + (b + c)
  {
  }

  lemma SentMeans(h: Harness, e: HarnessAct)
    requires HarnessMay(h, e)
    ensures Owed(h.main, Sent(h, e)) == Means(Sending(h.turn, e))
  {
  }

  lemma ReceivedInOrder(t: Trace)
    requires InOrder(t) && RoutingInv(t.s) && Enabled(t.s, Receive)
    ensures InOrder(Do(t, Receive))
  {
    var s, u := t.s, ReceiveStep(t.s);
    assert u.h == s.h && u.emitted == s.emitted && u.wire == s.wire[1..] && s.todo == [];
    RoutedOwed(s);
    hide RoutingInv, Owed, ReceiveStep, MeansAll, Plain;
    assert Plain(s.emitted) + [] == Plain(s.emitted);
    Associate(Plain(s.emitted), Owed(s.h.main, s.wire[0]), OwedAll(s.h.main, u.wire));
  }

  // The work that an output causes queues what the output owes.
  lemma RoutedOwed(s: State)
    requires RoutingInv(s) && Enabled(s, Receive)
    ensures ToEmit(ReceiveStep(s).todo) == Owed(s.h.main, s.wire[0])
  {
    var w := s.wire[0];
    HeadRouted(s);
    assert ReceiveStep(s).todo == Route(s.main, w).1;
    hide RoutingInv, ReceiveStep;
    RouteOwes(s.main, s.h.main, w);
  }

  // Whether an output is the main trajectory's is known when it arrives.
  lemma HeadRouted(s: State)
    requires RoutingInv(s) && s.wire != []
    ensures s.main == "" || s.main == s.h.main
    ensures s.main == "" && !s.wire[0].out.ToolCall? ==> s.wire[0].out.traj == s.h.main
  {
  }

  lemma RouteOwes(known: string, main: string, w: Wired)
    requires known == "" || known == main
    requires known == "" && !w.out.ToolCall? ==> w.out.traj == main
    ensures ToEmit(Route(known, w).1) == Owed(main, w)
  {
    ShortWork(Route(known, w).1);
    hide ToEmit;
  }

  lemma ShortWork(todo: seq<Micro>)
    ensures |todo| == 0 ==> ToEmit(todo) == []
    ensures |todo| == 1 ==> ToEmit(todo) == if Queues(todo[0]) then [todo[0].item] else []
    ensures |todo| == 2 && Queues(todo[0]) && !Queues(todo[1]) ==> ToEmit(todo) == [todo[0].item]
    ensures |todo| == 3 && Queues(todo[0]) && Queues(todo[1]) && !Queues(todo[2]) ==>
      ToEmit(todo) == [todo[0].item] + [todo[1].item]
  {
    if |todo| == 1 {
      assert todo[1..] == [];
    } else if |todo| == 2 {
      assert todo[1..] == [todo[1]] && todo[1..][1..] == [];
    } else if |todo| == 3 {
      assert todo[1..] == [todo[1], todo[2]] && todo[1..][1..] == [todo[2]] && todo[1..][1..][1..] == [];
    }
  }

  lemma WorkInOrder(t: Trace)
    requires InOrder(t) && Enabled(t.s, Work)
    ensures InOrder(Do(t, Work))
  {
    var s, u := t.s, WorkStep(t.s);
    assert u.wire == s.wire && u.h == s.h && u.todo == s.todo[1..];
    assert u.emitted == if s.todo[0].Emit? then s.emitted + [s.todo[0].item] else s.emitted;
    hide WorkStep, Owed, MeansAll;
    var a, b := Plain(s.emitted), ToEmit(u.todo);
    if Queues(s.todo[0]) {
      var x := s.todo[0].item;
      PlainLast(s.emitted, x);
      hide Plain, ToEmit;
      Associate(a, [x], b);
    } else {
      if s.todo[0].Emit? { PlainLast(s.emitted, s.todo[0].item); }
      assert a + [] == a && [] + b == b;
    }
  }

  lemma StepInOrder(t: Trace, a: Action)
    requires Inv(t.s) && InOrder(t) && Enabled(t.s, a) && !Racy(t.s, a)
    ensures InOrder(Do(t, a))
  {
    assert LoopInv(t.s) && StageInv(t.s) && RoutingInv(t.s);
    hide Inv, LoopInv, RoutingInv, StageInv, InOrder, Do, Apply;
    match a
    case ByHarness(e) => SentInOrder(t, e);
    case Receive => ReceivedInOrder(t);
    case Work => WorkInOrder(t);
    case AnnounceTool(id) => AnnounceInOrder(t, id);
    case AnswerTool(id) => AnswerInOrder(t, id);
    case ByReader(r) => ReadInOrder(t, r);
    case BySender(d) => SendInOrder(t, d);
  }

  lemma AnnounceInOrder(t: Trace, id: nat)
    requires InOrder(t) && Enabled(t.s, AnnounceTool(id))
    ensures InOrder(Do(t, AnnounceTool(id)))
  {
    PlainLast(t.s.emitted, Item(t.s.tools[id].turn, StepEv(Announce(id))));
    hide Plain;
    assert Plain(t.s.emitted) + [] == Plain(t.s.emitted);
    SameOrder(t, Do(t, AnnounceTool(id)));
  }

  lemma AnswerInOrder(t: Trace, id: nat)
    requires InOrder(t) && Enabled(t.s, AnswerTool(id))
    ensures InOrder(Do(t, AnswerTool(id)))
  {
    SameOrder(t, Do(t, AnswerTool(id)));
  }

  lemma ReadInOrder(t: Trace, r: ReadAct)
    requires InOrder(t) && Enabled(t.s, ByReader(r))
    ensures InOrder(Do(t, ByReader(r)))
  {
    hide InOrder;
    SameOrder(t, Do(t, ByReader(r)));
  }

  lemma SameOrder(t: Trace, u: Trace)
    requires InOrder(t) && Plain(u.s.emitted) == Plain(t.s.emitted) && u.s.todo == t.s.todo && u.s.wire == t.s.wire
    requires u.sent == t.sent && (u.s.h.main == t.s.h.main || t.s.wire == [])
    ensures InOrder(u)
  {
  }

  lemma SendInOrder(t: Trace, d: SendAct)
    requires Enabled(t.s, BySender(d)) && StageInv(t.s) && InOrder(t)
    ensures InOrder(Do(t, BySender(d)))
  {
    assert d.Deliver? ==> t.s.wire == [] by { hide SessionInv; }
    hide StageInv, InOrder;
    SameOrder(t, Do(t, BySender(d)));
  }

  lemma {:induction false} RunInOrder(t: Trace, acts: seq<Action>, u: Trace)
    requires Inv(t.s) && InOrder(t) && Leads(t, acts, u)
    ensures Inv(u.s) && InOrder(u)
    decreases |acts|
  {
    hide Inv, InOrder, Racy;
    if acts != [] {
      StepKeeps(t.s, acts[0]);
      StepInOrder(t, acts[0]);
      RunInOrder(Do(t, acts[0]), acts[1..], u);
    }
  }

  /** What has been queued, but for the client's own announcements, is a prefix of what the harness has
    * sent; and all of it when nothing is on the wire and the read loop has nothing left to queue. */
  lemma SentIsQueued(t: Trace)
    requires Traced(t)
    ensures Plain(t.s.emitted) <= MeansAll(t.sent)
    ensures t.s.wire == [] && (forall m :: m in t.s.todo ==> !m.Emit?) ==> Plain(t.s.emitted) == MeansAll(t.sent)
  {
    TracedInOrder(t);
    if forall m :: m in t.s.todo ==> !m.Emit? { NothingToEmit(t.s.todo); }
    hide Plain, MeansAll, Traced;
  }

  lemma TracedInOrder(t: Trace)
    requires Traced(t)
    ensures InOrder(t)
  {
    var acts :| Leads(NEW_TRACE, acts, t);
    InitInv();
    assert InOrder(NEW_TRACE);
    hide Inv, InOrder, Leads;
    RunInOrder(NEW_TRACE, acts, t);
  }

  lemma {:induction false} NothingToEmit(todo: seq<Micro>)
    requires forall m :: m in todo ==> !m.Emit?
    ensures ToEmit(todo) == []
  {
    if todo != [] { NothingToEmit(todo[1..]); }
  }

  // ----- errors --------------------------------------------------------------------------

  predicate IsBad(x: Sending) { x.act.SendEnd? && (x.act.cancelled || x.act.failed) }

  /** The harness has ended the turn, or has ended it as cancelled or failed. */
  ghost predicate EndSent(sent: seq<Sending>, k: nat) {
    exists j :: 0 <= j < |sent| && sent[j].turn == k && sent[j].act.SendEnd?
  }

  ghost predicate Bad(sent: seq<Sending>, k: nat) {
    exists j :: 0 <= j < |sent| && sent[j].turn == k && IsBad(sent[j])
  }

  /** The harness ends each turn once, and the current one when it is no longer active. */
  ghost predicate EndsOnce(t: Trace) {
    && (forall j :: 0 <= j < |t.sent| ==> t.sent[j].turn <= t.s.h.turn)
    && (forall j :: 0 <= j < |t.sent| && t.sent[j].act.SendEnd? && t.sent[j].turn == t.s.h.turn ==> !t.s.h.active)
    && (forall i, j :: 0 <= i < j < |t.sent| && t.sent[i].act.SendEnd? && t.sent[j].act.SendEnd? ==>
          t.sent[i].turn < t.sent[j].turn)
    && (forall k: nat :: 1 <= k <= t.s.h.turn && (k < t.s.h.turn || !t.s.h.active) ==> EndSent(t.sent, k))
  }

  /** The marker that follows an error is queued, or next to be. */
  ghost predicate ErrorNext(s: State, i: int)
    requires 0 <= i < |s.emitted|
  {
    var marker := Item(s.emitted[i].turn, Idle);
    if i + 1 < |s.emitted| then s.emitted[i + 1] == marker else s.todo == [Emit(marker), OpenGate]
  }

  ghost predicate ErrorsBad(t: Trace) {
    forall i :: 0 <= i < |t.s.emitted| && t.s.emitted[i].ev.ErrEv? ==>
      Bad(t.sent, t.s.emitted[i].turn) && ErrorNext(t.s, i)
  }

  predicate AfterError(emitted: seq<Item>, i: int)
    requires 0 <= i < |emitted|
  {
    i > 0 && emitted[i - 1] == Item(emitted[i].turn, ErrEv)
  }

  ghost predicate MarkersRight(t: Trace) {
    forall i :: 0 <= i < |t.s.emitted| && t.s.emitted[i].ev.Idle? ==>
      (Bad(t.sent, t.s.emitted[i].turn) <==> AfterError(t.s.emitted, i))
  }

  /** How the end of the turn that is on its way looks. */
  ghost predicate EndRight(t: Trace) {
    var s := t.s;
    && (forall w :: w in s.wire && IsEnd(s, w) ==>
          (Bad(t.sent, s.h.turn) <==> w.out.state == Cancelled || w.out.failed))
    && (EndTail(s.todo) ==>
          if |s.todo| == 3 then
            Bad(t.sent, s.h.turn) && s.todo == [Emit(Item(s.h.turn, ErrEv)), Emit(Item(s.h.turn, Idle)), OpenGate]
          else
            && s.todo == [Emit(Item(s.h.turn, Idle)), OpenGate]
            && (Bad(t.sent, s.h.turn) <==> s.emitted != [] && s.emitted[|s.emitted| - 1] == Item(s.h.turn, ErrEv)))
  }

  ghost predicate Errors(t: Trace) { EndsOnce(t) && ErrorsBad(t) && MarkersRight(t) && EndRight(t) }

  lemma BadGrows(sent: seq<Sending>, x: Sending, k: nat)
    ensures Bad(sent + [x], k) <==> Bad(sent, k) || (x.turn == k && IsBad(x))
    ensures EndSent(sent + [x], k) <==> EndSent(sent, k) || (x.turn == k && x.act.SendEnd?)
  {
    var next := sent + [x];
    assert next[|sent|] == x;
    if Bad(sent, k) {
      var j :| 0 <= j < |sent| && sent[j].turn == k && IsBad(sent[j]);
      assert next[j] == sent[j];
    }
    if EndSent(sent, k) {
      var j :| 0 <= j < |sent| && sent[j].turn == k && sent[j].act.SendEnd?;
      assert next[j] == sent[j];
    }
    assert forall j :: 0 <= j < |sent| ==> next[j] == sent[j];
  }

  lemma ActiveNotEnded(t: Trace)
    requires EndsOnce(t) && t.s.h.active
    ensures !Bad(t.sent, t.s.h.turn) && !EndSent(t.sent, t.s.h.turn)
  {
  }

  lemma SentEndsOnce(t: Trace, e: HarnessAct)
    requires EndsOnce(t) && HarnessMay(t.s.h, e)
    ensures EndsOnce(Do(t, ByHarness(e)))
  {
    var u, x := Do(t, ByHarness(e)), Sending(t.s.h.turn, e);
    ActiveNotEnded(t);
    assert u.sent == t.sent + [x] && u.s.h.turn == t.s.h.turn && (u.s.h.active <==> !e.SendEnd?);
    hide HarnessStep, HarnessMay;
    forall k: nat | 1 <= k <= u.s.h.turn && (k < u.s.h.turn || !u.s.h.active) ensures EndSent(u.sent, k) {
      BadGrows(t.sent, x, k);
    }
    hide EndSent;
    forall i, j | 0 <= i < j < |u.sent| && u.sent[i].act.SendEnd? && u.sent[j].act.SendEnd?
      ensures u.sent[i].turn < u.sent[j].turn
    {
      assert u.sent[i] == t.sent[i];
      if j < |t.sent| { assert u.sent[j] == t.sent[j]; } else { assert u.sent[j] == x; }
    }
  }

  // No error of an active turn has been queued.
  lemma ActiveNoError(t: Trace)
    requires EndsOnce(t) && ErrorsBad(t) && t.s.h.active
    ensures forall i :: 0 <= i < |t.s.emitted| && t.s.emitted[i].ev.ErrEv? ==> t.s.emitted[i].turn != t.s.h.turn
  {
    ActiveNotEnded(t);
    hide EndsOnce, Bad;
  }

  lemma SentErrors(t: Trace, e: HarnessAct)
    requires Enabled(t.s, ByHarness(e)) && Inv(t.s) && Errors(t)
    ensures Errors(Do(t, ByHarness(e)))
  {
    var s, u, x := t.s, Do(t, ByHarness(e)), Sending(t.s.h.turn, e);
    SentEndsOnce(t, e);
    ActiveNotEnded(t);
    forall k: nat ensures Bad(u.sent, k) <==> Bad(t.sent, k) || (k == s.h.turn && IsBad(x)) { BadGrows(t.sent, x, k); }
    assert u.s.emitted == s.emitted && u.s.todo == s.todo;
    ActiveNoError(t);
    SentEndRight(t, e);
    ActiveNoMarker(s);
    hide Inv, EndsOnce, Bad, EndRight, HarnessStep, HarnessMay;
  }

  lemma ActiveNoMarker(s: State)
    requires Inv(s) && s.h.active
    ensures forall i :: 0 <= i < |s.emitted| && s.emitted[i].ev.Idle? ==> s.emitted[i].turn != s.h.turn
  {
    assert Ordered(s.emitted, s.h.turn, Pending(s));
    hide Inv;
    assert forall i :: 0 <= i < |s.emitted| ==> s.emitted[i] in s.emitted;
  }

  lemma SentEndRight(t: Trace, e: HarnessAct)
    requires LoopInv(t.s) && EndRight(t) && EndsOnce(t) && HarnessMay(t.s.h, e)
    ensures EndRight(Do(t, ByHarness(e)))
  {
    var s, u, x := t.s, Do(t, ByHarness(e)), Sending(t.s.h.turn, e);
    BadGrows(t.sent, x, s.h.turn);
    ActiveNotEnded(t);
    var w := Sent(s.h, e);
    assert u.s.wire == s.wire + [w] && u.s.h.main == s.h.main && u.s.h.turn == s.h.turn && u.s.todo == s.todo;
    assert !EndTail(s.todo);
    assert forall v :: v in s.wire ==> !IsEnd(s, v);
    assert IsEnd(s, w) ==> e.SendEnd? && (IsBad(x) <==> w.out.state == Cancelled || w.out.failed);
    hide Bad, LoopInv, HarnessStep, EndsOnce;
    forall v | v in u.s.wire && IsEnd(u.s, v)
      ensures Bad(u.sent, s.h.turn) <==> v.out.state == Cancelled || v.out.failed
    {
      assert v in s.wire || v == w;
      assert IsEnd(s, v);
    }
  }

  lemma ReceivedErrors(t: Trace)
    requires Enabled(t.s, Receive) && Inv(t.s) && Errors(t)
    ensures Errors(Do(t, Receive))
  {
    var s, u := t.s, ReceiveStep(t.s);
    assert u.h == s.h && u.emitted == s.emitted && s.todo == [] && u.wire == s.wire[1..];
    ReceivedEndRight(t);
    assert forall i :: 0 <= i < |s.emitted| && s.emitted[i].ev.ErrEv? ==> i + 1 < |s.emitted|;
    hide Inv, Bad, ReceiveStep, EndRight;
  }

  lemma ReceivedEndRight(t: Trace)
    requires LoopInv(t.s) && EndRight(t) && ErrorsBad(t) && Enabled(t.s, Receive)
    ensures EndRight(Do(t, Receive))
  {
    var s, u, w := t.s, ReceiveStep(t.s), t.s.wire[0];
    assert u.h == s.h && u.emitted == s.emitted && s.todo == [] && u.wire == s.wire[1..];
    RoutedEnd(s);
    assert w in s.wire && forall v :: v in u.wire ==> v in s.wire;
    hide LoopInv, Bad, ReceiveStep;
  }

  // What the end of the turn makes the read loop do, and nothing else does.
  lemma RoutedEnd(s: State)
    requires RoutingInv(s) && Enabled(s, Receive)
    ensures var w, todo := s.wire[0], ReceiveStep(s).todo;
      if !IsEnd(s, w) then !EndTail(todo)
      else if w.out.state == Cancelled || w.out.failed
      then todo == [Emit(Item(s.h.turn, ErrEv)), Emit(Item(s.h.turn, Idle)), OpenGate]
      else todo == [Emit(Item(s.h.turn, Idle)), OpenGate]
  {
  }

  lemma WorkErrors(t: Trace)
    requires Enabled(t.s, Work) && Inv(t.s) && Errors(t)
    ensures Errors(Do(t, Work))
  {
    var s, u := t.s, WorkStep(t.s);
    assert u.h == s.h && u.wire == s.wire && u.todo == s.todo[1..];
    match s.todo[0]
    case Emit(x) =>
      assert u.emitted == s.emitted + [x];
      assert TodoInv(s);
      hide Inv, WorkStep;
      if EndTail(s.todo) { TailErrors(t, Do(t, Work), x); } else { StepErrors(t, Do(t, Work), x); }
    case _ =>
      assert TodoInv(s);
      hide Inv, Bad;
  }

  /** A step, of the turn or announced, is queued: the turn's end is not on its way yet. */
  lemma StepErrors(t: Trace, u: Trace, x: Item)
    requires Errors(t) && x.ev.StepEv? && !EndTail(t.s.todo) && !EndTail(u.s.todo)
    requires u.sent == t.sent && u.s.h.turn == t.s.h.turn && u.s.h.active == t.s.h.active && u.s.h.main == t.s.h.main
    requires u.s.wire == t.s.wire && u.s.emitted == t.s.emitted + [x]
    ensures Errors(u)
  {
    hide Bad;
    assert forall i :: 0 <= i < |t.s.emitted| ==> u.s.emitted[i] == t.s.emitted[i];
    assert forall i :: 0 <= i < |t.s.emitted| && t.s.emitted[i].ev.ErrEv? ==> ErrorNext(t.s, i);
  }

  lemma TailErrors(t: Trace, u: Trace, x: Item)
    requires Errors(t) && EndTail(t.s.todo) && t.s.todo[0] == Emit(x) && t.s.wire == []
    requires u.sent == t.sent && u.s.h == t.s.h && u.s.todo == t.s.todo[1..]
    requires u.s.wire == t.s.wire && u.s.emitted == t.s.emitted + [x]
    ensures Errors(u)
  {
    hide Bad;
    var s, n := t.s, |t.s.emitted|;
    assert u.s.emitted[n] == x && forall i :: 0 <= i < n ==> u.s.emitted[i] == s.emitted[i];
    assert forall i :: 0 <= i < n && s.emitted[i].ev.ErrEv? ==> ErrorNext(s, i);
  }

  lemma AnnounceErrors(t: Trace, id: nat)
    requires Enabled(t.s, AnnounceTool(id)) && Inv(t.s) && Errors(t)
    ensures Errors(Do(t, AnnounceTool(id)))
  {
    assert t.s.h.active && !EndTail(t.s.todo);
    hide Inv;
    StepErrors(t, Do(t, AnnounceTool(id)), Item(t.s.tools[id].turn, StepEv(Announce(id))));
  }

  lemma SameErrors(t: Trace, u: Trace)
    requires Errors(t) && u.sent == t.sent && u.s.emitted == t.s.emitted && u.s.todo == t.s.todo && u.s.wire == t.s.wire
    requires u.s.h.turn == t.s.h.turn && u.s.h.active == t.s.h.active && u.s.h.main == t.s.h.main
    ensures Errors(u)
  {
    hide Bad;
  }

  lemma DeliveryIsQuiet(s: State)
    requires LoopInv(s) && StageInv(s) && s.pc.Input?
    ensures s.wire == [] && s.todo == [] && !s.h.active
  {
    hide SessionInv;
  }

  lemma DeliveredErrors(t: Trace, main: string)
    requires Enabled(t.s, BySender(Deliver(true, main))) && Inv(t.s) && Errors(t)
    ensures Errors(Do(t, BySender(Deliver(true, main))))
  {
    assert LoopInv(t.s) && StageInv(t.s);
    hide Inv, LoopInv, StageInv, Errors;
    DeliveryIsQuiet(t.s);
    TurnBegins(t, Do(t, BySender(Deliver(true, main))));
  }

  lemma TurnBegins(t: Trace, u: Trace)
    requires Errors(t) && t.s.wire == [] && t.s.todo == [] && !t.s.h.active
    requires u.s.emitted == t.s.emitted && u.sent == t.sent && u.s.todo == t.s.todo && u.s.wire == t.s.wire
    requires u.s.h.active && u.s.h.turn == t.s.h.turn + 1
    ensures Errors(u)
  {
    DeliveredEndsOnce(t, u);
    hide EndsOnce, Bad;
  }

  lemma DeliveredEndsOnce(t: Trace, u: Trace)
    requires EndsOnce(t) && !t.s.h.active && u.sent == t.sent && u.s.h.active && u.s.h.turn == t.s.h.turn + 1
    ensures EndsOnce(u)
  {
    hide EndSent;
  }

  lemma StepKeepsErrors(t: Trace, a: Action)
    requires Enabled(t.s, a) && Inv(t.s) && Errors(t) && !Racy(t.s, a)
    ensures Errors(Do(t, a))
  {
    hide Inv, Errors;
    match a
    case ByHarness(e) => SentErrors(t, e);
    case Receive => ReceivedErrors(t);
    case Work => WorkErrors(t);
    case AnnounceTool(id) => AnnounceErrors(t, id);
    case AnswerTool(_) => SameErrors(t, Do(t, a));
    case ByReader(r) => ReadErrors(t, r);
    case BySender(d) => SendErrors(t, d);
  }

  lemma ReadErrors(t: Trace, r: ReadAct)
    requires Errors(t) && ReaderMay(t.s, r)
    ensures Errors(Do(t, ByReader(r)))
  {
    hide Errors;
    SameErrors(t, Do(t, ByReader(r)));
  }

  lemma SendErrors(t: Trace, d: SendAct)
    requires Enabled(t.s, BySender(d)) && Inv(t.s) && Errors(t)
    ensures Errors(Do(t, BySender(d)))
  {
    hide Inv, Errors;
    if d.Deliver? && d.ok { DeliveredErrors(t, d.main); } else { SameErrors(t, Do(t, BySender(d))); }
  }

  /** A session is marked as failed exactly when an error is among the items it has dealt with. */
  ghost predicate FailedRight(s: State) {
    s.reader.Some? ==>
      var r := s.reader.value;
      r.failed <==> exists i :: 0 <= i < |r.seen| - |InHand(s)| && r.seen[i].ev.ErrEv?
  }

  lemma StepKeepsFailed(s: State, a: Action)
    requires Inv(s) && FailedRight(s) && Enabled(s, a)
    ensures FailedRight(Apply(s, a))
  {
    match a
    case ByReader(r) => ReadKeepsFailed(s, r);
    case BySender(d) => SendKeepsFailed(s, d);
    case _ =>
      hide Inv;
      assert Apply(s, a).reader == s.reader;
  }

  lemma SendKeepsFailed(s: State, d: SendAct)
    requires FailedRight(s) && SenderMay(s, d)
    ensures FailedRight(SenderStep(s, d))
  {
    if !d.Drain? { assert SenderStep(s, d).reader == s.reader; }
  }

  lemma ReadKeepsFailed(s: State, r: ReadAct)
    requires StageInv(s) && FailedRight(s) && ReaderMay(s, r)
    ensures FailedRight(ReaderStep(s, r))
  {
    match r
    case Begin => hide StageInv;
    case Stop => hide StageInv;
    case Take => hide StageInv; TakeKeepsFailed(s);
    case Process => StageHas(s); hide StageInv; ProcessKeepsFailed(s);
  }

  lemma TakeKeepsFailed(s: State)
    requires FailedRight(s) && ReaderMay(s, Take)
    ensures FailedRight(ReaderStep(s, Take))
  {
    var u := ReaderStep(s, Take);
    assert u.reader.value.seen == s.reader.value.seen + [s.queue[0]] && u.reader.value.failed == s.reader.value.failed;
    assert |InHand(s)| == 0 && |InHand(u)| == 1;
    hide ReaderStep, InHand;
    assert forall i :: 0 <= i < |s.reader.value.seen| ==> u.reader.value.seen[i] == s.reader.value.seen[i];
  }

  lemma ProcessKeepsFailed(s: State)
    requires FailedRight(s) && ReaderMay(s, Process) && SessionInv(s.taken, s.h.turn, More(s), s.reader.value)
    ensures FailedRight(ReaderStep(s, Process))
  {
    var u, v, x := ReaderStep(s, Process), s.reader.value, s.reader.value.inHand.value;
    assert v.seen != [] && v.seen[|v.seen| - 1] == x && |InHand(s)| == 1;
    hide SessionInv, More;
    if !x.ev.Idle? {
      assert u.reader.value.seen == v.seen && |InHand(u)| == 0;
      assert u.reader.value.failed == (v.failed || x.ev.ErrEv?);
      hide ReaderStep, InHand;
    }
  }

  ghost predicate Right(t: Trace) { Inv(t.s) && Errors(t) && FailedRight(t.s) && InOrder(t) }

  lemma {:induction false} RunKeepsRight(t: Trace, acts: seq<Action>, u: Trace)
    requires Right(t) && Leads(t, acts, u)
    ensures Right(u)
    decreases |acts|
  {
    if acts != [] {
      hide Inv, Errors, FailedRight, InOrder, Racy;
      StepKeeps(t.s, acts[0]);
      StepInOrder(t, acts[0]);
      StepKeepsErrors(t, acts[0]);
      StepKeepsFailed(t.s, acts[0]);
      RunKeepsRight(Do(t, acts[0]), acts[1..], u);
    }
  }

  lemma TracedRight(t: Trace)
    requires Traced(t)
    ensures Right(t)
  {
    var acts :| Leads(NEW_TRACE, acts, t);
    NewRight();
    hide Right, Leads;
    RunKeepsRight(NEW_TRACE, acts, t);
  }

  lemma NewRight()
    ensures Right(NEW_TRACE)
  {
    InitInv();
    hide Inv;
  }

  lemma {:induction false} FromSending(sent: seq<Sending>, k: nat)
    ensures Item(k, Idle) in MeansAll(sent) ==> EndSent(sent, k)
  {
    if sent != [] {
      var n := |sent| - 1;
      FromSending(sent[..n], k);
      BadGrows(sent[..n], sent[n], k);
      assert sent == sent[..n] + [sent[n]];
    }
  }

  lemma {:induction false} InPlain(items: seq<Item>, x: Item)
    requires x in items && !IsAnnouncement(x)
    ensures x in Plain(items)
  {
    var n := |items| - 1;
    if items[n] != x { InPlain(items[..n], x); }
  }

  /** The marker of a turn comes right after an error if and only if the harness ended the turn as
    * cancelled or failed; and that is the turn's only error. */
  lemma ErrorIffBad(t: Trace, i: nat, k: nat)
    requires Traced(t) && i < |t.s.emitted| && t.s.emitted[i] == Item(k, Idle)
    ensures EndSent(t.sent, k)
    ensures Bad(t.sent, k) <==> i > 0 && t.s.emitted[i - 1] == Item(k, ErrEv)
    ensures forall j :: 0 <= j < |t.s.emitted| && t.s.emitted[j] == Item(k, ErrEv) ==> j == i - 1
  {
    TracedErrors(t);
    SentIsQueued(t);
    var s := t.s;
    InPlain(s.emitted, Item(k, Idle));
    FromSending(t.sent, k);
    assert Ordered(s.emitted, s.h.turn, Pending(s)) by { hide LoopInv, ToolInv, StageInv, StartInv, Ordered; }
    hide Inv, EndSent, Bad, Plain, MeansAll, Traced;
    forall j | 0 <= j < |s.emitted| && s.emitted[j] == Item(k, ErrEv) ensures j == i - 1 {
      assert ErrorNext(s, j);
      if j + 1 < |s.emitted| { assert s.emitted[j + 1] == Item(k, Idle); }
    }
  }

  /** A session that holds a turn's marker has failed if and only if the turn was ended as cancelled or
    * failed, and the error was not read by an earlier session: that is, unless the marker is all it
    * has seen. */
  lemma ErrorReaches(t: Trace, k: nat)
    requires Traced(t) && t.s.reader.Some? && t.s.reader.value.inHand == Some(Item(k, Idle))
    ensures var r := t.s.reader.value;
      && r.failed == (Bad(t.sent, k) && |r.seen| >= 2)
      && (r.failed ==> r.seen[|r.seen| - 2] == Item(k, ErrEv))
  {
    hide *;
    TracedErrors(t);
    SeenIsEmitted(t.s);
    LastError(t, |t.s.taken|, k);
    FailedByError(t.s);
  }

  lemma TracedErrors(t: Trace)
    requires Traced(t)
    ensures Inv(t.s) && ErrorsBad(t) && MarkersRight(t) && FailedRight(t.s)
  {
    TracedRight(t);
    hide Inv, ErrorsBad, MarkersRight, FailedRight, InOrder;
  }

  lemma FailedByError(s: State)
    requires FailedRight(s) && s.reader.Some? && s.reader.value.inHand.Some?
    requires forall i :: 0 <= i < |s.reader.value.seen| && s.reader.value.seen[i].ev.ErrEv? ==>
      i == |s.reader.value.seen| - 2
    ensures var r := s.reader.value;
      r.failed <==> |r.seen| >= 2 && r.seen[|r.seen| - 2].ev.ErrEv?
  {
    assert |InHand(s)| == 1;
    hide InHand;
    var r := s.reader.value;
    assert |r.seen| >= 2 ==> 0 <= |r.seen| - 2 < |r.seen| - 1;
  }

  // A session has seen the last items taken, and nothing but what was queued.
  lemma SeenIsEmitted(s: State)
    requires Inv(s) && s.reader.Some?
    ensures var n, seen := |s.taken|, s.reader.value.seen;
      && |seen| <= n <= |s.emitted| && (forall i :: 0 <= i < |seen| ==> seen[i] == s.emitted[n - |seen| + i])
      && (forall i :: 0 <= i < |seen| && seen[i].ev.Idle? ==> i == |seen| - 1)
      && (s.reader.value.inHand.Some? ==> seen != [] && s.reader.value.inHand.value == seen[|seen| - 1])
  {
    hide Inv, More, SessionInv;
    SessionHolds(s);
    SeenAtEnd(s.taken, s.h.turn, More(s), s.reader.value);
  }

  lemma SeenAtEnd(taken: seq<Item>, turn: nat, more: bool, r: Session)
    requires SessionInv(taken, turn, more, r)
    ensures var n, seen := |taken|, r.seen;
      && |seen| <= n && (forall i :: 0 <= i < |seen| ==> seen[i] == taken[n - |seen| + i])
      && (forall i :: 0 <= i < |seen| && seen[i].ev.Idle? ==> i == |seen| - 1)
      && (r.inHand.Some? ==> seen != [] && r.inHand.value == seen[|seen| - 1])
  {
  }

  lemma SessionHolds(s: State)
    requires Inv(s) && s.reader.Some?
    ensures SessionInv(s.taken, s.h.turn, More(s), s.reader.value) && s.emitted == s.taken + s.queue
  {
    hide LoopInv, ToolInv, StartInv, Ordered, SessionInv;
  }

  lemma LastError(t: Trace, n: nat, k: nat)
    requires ErrorsBad(t) && MarkersRight(t) && t.s.reader.Some?
    requires var seen := t.s.reader.value.seen;
      && 1 <= |seen| <= n <= |t.s.emitted| && seen[|seen| - 1] == Item(k, Idle)
      && (forall i :: 0 <= i < |seen| ==> seen[i] == t.s.emitted[n - |seen| + i])
      && (forall i :: 0 <= i < |seen| && seen[i].ev.Idle? ==> i == |seen| - 1)
    ensures var seen := t.s.reader.value.seen;
      && (forall i :: 0 <= i < |seen| && seen[i].ev.ErrEv? ==> i == |seen| - 2)
      && (|seen| >= 2 ==> (Bad(t.sent, k) <==> seen[|seen| - 2] == Item(k, ErrEv)))
      && (|seen| >= 2 && seen[|seen| - 2].ev.ErrEv? ==> seen[|seen| - 2].turn == k)
  {
    hide Bad;
    var seen, s := t.s.reader.value.seen, t.s;
    var m := |seen|;
    assert s.emitted[n - 1] == seen[m - 1];
    if m >= 2 { assert seen[m - 2] == s.emitted[n - 2]; }
    forall i | 0 <= i < m && seen[i].ev.ErrEv? ensures i == m - 2 && seen[i].turn == k {
      assert s.emitted[n - m + i] == seen[i] && ErrorNext(s, n - m + i);
      assert seen[i + 1] == s.emitted[n - m + i + 1];
    }
  }

  /** A drain that meets the error of the turn it drains stops the send, whose start is not recorded; one
    * that does not goes on to record it. */
  lemma DrainStopsOnError(t: Trace, k: nat)
    requires Traced(t) && t.s.reader.Some? && t.s.reader.value.inHand == Some(Item(k, Idle))
    requires t.s.reader.value.drain
    ensures var u := Do(t, ByReader(Process)).s;
      && u.reader == None && u.starts == t.s.starts
      && u.pc == if Bad(t.sent, k) && |t.s.reader.value.seen| >= 2 then Ready else Commit
  {
    ErrorReaches(t, k);
    hide Bad;
  }

  // ----- the client's own tools ----------------------------------------------------------

  predicate OnWire(s: State, id: nat) { exists i :: 0 <= i < |s.wire| && s.wire[i].out == ToolCall(id) }

  predicate Announced(emitted: seq<Item>, id: nat) {
    exists i :: 0 <= i < |emitted| && emitted[i].ev == StepEv(Announce(id))
  }

  /** A call sent has been announced, once, unless it is on the wire or its announcement is outstanding. */
  ghost predicate CallsRight(s: State) {
    && (forall m :: m in s.todo ==> !(m.Emit? && IsAnnouncement(m.item)))
    && (forall id: nat :: Announced(s.emitted, id) <==>
          id < s.h.nextCall && !OnWire(s, id) && (id in s.tools ==> s.tools[id].announced))
    && (forall i, j :: 0 <= i < j < |s.emitted| && IsAnnouncement(s.emitted[i]) && IsAnnouncement(s.emitted[j]) ==>
          s.emitted[i].ev != s.emitted[j].ev)
  }

  lemma AnnouncedMore(emitted: seq<Item>, x: Item, id: nat)
    ensures Announced(emitted + [x], id) <==> Announced(emitted, id) || x.ev == StepEv(Announce(id))
  {
    var next := emitted + [x];
    assert next[|emitted|] == x && forall i :: 0 <= i < |emitted| ==> next[i] == emitted[i];
    if Announced(emitted, id) {
      var i :| 0 <= i < |emitted| && emitted[i].ev == StepEv(Announce(id));
      assert next[i].ev == StepEv(Announce(id));
    }
  }

  lemma WireCall(s: State, w: Wired, id: nat)
    ensures OnWire(s.(wire := s.wire + [w]), id) <==> OnWire(s, id) || w.out == ToolCall(id)
  {
    var next := s.wire + [w];
    assert next[|s.wire|] == w && forall i :: 0 <= i < |s.wire| ==> next[i] == s.wire[i];
    if OnWire(s, id) {
      var i :| 0 <= i < |s.wire| && s.wire[i].out == ToolCall(id);
      assert next[i].out == ToolCall(id);
    }
  }

  lemma SentCalls(s: State, e: HarnessAct)
    requires ToolInv(s) && CallsRight(s) && HarnessMay(s.h, e)
    ensures CallsRight(HarnessStep(s, e))
  {
    var u, w := HarnessStep(s, e), Sent(s.h, e);
    forall id: nat ensures OnWire(u, id) <==> OnWire(s, id) || (e.SendCall? && id == s.h.nextCall) {
      WireCall(s, w, id);
      assert u.wire == s.(wire := s.wire + [w]).wire;
    }
    assert s.tools.Keys <= s.h.outstanding;
    assert e.SendCall? ==> !Announced(s.emitted, s.h.nextCall);
    hide OnWire, Announced, Sent;
  }

  lemma ReceivedCalls(s: State)
    requires ToolInv(s) && CallsRight(s) && Enabled(s, Receive)
    ensures CallsRight(ReceiveStep(s))
  {
    var u, w := ReceiveStep(s), s.wire[0];
    assert s.wire == [w] + u.wire;
    forall id: nat ensures OnWire(s, id) <==> OnWire(u, id) || w.out == ToolCall(id) {
      if OnWire(u, id) {
        var i :| 0 <= i < |u.wire| && u.wire[i].out == ToolCall(id);
        assert s.wire[i + 1] == u.wire[i];
      }
      if OnWire(s, id) {
        var i :| 0 <= i < |s.wire| && s.wire[i].out == ToolCall(id);
        assert i > 0 ==> u.wire[i - 1] == s.wire[i];
      }
    }
    if w.out.ToolCall? {
      assert w.out.call !in s.tools;
      FirstCallOnce(s);
    }
    hide OnWire, Announced, ToolInv;
  }

  lemma FirstCallOnce(s: State)
    requires ToolInv(s) && s.wire != [] && s.wire[0].out.ToolCall?
    ensures !OnWire(s.(wire := s.wire[1..]), s.wire[0].out.call)
  {
    forall i | 0 <= i < |s.wire[1..]| ensures s.wire[1..][i].out != s.wire[0].out {
      assert s.wire[1..][i] == s.wire[i + 1];
    }
  }

  lemma OneMoreItem(s: State, u: State, x: Item)
    requires CallsRight(s) && u.emitted == s.emitted + [x] && !IsAnnouncement(x)
    requires u.wire == s.wire && u.tools == s.tools && u.h == s.h && forall m :: m in u.todo ==> m in s.todo
    ensures CallsRight(u)
  {
    forall id: nat ensures Announced(u.emitted, id) <==> Announced(s.emitted, id) { AnnouncedMore(s.emitted, x, id); }
    hide Announced;
  }

  lemma AnnounceCalls(s: State, id: nat)
    requires ToolInv(s) && CallsRight(s) && Enabled(s, AnnounceTool(id))
    ensures CallsRight(Apply(s, AnnounceTool(id)))
  {
    var u, x := Apply(s, AnnounceTool(id)), Item(s.tools[id].turn, StepEv(Announce(id)));
    assert u.emitted == s.emitted + [x] && u.wire == s.wire && u.h == s.h;
    forall c: nat ensures Announced(u.emitted, c) <==> Announced(s.emitted, c) || c == id {
      AnnouncedMore(s.emitted, x, c);
    }
    assert !OnWire(s, id) && id < s.h.nextCall;
    forall i | 0 <= i < |s.emitted| && IsAnnouncement(s.emitted[i]) ensures s.emitted[i].ev != x.ev {
      assert s.emitted[i].ev == x.ev ==> Announced(s.emitted, id);
    }
    hide ToolInv, Announced, OnWire;
  }

  lemma SameCalls(s: State, u: State)
    requires CallsRight(s) && u.emitted == s.emitted && u.wire == s.wire && u.h.nextCall == s.h.nextCall
    requires forall m :: m in u.todo ==> m in s.todo
    requires u.tools == s.tools || exists id :: id in s.tools && s.tools[id].announced && u.tools == s.tools - {id}
    ensures CallsRight(u)
  {
    assert forall id: nat :: OnWire(u, id) <==> OnWire(s, id);
    hide Announced, OnWire;
  }

  lemma StepKeepsCalls(s: State, a: Action)
    requires Inv(s) && CallsRight(s) && Enabled(s, a)
    ensures CallsRight(Apply(s, a))
  {
    assert ToolInv(s);
    hide Inv, CallsRight, ToolInv;
    match a
    case ByHarness(e) => SentCalls(s, e);
    case Receive => ReceivedCalls(s);
    case Work => WorkCalls(s);
    case AnnounceTool(id) => AnnounceCalls(s, id);
    case AnswerTool(id) => AnsweredCalls(s, id);
    case ByReader(r) => ReadCalls(s, r);
    case BySender(d) => SendCalls(s, d);
  }

  lemma AnsweredCalls(s: State, id: nat)
    requires CallsRight(s) && Enabled(s, AnswerTool(id))
    ensures CallsRight(Apply(s, AnswerTool(id)))
  {
    hide CallsRight;
    SameCalls(s, Apply(s, AnswerTool(id)));
  }

  lemma ReadCalls(s: State, r: ReadAct)
    requires CallsRight(s) && ReaderMay(s, r)
    ensures CallsRight(ReaderStep(s, r))
  {
    hide CallsRight;
    SameCalls(s, ReaderStep(s, r));
  }

  lemma SendCalls(s: State, d: SendAct)
    requires CallsRight(s) && SenderMay(s, d)
    ensures CallsRight(SenderStep(s, d))
  {
    hide CallsRight;
    SameCalls(s, SenderStep(s, d));
  }

  lemma WorkCalls(s: State)
    requires CallsRight(s) && Enabled(s, Work)
    ensures CallsRight(WorkStep(s))
  {
    assert s.todo[0] in s.todo && forall m :: m in s.todo[1..] ==> m in s.todo;
    match s.todo[0]
    case Emit(x) =>
      assert !IsAnnouncement(x);
      hide CallsRight;
      OneMoreItem(s, WorkStep(s), x);
    case _ =>
      hide CallsRight;
      SameCalls(s, WorkStep(s));
  }

  lemma {:induction false} RunKeepsCalls(s: State, acts: seq<Action>, u: State)
    requires Inv(s) && CallsRight(s) && Clean(s, acts) && Runs(s, acts, u)
    ensures Inv(u) && CallsRight(u)
    decreases |acts|
  {
    hide Inv, CallsRight, Racy;
    if acts != [] {
      StepKeeps(s, acts[0]);
      StepKeepsCalls(s, acts[0]);
      RunKeepsCalls(Apply(s, acts[0]), acts[1..], u);
    }
  }

  /** Every call of a client tool is announced once; by the end of its turn each has been. */
  lemma CallsAnnouncedOnce(s: State, id: nat)
    requires Reachable(s)
    ensures forall i, j :: 0 <= i < j < |s.emitted| && s.emitted[i].ev == StepEv(Announce(id)) ==>
      s.emitted[j].ev != StepEv(Announce(id))
    ensures Announced(s.emitted, id) ==> id < s.h.nextCall
    ensures !s.h.active && id < s.h.nextCall ==> Announced(s.emitted, id)
  {
    ReachableCalls(s);
    if !s.h.active { NoCallsLeft(s, id); }
    hide Inv, OnWire;
  }

  lemma ReachableCalls(s: State)
    requires Reachable(s)
    ensures Inv(s) && CallsRight(s)
  {
    var acts :| Clean(INIT, acts) && Runs(INIT, acts, s);
    assert CallsRight(INIT);
    InitInv();
    hide Inv, CallsRight;
    RunKeepsCalls(INIT, acts, s);
  }

  lemma NoCallsLeft(s: State, id: nat)
    requires Inv(s) && !s.h.active
    ensures !OnWire(s, id) && id !in s.tools
  {
    assert ToolInv(s);
    hide Inv;
    assert s.h.outstanding == {} && s.tools.Keys <= s.h.outstanding;
    assert id in s.tools ==> id in s.tools.Keys;
  }

  // ----- the gate ------------------------------------------------------------------------

  /** A report on the turn's main trajectory, or before that is known on any: running closes the gate;
    * one on another trajectory, once the main one is known, does nothing. */
  lemma RunningCloses(s: State, traj: string)
    requires s.todo == [] && s.wire != [] && s.wire[0].out.StateUpdate? && s.wire[0].out.traj == traj
    ensures s.main != "" && traj != s.main ==> ReceiveStep(s) == s.(wire := s.wire[1..])
    ensures (s.main == "" || traj == s.main) && s.wire[0].out.state == Running ==>
      Enabled(ReceiveStep(s), Work) && WorkStep(ReceiveStep(s)) == s.(wire := s.wire[1..], gate := false)
    ensures (s.main == "" || traj == s.main) && s.wire[0].out.state == Other ==>
      ReceiveStep(s) == s.(wire := s.wire[1..])
  {
  }

  /** A step of any trajectory makes it the turn's main one if none is known. */
  lemma FirstStepIsMain(s: State, traj: string, n: nat)
    requires s.todo == [] && s.wire != [] && s.wire[0].out == StepUpdate(traj, n)
    ensures ReceiveStep(s).main == if s.main == "" then traj else s.main
  {
  }

  /** Whoever has an event to queue waits while the queue holds 64. */
  lemma QueueBlocks(s: State)
    ensures s.todo != [] && s.todo[0].Emit? ==> (Enabled(s, Work) <==> |s.queue| < 64)
    ensures forall id | id in s.tools && !s.tools[id].announced :: Enabled(s, AnnounceTool(id)) <==> |s.queue| < 64
  {
  }

  /** The queue never holds more than 64 events. */
  lemma {:induction false} QueueBounded(s: State, acts: seq<Action>, t: State)
    requires Runs(s, acts, t) && |s.queue| <= 64
    ensures |t.queue| <= 64
    decreases |acts|
  {
    hide Apply, Enabled;
    if acts != [] {
      StepBounded(s, acts[0]);
      QueueBounded(Apply(s, acts[0]), acts[1..], t);
    }
  }

  lemma StepBounded(s: State, a: Action)
    requires Enabled(s, a) && |s.queue| <= 64
    ensures |Apply(s, a).queue| <= 64
  {
  }

  // ----- a turn with all of it -----------------------------------------------------------

  lemma TwoMore(s: State, a: Action, b: Action) returns (t: State)
    requires Reachable(s) && Enabled(s, a) && !Racy(s, a) && Enabled(Apply(s, a), b) && !Racy(Apply(s, a), b)
    ensures Reachable(t) && t == Apply(Apply(s, a), b)
  {
    var acts :| Clean(INIT, acts) && Runs(INIT, acts, s);
    t := Two(s, a, b);
    Join(INIT, acts, s, [a, b], t);
  }

  /** A run of a first turn that has a step, a call of a client tool, a step of a subagent and its report that
    * it is idle, and that then fails: each brings its event, the report none. */
  lemma BusyTurn() returns (s: State)
    ensures Reachable(s) && s.gate && !s.h.active && s.tools == map[] && s.h.outstanding == {}
    ensures s.emitted == [Item(1, StepEv(Update("m", 0))), Item(1, StepEv(Announce(0))),
                          Item(1, StepEv(Update("sub", 0))), Item(1, ErrEv), Item(1, Idle)]
  {
    var acts;
    acts, s := FirstTurnSent();
    s := MainSpeaks(s);
    s := SubagentSpeaks(s);
    s := TurnFails(s);
  }

  lemma MainSpeaks(s: State) returns (t: State)
    requires Reachable(s) && s.h == Harness(1, true, "m", false, 0, {}) && s.main == "" && s.todo == []
    requires s.wire == [] && s.queue == [] && s.tools == map[] && s.emitted == []
    ensures Reachable(t) && t.h == Harness(1, true, "m", true, 1, {0}) && t.main == "m" && t.todo == []
    ensures t.wire == [] && |t.queue| == 2 && t.tools == map[0 := Tool(1, true)]
    ensures t.emitted == [Item(1, StepEv(Update("m", 0))), Item(1, StepEv(Announce(0)))]
  {
    t := TwoMore(s, ByHarness(SendStep("m", 0)), Receive);
    assert t.todo == [Emit(Item(1, StepEv(Update("m", 0))))] && t.main == "m" && t.h.stepped;
    t := TwoMore(t, Work, ByHarness(SendCall));
    assert t.emitted == [Item(1, StepEv(Update("m", 0)))] && t.todo == [] && t.wire == [Wired(1, true, ToolCall(0))];
    t := TwoMore(t, Receive, AnnounceTool(0));
  }

  lemma SubagentSpeaks(s: State) returns (t: State)
    requires Reachable(s) && s.h.active && s.h.stepped && s.main == "m" && s.h.main == "m" && s.todo == []
    requires s.wire == [] && |s.queue| < 10 && s.tools == map[0 := Tool(1, true)]
    requires s.h.outstanding == {0} && s.h.turn == 1
    ensures Reachable(t) && t.h == s.h.(outstanding := {}) && t.main == "m" && t.todo == [] && t.wire == []
    ensures t.tools == map[] && t.emitted == s.emitted + [Item(1, StepEv(Update("sub", 0)))] && |t.queue| < 11
  {
    t := TwoMore(s, ByHarness(SendStep("sub", 0)), Receive);
    assert t.todo == [Emit(Item(1, StepEv(Update("sub", 0))))];
    t := TwoMore(t, Work, ByHarness(SendState("sub", FullyIdle, false)));
    t := TwoMore(t, Receive, AnswerTool(0));
  }

  lemma TurnFails(s: State) returns (t: State)
    requires Reachable(s) && s.h.active && s.main == "m" && s.h.main == "m" && s.todo == [] && s.h.turn == 1
    requires s.wire == [] && |s.queue| < 11 && s.tools == map[] && s.h.outstanding == {}
    ensures Reachable(t) && t.gate && !t.h.active && t.tools == map[] && t.h.outstanding == {}
    ensures t.emitted == s.emitted + [Item(1, ErrEv), Item(1, Idle)]
  {
    t := TwoMore(s, ByHarness(SendEnd(false, true)), Receive);
    assert t.todo == [Emit(Item(1, ErrEv)), Emit(Item(1, Idle)), OpenGate];
    t := TwoMore(t, Work, Work);
    assert t.todo == [OpenGate];
    var acts :| Clean(INIT, acts) && Runs(INIT, acts, t);
    One(t, Work);
    Join(INIT, acts, t, [Work], WorkStep(t));
    t := WorkStep(t);
  }
}
