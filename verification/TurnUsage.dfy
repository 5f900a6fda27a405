/** Which start each turn's usage figure is taken against, over every run of the turn protocol with
  * history cleared at any time.
  *
  * A reader takes the idle marker from the queue and only then finishes the turn. Meanwhile the
  * gate may open and a sender, finding the queue empty, record the start of the next turn.
  */
module TurnUsage {
  import opened TurnProtocol
  import opened Options
  import Usage

  type Amount = Usage.UsageMetadata

  /** What happens to a conversation's usage: a turn's start is recorded, with the reading then and
    * whether a session held an item at the time; a turn is finished; or history is cleared. */
  datatype Entry = Began(turn: nat, held: bool, reading: Amount) | Ended(turn: nat, reading: Amount) | Wiped

  /** A session with the entries so far, which are a history variable. */
  datatype Account = Account(s: State, log: seq<Entry>)

  /** A step of the protocol, with the reading it goes by should it go by one, or a clear. Readings are
    * arbitrary: the total may have been read a while before. */
  datatype Deed = Acts(act: Action, reading: Amount) | Clears

  const NEW_ACCOUNT := Account(INIT, [])

  function Noted(s: State, a: Action, reading: Amount): seq<Entry>
    requires Enabled(s, a)
  {
    if a == BySender(RecordStart) then [Began(s.h.turn + 1, InHand(s) != [], reading)]
    else if a == ByReader(Process) && s.reader.value.inHand.value.ev.Idle?
    then [Ended(s.reader.value.inHand.value.turn, reading)]
    else []
  }

  predicate May(a: Account, d: Deed) { d.Acts? ==> Enabled(a.s, d.act) && !Racy(a.s, d.act) }

  function Do(a: Account, d: Deed): Account
    requires May(a, d)
  {
    match d
    case Acts(act, reading) => Account(Apply(a.s, act), a.log + Noted(a.s, act, reading))
    case Clears => a.(log := a.log + [Wiped])
  }

  ghost predicate Leads(a: Account, ds: seq<Deed>, b: Account)
    decreases |ds|
  {
    if ds == [] then a == b else May(a, ds[0]) && Leads(Do(a, ds[0]), ds[1..], b)
  }

  /** The accounts of every clean run from a new session. */
  ghost predicate Kept(a: Account) { exists ds :: Leads(NEW_ACCOUNT, ds, a) }

  // ----- the order of the entries --------------------------------------------------------

  ghost predicate HasBegan(log: seq<Entry>, turn: nat) {
    exists p :: 0 <= p < |log| && log[p].Began? && log[p].turn == turn
  }

  ghost predicate HasEnded(log: seq<Entry>, turn: nat) {
    exists p :: 0 <= p < |log| && log[p].Ended? && log[p].turn == turn
  }

  /** Starts and ends come in the order of their turns, an end after its start; at most the start of
    * the next turn comes between, and then it was recorded while a session held something. */
  ghost predicate Orderly(log: seq<Entry>) {
    && (forall p :: 0 <= p < |log| && log[p].Began? ==>
          && log[p].turn >= 1
          && (log[p].held <==> log[p].turn >= 2 && !HasEnded(log[..p], log[p].turn - 1)))
    && (forall p, q :: 0 <= p < q < |log| && log[p].Began? && log[q].Began? ==> log[p].turn <= log[q].turn)
    && (forall p, q :: 0 <= p < q < |log| && log[p].Ended? && log[q].Ended? ==> log[p].turn < log[q].turn)
    && (forall p, q :: 0 <= p < q < |log| && log[p].Began? && log[q].Ended? ==> log[p].turn <= log[q].turn + 1)
    && (forall q :: 0 <= q < |log| && log[q].Ended? ==> HasBegan(log[..q], log[q].turn))
  }

  lemma OrderlyBegins(log: seq<Entry>, turn: nat, held: bool, reading: Amount)
    requires Orderly(log) && turn >= 1 && (held <==> turn >= 2 && !HasEnded(log, turn - 1))
    requires forall p :: 0 <= p < |log| && log[p].Began? ==> log[p].turn <= turn
    ensures Orderly(log + [Began(turn, held, reading)])
  {
    var next := log + [Began(turn, held, reading)];
    assert next[..|log|] == log;
    forall p | 0 <= p < |log| ensures next[..p] == log[..p] {}
    hide HasBegan, HasEnded;
  }

  lemma OrderlyEnds(log: seq<Entry>, turn: nat, reading: Amount)
    requires Orderly(log) && HasBegan(log, turn)
    requires forall p :: 0 <= p < |log| && log[p].Began? ==> log[p].turn <= turn + 1
    requires forall p :: 0 <= p < |log| && log[p].Ended? ==> log[p].turn < turn
    ensures Orderly(log + [Ended(turn, reading)])
  {
    var next := log + [Ended(turn, reading)];
    assert next[..|log|] == log;
    forall p | 0 <= p < |log| ensures next[..p] == log[..p] {}
    hide HasBegan, HasEnded;
  }

  lemma OrderlyClears(log: seq<Entry>)
    requires Orderly(log)
    ensures Orderly(log + [Wiped])
  {
    var next := log + [Wiped];
    forall p | 0 <= p < |log| ensures next[..p] == log[..p] {}
    hide HasBegan, HasEnded;
  }

  // ----- what the protocol says of the entries -------------------------------------------

  /** Before the first turn nothing is emitted. */
  ghost predicate Numbered(s: State) {
    && (s.h.turn == 0 ==> !More(s))
    && (forall x :: x in s.emitted ==> x.turn >= 1)
  }

  /** Every turn so far has its start, and the next one from when it is recorded. */
  ghost predicate Begun(a: Account) {
    && (forall p :: 0 <= p < |a.log| && a.log[p].Began? ==>
          a.log[p].turn <= a.s.h.turn + 1 && (a.log[p].turn == a.s.h.turn + 1 ==> !More(a.s)))
    && (forall k :: 1 <= k <= a.s.h.turn ==> HasBegan(a.log, k))
    && (DuringReset(a.s.pc) ==> HasBegan(a.log, a.s.h.turn + 1))
  }

  /** The turns finished are those whose marker has been taken and put away. */
  ghost predicate Finished(a: Account) {
    forall k: nat :: HasEnded(a.log, k) <==> Item(k, Idle) in a.s.taken && InHand(a.s) != [Item(k, Idle)]
  }

  ghost predicate Sound(a: Account) {
    Inv(a.s) && Numbered(a.s) && Begun(a) && Finished(a) && Orderly(a.log)
  }

  // The number of the turn, and that nothing of it is left, change only when a prompt is delivered.
  lemma MoreFalls(s: State, a: Action)
    requires Inv(s) && Enabled(s, a) && !Racy(s, a) && !(a.BySender? && a.d.Deliver? && a.d.ok)
    ensures Apply(s, a).h.turn == s.h.turn && (More(Apply(s, a)) ==> More(s))
  {
    hide LogInv, StageInv, StartInv;
    match a
    case ByHarness(e) => assert s.h.active;
    case Receive => assert s.wire != [];
    case Work => WorkKeepsLoop(s);
    case AnnounceTool(_) => assert s.h.active;
    case AnswerTool(_) => assert s.h.active;
    case ByReader(r) => ReaderLeaves(s, r);
    case BySender(d) => SenderLeaves(s, d);
  }

  lemma ReaderLeaves(s: State, r: ReadAct)
    requires ReaderMay(s, r)
    ensures ReaderStep(s, r).h == s.h && (More(ReaderStep(s, r)) ==> More(s))
  {
    assert Pending(ReaderStep(s, r)) == Pending(s);
    hide Pending;
  }

  lemma SenderLeaves(s: State, d: SendAct)
    requires SenderMay(s, d) && !(d.Deliver? && d.ok)
    ensures SenderStep(s, d).h == s.h && (More(SenderStep(s, d)) ==> More(s))
  {
    assert Pending(SenderStep(s, d)) == Pending(s);
    hide Pending;
  }

  lemma TakesAlone(s: State, a: Action)
    requires Enabled(s, a)
    ensures a != ByReader(Take) ==> Apply(s, a).taken == s.taken
    ensures a != ByReader(Take) && a != ByReader(Process) ==> InHand(Apply(s, a)) == InHand(s)
  {
  }

  lemma EmitsOfTurn(s: State, a: Action)
    requires Inv(s) && Enabled(s, a)
    ensures var t := Apply(s, a);
      t.emitted == s.emitted || (Pending(s) && exists x :: t.emitted == s.emitted + [x] && x.turn == s.h.turn)
  {
    hide StageInv, LogInv, StartInv;
    match a
    case Work =>
      WorkKeepsLoop(s);
      if s.todo[0].Emit? { assert WorkStep(s).emitted == s.emitted + [s.todo[0].item]; }
    case AnnounceTool(id) =>
      assert s.h.active && Apply(s, a).emitted == s.emitted + [Item(s.tools[id].turn, StepEv(Announce(id)))];
    case _ =>
  }

  lemma StepKeepsNumbers(s: State, a: Action)
    requires Inv(s) && Numbered(s) && Enabled(s, a) && !Racy(s, a)
    ensures Numbered(Apply(s, a))
  {
    EmitsOfTurn(s, a);
    if !(a.BySender? && a.d.Deliver? && a.d.ok) { MoreFalls(s, a); }
    hide Inv, Racy, Pending;
  }

  /** A marker in hand is the current turn's, or the last one's while the current turn goes on. */
  lemma HeldMarker(s: State, m: nat)
    requires Inv(s) && Numbered(s) && InHand(s) == [Item(m, Idle)]
    ensures 1 <= m <= s.h.turn && s.h.turn == (if More(s) then m + 1 else m)
    ensures Item(m, Idle) in s.taken
    ensures forall k: nat :: Item(k, Idle) in s.taken ==> k <= m
  {
    hide LoopInv, ToolInv, StartInv;
    var x, n := Item(m, Idle), |s.taken|;
    assert s.taken[n - 1] == x;
    assert s.emitted == s.taken + s.queue && s.emitted[n - 1] == x && x in s.emitted;
    assert Ordered(s.emitted, s.h.turn, Pending(s));
    forall k: nat | Item(k, Idle) in s.taken ensures k <= m {
      var i :| 0 <= i < n && s.taken[i] == Item(k, Idle);
      assert s.emitted[i] == Item(k, Idle);
    }
    if m < s.h.turn { MarkerQueued(s, m); } else { MoreHasNoMarker(s, m); }
  }

  lemma MoreHasNoMarker(s: State, m: nat)
    requires Inv(s) && InHand(s) == [Item(m, Idle)] && m == s.h.turn
    ensures !More(s)
  {
    hide LoopInv, ToolInv, StartInv;
    var n := |s.taken|;
    assert s.taken[n - 1] == Item(m, Idle) && s.emitted[n - 1] == s.taken[n - 1];
    assert s.emitted[n - 1] in s.emitted;
    assert s.emitted[n..] == s.queue;
    assert forall i :: n <= i < |s.emitted| ==> m < s.emitted[i].turn;
    assert forall x :: x in s.emitted[n..] ==> m < x.turn;
    HasFirst(s.queue);
  }

  lemma HasFirst(items: seq<Item>)
    ensures items != [] ==> exists x :: x in items
  {
    if items != [] { assert items[0] in items; }
  }

  // The marker after the one in hand is still to come: in the queue at best.
  lemma MarkerQueued(s: State, m: nat)
    requires Inv(s) && InHand(s) == [Item(m, Idle)] && m < s.h.turn
    ensures s.h.turn == m + 1 && More(s)
  {
    hide LoopInv, ToolInv, StartInv;
    var n, y := |s.taken|, Item(m + 1, Idle);
    assert s.taken[n - 1] == Item(m, Idle) && s.emitted[n - 1] == s.taken[n - 1];
    if y in s.emitted {
      var i :| 0 <= i < |s.emitted| && s.emitted[i] == y;
      assert i >= n;
      assert s.queue[i - n] == y && y in s.queue;
    } else {
      assert m + 1 == s.h.turn && Pending(s);
    }
  }

  /** When the next start is about to be recorded, a session holds nothing or the last turn's marker,
    * and nothing if and only if that turn is finished. */
  lemma HeldAtCommit(a: Account)
    requires Sound(a) && a.s.pc.Commit?
    ensures InHand(a.s) != [] ==> a.s.h.turn >= 1 && InHand(a.s) == [Item(a.s.h.turn, Idle)]
    ensures InHand(a.s) != [] <==> a.s.h.turn >= 1 && !HasEnded(a.log, a.s.h.turn)
  {
    var s := a.s;
    if InHand(s) != [] {
      HoldsMarker(s);
      HeldMarker(s, InHand(s)[0].turn);
    } else if s.h.turn >= 1 {
      hide LoopInv, ToolInv, StartInv, Orderly;
      assert !Pending(s) && s.emitted == s.taken + s.queue == s.taken + [];
      assert Item(s.h.turn, Idle) in s.emitted;
    }
    hide Inv, Orderly, Begun;
  }

  lemma HoldsMarker(s: State)
    requires Inv(s) && s.pc.Commit? && InHand(s) != []
    ensures InHand(s) == [Item(InHand(s)[0].turn, Idle)] && !More(s)
  {
    hide LoopInv, ToolInv, LogInv, StartInv;
    assert SessionInv(s.taken, s.h.turn, More(s), s.reader.value);
    assert !More(s);
  }

  // ----- every step keeps it -------------------------------------------------------------

  lemma HasBeganMore(log: seq<Entry>, more: seq<Entry>, k: nat)
    ensures HasBegan(log, k) ==> HasBegan(log + more, k)
  {
    if HasBegan(log, k) {
      var p :| 0 <= p < |log| && log[p].Began? && log[p].turn == k;
      assert (log + more)[p] == log[p];
    }
  }

  lemma HasEndedMore(log: seq<Entry>, e: Entry, k: nat)
    ensures HasEnded(log + [e], k) <==> HasEnded(log, k) || (e.Ended? && e.turn == k)
  {
    var next := log + [e];
    assert next[|log|] == e;
    if HasEnded(log, k) {
      var p :| 0 <= p < |log| && log[p].Ended? && log[p].turn == k;
      assert next[p] == log[p];
    }
    if HasEnded(next, k) {
      var p :| 0 <= p < |next| && next[p].Ended? && next[p].turn == k;
      assert p < |log| ==> next[p] == log[p];
    }
  }

  lemma BeganAt(log: seq<Entry>, p: nat)
    requires p < |log| && log[p].Began?
    ensures HasBegan(log, log[p].turn)
  {
  }

  lemma StartKeeps(a: Account, reading: Amount)
    requires Sound(a) && a.s.pc.Commit?
    ensures var e := Began(a.s.h.turn + 1, InHand(a.s) != [], reading);
      var b := Account(SenderStep(a.s, RecordStart), a.log + [e]); Begun(b) && Finished(b) && Orderly(b.log)
  {
    var s, e := a.s, Began(a.s.h.turn + 1, InHand(a.s) != [], reading);
    var t := SenderStep(s, RecordStart);
    HeldAtCommit(a);
    CommitsRead(s);
    hide Inv, More, Numbered;
    assert t.h == s.h && !More(t) by { SenderLeaves(s, RecordStart); }
    assert t.taken == s.taken && InHand(t) == InHand(s);
    hide SenderStep, InHand;
    StartBegun(a, e, t);
    StartFinished(a, e, t);
    hide Finished;
    OrderlyBegins(a.log, e.turn, e.held, reading);
  }

  lemma CommitsRead(s: State)
    requires Inv(s) && s.pc.Commit?
    ensures !More(s)
  {
    hide LoopInv, ToolInv, LogInv, StartInv, SessionInv;
  }

  lemma StartBegun(a: Account, e: Entry, t: State)
    requires Begun(a) && e.Began? && e.turn == a.s.h.turn + 1 && !More(t) && t.h == a.s.h
    ensures Begun(Account(t, a.log + [e]))
  {
    var log := a.log + [e];
    assert log[|a.log|] == e;
    BeganAt(log, |a.log|);
    hide HasBegan, More;
    forall j | 1 <= j <= t.h.turn ensures HasBegan(log, j) { HasBeganMore(a.log, [e], j); }
  }

  lemma StartFinished(a: Account, e: Entry, t: State)
    requires Finished(a) && !e.Ended? && t.taken == a.s.taken && InHand(t) == InHand(a.s)
    ensures Finished(Account(t, a.log + [e]))
  {
    hide HasEnded, InHand;
    forall j: nat ensures HasEnded(a.log + [e], j) <==> HasEnded(a.log, j) { HasEndedMore(a.log, e, j); }
  }

  lemma EndKeeps(a: Account, reading: Amount)
    requires Sound(a) && ReaderMay(a.s, Process) && a.s.reader.value.inHand.value.ev.Idle?
    ensures var e := Ended(a.s.reader.value.inHand.value.turn, reading);
      var b := Account(ReaderStep(a.s, Process), a.log + [e]); Begun(b) && Finished(b) && Orderly(b.log)
  {
    var s, m := a.s, a.s.reader.value.inHand.value.turn;
    var t, e := ReaderStep(s, Process), Ended(m, reading);
    assert InHand(s) == [Item(m, Idle)] && InHand(t) == [];
    HeldMarker(s, m);
    ReaderLeaves(s, Process);
    assert t.taken == s.taken && (DuringReset(t.pc) ==> DuringReset(s.pc));
    hide Inv, More, Numbered, ReaderStep, InHand;
    EndBegun(a, e, t);
    EndFinished(a, e, t);
    EndOrderly(a, m, reading);
  }

  lemma EndBegun(a: Account, e: Entry, t: State)
    requires Begun(a) && !e.Began? && t.h == a.s.h
    requires (More(t) ==> More(a.s)) && (DuringReset(t.pc) ==> DuringReset(a.s.pc))
    ensures Begun(Account(t, a.log + [e]))
  {
    var log := a.log + [e];
    hide HasBegan, More;
    forall j: nat ensures HasBegan(a.log, j) ==> HasBegan(log, j) { HasBeganMore(a.log, [e], j); }
  }

  lemma EndFinished(a: Account, e: Entry, t: State)
    requires Finished(a) && e.Ended? && InHand(a.s) == [Item(e.turn, Idle)]
    requires Item(e.turn, Idle) in a.s.taken && t.taken == a.s.taken && InHand(t) == []
    ensures Finished(Account(t, a.log + [e]))
  {
    hide HasEnded, InHand;
    forall j: nat ensures HasEnded(a.log + [e], j) <==> HasEnded(a.log, j) || j == e.turn { HasEndedMore(a.log, e, j); }
  }

  lemma EndOrderly(a: Account, m: nat, reading: Amount)
    requires Begun(a) && Finished(a) && Orderly(a.log) && InHand(a.s) == [Item(m, Idle)]
    requires 1 <= m <= a.s.h.turn && a.s.h.turn == (if More(a.s) then m + 1 else m)
    requires forall k: nat :: Item(k, Idle) in a.s.taken ==> k <= m
    ensures Orderly(a.log + [Ended(m, reading)])
  {
    hide Orderly, HasBegan, More;
    forall p | 0 <= p < |a.log| && a.log[p].Ended? ensures a.log[p].turn < m {
      assert HasEnded(a.log, a.log[p].turn);
    }
    OrderlyEnds(a.log, m, reading);
  }

  lemma TakeKeepsFinished(a: Account)
    requires Inv(a.s) && Finished(a) && ReaderMay(a.s, Take)
    ensures Finished(Account(ReaderStep(a.s, Take), a.log))
  {
    var s, x := a.s, a.s.queue[0];
    var t := ReaderStep(s, Take);
    assert InHand(s) == [] && InHand(t) == [x] && t.taken == s.taken + [x];
    if x.ev.Idle? { NotTakenYet(s, x); }
    hide Inv, HasEnded, ReaderStep, InHand;
    forall k: nat ensures HasEnded(a.log, k) <==> Item(k, Idle) in t.taken && InHand(t) != [Item(k, Idle)] {
      assert Item(k, Idle) in t.taken <==> Item(k, Idle) in s.taken || Item(k, Idle) == x;
    }
  }

  lemma NotTakenYet(s: State, x: Item)
    requires Inv(s) && s.queue != [] && s.queue[0] == x && x.ev.Idle?
    ensures x !in s.taken
  {
    hide LoopInv, ToolInv, StageInv, StartInv;
    var n := |s.taken|;
    assert s.emitted == s.taken + s.queue && s.emitted[n] == x;
    forall i | 0 <= i < n ensures s.taken[i] != x { assert s.emitted[i] == s.taken[i]; }
  }

  lemma QuietKeepsFinished(a: Account, act: Action)
    requires Inv(a.s) && Finished(a) && Enabled(a.s, act) && Noted(a.s, act, Usage.UNUSED) == []
    ensures Finished(Account(Apply(a.s, act), a.log))
  {
    if act == ByReader(Take) {
      TakeKeepsFinished(a);
    } else {
      TakesAlone(a.s, act);
      hide Inv, HasEnded;
      if act == ByReader(Process) {
        assert InHand(Apply(a.s, act)) == [] && InHand(a.s) == [a.s.reader.value.inHand.value];
      }
    }
  }

  lemma DeliverKeepsBegun(a: Account, main: string)
    requires Begun(a) && SenderMay(a.s, Deliver(true, main))
    ensures Begun(Account(SenderStep(a.s, Deliver(true, main)), a.log))
  {
  }

  lemma QuietStays(s: State, act: Action)
    requires Enabled(s, act) && act != BySender(RecordStart)
    ensures DuringReset(Apply(s, act).pc) ==> DuringReset(s.pc)
  {
    if act.ByReader? || act.BySender? { return; }
    assert Apply(s, act).pc == s.pc;
  }

  lemma QuietKeepsBegun(a: Account, act: Action)
    requires Inv(a.s) && Begun(a) && Enabled(a.s, act) && !Racy(a.s, act) && Noted(a.s, act, Usage.UNUSED) == []
    ensures Begun(Account(Apply(a.s, act), a.log))
  {
    if act.BySender? && act.d.Deliver? && act.d.ok {
      DeliverKeepsBegun(a, act.d.main);
    } else {
      MoreFalls(a.s, act);
      QuietStays(a.s, act);
      hide *;
      SameBegun(a, Apply(a.s, act));
    }
  }

  lemma SameBegun(a: Account, t: State)
    requires Begun(a) && t.h.turn == a.s.h.turn
    requires (More(t) ==> More(a.s)) && (DuringReset(t.pc) ==> DuringReset(a.s.pc))
    ensures Begun(Account(t, a.log))
  {
    hide HasBegan, More;
  }

  lemma StepKeepsSound(a: Account, d: Deed)
    requires Sound(a) && May(a, d)
    ensures Sound(Do(a, d))
  {
    hide Inv, Numbered, Begun, Finished, Orderly;
    match d
    case Clears => ClearKeeps(a);
    case Acts(act, reading) =>
      StepKeeps(a.s, act);
      StepKeepsNumbers(a.s, act);
      if act == BySender(RecordStart) {
        StartKeeps(a, reading);
      } else if act == ByReader(Process) && a.s.reader.value.inHand.value.ev.Idle? {
        EndKeeps(a, reading);
      } else {
        QuietKeepsBegun(a, act);
        QuietKeepsFinished(a, act);
        assert Do(a, d).log == a.log;
      }
  }

  lemma ClearKeeps(a: Account)
    requires Sound(a)
    ensures Sound(Do(a, Clears))
  {
    hide Inv, Numbered;
    OrderlyClears(a.log);
    EndBegun(a, Wiped, a.s);
    StartFinished(a, Wiped, a.s);
  }

  lemma NewSound()
    ensures Sound(NEW_ACCOUNT)
  {
    InitInv();
    hide Inv;
  }

  lemma {:induction false} RunKeepsSound(a: Account, ds: seq<Deed>, b: Account)
    requires Sound(a) && Leads(a, ds, b)
    ensures Sound(b)
    decreases |ds|
  {
    hide Sound, May, Do;
    if ds != [] {
      StepKeepsSound(a, ds[0]);
      RunKeepsSound(Do(a, ds[0]), ds[1..], b);
    }
  }

  lemma KeptSound(a: Account)
    requires Kept(a)
    ensures Sound(a)
  {
    var ds :| Leads(NEW_ACCOUNT, ds, a);
    NewSound();
    RunKeepsSound(NEW_ACCOUNT, ds, a);
  }

  // ----- the start in force --------------------------------------------------------------

  /** The turn whose start a turn that ends now is measured from; None after a clear. */
  function InForce(log: seq<Entry>): Option<nat> {
    if log == [] then None
    else
      match log[|log| - 1]
      case Began(turn, _, _) => Some(turn)
      case Ended(_, _) => InForce(log[..|log| - 1])
      case Wiped => None
  }

  /** The next turn's start was recorded while a session still held this turn's marker. */
  ghost predicate Overtaken(log: seq<Entry>, turn: nat) {
    exists p :: 0 <= p < |log| && log[p].Began? && log[p].turn == turn + 1 && log[p].held
  }

  /** History was cleared before entry j, and no start recorded in between. */
  ghost predicate WipedSince(log: seq<Entry>, j: nat)
    requires j <= |log|
  {
    exists w :: 0 <= w < j && log[w].Wiped? && forall p :: w < p < j ==> !log[p].Began?
  }

  ghost predicate OnlyEnds(log: seq<Entry>, p: int, j: nat)
    requires j <= |log| && -1 <= p
  {
    forall q :: p < q < j ==> log[q].Ended?
  }

  lemma {:induction false} InForceIs(log: seq<Entry>, j: nat) returns (p: int)
    requires j <= |log|
    ensures -1 <= p < j && OnlyEnds(log, p, j)
    ensures p == -1 ==> InForce(log[..j]).None?
    ensures p >= 0 ==> !log[p].Ended? && InForce(log[..j]) == if log[p].Began? then Some(log[p].turn) else None
  {
    if j == 0 {
      p := -1;
    } else {
      assert log[..j][..j - 1] == log[..j - 1];
      if log[j - 1].Ended? { p := InForceIs(log, j - 1); } else { p := j - 1; }
    }
  }

  // The last start or clear before an end is a clear, or its own turn's start, or the next turn's.
  lemma LastStart(log: seq<Entry>, p: nat, j: nat)
    requires Orderly(log) && p < j < |log| && log[j].Ended? && OnlyEnds(log, p, j) && log[p].Began?
    ensures log[j].turn <= log[p].turn <= log[j].turn + 1
    ensures log[p].turn == log[j].turn + 1 ==> log[p].held
  {
    assert HasBegan(log[..j], log[j].turn);
    var i :| 0 <= i < j && log[i].Began? && log[i].turn == log[j].turn;
    assert i <= p;
    EndsOnce(log, p, j);
    hide HasBegan, HasEnded;
    if i < p { assert log[i].turn <= log[p].turn; }
  }

  lemma EndsOnce(log: seq<Entry>, p: nat, j: nat)
    requires Orderly(log) && p <= |log| && j < |log| && log[j].Ended?
    ensures HasEnded(log[..p], log[j].turn) <==> j < p
  {
    hide HasBegan;
    if j < p { assert log[..p][j] == log[j]; }
  }

  lemma OvertakenBefore(log: seq<Entry>, p: nat, j: nat)
    requires Orderly(log) && p < j < |log| && log[j].Ended? && OnlyEnds(log, p, j) && log[p].Began?
    requires Overtaken(log, log[j].turn)
    ensures log[p].turn >= log[j].turn + 1
  {
    var i :| 0 <= i < |log| && log[i].Began? && log[i].turn == log[j].turn + 1 && log[i].held;
    EndsOnce(log, i, j);
    hide HasBegan, HasEnded;
    assert !HasEnded(log[..i], log[i].turn - 1);
    assert i < j;
    assert i <= p;
  }

  lemma NoStart(log: seq<Entry>, j: nat)
    requires Orderly(log) && j < |log| && log[j].Ended?
    ensures !OnlyEnds(log, -1, j)
  {
    assert HasBegan(log[..j], log[j].turn);
  }

  /** Every end in an orderly log is measured from its own turn's start, unless history has been
    * cleared since the last start or the turn has been overtaken: then from the next turn's. */
  lemma InForceExact(log: seq<Entry>, j: nat)
    requires Orderly(log) && j < |log| && log[j].Ended?
    ensures InForce(log[..j]) ==
      if WipedSince(log, j) then None else Some(if Overtaken(log, log[j].turn) then log[j].turn + 1 else log[j].turn)
  {
    hide Orderly;
    var p := InForceIs(log, j);
    NoStart(log, j);
    if log[p].Wiped? {
      assert WipedSince(log, j);
    } else {
      assert !WipedSince(log, j);
      LastStart(log, p, j);
      if Overtaken(log, log[j].turn) { OvertakenBefore(log, p, j); }
    }
  }

  // ----- the figures reported ------------------------------------------------------------

  function MarkOf(e: Entry): Usage.Mark {
    match e
    case Began(_, _, reading) => Usage.Sent(reading)
    case Ended(_, reading) => Usage.Finished(reading)
    case Wiped => Usage.Cleared
  }

  /** The log as the conversation's own bookkeeping sees it. */
  function Marks(log: seq<Entry>): (r: seq<Usage.Mark>)
    ensures |r| == |log|
  {
    if log == [] then [] else Marks(log[..|log| - 1]) + [MarkOf(log[|log| - 1])]
  }

  lemma MarksLast(log: seq<Entry>, n: nat)
    requires n < |log|
    ensures Marks(log[..n + 1])[..n] == Marks(log[..n]) && Marks(log[..n + 1])[n] == MarkOf(log[n])
  {
    assert log[..n + 1][..n] == log[..n];
  }

  /** The figure reported at entry j, when a turn is finished. */
  function Figure(log: seq<Entry>, j: nat): Amount
    requires j < |log| && log[j].Ended?
  {
    MarksLast(log, j);
    Usage.MarkedAll(Marks(log[..j + 1])).last.value
  }

  function Start(log: seq<Entry>, j: nat): Amount
    requires j <= |log|
  {
    Usage.StartInForce(Marks(log[..j]))
  }

  lemma FigureFromStart(log: seq<Entry>, j: nat)
    requires j < |log| && log[j].Ended?
    ensures Figure(log, j) == Usage.Turn(Start(log, j), log[j].reading).Spent()
  {
    MarksLast(log, j);
    Usage.MeterStart(Marks(log[..j]));
  }

  lemma {:induction false} StartAt(log: seq<Entry>, p: int, j: nat)
    requires -1 <= p < j <= |log| && OnlyEnds(log, p, j) && p >= 0 && !log[p].Ended?
    ensures Start(log, j) == if log[p].Began? then log[p].reading else Usage.UNUSED
  {
    MarksLast(log, j - 1);
    if p < j - 1 { StartAt(log, p, j - 1); }
  }

  /** The last recording of turn's start before entry j; a failed send leaves earlier ones. */
  ghost predicate OwnStart(log: seq<Entry>, j: nat, i: nat) {
    && i < j < |log| && log[j].Ended? && log[i].Began? && log[i].turn == log[j].turn
    && forall p :: i < p < j && log[p].Began? ==> log[p].turn != log[j].turn
  }

  /** A turn's figure is taken against its own start if and only if history was not cleared since, and
    * the next turn's start was not recorded while a session held the turn's marker. Otherwise it is
    * taken against nothing, or against that next start, and is right only if the two happen to agree. */
  lemma FigureOf(a: Account, j: nat, i: nat) returns (p: nat)
    requires Kept(a) && OwnStart(a.log, j, i)
    ensures i <= p < j && (p == i <==> !WipedSince(a.log, j) && !Overtaken(a.log, a.log[j].turn))
    ensures WipedSince(a.log, j) <==> a.log[p].Wiped?
    ensures !WipedSince(a.log, j) && p != i ==> a.log[p].Began? && a.log[p].held && a.log[p].turn == a.log[j].turn + 1
    ensures var after, before, start := a.log[j].reading, a.log[i].reading,
        if a.log[p].Began? then a.log[p].reading else Usage.UNUSED;
      && Figure(a.log, j) == Usage.Turn(start, after).Spent()
      && (Figure(a.log, j) == Usage.Turn(before, after).Spent() <==>
          start.counts == before.counts && (after.tier == "" ==> start.tier == before.tier))
  {
    KeptSound(a);
    var log := a.log;
    hide Orderly, Usage.Turn.Spent;
    InForceExact(log, j);
    var q := InForceIs(log, j);
    NoStart(log, j);
    p := q;
    StartAt(log, p, j);
    FigureFromStart(log, j);
    Usage.StartReplacedIff(Start(log, j), log[i].reading, log[j].reading);
    if log[p].Began? { LastStart(log, p, j); }
  }

  lemma {:induction false} LastOf(log: seq<Entry>, j: nat, k: nat) returns (i: nat)
    requires j <= |log| && HasBegan(log[..j], k)
    ensures i < j && log[i].Began? && log[i].turn == k
    ensures forall p :: i < p < j && log[p].Began? ==> log[p].turn != k
  {
    if log[j - 1].Began? && log[j - 1].turn == k {
      i := j - 1;
    } else {
      var p :| 0 <= p < j && log[..j][p].Began? && log[..j][p].turn == k;
      assert log[..j - 1][p] == log[p];
      i := LastOf(log, j - 1, k);
    }
  }

  /** Every turn that finishes has a start of its own, and finishes once. */
  lemma EachTurnOnce(a: Account, j: nat) returns (i: nat)
    requires Kept(a) && j < |a.log| && a.log[j].Ended?
    ensures OwnStart(a.log, j, i)
    ensures forall p :: 0 <= p < |a.log| && p != j && a.log[p].Ended? ==> a.log[p].turn != a.log[j].turn
  {
    KeptSound(a);
    assert HasBegan(a.log[..j], a.log[j].turn);
    hide HasBegan, HasEnded;
    i := LastOf(a.log, j, a.log[j].turn);
  }

  /** What a start is recorded over: nothing, or the last turn's marker, and nothing exactly when
    * that turn, if any, is finished. */
  lemma HeldMeansUnfinished(a: Account)
    requires Kept(a) && a.s.pc.Commit?
    ensures InHand(a.s) == [] || InHand(a.s) == [Item(a.s.h.turn, Idle)]
    ensures InHand(a.s) == [] <==> a.s.h.turn == 0 || HasEnded(a.log, a.s.h.turn)
  {
    KeptSound(a);
    HeldAtCommit(a);
  }

  // ----- whole runs ----------------------------------------------------------------------

  /** No turn is overtaken, and no history is cleared during one. */
  ghost predicate Undisturbed(log: seq<Entry>) {
    forall j :: 0 <= j < |log| && log[j].Ended? ==> !WipedSince(log, j) && !Overtaken(log, log[j].turn)
  }

  /** The reading at the last recording of a turn's start. */
  function StartOf(log: seq<Entry>, turn: nat): Amount {
    if log == [] then Usage.UNUSED
    else
      var e := log[|log| - 1];
      if e.Began? && e.turn == turn then e.reading else StartOf(log[..|log| - 1], turn)
  }

  /** The turns finished, each from its own start to its end. */
  function OwnTurns(log: seq<Entry>): seq<Usage.Turn> {
    if log == [] then []
    else
      var before, e := log[..|log| - 1], log[|log| - 1];
      if e.Ended? then OwnTurns(before) + [Usage.Turn(StartOf(before, e.turn), e.reading)] else OwnTurns(before)
  }

  lemma {:induction false} StartOfAt(log: seq<Entry>, p: nat, j: nat)
    requires p < j <= |log| && OnlyEnds(log, p, j) && log[p].Began?
    ensures StartOf(log[..j], log[p].turn) == log[p].reading
  {
    assert log[..j][..j - 1] == log[..j - 1];
    if p < j - 1 { StartOfAt(log, p, j - 1); }
  }

  lemma EndFromOwn(log: seq<Entry>, j: nat)
    requires Orderly(log) && Undisturbed(log) && j < |log| && log[j].Ended?
    ensures Start(log, j) == StartOf(log[..j], log[j].turn)
  {
    hide Orderly;
    var p := InForceIs(log, j);
    NoStart(log, j);
    InForceExact(log, j);
    StartAt(log, p, j);
    StartOfAt(log, p, j);
  }

  lemma {:induction false} FiguresAreTurns(log: seq<Entry>, n: nat)
    requires Orderly(log) && Undisturbed(log) && n <= |log|
    ensures Usage.Figures(Marks(log[..n])) == OwnTurns(log[..n])
  {
    if n > 0 {
      var j := n - 1;
      FiguresAreTurns(log, j);
      MarksLast(log, j);
      assert log[..n][..j] == log[..j];
      if log[j].Ended? { EndFromOwn(log, j); }
      hide Orderly, Undisturbed;
    }
  }

  /** Over any run in which no turn is overtaken and no history cleared during one, the figures
    * reported are what the turns spent, each from its own start to its end; with what was spent
    * between turns they add up to the total. */
  lemma OwnTurnsTelescope(a: Account, start: Usage.Counts)
    requires Kept(a) && Undisturbed(a.log)
    ensures Usage.Figures(Marks(a.log)) == OwnTurns(a.log)
    ensures Usage.Reported(Marks(a.log)) == Usage.Spending(OwnTurns(a.log))
    ensures Usage.AddCounts(start, Usage.AddCounts(Usage.Reported(Marks(a.log)), Usage.Gaps(start, OwnTurns(a.log)))) ==
      Usage.Reading(start, OwnTurns(a.log))
  {
    KeptSound(a);
    assert a.log[..|a.log|] == a.log;
    FiguresAreTurns(a.log, |a.log|);
    hide *;
    Usage.ReportsTurns(Marks(a.log));
    Usage.RunTelescopes(start, Marks(a.log));
  }

  // ----- a turn overtaken ----------------------------------------------------------------

  lemma {:induction false} Follow(a: Account, ds: seq<Deed>, b: Account, es: seq<Deed>, c: Account)
    requires Leads(a, ds, b) && Leads(b, es, c)
    ensures Leads(a, ds + es, c)
    decreases |ds|
  {
    if ds == [] {
      assert ds + es == es;
    } else {
      Follow(Do(a, ds[0]), ds[1..], b, es, c);
      assert (ds + es)[1..] == ds[1..] + es;
    }
  }

  lemma One(a: Account, d: Deed) returns (b: Account)
    requires Kept(a) && May(a, d)
    ensures Kept(b) && b == Do(a, d)
  {
    b := Do(a, d);
    var ds :| Leads(NEW_ACCOUNT, ds, a);
    Follow(NEW_ACCOUNT, ds, a, [d], b);
  }

  lemma Two(a: Account, x: Action, y: Action, reading: Amount) returns (b: Account)
    requires Kept(a) && Enabled(a.s, x) && !Racy(a.s, x) && Enabled(Apply(a.s, x), y) && !Racy(Apply(a.s, x), y)
    ensures Kept(b) && b.s == Apply(Apply(a.s, x), y)
    ensures b.log == a.log + Noted(a.s, x, reading) + Noted(Apply(a.s, x), y, reading)
  {
    b := One(a, Acts(x, reading));
    b := One(b, Acts(y, reading));
  }

  /** A sender that finds the gate open and the queue empty records the next start at once. */
  lemma StartsAtOnce(a: Account, reading: Amount) returns (b: Account)
    requires Kept(a) && a.s.pc == Ready && a.s.gate && a.s.queue == []
    ensures Kept(b) && b.s == a.s.(pc := Reset, starts := b.s.starts)
    ensures b.log == a.log + [Began(a.s.h.turn + 1, InHand(a.s) != [], reading)]
  {
    b := FindsIdle(a, reading);
    b := Two(b, BySender(TestQueue), BySender(RecordStart), reading);
    hide InHand, Kept;
  }

  lemma FindsIdle(a: Account, reading: Amount) returns (b: Account)
    requires Kept(a) && a.s.pc == Ready && a.s.gate
    ensures Kept(b) && b.s == a.s.(pc := CheckQueue) && b.log == a.log
  {
    b := Two(a, BySender(Call), BySender(TestGate), reading);
    hide InHand, Kept;
  }

  lemma Delivers(a: Account) returns (b: Account)
    requires Kept(a) && a.s.pc == Reset && a.s.queue == [] && a.s.todo == [] && a.s.h.outstanding == {}
    ensures Kept(b) && b.log == a.log
    ensures b.s == a.s.(pc := Ready, gate := false, main := "",
                        h := Harness(a.s.h.turn + 1, true, "m", false, a.s.h.nextCall, {}))
  {
    b := Two(a, BySender(ClearMain), BySender(CloseIdle), Usage.UNUSED);
    assert b.log == a.log;
    b := Two(b, BySender(FlushQueue), BySender(Deliver(true, "m")), Usage.UNUSED);
  }

  /** The turn ends, a reader takes its marker, and the gate is opened. */
  lemma EndsUnread(a: Account) returns (b: Account)
    requires Kept(a) && a.s.h.active && a.s.h.outstanding == {} && a.s.reader == None
    requires a.s.todo == [] && a.s.wire == [] && a.s.queue == [] && a.s.main == ""
    ensures Kept(b) && b.log == a.log && b.s.pc == a.s.pc && b.s.h.turn == a.s.h.turn
    ensures b.s.gate && b.s.queue == []
    ensures b.s.reader == Some(Session(false, [Item(a.s.h.turn, Idle)], Some(Item(a.s.h.turn, Idle)), false))
  {
    var end, x := SendEnd(false, false), Item(a.s.h.turn, Idle);
    assert ReceiveStep(HarnessStep(a.s, end)).todo == [Emit(x), OpenGate];
    b := Two(a, ByHarness(end), Receive, Usage.UNUSED);
    b := Two(b, Work, Work, Usage.UNUSED);
    assert b.s.queue == [x] && b.log == a.log;
    b := Two(b, ByReader(Begin), ByReader(Take), Usage.UNUSED);
    assert [] + [x] == [x];
  }

  /** The figures go wrong without any clear: in a run from a new session the second start is recorded
    * while a reader holds the first turn's marker, and the first figure is taken against it. */
  lemma OvertakenRun(first: Amount, second: Amount, after: Amount) returns (a: Account)
    ensures Kept(a) && a.log == [Began(1, false, first), Began(2, true, second), Ended(1, after)]
    ensures Figure(a.log, 2) == Usage.Turn(second, after).Spent()
  {
    assert Leads(NEW_ACCOUNT, [], NEW_ACCOUNT);
    a := StartsAtOnce(NEW_ACCOUNT, first);
    a := Delivers(a);
    a := EndsUnread(a);
    a := StartsAtOnce(a, second);
    assert a.log == [Began(1, false, first), Began(2, true, second)];
    a := One(a, Acts(ByReader(Process), after));
    assert a.log == [Began(1, false, first), Began(2, true, second), Ended(1, after)];
    assert OwnStart(a.log, 2, 0);
    var p := FigureOf(a, 2, 0);
    assert a.log[1].held && Overtaken(a.log, 1);
  }
}
