/** Answering the requests that step updates carry. The harness repeats the updates of a step;
  * each wait is answered once, however often it is repeated and however the updates of
  * different steps interleave. */
module Requests {

  datatype Key = Key(trajectory: string, index: nat)

  datatype UpdateState = Unspecified | Active | Done | WaitingForUser | Failed

  datatype Update = Update(key: Key, state: UpdateState, questions: bool, confirmation: bool) {
    predicate Waiting() { state == WaitingForUser }

    predicate Asks(kind: string) {
      (kind == QUESTIONS && questions) || (kind == CONFIRMATION && confirmation)
    }
  }

  const QUESTIONS := "questions_request"
  const CONFIRMATION := "tool_confirmation_request"

  /** An answer sent off for a request, with the position in the stream that caused it. */
  datatype Answer = Answer(key: Key, kind: string, at: nat)

  // ----- waits ---------------------------------------------------------------------------

  /** The updates of one step. */
  function Own(stream: seq<Update>, key: Key): seq<Update> {
    if stream == [] then []
    else
      var own := Own(stream[..|stream| - 1], key);
      if stream[|stream| - 1].key == key then own + [stream[|stream| - 1]] else own
  }

  /** A wait begins at i: the step was not waiting just before. */
  predicate Begins(us: seq<Update>, i: int) {
    0 <= i < |us| && us[i].Waiting() && (i == 0 || !us[i - 1].Waiting())
  }

  /** The step keeps waiting from i to j. */
  ghost predicate Lasts(us: seq<Update>, i: int, j: int) {
    0 <= i <= j < |us| && forall m :: i <= m <= j ==> us[m].Waiting()
  }

  ghost predicate AsksWithin(us: seq<Update>, kind: string, i: int) {
    exists j :: Lasts(us, i, j) && us[j].Asks(kind)
  }

  /** The waits of a step that ask for one kind of answer, each named by where it begins. */
  ghost function Waits(us: seq<Update>, kind: string): set<int> {
    set i | 0 <= i < |us| && Begins(us, i) && AsksWithin(us, kind, i)
  }

  // ----- what the trackers compute -------------------------------------------------------

  function LastState(us: seq<Update>): UpdateState {
    if us == [] then Unspecified else us[|us| - 1].state
  }

  function Asked(u: Update): set<string> {
    (if u.questions then {QUESTIONS} else {}) + (if u.confirmation then {CONFIRMATION} else {})
  }

  /** The kinds marked as handled after a step's updates. */
  function Handled(us: seq<Update>): set<string> {
    if us == [] then {}
    else
      var before, u := Handled(us[..|us| - 1]), us[|us| - 1];
      if u.Waiting() then before + Asked(u)
      else if LastState(us[..|us| - 1]) == WaitingForUser then {}
      else before
  }

  function Kinds(handled: set<string>, u: Update): seq<string> {
    (if u.questions && QUESTIONS !in handled then [QUESTIONS] else []) +
    (if u.confirmation && CONFIRMATION !in handled then [CONFIRMATION] else [])
  }

  function AnswersTo(handled: set<string>, u: Update, at: nat): seq<Answer> {
    if u.Waiting() then AnswerAll(u.key, Kinds(handled, u), at) else []
  }

  function AnswerAll(key: Key, kinds: seq<string>, at: nat): seq<Answer> {
    seq(|kinds|, k requires 0 <= k < |kinds| => Answer(key, kinds[k], at))
  }

  /** The answers dispatched over a stream of updates. */
  function Dispatched(stream: seq<Update>): seq<Answer> {
    if stream == [] then []
    else
      var n := |stream| - 1;
      Dispatched(stream[..n]) + AnswersTo(Handled(Own(stream[..n], stream[n].key)), stream[n], n)
  }

  function Count(answers: seq<Answer>, key: Key, kind: string): nat {
    if answers == [] then 0
    else
      Count(answers[..|answers| - 1], key, kind) +
      if answers[|answers| - 1].key == key && answers[|answers| - 1].kind == kind then 1 else 0
  }

  lemma {:induction false} CountAppend(a: seq<Answer>, b: seq<Answer>, key: Key, kind: string)
    ensures Count(a + b, key, kind) == Count(a, key, kind) + Count(b, key, kind)
  {
    if b == [] {
      assert a + b == a;
    } else {
      assert (a + b)[..|a + b| - 1] == a + b[..|b| - 1];
      CountAppend(a, b[..|b| - 1], key, kind);
    }
  }

  // ----- one answer per wait -------------------------------------------------------------

  /** Where the wait that is going on after these updates began. */
  function Ongoing(us: seq<Update>): (i: nat)
    ensures i <= |us|
    ensures LastState(us) == WaitingForUser ==> Begins(us, i)
  {
    if us == [] || !us[|us| - 1].Waiting() then |us|
    else
      Ongoing(us[..|us| - 1])
  }

  lemma {:induction false} OngoingLasts(us: seq<Update>)
    ensures forall m :: Ongoing(us) <= m < |us| ==> us[m].Waiting()
    ensures forall i :: 0 <= i < |us| && Lasts(us, i, |us| - 1) && Begins(us, i) ==> i == Ongoing(us)
  {
    if us != [] && us[|us| - 1].Waiting() {
      OngoingLasts(us[..|us| - 1]);
    }
  }

  /** A kind is marked as handled exactly while a wait that asked for it goes on. */
  lemma {:induction false} HandledMeans(us: seq<Update>, kind: string)
    ensures kind in Handled(us) <==> exists j :: Ongoing(us) <= j < |us| && us[j].Asks(kind)
  {
    if us != [] {
      var before, u := us[..|us| - 1], us[|us| - 1];
      HandledMeans(before, kind);
      if u.Waiting() {
        assert kind in Asked(u) <==> u.Asks(kind);
        if j :| Ongoing(before) <= j < |before| && before[j].Asks(kind) { assert us[j].Asks(kind); }
      }
    }
  }

  // One more update adds the wait going on, if it asks for something not yet handled.
  lemma WaitsGrow(us: seq<Update>, u: Update, kind: string)
    ensures Waits(us + [u], kind) ==
      Waits(us, kind) + if u.Waiting() && u.Asks(kind) then {Ongoing(us + [u])} else {}
  {
    var next := us + [u];
    OngoingLasts(next);
    forall i | 0 <= i < |us| ensures Begins(next, i) == Begins(us, i) {}
    forall i | i in Waits(us, kind) ensures i in Waits(next, kind) {
      var j :| Lasts(us, i, j) && us[j].Asks(kind);
      assert Lasts(next, i, j) && next[j].Asks(kind);
    }
    if u.Waiting() && u.Asks(kind) {
      assert next[..|next| - 1] == us;
      assert Lasts(next, Ongoing(next), |us|) && next[|us|].Asks(kind);
    }
    forall i | i in Waits(next, kind)
      ensures i in Waits(us, kind) || (u.Waiting() && u.Asks(kind) && i == Ongoing(next))
    {
      var j :| Lasts(next, i, j) && next[j].Asks(kind);
      if j < |us| {
        assert Lasts(us, i, j) && us[j].Asks(kind);
      }
    }
  }

  lemma OngoingCounted(us: seq<Update>, u: Update, kind: string)
    requires u.Waiting()
    ensures Ongoing(us + [u]) in Waits(us, kind) <==> kind in Handled(us)
  {
    var next := us + [u];
    var i := Ongoing(next);
    assert next[..|next| - 1] == us;
    HandledMeans(us, kind);
    OngoingLasts(us);
    if kind in Handled(us) {
      var j :| Ongoing(us) <= j < |us| && us[j].Asks(kind);
      assert us[j].Waiting();
      assert LastState(us) == WaitingForUser && i == Ongoing(us);
      assert Lasts(us, i, j) && us[j].Asks(kind);
    }
    if i in Waits(us, kind) {
      var j :| Lasts(us, i, j) && us[j].Asks(kind);
    }
  }

  lemma CountAnswers(handled: set<string>, u: Update, at: nat, key: Key, kind: string)
    ensures Count(AnswersTo(handled, u, at), key, kind) ==
      if u.key == key && u.Waiting() && u.Asks(kind) && kind !in handled then 1 else 0
  {
    if u.Waiting() {
      var a := if u.questions && QUESTIONS !in handled then [Answer(u.key, QUESTIONS, at)] else [];
      var b := if u.confirmation && CONFIRMATION !in handled then [Answer(u.key, CONFIRMATION, at)] else [];
      assert AnswersTo(handled, u, at) == a + b;
      assert QUESTIONS[0] != CONFIRMATION[0];
      CountAppend(a, b, key, kind);
    }
  }

  /** Over any interleaved stream, the answers of one kind dispatched for one step are as many
    * as its maximal waits that ask for that kind. */
  lemma {:induction false} OneAnswerPerWait(stream: seq<Update>, key: Key, kind: string)
    ensures Count(Dispatched(stream), key, kind) == |Waits(Own(stream, key), kind)|
  {
    hide Waits, Handled, AnswersTo;
    if stream == [] {
      assert Waits([], kind) == {} by { NoWaits(kind); }
    } else {
      var n := |stream| - 1;
      var u, own := stream[n], Own(stream[..n], key);
      OneAnswerPerWait(stream[..n], key, kind);
      var handled := Handled(Own(stream[..n], u.key));
      CountAppend(Dispatched(stream[..n]), AnswersTo(handled, u, n), key, kind);
      CountAnswers(handled, u, n, key, kind);
      if u.key == key {
        WaitsGrow(own, u, kind);
        if u.Waiting() { OngoingCounted(own, u, kind); }
      }
    }
  }

  lemma NoWaits(kind: string)
    ensures Waits([], kind) == {}
  {
  }

  /** Every answer goes to a step that was waiting and asking for it when it was dispatched. */
  lemma {:induction false} AnswersAreAsked(stream: seq<Update>, a: Answer)
    requires a in Dispatched(stream)
    ensures a.at < |stream| && stream[a.at].key == a.key
    ensures stream[a.at].Waiting() && stream[a.at].Asks(a.kind)
  {
    var n := |stream| - 1;
    if a in Dispatched(stream[..n]) { AnswersAreAsked(stream[..n], a); }
  }

  // ----- the processor -------------------------------------------------------------------

  class StepTracker {
    var state: UpdateState
    var handled: set<string>

    constructor ()
      ensures state == Unspecified && handled == {}
    {
      state, handled := Unspecified, {};
    }

    method SetState(next: UpdateState)
      modifies this
      ensures state == next
      ensures handled == if old(state) == WaitingForUser && next != WaitingForUser then {} else old(handled)
    {
      if state == WaitingForUser && next != WaitingForUser { handled := {}; }
      state := next;
    }

    method MarkHandled(kind: string) returns (won: bool)
      modifies this`handled
      ensures won <==> kind !in old(handled)
      ensures handled == old(handled) + {kind}
    {
      if kind in handled { return false; }
      handled := handled + {kind};
      return true;
    }
  }

  class Responder {
    var trackers: map<Key, StepTracker>
    ghost var answers: seq<Answer>
    ghost var stream: seq<Update>

    ghost predicate Separate() reads this {
      forall k, l :: k in trackers && l in trackers && k != l ==> trackers[k] != trackers[l]
    }

    ghost predicate Tracks(key: Key)
      reads this, trackers.Values
    {
      if key in trackers then
        trackers[key].state == LastState(Own(stream, key)) && trackers[key].handled == Handled(Own(stream, key))
      else Own(stream, key) == []
    }

    ghost predicate Valid()
      reads this, trackers.Values
    {
      Separate() && (forall key :: Tracks(key)) && answers == Dispatched(stream)
    }

    constructor ()
      ensures Valid() && stream == [] && fresh(trackers.Values)
    {
      trackers, answers, stream := map[], [], [];
    }

    /** Marks a request as handled, reporting whether this caller is the one to answer it. */
    method Claim(key: Key, kind: string) returns (won: bool)
      requires Separate()
      modifies if key in trackers then {trackers[key]} else {}
      ensures won <==> key in trackers && kind !in old(trackers[key].handled)
      ensures key in trackers ==> trackers[key].handled == old(trackers[key].handled) + {kind}
      ensures key in trackers ==> trackers[key].state == old(trackers[key].state)
    {
      if key !in trackers { return false; }
      won := trackers[key].MarkHandled(kind);
    }

    method Track(key: Key) returns (tracker: StepTracker)
      requires Separate()
      modifies this`trackers
      ensures Separate() && trackers == old(trackers)[key := tracker]
      ensures key in old(trackers) ==> tracker == old(trackers)[key]
      ensures key !in old(trackers) ==> fresh(tracker) && tracker.state == Unspecified && tracker.handled == {}
    {
      if key in trackers {
        tracker := trackers[key];
      } else {
        tracker := new StepTracker();
        trackers := trackers[key := tracker];
      }
    }

    // Claims and dispatches the requests of an update in the waiting state.
    method Dispatch(u: Update) returns (sent: seq<string>)
      requires Separate() && u.key in trackers
      modifies trackers[u.key]
      ensures trackers[u.key].state == old(trackers[u.key].state)
      ensures trackers[u.key].handled == old(trackers[u.key].handled) + Asked(u)
      ensures sent == Kinds(old(trackers[u.key].handled), u)
    {
      assert QUESTIONS[0] != CONFIRMATION[0];
      sent := [];
      if u.questions {
        var won := Claim(u.key, QUESTIONS);
        if won { sent := sent + [QUESTIONS]; }
      }
      if u.confirmation {
        var won := Claim(u.key, CONFIRMATION);
        if won { sent := sent + [CONFIRMATION]; }
      }
    }

    /** Records the update and answers its requests, unless this wait has had its answer. */
    method HandleStepUpdate(u: Update) returns (sent: seq<string>)
      requires Valid()
      modifies this, trackers.Values
      ensures Valid() && stream == old(stream) + [u]
      ensures fresh(trackers.Values - old(trackers.Values))
      ensures answers == old(answers) + AnswerAll(u.key, sent, |old(stream)|)
    {
      hide Own, Handled, Dispatched, LastState, Asked, Kinds;
      ghost var own := Own(stream, u.key);
      assert Tracks(u.key);
      assert own == [] ==> LastState(own) == Unspecified && Handled(own) == {} by { OfNone(); }
      var tracker := Track(u.key);
      assert tracker.state == LastState(own) && tracker.handled == Handled(own);
      tracker.SetState(u.state);
      sent := [];
      if u.Waiting() { sent := Dispatch(u); }
      assert tracker.state == LastState(own + [u]) && tracker.handled == Handled(own + [u]) by { OfNext(own, u); }
      answers := answers + AnswersTo(Handled(own), u, |stream|);
      DispatchedNext(stream, u);
      stream := stream + [u];
      forall key ensures Tracks(key) {
        OwnNext(old(stream), u, key);
        assert old(Tracks(key));
        if key != u.key && key in trackers { assert trackers[key] != tracker; }
      }
    }
  }

  lemma OfNone()
    ensures LastState([]) == Unspecified && Handled([]) == {}
  {
  }

  lemma OfNext(us: seq<Update>, u: Update)
    ensures LastState(us + [u]) == u.state
    ensures Handled(us + [u]) ==
      if u.Waiting() then Handled(us) + Asked(u)
      else if LastState(us) == WaitingForUser then {} else Handled(us)
  {
    assert (us + [u])[..|us|] == us;
  }

  lemma OwnNext(stream: seq<Update>, u: Update, key: Key)
    ensures Own(stream + [u], key) == if key == u.key then Own(stream, key) + [u] else Own(stream, key)
  {
    assert (stream + [u])[..|stream|] == stream;
  }

  lemma DispatchedNext(stream: seq<Update>, u: Update)
    ensures Dispatched(stream + [u]) == Dispatched(stream) + AnswersTo(Handled(Own(stream, u.key)), u, |stream|)
  {
    assert (stream + [u])[..|stream|] == stream;
  }
}
