/** Answering a question request: the SDK asks its hook about the multiple-choice questions only,
  * and puts the replies back at the positions those questions had. */
module Questions {
  import opened Options

  datatype RawQuestion = MultipleChoice(text: string, choices: seq<string>, multiSelect: bool) | Other

  datatype Question = Question(text: string, options: seq<string>, multiSelect: bool)

  datatype Reply = Reply(skipped: bool, selected: seq<int>, text: string)

  datatype UserAnswer = Unanswered | Answered(indices: seq<int>, freeform: string)

  /** What the interaction hooks reply to the questions asked, if they reply at all. */
  type Hook = seq<Question> -> Option<seq<Reply>>

  function Ask(q: RawQuestion): Question
    requires q.MultipleChoice?
  {
    Question(q.text, q.choices, q.multiSelect)
  }

  /** The questions that can be put to the hook. */
  function Asked(raw: seq<RawQuestion>): seq<Question> {
    if raw == [] then []
    else
      var before, q := Asked(raw[..|raw| - 1]), raw[|raw| - 1];
      if q.MultipleChoice? then before + [Ask(q)] else before
  }

  /** How many of the first i questions are put to the hook. */
  function Rank(raw: seq<RawQuestion>, i: int): nat
    requires 0 <= i <= |raw|
  {
    |Asked(raw[..i])|
  }

  /** The replies there are: none unless something is asked and a hook is registered. */
  function Replies(raw: seq<RawQuestion>, hook: Option<Hook>): seq<Reply> {
    if Asked(raw) == [] || hook.None? then []
    else
      match hook.value(Asked(raw))
      case None => []
      case Some(replies) => replies
  }

  /** The selected options that the question has, in the order they were selected. */
  function InRange(selected: seq<int>, n: nat): seq<int> {
    if selected == [] then []
    else
      var before, x := InRange(selected[..|selected| - 1], n), selected[|selected| - 1];
      if 0 <= x < n then before + [x] else before
  }

  /** Exactly the selections in range are sent, each as often as it was selected. */
  lemma {:induction false} InRangeExact(selected: seq<int>, n: nat, x: int)
    ensures multiset(InRange(selected, n))[x] == if 0 <= x < n then multiset(selected)[x] else 0
  {
    if selected != [] {
      InRangeExact(selected[..|selected| - 1], n, x);
      assert selected == selected[..|selected| - 1] + [selected[|selected| - 1]];
    }
  }

  /** The positions of the selections a question has, in order, and what stands at each. */
  ghost predicate PicksAt(indices: seq<int>, selected: seq<int>, n: nat, at: seq<nat>) {
    && |at| == |indices|
    && (forall j, k :: 0 <= j < k < |at| ==> at[j] < at[k])
    && (forall j :: 0 <= j < |at| ==> at[j] < |selected| && indices[j] == selected[at[j]])
    && (forall p :: 0 <= p < |selected| ==> (p in at <==> 0 <= selected[p] < n))
  }

  /** The selections in range and no others, in the order selected. */
  ghost predicate Picks(indices: seq<int>, selected: seq<int>, n: nat) {
    exists at :: PicksAt(indices, selected, n, at)
  }

  lemma {:induction false} InRangePicks(selected: seq<int>, n: nat)
    ensures Picks(InRange(selected, n), selected, n)
  {
    if selected == [] {
      assert PicksAt([], [], n, []);
    } else {
      var m := |selected| - 1;
      var before, x := InRange(selected[..m], n), selected[m];
      InRangePicks(selected[..m], n);
      var at :| PicksAt(before, selected[..m], n, at);
      PicksMore(before, selected, n, at);
    }
  }

  lemma PicksMore(before: seq<int>, selected: seq<int>, n: nat, at: seq<nat>)
    requires selected != [] && PicksAt(before, selected[..|selected| - 1], n, at)
    ensures var m := |selected| - 1;
      Picks(if 0 <= selected[m] < n then before + [selected[m]] else before, selected, n)
  {
    var m := |selected| - 1;
    if 0 <= selected[m] < n {
      var next := at + [m];
      assert next[|at|] == m;
      forall p | 0 <= p < |selected| ensures p in next <==> 0 <= selected[p] < n {
        assert p in next <==> p in at || p == m;
      }
      assert PicksAt(before + [selected[m]], selected, n, next);
    } else {
      assert m !in at by { forall j | 0 <= j < |at| ensures at[j] != m {} }
      assert PicksAt(before, selected, n, at);
    }
  }

  /** What a reply to a question of n options makes of it. */
  ghost predicate Conveys(answer: UserAnswer, reply: Reply, n: nat) {
    if reply.skipped then answer == Unanswered
    else answer.Answered? && answer.freeform == reply.text && Picks(answer.indices, reply.selected, n)
  }

  lemma RenderConveys(reply: Reply, n: nat)
    ensures Conveys(Render(reply, n), reply, n)
  {
    InRangePicks(reply.selected, n);
    hide InRange, Picks;
  }

  function Render(reply: Reply, options: nat): UserAnswer {
    if reply.skipped then Unanswered else Answered(InRange(reply.selected, options), reply.text)
  }

  /** Question i gets the reply to the question put to the hook in its place, if there is one. */
  function AnswerAt(raw: seq<RawQuestion>, replies: seq<Reply>, i: int): UserAnswer
    requires 0 <= i < |raw|
  {
    if raw[i].MultipleChoice? && Rank(raw, i) < |replies|
    then Render(replies[Rank(raw, i)], |raw[i].choices|) else Unanswered
  }

  ghost predicate Aligned(raw: seq<RawQuestion>, replies: seq<Reply>, answers: seq<UserAnswer>) {
    |answers| == |raw| && forall i :: 0 <= i < |raw| ==> answers[i] == AnswerAt(raw, replies, i)
  }

  /** A question that is not multiple-choice stays unanswered, and so does one that got no reply; every
    * other conveys the reply to the question put to the hook in its place. */
  ghost predicate Conveyed(raw: seq<RawQuestion>, replies: seq<Reply>, answers: seq<UserAnswer>) {
    && |answers| == |raw|
    && forall i :: 0 <= i < |raw| ==>
         match raw[i]
         case Other => answers[i] == Unanswered
         case MultipleChoice(_, choices, _) =>
           if Rank(raw, i) < |replies| then Conveys(answers[i], replies[Rank(raw, i)], |choices|)
           else answers[i] == Unanswered
  }

  lemma AlignedConveys(raw: seq<RawQuestion>, replies: seq<Reply>, answers: seq<UserAnswer>)
    requires Aligned(raw, replies, answers)
    ensures Conveyed(raw, replies, answers)
  {
    forall i | 0 <= i < |raw| && raw[i].MultipleChoice? && Rank(raw, i) < |replies|
      ensures Conveys(answers[i], replies[Rank(raw, i)], |raw[i].choices|)
    {
      RenderConveys(replies[Rank(raw, i)], |raw[i].choices|);
    }
    hide Render, Conveys, Rank;
  }

  // With nothing to ask about, no reply is used.
  lemma RepliesOfHook(raw: seq<RawQuestion>, hook: Option<Hook>, answers: seq<UserAnswer>)
    requires Conveyed(raw, Replies(raw, hook), answers)
    ensures hook.Some? && hook.value(Asked(raw)).Some? ==> Conveyed(raw, hook.value(Asked(raw)).value, answers)
    ensures hook.None? || hook.value(Asked(raw)).None? ==> forall i :: 0 <= i < |raw| ==> answers[i] == Unanswered
  {
    forall i | 0 <= i < |raw| && raw[i].MultipleChoice? ensures Asked(raw) != [] { AskedOnce(raw, i); }
    hide Asked, Rank, Conveys;
  }

  lemma {:induction false} AskedOnce(raw: seq<RawQuestion>, i: nat)
    requires i < |raw| && raw[i].MultipleChoice?
    ensures Asked(raw) != []
  {
    if i < |raw| - 1 { AskedOnce(raw[..|raw| - 1], i); }
  }

  method QuestionAnswer(reply: Reply, question: Question) returns (r: UserAnswer)
    ensures r == Render(reply, |question.options|) && Conveys(r, reply, |question.options|)
  {
    if reply.skipped { return Unanswered; }
    var indices := [];
    for k := 0 to |reply.selected|
      invariant indices == InRange(reply.selected[..k], |question.options|)
    {
      var i := reply.selected[k];
      assert reply.selected[..k + 1][..k] == reply.selected[..k];
      if i >= 0 && i < |question.options| { indices := indices + [i]; }
    }
    assert reply.selected[..|reply.selected|] == reply.selected;
    r := Answered(indices, reply.text);
    InRangePicks(reply.selected, |question.options|);
  }

  ghost predicate CameFrom(raw: seq<RawQuestion>, i: int, k: int, question: Question)
    requires 0 <= i < |raw|
  {
    raw[i].MultipleChoice? && Rank(raw, i) == k && question == Ask(raw[i])
  }

  /** Where each question put to the hook came from. */
  ghost predicate AskedAt(raw: seq<RawQuestion>, n: int, questions: seq<Question>, askedAt: seq<int>)
    requires 0 <= n <= |raw|
  {
    && questions == Asked(raw[..n]) && |askedAt| == |questions|
    && (forall k :: 0 <= k < |askedAt| ==> (0 <= askedAt[k] < n && CameFrom(raw, askedAt[k], k, questions[k])))
    && (forall i :: 0 <= i < n && raw[i].MultipleChoice? ==> Rank(raw, i) < |askedAt| && askedAt[Rank(raw, i)] == i)
  }

  lemma NextAsked(raw: seq<RawQuestion>, n: int, questions: seq<Question>, askedAt: seq<int>)
    requires 0 <= n < |raw| && AskedAt(raw, n, questions, askedAt)
    ensures raw[n].MultipleChoice? ==> AskedAt(raw, n + 1, questions + [Ask(raw[n])], askedAt + [n])
    ensures !raw[n].MultipleChoice? ==> AskedAt(raw, n + 1, questions, askedAt)
  {
    assert raw[..n + 1][..n] == raw[..n];
  }

  method FindAsked(raw: seq<RawQuestion>) returns (questions: seq<Question>, askedAt: seq<int>)
    ensures AskedAt(raw, |raw|, questions, askedAt)
  {
    questions, askedAt := [], [];
    for i := 0 to |raw|
      invariant AskedAt(raw, i, questions, askedAt)
    {
      NextAsked(raw, i, questions, askedAt);
      if raw[i].MultipleChoice? {
        questions, askedAt := questions + [Ask(raw[i])], askedAt + [i];
      }
    }
  }

  /** Fills in the replies over answers that all stand as unanswered. */
  method PlaceReplies(raw: seq<RawQuestion>, questions: seq<Question>, askedAt: seq<int>, replies: seq<Reply>,
      answers: array<UserAnswer>)
    requires AskedAt(raw, |raw|, questions, askedAt) && answers.Length == |raw|
    requires forall i :: 0 <= i < |raw| ==> answers[i] == Unanswered
    modifies answers
    ensures Aligned(raw, replies, answers[..]) && Conveyed(raw, replies, answers[..])
  {
    hide Render, Rank;
    var k := 0;
    while k < |replies| && k < |askedAt|
      invariant k <= |replies| && k <= |askedAt|
      invariant forall i :: 0 <= i < |raw| ==> answers[i] == AnswerAt(raw, replies[..k], i)
    {
      var answer := QuestionAnswer(replies[k], questions[k]);
      answers[askedAt[k]] := answer;
      k := k + 1;
    }
    AlignedConveys(raw, replies, answers[..]);
  }

  /** Every question is answered at its own position; the k-th multiple-choice question by the
    * k-th reply if there is one, and all others as unanswered. */
  method AnswerQuestions(raw: seq<RawQuestion>, hook: Option<Hook>) returns (answers: seq<UserAnswer>)
    ensures Aligned(raw, Replies(raw, hook), answers)
    ensures hook.Some? && hook.value(Asked(raw)).Some? ==> Conveyed(raw, hook.value(Asked(raw)).value, answers)
    ensures hook.None? || hook.value(Asked(raw)).None? ==> forall i :: 0 <= i < |raw| ==> answers[i] == Unanswered
  {
    var filled := new UserAnswer[|raw|](i => Unanswered);
    var questions, askedAt := FindAsked(raw);
    assert raw[..|raw|] == raw;
    if |questions| == 0 {
      // Nothing to ask about.
    } else if hook.None? {
      // Nobody to ask.
    } else {
      match hook.value(questions) {
        case None =>
        case Some(replies) => PlaceReplies(raw, questions, askedAt, replies, filled);
      }
    }
    answers := filled[..];
    AlignedConveys(raw, Replies(raw, hook), answers);
    RepliesOfHook(raw, hook, answers);
  }

  /** Replies beyond the questions asked, and only those, are ignored: each of the others answers
    * exactly one question, the one asked in its place. */
  lemma RepliesUsed(raw: seq<RawQuestion>, k: nat) returns (i: nat)
    requires k < |Asked(raw)|
    ensures i < |raw| && raw[i].MultipleChoice? && Rank(raw, i) == k
    ensures Asked(raw)[k] == Question(raw[i].text, raw[i].choices, raw[i].multiSelect)
    ensures forall j :: 0 <= j < |raw| && raw[j].MultipleChoice? && Rank(raw, j) == k ==> j == i
  {
    var questions, askedAt := Positions(raw, |raw|);
    assert raw[..|raw|] == raw;
    i := askedAt[k];
  }

  function MultipleChoicesBefore(raw: seq<RawQuestion>, i: nat): set<nat>
    requires i <= |raw|
  {
    set j: nat | j < i && raw[j].MultipleChoice?
  }

  /** A question's place among those put to the hook is the number of multiple-choice ones before it. */
  lemma {:induction false} RankCounts(raw: seq<RawQuestion>, i: nat)
    requires i <= |raw|
    ensures Rank(raw, i) == |MultipleChoicesBefore(raw, i)|
  {
    if i == 0 {
      assert MultipleChoicesBefore(raw, 0) == {};
    } else {
      RankCounts(raw, i - 1);
      assert raw[..i][..i - 1] == raw[..i - 1];
      var before := MultipleChoicesBefore(raw, i - 1);
      assert MultipleChoicesBefore(raw, i) == if raw[i - 1].MultipleChoice? then before + {i - 1} else before;
    }
  }

  lemma {:induction false} Positions(raw: seq<RawQuestion>, n: nat)
    returns (questions: seq<Question>, askedAt: seq<int>)
    requires n <= |raw|
    ensures AskedAt(raw, n, questions, askedAt)
  {
    if n == 0 {
      questions, askedAt := [], [];
    } else {
      questions, askedAt := Positions(raw, n - 1);
      NextAsked(raw, n - 1, questions, askedAt);
      if raw[n - 1].MultipleChoice? {
        questions, askedAt := questions + [Ask(raw[n - 1])], askedAt + [n - 1];
      }
    }
  }
}
